/**
 * The firmware's command dispatcher: the believed power state of the A/C, the
 * three power primitives that drive the IR transmitter with the receiver
 * switched off, the IR remote-code table, the receive poll, the start-up
 * forced off, and the MQTT subscription handlers.
 */
module Firmware {
  import opened Wrappers
  import opened IrRemote
  import opened HixMqtt
  import HixConfig

  /** The width of `decode_results.value`. */
  newtype UInt64 = x: int | 0 <= x < 0x1_0000_0000_0000_0000

  /** What one receive poll captured: the decoded code and whether the capture buffer overflowed. */
  datatype DecodeResults = DecodeResults(value: UInt64, overflow: bool)

  /** Remote codes (of a Telenet set-top box remote) the firmware reacts to. */
  const PlayButton: UInt64 := 0x48C6EAFF
  const PauseButton: UInt64 := 0xAA33049
  /** The set-point the play button switches the A/C on at. */
  const PlayTemperature := 28

  predicate IsRemoteCode(value: UInt64) {
    value == PlayButton || value == PauseButton
  }

  /** What a received code does on the IR line, given the transmitter's settings before. */
  function IrResponse(value: UInt64, before: AcSettings): (w: seq<IrEvent>)
    ensures IsRemoteCode(value) <==> SentFrames(w) != []
    ensures value == PlayButton ==> SentFrames(w) == [OnFrame(PlayTemperature)]
    ensures value == PauseButton ==> SentFrames(w) == [OffFrame(before)]
  {
    if value == PlayButton then OnSequence(PlayTemperature)
    else if value == PauseButton then OffSequence(before)
    else []
  }

  /** The power state after a received code, given the power state before. */
  function PowerAfterCode(value: UInt64, acIsOn: bool): (on: bool)
    ensures IsRemoteCode(value) ==> (on <==> value == PlayButton)
    ensures !IsRemoteCode(value) ==> on == acIsOn
  {
    if value == PlayButton then true else if value == PauseButton then false else acIsOn
  }

  class Dispatcher {
    const config: HixConfig.Config
    const mqtt: Publisher
    const ir: IrLine
    /** Whether the firmware believes the A/C is on. */
    var acIsOn: bool

    /**
     * The publisher reads this dispatcher's configuration; no frame was ever
     * sent while the receiver was listening; the receiver's flag agrees with
     * the trace; the believed power state is the power bit of the last
     * frame sent (off when none was); and once a frame was sent, the
     * transmitter's settings are those of the last frame sent.
     */
    ghost predicate Valid()
      reads this, ir, mqtt
    {
      mqtt.config == config &&
      NoSendWhileListening(false, ir.trace) &&
      ListeningAfter(false, ir.trace) == ir.receiverEnabled &&
      acIsOn == LastSentPower(ir.trace) &&
      (SentFrames(ir.trace) != [] ==> ir.settings == SentFrames(ir.trace)[|SentFrames(ir.trace)| - 1])
    }

    /** The firmware's global objects as constructed before setup runs. */
    constructor (initial: AcSettings, temperature: int, device: DeviceInfo)
      ensures Valid() && !acIsOn
      ensures fresh(config) && fresh(mqtt) && fresh(ir)
      ensures config.acTemperature == temperature && config.commits == 0
      ensures mqtt.device == device && mqtt.log == []
      ensures ir.settings == initial && ir.trace == [] && !ir.receiverEnabled
    {
      var c := new HixConfig.Config(temperature);
      config := c;
      mqtt := new Publisher(c, device);
      ir := new IrLine(initial);
      acIsOn := false;
    }

    method AcOn(temperature: int)
      requires Valid()
      modifies this, ir
      ensures Valid()
      ensures acIsOn && ir.receiverEnabled
      ensures ir.settings == OnFrame(temperature)
      ensures ir.trace == old(ir.trace) + OnSequence(temperature)
      ensures SentFrames(ir.trace) == SentFrames(old(ir.trace)) + [OnFrame(temperature)]
    {
      ir.DisableIRIn();
      ir.On();
      ir.SetFanSpeed(FanAuto);
      ir.SetOperatingMode(ModeAuto);
      ir.SetTemperature(temperature);
      ir.SetSwinging(true);
      ir.Send();
      ir.EnableIRIn();
      acIsOn := true;
      assert ir.trace == old(ir.trace) + OnSequence(temperature);
      AppendTransmitWindow(old(ir.trace), OnSequence(temperature), OnFrame(temperature));
    }

    method AcOff()
      requires Valid()
      modifies this, ir
      ensures Valid()
      ensures !acIsOn && ir.receiverEnabled
      ensures ir.settings == OffFrame(old(ir.settings))
      ensures ir.trace == old(ir.trace) + OffSequence(old(ir.settings))
      ensures SentFrames(ir.trace) == SentFrames(old(ir.trace)) + [OffFrame(old(ir.settings))]
    {
      ir.DisableIRIn();
      ir.Off();
      ir.Send();
      ir.EnableIRIn();
      acIsOn := false;
      assert ir.trace == old(ir.trace) + OffSequence(old(ir.settings));
      AppendTransmitWindow(old(ir.trace), OffSequence(old(ir.settings)), OffFrame(old(ir.settings)));
    }

    method AcToggle(temperature: int)
      requires Valid()
      modifies this, ir
      ensures Valid()
      ensures acIsOn == !old(acIsOn) && ir.receiverEnabled
      ensures ir.settings == if old(acIsOn) then OffFrame(old(ir.settings)) else OnFrame(temperature)
      ensures old(acIsOn) ==> ir.trace == old(ir.trace) + OffSequence(old(ir.settings))
      ensures !old(acIsOn) ==> ir.trace == old(ir.trace) + OnSequence(temperature)
      ensures SentFrames(ir.trace) == SentFrames(old(ir.trace)) +
                                      [if old(acIsOn) then OffFrame(old(ir.settings)) else OnFrame(temperature)]
    {
      if acIsOn {
        AcOff();
      } else {
        AcOn(temperature);
      }
    }

    method HandleIRCommand(results: DecodeResults) returns (handled: bool)
      requires Valid()
      modifies this, ir
      ensures Valid()
      ensures handled == IsRemoteCode(results.value)
      ensures acIsOn == PowerAfterCode(results.value, old(acIsOn))
      ensures ir.trace == old(ir.trace) + IrResponse(results.value, old(ir.settings))
      ensures handled ==> ir.receiverEnabled
      ensures handled ==> SentFrames(ir.trace) == SentFrames(old(ir.trace)) + SentFrames(IrResponse(results.value, old(ir.settings)))
      ensures results.value == PlayButton ==> ir.settings == OnFrame(PlayTemperature)
      ensures results.value == PauseButton ==> ir.settings == OffFrame(old(ir.settings))
      ensures !handled ==> unchanged(this, ir)
    {
      if results.value == PlayButton {
        AcOn(PlayTemperature);
        return true;
      } else if results.value == PauseButton {
        AcOff();
        return true;
      }
      return false;
    }

    /**
     * One receive poll; `capture` is what the receiver's decode reported
     * (None when nothing was decoded). An overflowed capture is still
     * dispatched.
     */
    method CheckIR(capture: Option<DecodeResults>) returns (handled: bool)
      requires Valid()
      modifies this, ir
      ensures Valid()
      ensures capture.None? ==> !handled && unchanged(this, ir)
      ensures capture.Some? ==> handled == IsRemoteCode(capture.value.value)
      ensures capture.Some? ==> acIsOn == PowerAfterCode(capture.value.value, old(acIsOn))
      ensures capture.Some? ==> ir.trace == old(ir.trace) + IrResponse(capture.value.value, old(ir.settings))
      ensures handled ==> ir.receiverEnabled
      ensures handled ==> SentFrames(ir.trace) == SentFrames(old(ir.trace)) + SentFrames(IrResponse(capture.value.value, old(ir.settings)))
      ensures capture.Some? && capture.value.value == PlayButton ==> ir.settings == OnFrame(PlayTemperature)
      ensures capture.Some? && capture.value.value == PauseButton ==> ir.settings == OffFrame(old(ir.settings))
      ensures !handled ==> unchanged(this, ir)
    {
      if capture.Some? {
        handled := HandleIRCommand(capture.value);
        return handled;
      }
      return false;
    }

    /** The part of setup that concerns the IR line: enable the receiver, then force the A/C off. */
    method Setup()
      requires Valid()
      modifies this, ir
      ensures Valid()
      ensures !acIsOn && ir.receiverEnabled
      ensures ir.settings == OffFrame(old(ir.settings))
      ensures ir.trace == old(ir.trace) + [ReceiverEnabled] + OffSequence(old(ir.settings))
    {
      ir.EnableIRIn();
      SuppressionAppend(false, old(ir.trace), [ReceiverEnabled]);
      SentFramesAppend(old(ir.trace), [ReceiverEnabled]);
      AcOff();
    }

    /** Runs once per (re)connection: device values, then status with the A/C reported off. */
    method OnConnectionEstablished(deviceLink: Link, statusLink: Link)
      requires Valid()
      modifies mqtt
      ensures Valid()
      ensures mqtt.log == old(mqtt.log) + DeviceMessages(deviceLink, config.acTemperature) +
                          StatusMessages(statusLink, false, None, mqtt.device, config.acTemperature)
    {
      var deviceOk := mqtt.PublishDeviceValues(deviceLink);
      var statusOk := mqtt.PublishStatusValues(statusLink, false, None);
    }

    /** Handler of subscribe/ac_temperature; `payload` is the already parsed integer. */
    method OnAcTemperature(payload: int, link: Link)
      requires Valid()
      modifies this, ir, config, mqtt
      ensures Valid()
      ensures config.acTemperature == payload && config.commits == old(config.commits) + 1
      ensures mqtt.log == old(mqtt.log) + DeviceMessages(link, payload)
      ensures acIsOn == old(acIsOn)
      ensures old(acIsOn) ==> ir.trace == old(ir.trace) + OnSequence(payload) && ir.receiverEnabled
      ensures old(acIsOn) ==> ir.settings == OnFrame(payload)
      ensures !old(acIsOn) ==> unchanged(ir)
    {
      config.SetACTemperature(payload);
      config.CommitToEEPROM();
      var ok := mqtt.PublishDeviceValues(link);
      if acIsOn {
        AcOn(config.acTemperature);
      }
    }

    /** Handler of subscribe/ac_on. */
    method OnAcOn(link: Link)
      requires Valid()
      modifies this, ir, mqtt
      ensures Valid()
      ensures acIsOn && ir.receiverEnabled
      ensures ir.settings == OnFrame(config.acTemperature)
      ensures ir.trace == old(ir.trace) + OnSequence(config.acTemperature)
      ensures mqtt.log == old(mqtt.log) + StatusMessages(link, true, None, mqtt.device, config.acTemperature)
    {
      AcOn(config.acTemperature);
      var ok := mqtt.PublishStatusValues(link, acIsOn, None);
    }

    /** Handler of subscribe/ac_off. */
    method OnAcOff(link: Link)
      requires Valid()
      modifies this, ir, mqtt
      ensures Valid()
      ensures !acIsOn && ir.receiverEnabled
      ensures ir.settings == OffFrame(old(ir.settings))
      ensures ir.trace == old(ir.trace) + OffSequence(old(ir.settings))
      ensures mqtt.log == old(mqtt.log) + StatusMessages(link, false, None, mqtt.device, config.acTemperature)
    {
      AcOff();
      var ok := mqtt.PublishStatusValues(link, acIsOn, None);
    }

    /** Handler of subscribe/ac_toggle. */
    method OnAcToggle(link: Link)
      requires Valid()
      modifies this, ir, mqtt
      ensures Valid()
      ensures acIsOn == !old(acIsOn) && ir.receiverEnabled
      ensures ir.settings == if old(acIsOn) then OffFrame(old(ir.settings)) else OnFrame(config.acTemperature)
      ensures old(acIsOn) ==> ir.trace == old(ir.trace) + OffSequence(old(ir.settings))
      ensures !old(acIsOn) ==> ir.trace == old(ir.trace) + OnSequence(config.acTemperature)
      ensures mqtt.log == old(mqtt.log) + StatusMessages(link, acIsOn, None, mqtt.device, config.acTemperature)
    {
      AcToggle(config.acTemperature);
      var ok := mqtt.PublishStatusValues(link, acIsOn, None);
    }

    /** Handler of subscribe/send_raw_ir: not implemented; it only logs. */
    method OnSendRawIr(payload: string)
      ensures unchanged(this, ir, config, mqtt)
    {
    }
  }

  /** Two toggles restore the believed power state and send two frames. */
  method ToggleTwice(d: Dispatcher, temperature: int)
    requires d.Valid()
    modifies d, d.ir
    ensures d.Valid() && d.acIsOn == old(d.acIsOn)
    ensures |SentFrames(d.ir.trace)| == |SentFrames(old(d.ir.trace))| + 2
  {
    d.AcToggle(temperature);
    d.AcToggle(temperature);
  }
}
