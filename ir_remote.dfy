/**
 * The shared infrared line: the IR receiver (which can be switched off so that
 * it does not hear the firmware's own frames) and the Samsung A/C transmitter
 * (a settings register filled in by setter calls and then sent as one frame).
 * Both sit on one timeline, recorded as a trace of events, so that the order
 * of "disable receiver", "send" and "enable receiver" can be stated.
 */
module IrRemote {

  /** Operating modes of the Samsung A/C protocol; the firmware selects only ModeAuto. */
  datatype Mode = ModeAuto | ModeCool | ModeDry | ModeFan | ModeHeat

  /** Fan speeds of the Samsung A/C protocol; the firmware selects only FanAuto. */
  datatype Fan = FanAuto | FanLow | FanMed | FanHigh | FanTurbo

  /** The transmitter's settings register: what the next frame will carry. */
  datatype AcSettings = AcSettings(power: bool, fan: Fan, mode: Mode, temperature: int, swing: bool)

  /** One thing that happened on the IR line. */
  datatype IrEvent =
    | ReceiverDisabled
    | ReceiverEnabled
    | SetPower(on: bool)
    | SetFan(fan: Fan)
    | SetMode(mode: Mode)
    | SetTemp(temperature: int)
    | SetSwing(swing: bool)
    | Sent(frame: AcSettings)

  predicate IsReceiverEvent(e: IrEvent) {
    e.ReceiverDisabled? || e.ReceiverEnabled?
  }

  /** Whether the receiver is listening after event `e`, given whether it was before. */
  function ListeningAfterEvent(listening: bool, e: IrEvent): bool {
    match e
    case ReceiverDisabled => false
    case ReceiverEnabled => true
    case _ => listening
  }

  /** Whether the receiver is listening after the whole trace `t`. */
  function ListeningAfter(listening: bool, t: seq<IrEvent>): bool
    decreases |t|
  {
    if t == [] then listening else ListeningAfter(ListeningAfterEvent(listening, t[0]), t[1..])
  }

  /** No frame of `t` is sent while the receiver is listening. */
  predicate NoSendWhileListening(listening: bool, t: seq<IrEvent>)
    decreases |t|
  {
    t == [] ||
    ((!t[0].Sent? || !listening) && NoSendWhileListening(ListeningAfterEvent(listening, t[0]), t[1..]))
  }

  /** The frames sent in `t`, in order. */
  function SentFrames(t: seq<IrEvent>): (frames: seq<AcSettings>)
    ensures |frames| <= |t|
    ensures forall f :: f in frames ==> Sent(f) in t
    decreases |t|
  {
    if t == [] then []
    else (if t[0].Sent? then [t[0].frame] else []) + SentFrames(t[1..])
  }

  /** The power bit of the last frame sent in `t`; false when nothing was sent. */
  function LastSentPower(t: seq<IrEvent>): bool {
    var frames := SentFrames(t);
    frames != [] && frames[|frames| - 1].power
  }

  /**
   * A transmit window: the receiver is switched off first, switched on last,
   * and not touched in between.
   */
  predicate TransmitWindow(w: seq<IrEvent>) {
    |w| >= 2 && w[0] == ReceiverDisabled && w[|w| - 1] == ReceiverEnabled &&
    forall i :: 0 < i < |w| - 1 ==> !IsReceiverEvent(w[i])
  }

  /** The frame AC_On sends: on, fan auto, mode auto, the given temperature, swing on. */
  function OnFrame(temperature: int): AcSettings {
    AcSettings(true, FanAuto, ModeAuto, temperature, true)
  }

  /** The frame AC_Off sends: the previous settings with the power bit cleared. */
  function OffFrame(before: AcSettings): AcSettings {
    before.(power := false)
  }

  /** What AC_On(temperature) does on the IR line, in order. */
  function OnSequence(temperature: int): (w: seq<IrEvent>)
    ensures TransmitWindow(w)
    ensures SentFrames(w) == [OnFrame(temperature)]
    ensures w[1..|w| - 2] == [SetPower(true), SetFan(FanAuto), SetMode(ModeAuto), SetTemp(temperature), SetSwing(true)]
  {
    var setters := [ReceiverDisabled, SetPower(true), SetFan(FanAuto), SetMode(ModeAuto),
                    SetTemp(temperature), SetSwing(true)];
    SingleFrame(setters, OnFrame(temperature), [ReceiverEnabled]);
    setters + [Sent(OnFrame(temperature))] + [ReceiverEnabled]
  }

  /** What AC_Off() does on the IR line, given the transmitter's settings before. */
  function OffSequence(before: AcSettings): (w: seq<IrEvent>)
    ensures TransmitWindow(w)
    ensures SentFrames(w) == [OffFrame(before)]
    ensures w[1..|w| - 2] == [SetPower(false)]
    ensures !OffFrame(before).power
  {
    SingleFrame([ReceiverDisabled, SetPower(false)], OffFrame(before), [ReceiverEnabled]);
    [ReceiverDisabled, SetPower(false)] + [Sent(OffFrame(before))] + [ReceiverEnabled]
  }

  lemma {:induction false} SentFramesAppend(t1: seq<IrEvent>, t2: seq<IrEvent>)
    ensures SentFrames(t1 + t2) == SentFrames(t1) + SentFrames(t2)
    decreases |t1|
  {
    if t1 == [] {
      assert t1 + t2 == t2;
    } else {
      assert (t1 + t2)[0] == t1[0];
      assert (t1 + t2)[1..] == t1[1..] + t2;
      SentFramesAppend(t1[1..], t2);
    }
  }

  lemma {:induction false} NoFrames(t: seq<IrEvent>)
    requires forall i :: 0 <= i < |t| ==> !t[i].Sent?
    ensures SentFrames(t) == []
    decreases |t|
  {
    if t != [] {
      NoFrames(t[1..]);
    }
  }

  /** A trace with exactly one Sent event sends exactly that frame. */
  lemma SingleFrame(before: seq<IrEvent>, f: AcSettings, after: seq<IrEvent>)
    requires forall i :: 0 <= i < |before| ==> !before[i].Sent?
    requires forall i :: 0 <= i < |after| ==> !after[i].Sent?
    ensures SentFrames(before + [Sent(f)] + after) == [f]
  {
    NoFrames(before);
    NoFrames(after);
    SentFramesAppend(before, [Sent(f)]);
    SentFramesAppend(before + [Sent(f)], after);
  }

  /** The receiver-suppression property splits at any point of a trace. */
  lemma {:induction false} SuppressionAppend(listening: bool, t1: seq<IrEvent>, t2: seq<IrEvent>)
    ensures NoSendWhileListening(listening, t1 + t2) <==>
            NoSendWhileListening(listening, t1) && NoSendWhileListening(ListeningAfter(listening, t1), t2)
    ensures ListeningAfter(listening, t1 + t2) == ListeningAfter(ListeningAfter(listening, t1), t2)
    decreases |t1|
  {
    if t1 == [] {
      assert t1 + t2 == t2;
    } else {
      assert (t1 + t2)[0] == t1[0];
      assert (t1 + t2)[1..] == t1[1..] + t2;
      SuppressionAppend(ListeningAfterEvent(listening, t1[0]), t1[1..], t2);
    }
  }

  /** A stretch that leaves the receiver alone keeps a switched-off receiver switched off. */
  lemma {:induction false} QuietStretch(t: seq<IrEvent>)
    requires forall i :: 0 <= i < |t| ==> !IsReceiverEvent(t[i])
    ensures NoSendWhileListening(false, t) && !ListeningAfter(false, t)
    decreases |t|
  {
    if t != [] {
      QuietStretch(t[1..]);
    }
  }

  /**
   * Whatever the receiver's state before it, a transmit window sends nothing
   * while the receiver listens, and leaves the receiver listening.
   */
  lemma TransmitWindowIsSuppressed(listening: bool, w: seq<IrEvent>)
    requires TransmitWindow(w)
    ensures NoSendWhileListening(listening, w) && ListeningAfter(listening, w)
  {
    var middle := w[1..|w| - 1];
    assert w == [w[0]] + middle + [w[|w| - 1]];
    QuietStretch(middle);
    SuppressionAppend(listening, [w[0]], middle);
    SuppressionAppend(listening, [w[0]] + middle, [w[|w| - 1]]);
  }

  /**
   * Appending a transmit window that sends frame `f` to a trace in which
   * nothing was sent while listening keeps that so, leaves the receiver
   * listening, and makes `f` the last frame sent.
   */
  lemma AppendTransmitWindow(t: seq<IrEvent>, w: seq<IrEvent>, f: AcSettings)
    requires NoSendWhileListening(false, t)
    requires TransmitWindow(w) && SentFrames(w) == [f]
    ensures NoSendWhileListening(false, t + w) && ListeningAfter(false, t + w)
    ensures SentFrames(t + w) == SentFrames(t) + [f]
    ensures LastSentPower(t + w) == f.power
  {
    TransmitWindowIsSuppressed(ListeningAfter(false, t), w);
    SuppressionAppend(false, t, w);
    SentFramesAppend(t, w);
  }

  /**
   * The IR receiver and the transmitter on one line, with the trace of what
   * was done to them.
   */
  class IrLine {
    var receiverEnabled: bool
    var settings: AcSettings
    var trace: seq<IrEvent>

    /** The receiver is constructed switched off; the transmitter holds `initial`. */
    constructor (initial: AcSettings)
      ensures !receiverEnabled && settings == initial && trace == []
    {
      receiverEnabled := false;
      settings := initial;
      trace := [];
    }

    method DisableIRIn()
      modifies this
      ensures !receiverEnabled && settings == old(settings)
      ensures trace == old(trace) + [ReceiverDisabled]
    {
      receiverEnabled := false;
      trace := trace + [ReceiverDisabled];
    }

    method EnableIRIn()
      modifies this
      ensures receiverEnabled && settings == old(settings)
      ensures trace == old(trace) + [ReceiverEnabled]
    {
      receiverEnabled := true;
      trace := trace + [ReceiverEnabled];
    }

    method On()
      modifies this
      ensures receiverEnabled == old(receiverEnabled) && settings == old(settings).(power := true)
      ensures trace == old(trace) + [SetPower(true)]
    {
      settings := settings.(power := true);
      trace := trace + [SetPower(true)];
    }

    method Off()
      modifies this
      ensures receiverEnabled == old(receiverEnabled) && settings == old(settings).(power := false)
      ensures trace == old(trace) + [SetPower(false)]
    {
      settings := settings.(power := false);
      trace := trace + [SetPower(false)];
    }

    method SetFanSpeed(fan: Fan)
      modifies this
      ensures receiverEnabled == old(receiverEnabled) && settings == old(settings).(fan := fan)
      ensures trace == old(trace) + [SetFan(fan)]
    {
      settings := settings.(fan := fan);
      trace := trace + [SetFan(fan)];
    }

    method SetOperatingMode(mode: Mode)
      modifies this
      ensures receiverEnabled == old(receiverEnabled) && settings == old(settings).(mode := mode)
      ensures trace == old(trace) + [SetMode(mode)]
    {
      settings := settings.(mode := mode);
      trace := trace + [SetMode(mode)];
    }

    method SetTemperature(temperature: int)
      modifies this
      ensures receiverEnabled == old(receiverEnabled) && settings == old(settings).(temperature := temperature)
      ensures trace == old(trace) + [SetTemp(temperature)]
    {
      settings := settings.(temperature := temperature);
      trace := trace + [SetTemp(temperature)];
    }

    method SetSwinging(swing: bool)
      modifies this
      ensures receiverEnabled == old(receiverEnabled) && settings == old(settings).(swing := swing)
      ensures trace == old(trace) + [SetSwing(swing)]
    {
      settings := settings.(swing := swing);
      trace := trace + [SetSwing(swing)];
    }

    /** Transmits one frame carrying the current settings. */
    method Send()
      modifies this
      ensures receiverEnabled == old(receiverEnabled) && settings == old(settings)
      ensures trace == old(trace) + [Sent(settings)]
    {
      trace := trace + [Sent(settings)];
    }
  }
}
