# HixIRBlaster: A/C power dispatcher and MQTT status publisher

This project models the decision logic of the HixIRBlaster firmware. The firmware runs on an ESP8266 and bridges an infrared-controlled Samsung air conditioner to MQTT. The model covers two source files.

- `src/main.cpp`: the believed power state `g_bACIsOn` and the three power primitives `AC_On`, `AC_Off` and `AC_toggle`. Each primitive drives the IR transmitter while the IR receiver is switched off. The file also holds the remote-code table `handleIRCommand`, the receive poll `checkIR`, the forced-off at the end of `setup`, and the MQTT subscription handlers registered in `onConnectionEstablished`.
- `src/HixMQTT.cpp`: `publishDeviceValues` and `publishStatusValues` decide exactly which `(topic, value, retained)` messages are emitted, and in which order. `influxDBJson` builds the two-object document sent to the `influxdb` topic.

Modules:

- `IrRemote` (`ir_remote.dfy`): the IR line. The receiver and the transmitter are one `IrLine` object because they share one physical resource. Every call on it is appended to a trace of events. `NoSendWhileListening`, `ListeningAfter` and `SentFrames` read that trace. `OnSequence` and `OffSequence` are the exact call sequences of `AC_On` and `AC_Off`. The lemmas prove that any transmit window keeps the receiver-suppression property, whatever the receiver's state was before it.
- `HixConfig` (`config.dfy`): the configured A/C temperature and a count of EEPROM commits.
- `HixMqtt` (`hix_mqtt.dfy`): `Publisher` keeps a log of published messages. `DeviceMessages` and `StatusMessages` state which messages each publish emits. `InfluxDbJson` builds the document as two JSON objects, each a list of key/value members.
- `Firmware` (`firmware.dfy`): `Dispatcher` holds `acIsOn`, the IR line, the configuration and the publisher. Its methods mirror the C++ functions and handlers. Its invariant `Valid()` has five parts:
  - the publisher reads the dispatcher's own configuration, so device messages and the InfluxDB document carry the dispatcher's configured temperature;
  - no frame was ever sent while the receiver was listening;
  - the receiver's flag agrees with the trace;
  - `acIsOn` equals the power bit of the last frame sent, and is false when nothing was sent;
  - once a frame was sent, the transmitter's settings register holds exactly the settings of the last frame sent.

Collaborators outside this repository become inputs:

- What the receiver decoded is a `CheckIR` parameter.
- A `Link` value stands for three things at the time of a publish: the result of the publish of `HixMQTTBase`, an external library base class (`#include <HixMQTTBase.h>` at src/HixMQTT.h:5), `isConnected()`, and `WiFi.SSID()`.
- The MQTT payload of `ac_temperature` is taken as the already-parsed integer.

Three facts about the code that the model follows:

- Of the subscription handlers, only `ac_on`, `ac_off` and `ac_toggle` publish status. An IR-triggered transition or a temperature change does not.
- `send_raw_ir` changes nothing and returns nothing.
- The IR string passed to `publishStatusValues` is always null at all four call sites (src/main.cpp:215, 230, 236 and 242), so `status/ir_received` is never emitted in practice. The publisher still models that branch.

## Model

| member | source | states |
|---|---|---|
| `IrRemote.OnSequence` | src/main.cpp:82-91 | AC_On's calls on the IR line form a transmit window: receiver off first, receiver on last, in between on, fan auto, mode auto, the temperature, swing on, then exactly one frame carrying exactly those settings |
| `IrRemote.OffSequence` | src/main.cpp:100-105 | AC_Off's calls form a transmit window that sends exactly one frame, with the power bit cleared |
| `IrRemote.TransmitWindowIsSuppressed` | src/main.cpp:81-91 | from any receiver state, a transmit window sends nothing while the receiver listens and leaves the receiver listening |
| `IrRemote.SuppressionAppend` | src/main.cpp:82-105 | "no send while listening" holds of a concatenation iff it holds of the first part and of the second part, started from the receiver state the first part leaves |
| `IrRemote.AppendTransmitWindow` | src/main.cpp:77-108 | appending a primitive's transmit window to a suppression-respecting trace keeps it suppression-respecting, re-enables the receiver and adds exactly its one frame to the frames sent |
| `IrRemote.SentFramesAppend` | src/main.cpp:89 | the frames sent by a concatenated trace are those of the first part followed by those of the second |
| `IrRemote.IrLine.constructor` | src/main.cpp:26-27 | the receiver starts switched off, the transmitter holds the given initial settings, and nothing has happened on the line |
| `IrRemote.IrLine.DisableIRIn` | src/main.cpp:82 | the receiver stops listening; the settings are unchanged; one ReceiverDisabled event is recorded |
| `IrRemote.IrLine.EnableIRIn` | src/main.cpp:91 | the receiver listens again; the settings are unchanged; one ReceiverEnabled event is recorded |
| `IrRemote.IrLine.On` | src/main.cpp:84 | only the power bit of the settings changes, to on; the receiver is untouched; the call is recorded |
| `IrRemote.IrLine.Off` | src/main.cpp:102 | only the power bit of the settings changes, to off; the receiver is untouched; the call is recorded |
| `IrRemote.IrLine.SetFanSpeed` | src/main.cpp:85 | only the fan setting changes, to the given speed; the receiver is untouched; the call is recorded |
| `IrRemote.IrLine.SetOperatingMode` | src/main.cpp:86 | only the mode setting changes, to the given mode; the receiver is untouched; the call is recorded |
| `IrRemote.IrLine.SetTemperature` | src/main.cpp:87 | only the temperature setting changes, to the given value; the receiver is untouched; the call is recorded |
| `IrRemote.IrLine.SetSwinging` | src/main.cpp:88 | only the swing setting changes, to the given flag; the receiver is untouched; the call is recorded |
| `IrRemote.IrLine.Send` | src/main.cpp:89 | a send transmits one frame carrying the transmitter's current settings and changes nothing else |
| `HixConfig.Config.constructor` | src/main.cpp:15 | the configuration starts with the given (stored) temperature and no commits |
| `HixConfig.Config.SetACTemperature` | src/main.cpp:219 | the configured temperature becomes the given value; no commit happens |
| `HixConfig.Config.CommitToEEPROM` | src/main.cpp:220 | the commit count grows by one; the temperature is unchanged |
| `HixMqtt.InfluxDbJson` | src/HixMQTT.cpp:52-74 | exactly two objects: fields with keys ac_enabled, ir_received (null when there is no IR string); tags with keys device_type, device_version, device_tag, room, wifi_ssid, ac_temperature, whose values are the device description, the network name and the configured temperature |
| `HixMqtt.GetFirst` | src/HixMQTT.cpp:57-68 | a member whose key no earlier member shares is what a lookup of that key finds |
| `HixMqtt.DeviceMessages` | src/HixMQTT.cpp:16-28 | no message when the base publish fails or the client is disconnected; otherwise exactly one, device/ac_temperature = the configured temperature, retained |
| `HixMqtt.StatusMessages` | src/HixMQTT.cpp:30-50 | no message when the base publish fails or the client is disconnected; otherwise 2 messages without an IR string and 3 with one, none retained: status/ac_enabled first, status/ir_received second only with an IR string, the InfluxDB document last |
| `HixMqtt.Publisher.constructor` | src/HixMQTT.cpp:5-14 | the publisher refers to the given configuration and device description and has published nothing |
| `HixMqtt.Publisher.Publish` | src/HixMQTT.cpp:22 | one publish appends exactly one message with the given path, value and retain flag (false by default) to the log |
| `HixMqtt.Publisher.PublishDeviceValues` | src/HixMQTT.cpp:16-28 | returns true iff the base publish succeeded and the client is connected; appends exactly DeviceMessages to the log and changes nothing else |
| `HixMqtt.Publisher.PublishStatusValues` | src/HixMQTT.cpp:30-50 | returns true iff the base publish succeeded and the client is connected; appends exactly StatusMessages to the log and changes nothing else |
| `Firmware.PowerAfterCode` | src/main.cpp:117-133 | after a received code the A/C is believed on iff the code is play, off iff it is pause, and unchanged for any other code |
| `Firmware.IrResponse` | src/main.cpp:117-133 | a received code sends a frame iff it is the play or the pause code; play sends the on-frame at 28 degrees, pause sends the off-frame |
| `Firmware.Dispatcher.constructor` | src/main.cpp:14-29 | the global objects start with the A/C believed off, nothing sent, the receiver not yet enabled and nothing published |
| `Firmware.Dispatcher.AcOn` | src/main.cpp:77-94 | acIsOn becomes true, the receiver ends enabled, the trace grows by exactly the on-sequence, and exactly one frame is added: power on, fan auto, mode auto, the temperature, swing on |
| `Firmware.Dispatcher.AcOff` | src/main.cpp:97-108 | acIsOn becomes false, the receiver ends enabled, the trace grows by exactly the off-sequence, and exactly one frame with power off is added |
| `Firmware.Dispatcher.AcToggle` | src/main.cpp:110-115 | acIsOn is negated; starting from on it runs the off-sequence and the settings become the off-frame, starting from off the on-sequence with the given temperature and the settings become that on-frame; exactly one frame is added |
| `Firmware.Dispatcher.HandleIRCommand` | src/main.cpp:117-133 | returns true iff the code is play or pause; a handled code leaves the receiver enabled and adds exactly the code's one frame; play acts as AC_On(28) and leaves the on-frame at 28 in the settings, pause acts as AC_Off() and leaves the off-frame; any other code changes nothing |
| `Firmware.Dispatcher.CheckIR` | src/main.cpp:135-149 | without a decode it returns false and changes nothing; with a decode its result, trace and settings are those of HandleIRCommand on the value, whatever the overflow flag; an unhandled code changes nothing |
| `Firmware.Dispatcher.Setup` | src/main.cpp:176-184 | the receiver is enabled and then AC_Off runs, so setup ends with acIsOn false, the receiver enabled and the off-frame in the settings |
| `Firmware.Dispatcher.OnConnectionEstablished` | src/main.cpp:213-215 | the log grows by the device messages and then by the status messages with ac_enabled false and no IR string, whatever acIsOn is |
| `Firmware.Dispatcher.OnAcTemperature` | src/main.cpp:218-225 | the configured temperature becomes the payload; exactly one commit; the log grows by the device messages carrying the new temperature; when on, the on-sequence at the new temperature is sent and the settings become that on-frame; when off, the IR line is untouched and acIsOn stays false |
| `Firmware.Dispatcher.OnAcOn` | src/main.cpp:228-231 | AC_On at the configured temperature, leaving that on-frame in the settings, then one status publish with ac_enabled true and no IR string |
| `Firmware.Dispatcher.OnAcOff` | src/main.cpp:234-237 | AC_Off, leaving the off-frame in the settings, then one status publish with ac_enabled false and no IR string |
| `Firmware.Dispatcher.OnAcToggle` | src/main.cpp:240-243 | AC_toggle at the configured temperature, with the settings stated as for AcToggle, then one status publish carrying the new acIsOn and no IR string |
| `Firmware.Dispatcher.OnSendRawIr` | src/main.cpp:246-248 | changes no state and sends nothing |
| `Firmware.ToggleTwice` | src/main.cpp:110-115 | two toggles restore acIsOn and send exactly two frames |

## Left out

- Serial logging, `printACState`, `resetWithMessage` with its delay and reset, `configureOTA` and the OTA handlers, `WiFi.disconnect`, SPIFFS, the web server and the rest of `setup`: I/O and bootstrap plumbing. `Setup` models only the receiver enable and the final forced off.
- `loop()` and the MQTT callback delivery: each subscription handler is a directly callable method, and `subscribe`/`topicForPath` are not modelled. Messages carry the topic path below the device prefix, because the prefix comes from the external `HixMQTTBase` library.
- `HixMQTTBase`: an external library outside this repository; its own publishes and its internals are not modelled. Its result, `isConnected()` and `WiFi.SSID()` are inputs in `Link`, and the log holds only the messages `HixMQTT` itself emits.
- Serialising the InfluxDB document to text, and the 500-byte capacity of `DynamicJsonDocument`: the document is kept as structured values.
- `String::toInt` on the `ac_temperature` payload: the payload is taken as already parsed.
- `HixConfig` EEPROM persistence and its other settings: the model keeps a temperature field and a commit counter.
- IRremoteESP8266 internals: bit timing, `resultToHexidecimal`, `toString`, `setUnknownThreshold`, and the other fields of the Samsung state register. The `Fan` and `Mode` enumerations stand for the library's constants; the firmware only ever uses their Auto values.
- IrRemote.IrLine.SetTemperature: records the requested temperature as given; the clamping of the set-point to the appliance's range happens inside the external IRremoteESP8266 library, outside this repository, so the modelled frame carries the unclamped value.
- Concurrency: the firmware is single-threaded and run-to-completion, so every handler is one atomic method call.
