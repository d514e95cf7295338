/**
 * The firmware's MQTT publisher (HixMQTT): which messages a status publish and
 * a device publish emit, in which order and with which retain flag, and the
 * two-object document sent to the InfluxDB topic.
 *
 * The base class HixMQTTBase comes from an external library outside this
 * repository. Its own publish, the client's connection state and the Wi-Fi
 * network name are not modelled; what they report at the moment of a publish
 * is passed in as a `Link` value.
 */
module HixMqtt {
  import opened Wrappers
  import HixConfig

  /** A scalar JSON value. */
  datatype Scalar = JBool(b: bool) | JInt(i: int) | JString(s: string) | JNull

  /** A JSON object, as its members in insertion order. */
  type JsonObject = seq<(string, Scalar)>

  function Keys(o: JsonObject): (ks: seq<string>)
    ensures |ks| == |o| && forall i :: 0 <= i < |o| ==> ks[i] == o[i].0
    decreases |o|
  {
    if o == [] then [] else [o[0].0] + Keys(o[1..])
  }

  /** The value of the first member named `key`, if any. */
  function Get(o: JsonObject, key: string): Option<Scalar>
    decreases |o|
  {
    if o == [] then None else if o[0].0 == key then Some(o[0].1) else Get(o[1..], key)
  }

  /** A member whose key no earlier member shares is what Get finds. */
  lemma {:induction false} GetFirst(o: JsonObject, i: nat)
    requires i < |o|
    requires forall j :: 0 <= j < i ==> o[j].0 != o[i].0
    ensures Get(o, o[i].0) == Some(o[i].1)
    decreases i
  {
    if i > 0 {
      GetFirst(o[1..], i - 1);
    }
  }

  /** The static device description the publisher is constructed with. */
  datatype DeviceInfo = DeviceInfo(deviceType: string, deviceVersion: string, deviceTag: string, room: string)

  /**
   * What the collaborators report at the moment of one publish call: whether
   * the base class's own publish succeeded, whether the client is connected,
   * and the Wi-Fi network name.
   */
  datatype Link = Link(baseOk: bool, connected: bool, wifiSsid: string)

  /** The value part of a published message. */
  datatype Payload = PBool(b: bool) | PInt(i: int) | PText(s: string) | PDocument(doc: seq<JsonObject>)

  /** One published message; `path` is the topic below the device's own prefix. */
  datatype Message = Message(path: string, payload: Payload, retained: bool)

  const DeviceAcTemperature := "device/ac_temperature"
  const StatusAcEnabled := "status/ac_enabled"
  const StatusIrReceived := "status/ir_received"
  const InfluxDb := "influxdb"

  const FieldKeys := ["ac_enabled", "ir_received"]
  const TagKeys := ["device_type", "device_version", "device_tag", "room", "wifi_ssid", "ac_temperature"]

  /** The two-object InfluxDB document: the measured fields, then the device tags. */
  function InfluxDbJson(acEnabled: bool, receivedIr: Option<string>, device: DeviceInfo,
                        wifiSsid: string, acTemperature: int): (doc: seq<JsonObject>)
    ensures |doc| == 2
    ensures Keys(doc[0]) == FieldKeys && Keys(doc[1]) == TagKeys
    ensures Get(doc[0], "ac_enabled") == Some(JBool(acEnabled))
    ensures Get(doc[0], "ir_received") == Some(if receivedIr.Some? then JString(receivedIr.value) else JNull)
    ensures Get(doc[1], "device_type") == Some(JString(device.deviceType))
    ensures Get(doc[1], "device_version") == Some(JString(device.deviceVersion))
    ensures Get(doc[1], "device_tag") == Some(JString(device.deviceTag))
    ensures Get(doc[1], "room") == Some(JString(device.room))
    ensures Get(doc[1], "wifi_ssid") == Some(JString(wifiSsid))
    ensures Get(doc[1], "ac_temperature") == Some(JInt(acTemperature))
  {
    var fields := [("ac_enabled", JBool(acEnabled)),
                   ("ir_received", if receivedIr.Some? then JString(receivedIr.value) else JNull)];
    var tags := [("device_type", JString(device.deviceType)),
                 ("device_version", JString(device.deviceVersion)),
                 ("device_tag", JString(device.deviceTag)),
                 ("room", JString(device.room)),
                 ("wifi_ssid", JString(wifiSsid)),
                 ("ac_temperature", JInt(acTemperature))];
    GetFirst(fields, 0); GetFirst(fields, 1);
    GetFirst(tags, 0); GetFirst(tags, 1); GetFirst(tags, 2);
    GetFirst(tags, 3); GetFirst(tags, 4); GetFirst(tags, 5);
    [fields, tags]
  }

  /** The messages publishDeviceValues emits of its own. */
  function DeviceMessages(link: Link, acTemperature: int): (ms: seq<Message>)
    ensures |ms| == if link.baseOk && link.connected then 1 else 0
    ensures forall m :: m in ms ==> m == Message(DeviceAcTemperature, PInt(acTemperature), true)
  {
    if !link.baseOk || !link.connected then []
    else [Message(DeviceAcTemperature, PInt(acTemperature), true)]
  }

  /** The messages publishStatusValues emits of its own. */
  function StatusMessages(link: Link, acEnabled: bool, receivedIr: Option<string>,
                          device: DeviceInfo, acTemperature: int): (ms: seq<Message>)
    ensures |ms| == if !link.baseOk || !link.connected then 0 else if receivedIr.None? then 2 else 3
    ensures forall m :: m in ms ==> !m.retained
    ensures ms != [] ==> ms[0] == Message(StatusAcEnabled, PBool(acEnabled), false)
    ensures ms != [] ==>
              ms[|ms| - 1] == Message(InfluxDb, PDocument(InfluxDbJson(acEnabled, receivedIr, device,
                                                                       link.wifiSsid, acTemperature)), false)
    ensures |ms| == 3 ==> ms[1] == Message(StatusIrReceived, PText(receivedIr.value), false)
  {
    if !link.baseOk || !link.connected then []
    else
      [Message(StatusAcEnabled, PBool(acEnabled), false)] +
      (if receivedIr.Some? then [Message(StatusIrReceived, PText(receivedIr.value), false)] else []) +
      [Message(InfluxDb, PDocument(InfluxDbJson(acEnabled, receivedIr, device, link.wifiSsid, acTemperature)), false)]
  }

  /** The publisher: a reference to the configuration and the log of what it published. */
  class Publisher {
    const config: HixConfig.Config
    const device: DeviceInfo
    var log: seq<Message>

    constructor (config: HixConfig.Config, device: DeviceInfo)
      ensures this.config == config && this.device == device && log == []
    {
      this.config := config;
      this.device := device;
      log := [];
    }

    method Publish(path: string, payload: Payload, retained: bool := false)
      modifies this
      ensures log == old(log) + [Message(path, payload, retained)]
    {
      log := log + [Message(path, payload, retained)];
    }

    method PublishDeviceValues(link: Link) returns (ok: bool)
      modifies this
      ensures ok == (link.baseOk && link.connected)
      ensures log == old(log) + DeviceMessages(link, config.acTemperature)
    {
      if !link.baseOk {
        return false;
      }
      if link.connected {
        Publish(DeviceAcTemperature, PInt(config.acTemperature), true);
        return true;
      }
      return false;
    }

    method PublishStatusValues(link: Link, acEnabled: bool, receivedIr: Option<string>) returns (ok: bool)
      modifies this
      ensures ok == (link.baseOk && link.connected)
      ensures log == old(log) + StatusMessages(link, acEnabled, receivedIr, device, config.acTemperature)
    {
      if !link.baseOk {
        return false;
      }
      if link.connected {
        Publish(StatusAcEnabled, PBool(acEnabled));
        if receivedIr.Some? {
          Publish(StatusIrReceived, PText(receivedIr.value));
        }
        Publish(InfluxDb, PDocument(InfluxDbJson(acEnabled, receivedIr, device, link.wifiSsid, config.acTemperature)));
        return true;
      }
      return false;
    }
  }
}
