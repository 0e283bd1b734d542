/** Device commands: validated by name, relayed to `cmd` and never retained. */
module Ota {
  import opened Prelude
  import opened Json
  import opened Db
  import opened MqttPub
  import Topics

  const VALID_CMDS := {"reboot", "rotate_cert", "ota_check"}

  /** `{"cmd": cmd, **params}` */
  function CmdPayload(cmd: string, params: Dict): Dict {
    map["cmd" := Str(cmd)] + params
  }

  function OptionalStr(s: Option<string>): Json {
    if s.Some? then Str(s.value) else Null
  }

  function CallbackPayload(
    firmwareId: Option<int>, url: Option<string>, checksum: Option<string>, version: Option<string>): Dict
  {
    map["cmd" := Str("ota_check"),
        "firmware_id" := if firmwareId.Some? then Int(firmwareId.value) else Null,
        "url" := OptionalStr(url), "checksum" := OptionalStr(checksum), "version" := OptionalStr(version)]
  }

  predicate Commands(payload: Dict) {
    Get(payload, "cmd").Str? && Get(payload, "cmd").s in VALID_CMDS
  }

  /** The payload carries every parameter as it is, and the command unless a parameter is named like it. */
  predicate Carries(payload: Dict, cmd: string, params: Dict) {
    && payload.Keys == params.Keys + {"cmd"}
    && (forall k | k in params :: payload[k] == params[k])
    && ("cmd" !in params ==> payload["cmd"] == Str(cmd))
  }

  /** `j` is the given text, or null for none. */
  predicate IsText(j: Json, s: Option<string>) {
    match s
    case Some(text) => j == Str(text)
    case None => j == Null
  }

  /** The payload asks for an update check and names the firmware. */
  predicate AsksForUpdate(
    payload: Dict, firmwareId: Option<int>, url: Option<string>, checksum: Option<string>, version: Option<string>)
  {
    && payload.Keys == {"cmd", "firmware_id", "url", "checksum", "version"}
    && payload["cmd"] == Str("ota_check")
    && payload["firmware_id"] == (if firmwareId.Some? then Int(firmwareId.value) else Null)
    && IsText(payload["url"], url) && IsText(payload["checksum"], checksum) && IsText(payload["version"], version)
  }

  lemma CmdCarries(cmd: string, params: Dict)
    ensures Carries(CmdPayload(cmd, params), cmd, params)
  {
  }

  lemma CallbackAsks(firmwareId: Option<int>, url: Option<string>, checksum: Option<string>, version: Option<string>)
    ensures AsksForUpdate(CallbackPayload(firmwareId, url, checksum, version), firmwareId, url, checksum, version)
  {
  }

  /** `params` is merged last, so the validated name reaches the device iff `params` leaves "cmd"
      alone or names a valid command there itself. */
  lemma CmdValidIff(cmd: string, params: Dict)
    requires cmd in VALID_CMDS
    ensures Commands(CmdPayload(cmd, params)) <==> ("cmd" in params ==> Commands(params))
    ensures Get(CmdPayload(cmd, params), "cmd") == Str(cmd) <==> ("cmd" in params ==> params["cmd"] == Str(cmd))
  {
  }

  /** A request that passes validation and still publishes an unknown command. */
  lemma CmdOverrideWitness()
    ensures "reboot" in VALID_CMDS && !Commands(CmdPayload("reboot", map["cmd" := Str("format")]))
  {
    assert CmdPayload("reboot", map["cmd" := Str("format")])["cmd"] == Str("format");
    assert "format"[0] != "reboot"[0] && "format"[0] != "rotate_cert"[0] && "format"[0] != "ota_check"[0];
  }

  method DeviceCmd(db: Database, pub: Publisher, id: string, cmd: string, params: Dict, accepted: bool)
    returns (status: int)
    modifies db, pub
    ensures db.file == old(db.file)
    ensures status == if cmd !in {"reboot", "rotate_cert", "ota_check"} then 400
                      else if id !in db.file.devices then 404 else 200
    ensures pub.queue == old(pub.queue) +
                         if status == 200 && accepted && Topics.Publishable(id)
                         then [Message("embediq/" + id + "/cmd", CmdPayload(cmd, params), false)] else []
    ensures Carries(CmdPayload(cmd, params), cmd, params)
  {
    CmdCarries(cmd, params);
    Topics.PublishableIff(id);
    Topics.TopicsSpelled(id);
    if cmd !in VALID_CMDS {
      return 400;
    }
    db.GetConnection();
    var registered := id in db.open.devices;
    db.Close();
    if !registered {
      return 404;
    }
    pub.Publish(Topics.CmdTopic(id), CmdPayload(cmd, params), false, accepted);
    status := 200;
  }

  /** The callback relays for any id, registered or not. */
  method HawkbitCallback(
    pub: Publisher, id: string, firmwareId: Option<int>, url: Option<string>, checksum: Option<string>,
    version: Option<string>, accepted: bool)
    modifies pub
    ensures pub.queue == old(pub.queue) +
                         if accepted && Topics.Publishable(id)
                         then [Message("embediq/" + id + "/cmd",
                                       CallbackPayload(firmwareId, url, checksum, version), false)]
                         else []
    ensures AsksForUpdate(CallbackPayload(firmwareId, url, checksum, version), firmwareId, url, checksum, version)
  {
    CallbackAsks(firmwareId, url, checksum, version);
    Topics.PublishableIff(id);
    Topics.TopicsSpelled(id);
    pub.Publish(Topics.CmdTopic(id), CallbackPayload(firmwareId, url, checksum, version), false, accepted);
  }
}
