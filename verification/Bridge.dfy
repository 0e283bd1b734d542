/** The consumer-only MQTT bridge: routes device messages to the tables and the backends. */
module Bridge {
  import opened Prelude
  import opened Json
  import opened Db
  import opened Topics

  /** What `json.loads` makes of the payload bytes. */
  datatype Payload = Malformed | Parsed(j: Json)

  /** Calls out of the bridge; text conversion of the values is left to the receiver. */
  datatype Effect =
    | InfluxWrite(id: string, ts: Json, metrics: Dict)
    | LokiPush(id: string, level: Json, message: Json)
    | MarkFinished(id: string)
    | MarkFailed(id: string, reason: Json)

  datatype Outcome = Outcome(tables: Tables, effects: seq<Effect>)

  /** Binding a value to a SQL parameter: containers are refused by the driver as an SQL error,
      integers beyond 64 bits raise an exception that is none. */
  datatype Verdict = Applied | SqlError | Escaped

  function Binding(j: Json): Verdict {
    match j
    case Arr(_) => SqlError
    case Obj(_) => SqlError
    case Int(n) => if -0x8000_0000_0000_0000 <= n < 0x8000_0000_0000_0000 then Applied else Escaped
    case _ => Applied
  }

  function OnlineFlag(data: Dict): int {
    if Truthy(Get(data, "online")) then 1 else 0
  }

  predicate Installs(data: Dict) {
    Get(data, "ota_status") == Str("installed") && Get(data, "version") != Null
  }

  /** The version a status message leaves behind: an installed `version` beats `firmware_version`. */
  function EffectiveVersion(data: Dict): Json {
    if Installs(data) then Get(data, "version") else Get(data, "firmware_version")
  }

  /** Every value of the message can be bound. */
  predicate Bindable(data: Dict) {
    && Binding(Get(data, "ip_address")) == Applied
    && Binding(Get(data, "firmware_version")) == Applied
    && (Installs(data) ==> Binding(Get(data, "version")) == Applied)
  }

  function StatusVerdict(t: Tables, id: string, data: Dict): Verdict {
    if Binding(Get(data, "ip_address")) != Applied then Binding(Get(data, "ip_address"))
    else if Binding(Get(data, "firmware_version")) != Applied then Binding(Get(data, "firmware_version"))
    else if id !in t.devices then SqlError
    else if Installs(data) then Binding(Get(data, "version"))
    else Applied
  }

  function StateOf(t: Tables, id: string): StateRow {
    if id in t.states then t.states[id] else FRESH_STATE
  }

  /** The tables after a status message: the whole message takes effect or none of it. */
  function StatusApplied(t: Tables, id: string, data: Dict, now: int): Tables {
    if id !in t.devices || !Bindable(data) then t
    else
      var was := StateOf(t, id);
      t.(states := t.states[id := StateRow(
        OnlineFlag(data), Some(now),
        Coalesce(Get(data, "ip_address"), was.ip),
        Coalesce(EffectiveVersion(data), was.firmware))])
  }

  function StatusFeedback(t: Tables, id: string, data: Dict): seq<Effect> {
    if StatusVerdict(t, id, data) == Escaped then []
    else if Get(data, "ota_status") == Str("installed") then [MarkFinished(id)]
    else if Get(data, "ota_status") == Str("failed") then
      [MarkFailed(id, if "reason" in data then data["reason"] else Str(""))]
    else []
  }

  function ReportedApplied(t: Tables, id: string, data: Dict, now: int): Tables {
    if id !in t.devices then t
    else
      var t' := t.(shadows := t.shadows[id := ShadowRow(Desired(t, id), data, now)]);
      if id !in t.states then t'
      else t'.(states := t.states[id := t.states[id].(lastSeen := Some(now))])
  }

  function Dispatch(t: Tables, id: string, kind: Kind, data: Dict, now: int): Outcome {
    match kind
    case Telemetry =>
      Outcome(t, if Get(data, "metrics").Obj? then [InfluxWrite(id, Get(data, "ts"), data["metrics"].fields)] else [])
    case Logs =>
      Outcome(t, [LokiPush(id, if "level" in data then data["level"] else Str("info"),
                           if "message" in data then data["message"] else Str(""))])
    case Reports => Outcome(ReportedApplied(t, id, data, now), [])
    case Status => Outcome(StatusApplied(t, id, data, now), StatusFeedback(t, id, data))
    case Unhandled => Outcome(t, [])
  }

  /** `route_message` */
  function Route(t: Tables, topic: string, payload: Payload, now: int): Outcome {
    var address := Parse(topic);
    if address.None? || !payload.Parsed? || !payload.j.Obj? then Outcome(t, [])
    else Dispatch(t, address.value.id, KindOf(address.value.channel), payload.j.fields, now)
  }

  // --- what a message means ---

  /** An integer beyond the 64 bits of a SQL INTEGER. */
  predicate Wide(j: Json) {
    j.Int? && !(-0x8000_0000_0000_0000 <= j.n < 0x8000_0000_0000_0000)
  }

  /** Anything but a container or a wide integer can be stored. */
  predicate Storable(j: Json) {
    !j.Arr? && !j.Obj? && !Wide(j)
  }

  lemma BindingVerdicts(j: Json)
    ensures Binding(j) == Applied <==> Storable(j)
    ensures Binding(j) == Escaped <==> Wide(j)
  {
  }

  /** The message says that the device is online. */
  predicate SaysOnline(data: Dict) {
    "online" in data && !Falsy(data["online"])
  }

  /** The message names a value under `k` that is not null. */
  predicate Names(data: Dict, k: string) {
    k in data && data[k] != Null
  }

  /** The message reports that `version` has been installed. */
  predicate SaysInstalled(data: Dict) {
    "ota_status" in data && data["ota_status"] == Str("installed") && Names(data, "version")
  }

  /** Every value that the statements bind can be stored. */
  predicate AllStorable(data: Dict) {
    && ("ip_address" in data ==> Storable(data["ip_address"]))
    && ("firmware_version" in data ==> Storable(data["firmware_version"]))
    && (SaysInstalled(data) ==> Storable(data["version"]))
  }

  /** What a status message leaves in the state row it found: the flag it carries, the time, and the
      address and version it names, an installed version before a running one; null leaves the old. */
  predicate StatusLeaves(was: StateRow, data: Dict, now: int, row: StateRow) {
    && row.online == (if SaysOnline(data) then 1 else 0)
    && row.lastSeen == Some(now)
    && row.ip == (if Names(data, "ip_address") then data["ip_address"] else was.ip)
    && row.firmware == (if SaysInstalled(data) then data["version"]
                        else if Names(data, "firmware_version") then data["firmware_version"]
                        else was.firmware)
  }

  /** A status message takes effect iff the device is registered and all its values can be stored, and
      then on one state row only. */
  predicate StatusTakes(t: Tables, id: string, data: Dict, now: int, t': Tables) {
    if id in t.devices && AllStorable(data) then
      && id in t'.states && t' == t.(states := t.states[id := t'.states[id]])
      && StatusLeaves(StateOf(t, id), data, now, t'.states[id])
    else t' == t
  }

  lemma StatusMeaning(t: Tables, id: string, data: Dict, now: int)
    ensures StatusTakes(t, id, data, now, StatusApplied(t, id, data, now))
  {
    BindingVerdicts(Get(data, "ip_address"));
    BindingVerdicts(Get(data, "firmware_version"));
    BindingVerdicts(Get(data, "version"));
    TruthyIff(Get(data, "online"));
  }

  /** A wide integer among the values escapes the handler, unless SQL refuses a value before it. */
  predicate Escapes(t: Tables, id: string, data: Dict) {
    if "ip_address" in data && !Storable(data["ip_address"]) then Wide(data["ip_address"])
    else if "firmware_version" in data && !Storable(data["firmware_version"]) then Wide(data["firmware_version"])
    else id in t.devices && SaysInstalled(data) && Wide(data["version"])
  }

  /** hawkBit hears of every installation and every failure, registered or not and stored or not, unless
      an error escapes first; a failure without a reason has an empty one. */
  lemma FeedbackMeaning(t: Tables, id: string, data: Dict)
    ensures var says := Get(data, "ota_status");
            StatusFeedback(t, id, data) ==
            if Escapes(t, id, data) then []
            else if says == Str("installed") then [MarkFinished(id)]
            else if says == Str("failed") then [MarkFailed(id, if "reason" in data then data["reason"] else Str(""))]
            else []
  {
    BindingVerdicts(Get(data, "ip_address"));
    BindingVerdicts(Get(data, "firmware_version"));
    BindingVerdicts(Get(data, "version"));
  }

  lemma RoutedAs(t: Tables, id: string, channel: string, data: Dict, now: int)
    requires '/' !in id
    ensures Route(t, Build(id, channel), Parsed(Obj(data)), now) == Dispatch(t, id, KindOf(channel), data, now)
  {
    RoundTripIffSlashFree(id, channel);
  }

  lemma KindsTold()
    ensures KindOf("telemetry") == Telemetry && KindOf("logs") == Logs
    ensures KindOf("state/reported") == Reports && KindOf("status") == Status
  {
  }

  /** Which topic of a device reaches which handler, and what it is handed: metrics and their time to
      InfluxDB, the level and message of a log to Loki, a report and a status to the tables. */
  lemma RoutedByChannel(t: Tables, id: string, data: Dict, now: int)
    requires '/' !in id
    ensures var payload := Parsed(Obj(data));
            && Route(t, "embediq/" + id + "/telemetry", payload, now) ==
               Outcome(t, if "metrics" in data && data["metrics"].Obj?
                          then [InfluxWrite(id, Get(data, "ts"), data["metrics"].fields)] else [])
            && Route(t, "embediq/" + id + "/logs", payload, now) ==
               Outcome(t, [LokiPush(id, if "level" in data then data["level"] else Str("info"),
                                    if "message" in data then data["message"] else Str(""))])
            && Route(t, "embediq/" + id + "/state/reported", payload, now) ==
               Outcome(ReportedApplied(t, id, data, now), [])
            && Route(t, "embediq/" + id + "/status", payload, now) ==
               Outcome(StatusApplied(t, id, data, now), StatusFeedback(t, id, data))
  {
    DeviceTopicsSpelled(id);
    KindsTold();
    RoutedAs(t, id, "telemetry", data, now);
    RoutedAs(t, id, "logs", data, now);
    RoutedAs(t, id, "state/reported", data, now);
    RoutedAs(t, id, "status", data, now);
  }

  lemma HandledChannels(channel: string)
    ensures KindOf(channel) != Unhandled ==>
              channel == "telemetry" || channel == "logs" || channel == "state/reported" || channel == "status"
  {
  }

  predicate DeviceTopicOf(topic: string, id: string) {
    || topic == "embediq/" + id + "/telemetry" || topic == "embediq/" + id + "/logs"
    || topic == "embediq/" + id + "/state/reported" || topic == "embediq/" + id + "/status"
  }

  /** `topic` is one a device writes to. */
  ghost predicate DeviceTopic(topic: string) {
    exists id: string :: '/' !in id && DeviceTopicOf(topic, id)
  }

  lemma HandledIsDeviceTopic(topic: string)
    requires Parse(topic).Some? && KindOf(Parse(topic).value.channel) != Unhandled
    ensures DeviceTopic(topic)
  {
    var to := Parse(topic).value;
    RebuildAccepted(topic);
    DeviceTopicsSpelled(to.id);
    HandledChannels(to.channel);
    assert DeviceTopicOf(topic, to.id);
  }

  /** A message on any other topic, or with a payload that is no object, has no effect. */
  lemma OthersInert(t: Tables, topic: string, payload: Payload, now: int)
    requires !DeviceTopic(topic) || !payload.Parsed? || !payload.j.Obj?
    ensures Route(t, topic, payload, now) == Outcome(t, [])
  {
    if Parse(topic).Some? && payload.Parsed? && payload.j.Obj? && KindOf(Parse(topic).value.channel) != Unhandled {
      HandledIsDeviceTopic(topic);
    }
  }

  // --- the handlers ---

  class Consumer {
    const db: Database
    var effects: seq<Effect>

    constructor (db: Database)
      ensures this.db == db && effects == []
    {
      this.db := db;
      effects := [];
    }

    method HandleTelemetry(id: string, data: Dict)
      modifies this
      ensures effects == old(effects) +
                         if Get(data, "metrics").Obj?
                         then [InfluxWrite(id, Get(data, "ts"), data["metrics"].fields)] else []
    {
      var metrics := Get(data, "metrics");
      if !metrics.Obj? {
        return;
      }
      effects := effects + [InfluxWrite(id, Get(data, "ts"), metrics.fields)];
    }

    method HandleReported(id: string, data: Dict, now: int)
      modifies db
      ensures db.file == ReportedApplied(old(db.file), id, data, now)
      ensures id !in old(db.file).devices ==> db.file == old(db.file)
      ensures id in old(db.file).devices ==>
                && db.file.shadows == old(db.file).shadows[id := ShadowRow(Desired(old(db.file), id), data, now)]
                && db.file.devices == old(db.file).devices && db.file.groups == old(db.file).groups
                && db.file.states.Keys == old(db.file).states.Keys
                && (forall d | d in db.file.states ::
                      db.file.states[d] ==
                      if d == id then old(db.file).states[d].(lastSeen := Some(now)) else old(db.file).states[d])
    {
      db.GetConnection();
      var upserted := UpsertReported(db.open, id, data, now);
      if upserted.Some? {
        db.open := upserted.value;
        db.open := UpdateLastSeen(db.open, id, now);
        db.Commit();
      }
      db.Close();
    }

    /** The transaction of a status message, committed whole or not at all. */
    method StoreStatus(id: string, data: Dict, now: int) returns (verdict: Verdict)
      modifies db
      ensures db.file == StatusApplied(old(db.file), id, data, now)
      ensures verdict == StatusVerdict(old(db.file), id, data)
    {
      var online := if Truthy(Get(data, "online")) then 1 else 0;
      var otaStatus, version := Get(data, "ota_status"), Get(data, "version");
      var ip, firmware := Get(data, "ip_address"), Get(data, "firmware_version");
      db.GetConnection();
      verdict := Binding(ip);
      if verdict == Applied {
        verdict := Binding(firmware);
      }
      if verdict == Applied {
        var upserted := UpsertState(db.open, id, online, ip, firmware, now);
        if upserted.None? {
          verdict := SqlError;
        } else {
          db.open := upserted.value;
          if otaStatus == Str("installed") && version != Null {
            verdict := Binding(version);
            if verdict == Applied {
              db.open := UpdateFirmware(db.open, id, version);
            }
          }
        }
      }
      assert verdict == Applied ==> db.open == StatusApplied(old(db.file), id, data, now);
      assert verdict == Applied <==> id in old(db.file).devices && Bindable(data);
      if verdict == Applied {
        db.Commit();
      }
      db.Close();
    }

    method HandleStatus(id: string, data: Dict, now: int)
      modifies this, db
      ensures db.file == StatusApplied(old(db.file), id, data, now)
      ensures effects == old(effects) + StatusFeedback(old(db.file), id, data)
      ensures StatusTakes(old(db.file), id, data, now, db.file)
    {
      StatusMeaning(db.file, id, data, now);
      var verdict := StoreStatus(id, data, now);
      if verdict == Escaped {
        return;
      }
      var otaStatus := Get(data, "ota_status");
      if otaStatus == Str("installed") {
        effects := effects + [MarkFinished(id)];
      } else if otaStatus == Str("failed") {
        effects := effects + [MarkFailed(id, if "reason" in data then data["reason"] else Str(""))];
      }
    }

    /** Cloud-to-device channels are ignored before the payload is looked at. */
    method RouteMessage(topic: string, payload: Payload, now: int)
      modifies this, db
      ensures db.file == Route(old(db.file), topic, payload, now).tables
      ensures effects == old(effects) + Route(old(db.file), topic, payload, now).effects
    {
      var parts := Split(topic);
      if |parts| < 3 || parts[0] != "embediq" {
        return;
      }
      var id, channel := parts[1], Join(parts[2..]);
      if channel == "cmd" || channel == "state/desired" {
        return;
      }
      if !payload.Parsed? {
        return;
      }
      if !payload.j.Obj? {
        return;
      }
      var data := payload.j.fields;
      if channel == "telemetry" {
        HandleTelemetry(id, data);
      } else if channel == "logs" {
        effects := effects + [LokiPush(id, if "level" in data then data["level"] else Str("info"),
                                       if "message" in data then data["message"] else Str(""))];
      } else if channel == "state/reported" {
        HandleReported(id, data, now);
      } else if channel == "status" {
        HandleStatus(id, data, now);
      }
    }
  }

  // --- what every message keeps ---

  lemma RouteKeepsConsistent(t: Tables, topic: string, payload: Payload, now: int)
    requires Consistent(t)
    ensures Consistent(Route(t, topic, payload, now).tables)
  {
  }

  /** A message for an unregistered id changes no row. */
  lemma UnregisteredInert(t: Tables, topic: string, payload: Payload, now: int)
    requires Parse(topic).Some? ==> Parse(topic).value.id !in t.devices
    ensures Route(t, topic, payload, now).tables == t
  {
  }

  /** No echo: what the cloud publishes for a device, whatever its id, does nothing in the bridge. */
  lemma CloudTopicsInert(t: Tables, id: string, topic: string, payload: Payload, now: int)
    requires topic == CmdTopic(id) || topic == DesiredTopic(id)
    ensures Route(t, topic, payload, now) == Outcome(t, [])
  {
    CloudTopicsUnhandled(id, topic);
  }

  // --- at-least-once delivery ---

  datatype Delivery = Delivery(topic: string, payload: Payload, now: int)

  function Deliver(t: Tables, ds: seq<Delivery>): Tables {
    if ds == [] then t
    else
      var d := ds[|ds| - 1];
      Route(Deliver(t, ds[..|ds| - 1]), d.topic, d.payload, d.now).tables
  }

  predicate SameMessage(a: Delivery, b: Delivery) {
    a.topic == b.topic && a.payload == b.payload
  }

  /** Drops every delivery that repeats the one before it. */
  function Collapse(ds: seq<Delivery>): seq<Delivery> {
    if ds == [] then []
    else
      var init, d := ds[..|ds| - 1], ds[|ds| - 1];
      if init != [] && SameMessage(init[|init| - 1], d) then Collapse(init) else Collapse(init) + [d]
  }

  ghost predicate SameStates(a: map<string, StateRow>, b: map<string, StateRow>) {
    a.Keys == b.Keys && forall id | id in a :: a[id].(lastSeen := None) == b[id].(lastSeen := None)
  }

  ghost predicate SameShadows(a: map<string, ShadowRow>, b: map<string, ShadowRow>) {
    a.Keys == b.Keys && forall id | id in a :: a[id].(updatedAt := 0) == b[id].(updatedAt := 0)
  }

  /** Equal but for the clock columns. */
  ghost predicate SameUntimed(a: Tables, b: Tables) {
    && a.devices == b.devices && a.groups == b.groups
    && SameStates(a.states, b.states) && SameShadows(a.shadows, b.shadows)
  }

  lemma StatusUntimed(a: Tables, b: Tables, id: string, data: Dict, s: int, t: int)
    requires SameUntimed(a, b)
    ensures SameUntimed(StatusApplied(a, id, data, s), StatusApplied(b, id, data, t))
  {
    var x, y := StatusApplied(a, id, data, s).states, StatusApplied(b, id, data, t).states;
    forall i | i in x ensures i in y && x[i].(lastSeen := None) == y[i].(lastSeen := None) {
      assert i in a.states ==> i in b.states && a.states[i].(lastSeen := None) == b.states[i].(lastSeen := None);
      assert id in a.states ==> id in b.states && a.states[id].(lastSeen := None) == b.states[id].(lastSeen := None);
    }
  }

  lemma ReportedUntimed(a: Tables, b: Tables, id: string, data: Dict, s: int, t: int)
    requires SameUntimed(a, b)
    ensures SameUntimed(ReportedApplied(a, id, data, s), ReportedApplied(b, id, data, t))
  {
    assert id in a.shadows ==> a.shadows[id].(updatedAt := 0) == b.shadows[id].(updatedAt := 0);
    assert id in a.states ==> a.states[id].(lastSeen := None) == b.states[id].(lastSeen := None);
  }

  lemma DispatchUntimed(a: Tables, b: Tables, id: string, kind: Kind, data: Dict, s: int, t: int)
    requires SameUntimed(a, b)
    ensures SameUntimed(Dispatch(a, id, kind, data, s).tables, Dispatch(b, id, kind, data, t).tables)
  {
    match kind {
      case Status => StatusUntimed(a, b, id, data, s, t);
      case Reports => ReportedUntimed(a, b, id, data, s, t);
      case _ =>
    }
  }

  lemma RouteUntimed(a: Tables, b: Tables, topic: string, payload: Payload, s: int, t: int)
    requires SameUntimed(a, b)
    ensures SameUntimed(Route(a, topic, payload, s).tables, Route(b, topic, payload, t).tables)
  {
    if Parse(topic).Some? && payload.Parsed? && payload.j.Obj? {
      var to := Parse(topic).value;
      DispatchUntimed(a, b, to.id, KindOf(to.channel), payload.j.fields, s, t);
    }
  }

  lemma StatusIdempotent(a: Tables, id: string, data: Dict, s: int, t: int)
    ensures var once := StatusApplied(a, id, data, s);
            SameUntimed(StatusApplied(once, id, data, t), once)
  {
    var once := StatusApplied(a, id, data, s);
    var twice := StatusApplied(once, id, data, t);
    if id in a.devices && Bindable(data) {
      assert twice.states == once.states[id := once.states[id].(lastSeen := Some(t))];
    }
  }

  lemma ReportedIdempotent(a: Tables, id: string, data: Dict, s: int, t: int)
    ensures var once := ReportedApplied(a, id, data, s);
            SameUntimed(ReportedApplied(once, id, data, t), once)
  {
    var once := ReportedApplied(a, id, data, s);
    var twice := ReportedApplied(once, id, data, t);
    if id in a.devices {
      assert twice.shadows == once.shadows[id := once.shadows[id].(updatedAt := t)];
    }
  }

  lemma RouteIdempotent(a: Tables, topic: string, payload: Payload, s: int, t: int)
    ensures var once := Route(a, topic, payload, s).tables;
            SameUntimed(Route(once, topic, payload, t).tables, once)
  {
    if Parse(topic).Some? && payload.Parsed? && payload.j.Obj? {
      var to, data := Parse(topic).value, payload.j.fields;
      if KindOf(to.channel) == Status {
        assert Route(a, topic, payload, s).tables == StatusApplied(a, to.id, data, s);
        StatusIdempotent(a, to.id, data, s, t);
      } else if KindOf(to.channel) == Reports {
        assert Route(a, topic, payload, s).tables == ReportedApplied(a, to.id, data, s);
        ReportedIdempotent(a, to.id, data, s, t);
      } else {
        assert Route(a, topic, payload, s).tables == a;
      }
    }
  }

  /** Redelivering a message right after itself, any number of times and anywhere in a run, leaves
      the same tables up to timestamps. */
  lemma {:induction false} RedeliveryHarmless(t: Tables, ds: seq<Delivery>)
    ensures SameUntimed(Deliver(t, ds), Deliver(t, Collapse(ds)))
  {
    if ds == [] {
    } else {
      var init, d := ds[..|ds| - 1], ds[|ds| - 1];
      RedeliveryHarmless(t, init);
      if init != [] && SameMessage(init[|init| - 1], d) {
        var last := init[|init| - 1];
        RouteIdempotent(Deliver(t, init[..|init| - 1]), last.topic, last.payload, last.now, d.now);
      } else {
        var kept := Collapse(init) + [d];
        assert kept[..|kept| - 1] == Collapse(init);
        RouteUntimed(Deliver(t, init), Deliver(t, Collapse(init)), d.topic, d.payload, d.now, d.now);
      }
    }
  }
}
