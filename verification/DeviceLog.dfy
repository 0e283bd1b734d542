/** The state row of a device is a scan of the messages it sent since it was created. */
module DeviceLog {
  import opened Prelude
  import opened Json
  import opened Db
  import opened Topics
  import opened Bridge
  import opened ControlPlane

  datatype Entry = StatusEntry(data: Dict, now: int) | ReportEntry(now: int)

  function EntryFor(kind: Kind, data: Dict, now: int): Option<Entry> {
    match kind
    case Status => if Bindable(data) then Some(StatusEntry(data, now)) else None
    case Reports => Some(ReportEntry(now))
    case _ => None
  }

  /** What `e` adds to the log of `id`: a status that can be bound, or a report. */
  function EntryOf(s: State, e: Event, id: string): Option<Entry> {
    if !e.Receive? || id !in s.tables.devices || !e.payload.Parsed? || !e.payload.j.Obj? then None
    else
      var to := Parse(e.topic);
      if to.None? || to.value.id != id then None
      else EntryFor(KindOf(to.value.channel), e.payload.j.fields, e.now)
  }

  /** The log of the current life of `id`. */
  function LifeLog(es: seq<Event>, id: string): seq<Entry> {
    if es == [] then []
    else
      var init, e := es[..|es| - 1], es[|es| - 1];
      if e == DeleteDevice(id) then []
      else
        var entry := EntryOf(Run(init), e, id);
        if entry.Some? then LifeLog(init, id) + [entry.value] else LifeLog(init, id)
  }

  function LastSeenOf(log: seq<Entry>): Option<int> {
    if log == [] then None else Some(log[|log| - 1].now)
  }

  /** The flag of the last status, offline before the first. */
  function OnlineOf(log: seq<Entry>): int {
    if log == [] then 0
    else if log[|log| - 1].StatusEntry? then if SaysOnline(log[|log| - 1].data) then 1 else 0
    else OnlineOf(log[..|log| - 1])
  }

  /** The last address that was not null. */
  function IpOf(log: seq<Entry>): Json {
    if log == [] then Null
    else
      var e := log[|log| - 1];
      if e.StatusEntry? && Names(e.data, "ip_address") then e.data["ip_address"] else IpOf(log[..|log| - 1])
  }

  /** The last version that was named, an installed one before a running one. */
  function FirmwareOf(log: seq<Entry>): Json {
    if log == [] then Null
    else
      var e := log[|log| - 1];
      if e.StatusEntry? && SaysInstalled(e.data) then e.data["version"]
      else if e.StatusEntry? && Names(e.data, "firmware_version") then e.data["firmware_version"]
      else FirmwareOf(log[..|log| - 1])
  }

  function ScanOf(log: seq<Entry>): StateRow {
    StateRow(OnlineOf(log), LastSeenOf(log), IpOf(log), FirmwareOf(log))
  }

  lemma ScanSnoc(log: seq<Entry>, e: Entry)
    ensures ScanOf(log + [e]) ==
            match e
            case ReportEntry(now) => ScanOf(log).(lastSeen := Some(now))
            case StatusEntry(data, now) =>
              StateRow(OnlineFlag(data), Some(now), Coalesce(Get(data, "ip_address"), IpOf(log)),
                       Coalesce(EffectiveVersion(data), FirmwareOf(log)))
  {
    if e.StatusEntry? { TruthyIff(Get(e.data, "online")); }
    assert (log + [e])[..|log|] == log;
  }

  lemma DispatchStates(t: Tables, to: string, kind: Kind, data: Dict, now: int, id: string, log: seq<Entry>)
    requires Consistent(t) && id in t.devices && t.states[id] == ScanOf(log)
    ensures var t' := Dispatch(t, to, kind, data, now).tables;
            var entry := if to == id then EntryFor(kind, data, now) else None;
            && t'.devices == t.devices && id in t'.states
            && t'.states[id] == ScanOf(if entry.Some? then log + [entry.value] else log)
  {
    var entry := EntryFor(kind, data, now);
    if to == id && entry.Some? { ScanSnoc(log, entry.value); }
  }

  lemma StatesStep(s: State, e: Event, id: string, log: seq<Entry>)
    requires Consistent(s.tables)
    requires if id in s.tables.devices then s.tables.states[id] == ScanOf(log) else log == []
    requires e != DeleteDevice(id)
    ensures var t' := Step(s, e).tables;
            var entry := EntryOf(s, e, id);
            var log' := if entry.Some? then log + [entry.value] else log;
            if id in t'.devices then id in t'.states && t'.states[id] == ScanOf(log') else log' == []
  {
    if e.Receive? && e.payload.Parsed? && e.payload.j.Obj? && Parse(e.topic).Some? && id in s.tables.devices {
      var to := Parse(e.topic).value;
      DispatchStates(s.tables, to.id, KindOf(to.channel), e.payload.j.fields, e.now, id, log);
    }
    if e.Receive? { RouteColumns(s.tables, e.topic, e.payload, e.now, id); }
  }

  /** The incremental upserts equal a scan of the message log: within one life of a device `online`
      is its last status, `ip_address` and `firmware_version` the last non-null values it sent, and
      `last_seen` its last status or report; nothing received in an earlier life is left. */
  lemma {:induction false} StateIsScanOfLog(es: seq<Event>, id: string)
    ensures if id in Run(es).tables.devices
            then id in Run(es).tables.states && Run(es).tables.states[id] == ScanOf(LifeLog(es, id))
            else LifeLog(es, id) == []
  {
    if es == [] {
    } else {
      var init, e := es[..|es| - 1], es[|es| - 1];
      StateIsScanOfLog(init, id);
      AlwaysConsistent(init);
      if e != DeleteDevice(id) {
        StatesStep(Run(init), e, id, LifeLog(init, id));
      }
    }
  }

  /** Not a message the bridge attributes to `id`. */
  predicate Foreign(e: Event, id: string) {
    e.Receive? ==> Parse(e.topic).None? || Parse(e.topic).value.id != id
  }

  lemma ForeignStep(s: State, e: Event, id: string)
    requires Foreign(e, id) && Reported(s.tables, id) == map[]
    ensures Reported(Step(s, e).tables, id) == map[] && EntryOf(s, e, id) == None
  {
    ReportedWriters(s, e, id);
  }

  lemma {:induction false} UnheardIfForeign(es: seq<Event>, id: string)
    requires forall e | e in es :: Foreign(e, id)
    ensures Reported(Run(es).tables, id) == map[] && LifeLog(es, id) == []
    ensures id in Run(es).tables.devices ==> id in Run(es).tables.states && Run(es).tables.states[id] == FRESH_STATE
  {
    StateIsScanOfLog(es, id);
    if es == [] {
    } else {
      var init, e := es[..|es| - 1], es[|es| - 1];
      assert es == init + [e];
      UnheardIfForeign(init, id);
      ForeignStep(Run(init), e, id);
    }
  }

  /** A device can be created under an id with a slash, but no message ever reaches it: in every
      reachable state it has never been seen and has reported nothing. */
  lemma SlashedIdUnheard(es: seq<Event>, id: string)
    requires '/' in id
    ensures Reported(Run(es).tables, id) == map[] && LifeLog(es, id) == []
    ensures id in Run(es).tables.devices ==> id in Run(es).tables.states && Run(es).tables.states[id] == FRESH_STATE
  {
    forall e | e in es ensures Foreign(e, id) {
      if e.Receive? && Parse(e.topic).Some? { RebuildAccepted(e.topic); }
    }
    UnheardIfForeign(es, id);
  }

  lemma WildcardForeign(e: Event, id: string)
    requires !Publishable(id) && (e.Receive? ==> Publishable(e.topic))
    ensures Foreign(e, id)
  {
    if e.Receive? && Parse(e.topic).Some? {
      RebuildAccepted(e.topic);
      PublishableBuild(Parse(e.topic).value.id, Parse(e.topic).value.channel);
    }
  }

  /** The same holds of an id with a wildcard in it, as no message can be published under its topics. */
  lemma WildcardIdUnheard(es: seq<Event>, id: string)
    requires !Publishable(id) && forall e | e in es :: e.Receive? ==> Publishable(e.topic)
    ensures Reported(Run(es).tables, id) == map[] && LifeLog(es, id) == []
    ensures id in Run(es).tables.devices ==> id in Run(es).tables.states && Run(es).tables.states[id] == FRESH_STATE
  {
    forall e | e in es ensures Foreign(e, id) { WildcardForeign(e, id); }
    UnheardIfForeign(es, id);
  }
}
