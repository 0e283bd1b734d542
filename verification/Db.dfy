/** The SQLite schema: one map per table, the statements the handlers issue, and a connection
    whose open transaction is lost unless it is committed. */
module Db {
  import opened Prelude
  import opened Json

  datatype DeviceRow = DeviceRow(
    certCn: Option<string>, passwordHash: Option<string>, groupId: string, attributes: Dict, createdAt: int)

  /** `ip` and `firmware` hold the bound JSON scalar, `Null` for SQL NULL. */
  datatype StateRow = StateRow(online: int, lastSeen: Option<int>, ip: Json, firmware: Json)

  datatype ShadowRow = ShadowRow(desired: Dict, reported: Dict, updatedAt: int)

  datatype GroupRow = GroupRow(description: Option<string>, createdAt: int)

  datatype Tables = Tables(
    devices: map<string, DeviceRow>,
    states: map<string, StateRow>,
    shadows: map<string, ShadowRow>,
    groups: map<string, GroupRow>)

  const FRESH_STATE := StateRow(0, None, Null, Null)

  /** What `init_db` leaves in an empty file. */
  function InitialTables(now: int): Tables {
    Tables(map[], map[], map[], map["default" := GroupRow(Some("Default group"), now)])
  }

  /** What `init_db` leaves of `t`: the default group is added when it is missing. */
  function Booted(t: Tables, now: int): Tables {
    if "default" in t.groups then t
    else t.(groups := t.groups["default" := GroupRow(Some("Default group"), now)])
  }

  /** Every device has its state row, shadow rows belong to devices, `online` is a flag and the
      default group is there. */
  ghost predicate Consistent(t: Tables) {
    && t.states.Keys == t.devices.Keys
    && t.shadows.Keys <= t.devices.Keys
    && (forall id | id in t.states :: t.states[id].online == 0 || t.states[id].online == 1)
    && "default" in t.groups
  }

  // --- statements; None is a constraint failure, which leaves the table as it was ---

  function InsertDevice(t: Tables, id: string, row: DeviceRow): Option<Tables> {
    if id in t.devices then None else Some(t.(devices := t.devices[id := row]))
  }

  function InsertState(t: Tables, id: string): Option<Tables> {
    if id in t.states || id !in t.devices then None else Some(t.(states := t.states[id := FRESH_STATE]))
  }

  /** DELETE with both ON DELETE CASCADE references. */
  function DeleteDeviceRow(t: Tables, id: string): Tables {
    t.(devices := t.devices - {id}, states := t.states - {id}, shadows := t.shadows - {id})
  }

  function Coalesce(a: Json, b: Json): Json {
    if a != Null then a else b
  }

  /** INSERT INTO device_state ... ON CONFLICT DO UPDATE with COALESCE on the two text columns. */
  function UpsertState(t: Tables, id: string, online: int, ip: Json, firmware: Json, now: int): Option<Tables> {
    if id !in t.devices then None
    else
      var row := if id in t.states
                 then
                   var was := t.states[id];
                   StateRow(online, Some(now), Coalesce(ip, was.ip), Coalesce(firmware, was.firmware))
                 else StateRow(online, Some(now), ip, firmware);
      Some(t.(states := t.states[id := row]))
  }

  function UpdateFirmware(t: Tables, id: string, version: Json): Tables {
    if id !in t.states then t else t.(states := t.states[id := t.states[id].(firmware := version)])
  }

  function UpdateLastSeen(t: Tables, id: string, now: int): Tables {
    if id !in t.states then t else t.(states := t.states[id := t.states[id].(lastSeen := Some(now))])
  }

  /** The upsert of `patch_desired`: `reported` keeps its value, or its default in a new row. */
  function UpsertDesired(t: Tables, id: string, desired: Dict, now: int): Option<Tables> {
    if id !in t.devices then None
    else
      var reported := if id in t.shadows then t.shadows[id].reported else map[];
      Some(t.(shadows := t.shadows[id := ShadowRow(desired, reported, now)]))
  }

  /** The upsert of `_handle_reported`: `desired` keeps its value, or its default in a new row. */
  function UpsertReported(t: Tables, id: string, reported: Dict, now: int): Option<Tables> {
    if id !in t.devices then None
    else
      var desired := if id in t.shadows then t.shadows[id].desired else map[];
      Some(t.(shadows := t.shadows[id := ShadowRow(desired, reported, now)]))
  }

  function InsertGroup(t: Tables, id: string, row: GroupRow): Option<Tables> {
    if id in t.groups then None else Some(t.(groups := t.groups[id := row]))
  }

  /** UPDATE devices SET group_id = to WHERE group_id = from */
  function ReassignGroup(t: Tables, from: string, to: string): Tables {
    t.(devices := map id | id in t.devices ::
      if t.devices[id].groupId == from then t.devices[id].(groupId := to) else t.devices[id])
  }

  function DeleteGroupRow(t: Tables, id: string): Tables {
    t.(groups := t.groups - {id})
  }

  /** The parsed `desired` column; an absent row reads as empty. */
  function Desired(t: Tables, id: string): Dict {
    if id in t.shadows then t.shadows[id].desired else map[]
  }

  function Reported(t: Tables, id: string): Dict {
    if id in t.shadows then t.shadows[id].reported else map[]
  }

  /** `file` is what other connections see; `open` is this connection's transaction. */
  class Database {
    var file: Tables
    var open: Tables

    /** A path with no database in it. */
    constructor ()
      ensures file == open == Tables(map[], map[], map[], map[])
    {
      file := Tables(map[], map[], map[], map[]);
      open := Tables(map[], map[], map[], map[]);
    }

    method GetConnection()
      modifies this
      ensures open == file == old(file)
    {
      open := file;
    }

    method Commit()
      modifies this
      ensures file == open == old(open)
    {
      file := open;
    }

    /** Closing rolls an uncommitted transaction back. */
    method Close()
      modifies this
      ensures open == file == old(file)
    {
      open := file;
    }

    /** Tables that exist are kept; the default group is added only when it is missing. */
    method InitDb(now: int)
      modifies this
      ensures old(file) == Tables(map[], map[], map[], map[]) ==> file == InitialTables(now)
      ensures "default" in old(file.groups) ==> file == old(file)
      ensures "default" in file.groups && file == Booted(old(file), now)
      ensures "default" !in old(file.groups) ==> file.groups["default"] == GroupRow(Some("Default group"), now)
      ensures file.(groups := file.groups - {"default"}) == old(file).(groups := old(file).groups - {"default"})
    {
      GetConnection();
      if "default" !in open.groups {
        open := open.(groups := open.groups["default" := GroupRow(Some("Default group"), now)]);
      }
      Commit();
      Close();
    }
  }
}
