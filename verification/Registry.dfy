/** Devices, groups and the views over them. */
module Registry {
  import opened Prelude
  import opened Json
  import opened Db
  import Order

  // --- what each endpoint makes of the tables ---

  function Created(t: Tables, id: string, row: DeviceRow): Tables {
    if id in t.devices || id in t.states then t
    else t.(devices := t.devices[id := row], states := t.states[id := FRESH_STATE])
  }

  function Patched(t: Tables, id: string, groupId: Option<string>, attributes: Option<Dict>): Tables {
    if id !in t.devices then t
    else
      var was := t.devices[id];
      t.(devices := t.devices[id := was.(
        groupId := if groupId.Some? then groupId.value else was.groupId,
        attributes := if attributes.Some? then attributes.value else was.attributes)])
  }

  function GroupCreated(t: Tables, id: string, row: GroupRow): Tables {
    if id in t.groups then t else t.(groups := t.groups[id := row])
  }

  function GroupDeleted(t: Tables, id: string): Tables {
    if id == "default" || id !in t.groups then t
    else DeleteGroupRow(ReassignGroup(t, id, "default"), id)
  }

  /** Inserts the device and its state row in the caller's transaction. */
  method CreateDevice(
    db: Database, id: string, certCn: Option<string>, password: Option<string>, groupId: string, attributes: Dict,
    hash: string -> string, now: int)
    returns (status: int)
    modifies db
    ensures db.file == old(db.file)
    ensures status == if id in old(db.open).devices then 409 else if id in old(db.open).states then 500 else 201
    ensures status == 201 ==>
              db.open == Created(old(db.open), id, DeviceRow(
                certCn, if password.Some? && password.value != "" then Some(hash(password.value)) else None,
                groupId, attributes, now))
  {
    if id in db.open.devices {
      return 409;
    }
    var passwordHash := None;
    if password.Some? && password.value != "" {
      passwordHash := Some(hash(password.value));
    }
    var device := InsertDevice(db.open, id, DeviceRow(certCn, passwordHash, groupId, attributes, now));
    if device.None? {
      return 500;
    }
    db.open := device.value;
    var state := InsertState(db.open, id);
    if state.None? {
      return 500;
    }
    db.open := state.value;
    status := 201;
  }

  method PostDevice(
    db: Database, id: string, certCn: Option<string>, password: Option<string>, groupId: string, attributes: Dict,
    hash: string -> string, now: int)
    returns (status: int)
    modifies db
    ensures status == 409 <==> id in old(db.file).devices
    ensures Consistent(old(db.file)) ==> status == 409 || status == 201
    ensures db.file == Created(old(db.file), id, DeviceRow(
                         certCn, if password.Some? && password.value != "" then Some(hash(password.value)) else None,
                         groupId, attributes, now))
  {
    db.GetConnection();
    status := CreateDevice(db, id, certCn, password, groupId, attributes, hash, now);
    if status == 201 {
      db.Commit();
    }
    db.Close();
  }

  method PatchDevice(db: Database, id: string, groupId: Option<string>, attributes: Option<Dict>) returns (status: int)
    modifies db
    ensures status == if id in old(db.file).devices then 200 else 404
    ensures db.file == Patched(old(db.file), id, groupId, attributes)
    ensures id !in old(db.file).devices ==> db.file == old(db.file)
    ensures id in old(db.file).devices ==>
              var was := old(db.file).devices[id];
              db.file == old(db.file).(devices := old(db.file).devices[id := DeviceRow(
                was.certCn, was.passwordHash,
                if groupId.Some? then groupId.value else was.groupId,
                if attributes.Some? then attributes.value else was.attributes,
                was.createdAt)])
  {
    db.GetConnection();
    if id !in db.open.devices {
      db.Close();
      return 404;
    }
    if groupId.Some? {
      db.open := db.open.(devices := db.open.devices[id := db.open.devices[id].(groupId := groupId.value)]);
    }
    if attributes.Some? {
      db.open := db.open.(devices := db.open.devices[id := db.open.devices[id].(attributes := attributes.value)]);
    }
    db.Commit();
    db.Close();
    status := 200;
  }

  method DeleteDevice(db: Database, id: string) returns (status: int)
    modifies db
    ensures status == if id in old(db.file).devices then 200 else 404
    ensures db.file == DeleteDeviceRow(old(db.file), id)
    ensures db.file.devices == old(db.file).devices - {id} && db.file.groups == old(db.file).groups
    ensures db.file.states == old(db.file).states - {id} && db.file.shadows == old(db.file).shadows - {id}
  {
    db.GetConnection();
    var rowcount := if id in db.open.devices then 1 else 0;
    db.open := DeleteDeviceRow(db.open, id);
    db.Commit();
    db.Close();
    status := if rowcount == 0 then 404 else 200;
  }

  method PostGroup(db: Database, id: string, description: Option<string>, now: int) returns (status: int)
    modifies db
    ensures status == if id in old(db.file).groups then 409 else 201
    ensures db.file == GroupCreated(old(db.file), id, GroupRow(description, now))
    ensures status == 409 ==> db.file == old(db.file)
    ensures status == 201 ==>
              db.file == old(db.file).(groups := old(db.file).groups[id := GroupRow(description, now)])
  {
    db.GetConnection();
    if id in db.open.groups {
      db.Close();
      return 409;
    }
    db.open := InsertGroup(db.open, id, GroupRow(description, now)).value;
    db.Commit();
    db.Close();
    status := 201;
  }

  method DeleteGroup(db: Database, id: string) returns (status: int)
    modifies db
    ensures status == if id == "default" then 400 else if id in old(db.file).groups then 200 else 404
    ensures db.file == GroupDeleted(old(db.file), id)
    ensures status != 200 ==> db.file == old(db.file)
  {
    if id == "default" {
      return 400;
    }
    db.GetConnection();
    if id !in db.open.groups {
      db.Close();
      return 404;
    }
    db.open := ReassignGroup(db.open, id, "default");
    db.open := DeleteGroupRow(db.open, id);
    db.Commit();
    db.Close();
    status := 200;
  }

  // --- views ---

  datatype DeviceView = DeviceView(id: string, online: bool, lastSeen: Option<int>, groupId: string, firmware: Json)

  datatype GroupView = GroupView(id: string, description: Option<string>, deviceCount: nat)

  /** LEFT JOIN: a device without a state row reads as NULLs. */
  function ViewOf(t: Tables, id: string): DeviceView
    requires id in t.devices
  {
    var state := if id in t.states then t.states[id] else FRESH_STATE;
    DeviceView(id, state.online != 0, state.lastSeen, t.devices[id].groupId, state.firmware)
  }

  ghost function ListDevices(t: Tables): seq<DeviceView> {
    var ids := Order.Sorted(t.devices.Keys);
    seq(|ids|, i requires 0 <= i < |ids| => ViewOf(t, ids[i]))
  }

  /** COUNT(*) FROM device_state WHERE online = 1 */
  function DevicesOnline(t: Tables): nat {
    |set id | id in t.states && t.states[id].online == 1|
  }

  function Members(t: Tables, groupId: string): set<string> {
    set id | id in t.devices && t.devices[id].groupId == groupId
  }

  /** Devices whose group has no row; `group_id` is not a foreign key. */
  function Dangling(t: Tables): set<string> {
    set id | id in t.devices && t.devices[id].groupId !in t.groups
  }

  ghost function ListGroups(t: Tables): seq<GroupView> {
    var ids := Order.Sorted(t.groups.Keys);
    seq(|ids|, i requires 0 <= i < |ids| => GroupView(ids[i], t.groups[ids[i]].description, |Members(t, ids[i])|))
  }

  function CountOnline(views: seq<DeviceView>): nat {
    if views == [] then 0 else CountOnline(views[..|views| - 1]) + if views[|views| - 1].online then 1 else 0
  }

  function SumCounts(views: seq<GroupView>): nat {
    if views == [] then 0 else SumCounts(views[..|views| - 1]) + views[|views| - 1].deviceCount
  }

  /** The ids of the entries marked online. */
  function OnlineIds(views: seq<DeviceView>): set<string> {
    set v | v in views && v.online :: v.id
  }

  lemma OnlineIdsSnoc(views: seq<DeviceView>, last: DeviceView)
    requires forall v | v in views :: v.id != last.id
    ensures OnlineIds(views + [last]) == OnlineIds(views) + if last.online then {last.id} else {}
    ensures last.id !in OnlineIds(views)
  {
  }

  ghost predicate DistinctIds(views: seq<DeviceView>) {
    forall i, j | 0 <= i < j < |views| :: views[i].id != views[j].id
  }

  lemma DistinctInit(views: seq<DeviceView>)
    requires views != [] && DistinctIds(views)
    ensures DistinctIds(views[..|views| - 1])
    ensures forall v | v in views[..|views| - 1] :: v.id != views[|views| - 1].id
  {
  }

  lemma {:induction false} CountOnlineIsCardinality(views: seq<DeviceView>)
    requires DistinctIds(views)
    ensures CountOnline(views) == |OnlineIds(views)|
  {
    if views == [] {
      assert OnlineIds(views) == {};
    } else {
      var init, last := views[..|views| - 1], views[|views| - 1];
      DistinctInit(views);
      CountOnlineIsCardinality(init);
      OnlineIdsSnoc(init, last);
      assert views == init + [last];
    }
  }

  /** The entry has the columns of its own device, read as never seen and offline without a state row. */
  predicate Shows(t: Tables, v: DeviceView) {
    && v.id in t.devices && v.groupId == t.devices[v.id].groupId
    && (v.online <==> v.id in t.states && t.states[v.id].online != 0)
    && v.lastSeen == (if v.id in t.states then t.states[v.id].lastSeen else None)
    && v.firmware == (if v.id in t.states then t.states[v.id].firmware else Null)
  }

  /** The device list has one entry per device, strictly ascending by the code points of the id, with the
      device's own columns. */
  lemma ListDevicesExact(t: Tables)
    ensures var views := ListDevices(t);
            && |views| == |t.devices|
            && (forall i, j | 0 <= i < j < |views| ::
                  Order.Precedes(views[i].id, views[j].id) && views[i].id != views[j].id)
            && (forall v :: v in views <==> v.id in t.devices && v == ViewOf(t, v.id))
            && (forall v | v in views :: Shows(t, v))
  {
    var ids, views := Order.Sorted(t.devices.Keys), ListDevices(t);
    forall i, j | 0 <= i < j < |views| ensures views[i].id != views[j].id {
      Order.LessTrichotomy(ids[i], ids[j]);
    }
    forall i, j | 0 <= i < j < |views| ensures Order.Precedes(views[i].id, views[j].id) {
      Order.LessIffPrecedes(ids[i], ids[j]);
    }
    forall v ensures v in views <==> v.id in t.devices && v == ViewOf(t, v.id) {
      if v in views {
        var i :| 0 <= i < |views| && views[i] == v;
        assert ids[i] in ids;
      }
      if v.id in t.devices && v == ViewOf(t, v.id) {
        assert v.id in ids;
        var i :| 0 <= i < |ids| && ids[i] == v.id;
        assert views[i] == v;
      }
    }
  }

  /** `devices_online` counts exactly the entries the device list marks online. */
  lemma ViewsAgree(t: Tables)
    requires Consistent(t)
    ensures CountOnline(ListDevices(t)) == DevicesOnline(t)
  {
    var views := ListDevices(t);
    ListDevicesExact(t);
    CountOnlineIsCardinality(views);
    var listed, stored := OnlineIds(views), set id | id in t.states && t.states[id].online == 1;
    forall id ensures id in listed <==> id in stored {
      if id in stored {
        assert ViewOf(t, id) in views && ViewOf(t, id).online;
      }
    }
    assert listed == stored;
  }

  /** The devices whose group is listed. */
  function Grouped(t: Tables, views: seq<GroupView>): set<string> {
    set id | id in t.devices && exists v :: v in views && v.id == t.devices[id].groupId
  }

  lemma GroupedSnoc(t: Tables, views: seq<GroupView>, last: GroupView)
    requires forall v | v in views :: v.id != last.id
    ensures Grouped(t, views + [last]) == Grouped(t, views) + Members(t, last.id)
    ensures Grouped(t, views) !! Members(t, last.id)
  {
  }

  ghost predicate DistinctGroups(views: seq<GroupView>) {
    forall i, j | 0 <= i < j < |views| :: views[i].id != views[j].id
  }

  ghost predicate CountsMembers(t: Tables, views: seq<GroupView>) {
    forall i | 0 <= i < |views| :: views[i].deviceCount == |Members(t, views[i].id)|
  }

  lemma DistinctGroupsInit(views: seq<GroupView>)
    requires views != [] && DistinctGroups(views)
    ensures DistinctGroups(views[..|views| - 1])
    ensures forall v | v in views[..|views| - 1] :: v.id != views[|views| - 1].id
  {
  }

  lemma {:induction false} SumCountsIsUnion(t: Tables, views: seq<GroupView>)
    requires DistinctGroups(views)
    requires CountsMembers(t, views)
    ensures SumCounts(views) == |Grouped(t, views)|
  {
    if views == [] {
      assert Grouped(t, views) == {};
    } else {
      var init, last := views[..|views| - 1], views[|views| - 1];
      DistinctGroupsInit(views);
      SumCountsIsUnion(t, init);
      GroupedSnoc(t, init, last);
      assert views == init + [last];
    }
  }

  /** The group list has one entry per group, strictly ascending by the code points of the id, with its
      description and the number of its members. */
  lemma ListGroupsExact(t: Tables)
    ensures var views := ListGroups(t);
            && (forall i, j | 0 <= i < j < |views| :: Order.Precedes(views[i].id, views[j].id))
            && DistinctGroups(views) && CountsMembers(t, views)
            && (forall v :: v in views <==>
                  v.id in t.groups && v == GroupView(v.id, t.groups[v.id].description, |Members(t, v.id)|))
  {
    var ids, views := Order.Sorted(t.groups.Keys), ListGroups(t);
    forall i, j | 0 <= i < j < |views| ensures views[i].id != views[j].id && Order.Precedes(views[i].id, views[j].id) {
      Order.LessTrichotomy(ids[i], ids[j]);
      Order.LessIffPrecedes(ids[i], ids[j]);
    }
    forall v ensures v in views <==>
                     v.id in t.groups && v == GroupView(v.id, t.groups[v.id].description, |Members(t, v.id)|)
    {
      if v in views {
        var i :| 0 <= i < |views| && views[i] == v;
        assert ids[i] in ids;
      }
      if v.id in t.groups {
        assert v.id in ids;
        var i :| 0 <= i < |ids| && ids[i] == v.id;
        assert views[i].id == v.id && views[i] in views;
      }
    }
  }

  lemma GroupedIff(t: Tables, id: string)
    ensures id in Grouped(t, ListGroups(t)) <==> id in t.devices && t.devices[id].groupId in t.groups
  {
    ListGroupsExact(t);
    if id in t.devices && t.devices[id].groupId in t.groups {
      var g := t.devices[id].groupId;
      assert GroupView(g, t.groups[g].description, |Members(t, g)|) in ListGroups(t);
    }
  }

  lemma GroupedOrDangling(t: Tables)
    ensures |Grouped(t, ListGroups(t))| + |Dangling(t)| == |t.devices|
  {
    var grouped := Grouped(t, ListGroups(t));
    forall id ensures id in grouped <==> id in t.devices && t.devices[id].groupId in t.groups { GroupedIff(t, id); }
    assert grouped + Dangling(t) == t.devices.Keys;
  }

  /** Group counts and dangling devices add up to the device total. */
  lemma GroupConservation(t: Tables)
    ensures SumCounts(ListGroups(t)) + |Dangling(t)| == |t.devices|
  {
    ListGroupsExact(t);
    SumCountsIsUnion(t, ListGroups(t));
    GroupedOrDangling(t);
  }

  /** Deleting a group moves exactly its members to 'default', loses no device and leaves none
      naming the group. */
  lemma DeleteGroupMoves(t: Tables, id: string)
    requires id in t.groups && id != "default"
    ensures var t' := GroupDeleted(t, id);
            && |Members(t', "default")| == |Members(t, "default")| + |Members(t, id)|
            && t'.devices.Keys == t.devices.Keys
            && id !in t'.groups && Members(t', id) == {}
  {
    var t' := GroupDeleted(t, id);
    assert Members(t', "default") == Members(t, "default") + Members(t, id);
    assert Members(t, "default") !! Members(t, id);
  }

  /** Deleting a group changes nothing else: other groups keep their members, devices their other
      columns, and no device starts or stops dangling. */
  lemma DeleteGroupKeeps(t: Tables, id: string, d: string)
    requires Consistent(t) && id in t.groups && id != "default" && d in t.devices
    ensures var t' := GroupDeleted(t, id);
            && t'.devices[d].(groupId := "") == t.devices[d].(groupId := "")
            && (t.devices[d].groupId != id ==> t'.devices[d] == t.devices[d])
            && (d in Dangling(t') <==> d in Dangling(t))
            && t'.states == t.states && t'.shadows == t.shadows
            && t'.groups == t.groups - {id}
  {
    assert GroupDeleted(t, id).groups.Keys == t.groups.Keys - {id};
  }

  /** A new device dangles iff its group has no row; a new group adopts exactly the devices that
      already name it. */
  lemma DanglingChanges(t: Tables, id: string, row: DeviceRow, groupId: string, group: GroupRow)
    requires Consistent(t)
    ensures id !in t.devices ==>
              Dangling(Created(t, id, row)) == Dangling(t) + if row.groupId in t.groups then {} else {id}
    ensures groupId !in t.groups ==>
              && Dangling(GroupCreated(t, groupId, group)) == Dangling(t) - Members(t, groupId)
              && Members(t, groupId) <= Dangling(t)
  {
    assert GroupCreated(t, groupId, group).groups.Keys == t.groups.Keys + {groupId};
  }

  /** A patch moves the device to the group it names and writes the attributes it names; a column that is
      not named keeps its value. */
  lemma PatchWrites(t: Tables, id: string, groupId: Option<string>, attributes: Option<Dict>)
    requires id in t.devices
    ensures var t', was := Patched(t, id, groupId, attributes), t.devices[id].groupId;
            && (groupId.Some? ==>
                  && Members(t', groupId.value) == Members(t, groupId.value) + {id}
                  && forall g | g != groupId.value :: Members(t', g) == Members(t, g) - {id})
            && (groupId.None? ==> forall g :: Members(t', g) == Members(t, g))
            && t'.devices[id].attributes == (if attributes.Some? then attributes.value else t.devices[id].attributes)
            && Dangling(t') == if groupId.None? then Dangling(t)
                               else if groupId.value in t.groups then Dangling(t) - {id}
                               else Dangling(t) + {id}
  {
  }

  /** A new group is listed with its description and adopts the devices that already name it. */
  lemma NewGroupListed(t: Tables, id: string, row: GroupRow)
    requires id !in t.groups
    ensures var t' := GroupCreated(t, id, row);
            && t' == t.(groups := t.groups[id := row])
            && GroupView(id, row.description, |Members(t, id)|) in ListGroups(t')
  {
    var t' := GroupCreated(t, id, row);
    ListGroupsExact(t');
    assert Members(t', id) == Members(t, id);
  }

  /** The two columns of a patch are independent: together or one after the other in either order,
      the row ends the same, and no other row or column changes. */
  lemma PatchSplits(t: Tables, id: string, groupId: Option<string>, attributes: Option<Dict>)
    ensures var t' := Patched(t, id, groupId, attributes);
            && t' == Patched(Patched(t, id, groupId, None), id, None, attributes)
            && t' == Patched(Patched(t, id, None, attributes), id, groupId, None)
            && t'.devices.Keys == t.devices.Keys
            && (forall d | d in t.devices && d != id :: t'.devices[d] == t.devices[d])
            && (id in t.devices ==>
                  t'.devices[id].(groupId := "", attributes := map[]) ==
                  t.devices[id].(groupId := "", attributes := map[]))
            && t'.states == t.states && t'.shadows == t.shadows && t'.groups == t.groups
  {
    if id in t.devices {
      var t' := Patched(t, id, groupId, attributes);
      assert Patched(Patched(t, id, groupId, None), id, None, attributes).devices == t'.devices;
      assert Patched(Patched(t, id, None, attributes), id, groupId, None).devices == t'.devices;
    }
  }

  /** Deleting a device and creating it again leaves a fresh state and an empty shadow, and no
      other device notices. */
  lemma RecreatedIsFresh(t: Tables, id: string, row: DeviceRow)
    requires Consistent(t)
    ensures var t' := Created(DeleteDeviceRow(t, id), id, row);
            && t'.devices == t.devices[id := row]
            && t'.groups == t.groups
            && t'.states[id] == StateRow(0, None, Null, Null)
            && Desired(t', id) == map[] && Reported(t', id) == map[]
            && (forall d | d in t.devices && d != id ::
                  t'.states[d] == t.states[d] && Desired(t', d) == Desired(t, d) && Reported(t', d) == Reported(t, d))
  {
  }
}
