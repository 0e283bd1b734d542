/** The device shadow: drift between desired and reported, and the desired-state patch. */
module Shadow {
  import opened Json
  import opened Db
  import opened MqttPub
  import Topics

  /** `compute_delta` */
  function ComputeDelta(desired: Dict, reported: Dict): Dict {
    map k | k in desired && !PyEq(Get(reported, k), desired[k]) :: desired[k]
  }

  /** `reported` meets `desired`, where a desired null is also met by an absent key. */
  ghost predicate Satisfies(reported: Dict, desired: Dict) {
    forall k | k in desired ::
      if k in reported then PyEq(reported[k], desired[k]) else desired[k] == Null
  }

  lemma DeltaEmptyIffSatisfied(desired: Dict, reported: Dict)
    ensures ComputeDelta(desired, reported) == map[] <==> Satisfies(reported, desired)
  {
    var delta := ComputeDelta(desired, reported);
    if delta == map[] {
      forall k | k in desired
        ensures if k in reported then PyEq(reported[k], desired[k]) else desired[k] == Null
      {
        assert k !in delta;
      }
    }
  }

  /** The delta is a repair: it has exactly the keys in drift, each with its desired value, and merging it
      into what is reported leaves nothing unmet. */
  lemma DeltaRepairs(desired: Dict, reported: Dict)
    ensures var delta := ComputeDelta(desired, reported);
            && (forall k :: k in delta <==>
                  k in desired && !(if k in reported then PyEq(reported[k], desired[k]) else desired[k] == Null))
            && (forall k | k in delta :: delta[k] == desired[k])
            && Satisfies(reported + delta, desired)
  {
    forall k | k in desired ensures PyEq(desired[k], desired[k]) { PyEqReflexive(desired[k]); }
  }

  lemma DeltaAfterReport(desired: Dict, reported: Dict, s: Dict, k: string)
    requires s.Keys <= desired.Keys && forall k | k in s :: s[k] == desired[k]
    ensures k in ComputeDelta(desired, reported + s) <==> k in ComputeDelta(desired, reported) && k !in s
  {
    if k in desired { PyEqReflexive(desired[k]); }
  }

  /** The delta is the least repair: reporting a part `s` of the desired state on top empties the
      delta exactly when `s` has every key of the delta. */
  lemma DeltaIsLeastRepair(desired: Dict, reported: Dict, s: Dict)
    requires s.Keys <= desired.Keys && forall k | k in s :: s[k] == desired[k]
    ensures ComputeDelta(desired, reported + s) == map[] <==> ComputeDelta(desired, reported).Keys <= s.Keys
  {
    var before, after := ComputeDelta(desired, reported), ComputeDelta(desired, reported + s);
    forall k ensures k in after.Keys <==> k in before.Keys && k !in s.Keys {
      DeltaAfterReport(desired, reported, s, k);
    }
    assert after == map[] <==> after.Keys == {};
  }

  /** Drift only depends on what Python's equality sees of the two documents. */
  lemma DeltaRespectsEquality(d: Dict, e: Dict, r: Dict, s: Dict)
    requires PyEq(Obj(d), Obj(e)) && PyEq(Obj(r), Obj(s))
    ensures PyEq(Obj(ComputeDelta(d, r)), Obj(ComputeDelta(e, s)))
  {
    forall k | k in d.Keys
      ensures PyEq(Get(r, k), d[k]) <==> PyEq(Get(s, k), e[k])
    {
      var a, b := Get(r, k), Get(s, k);
      assert PyEq(a, b);
      PyEqSymmetric(a, b);
      PyEqSymmetric(d[k], e[k]);
      if PyEq(a, d[k]) { PyEqTransitive(b, a, d[k]); PyEqTransitive(b, d[k], e[k]); }
      if PyEq(b, e[k]) { PyEqTransitive(a, b, e[k]); PyEqTransitive(a, e[k], d[k]); }
    }
  }

  method LoadShadow(db: Database, id: string) returns (desired: Dict, reported: Dict)
    ensures desired == Desired(db.open, id) && reported == Reported(db.open, id)
  {
    if id !in db.open.shadows {
      return map[], map[];
    }
    desired, reported := db.open.shadows[id].desired, db.open.shadows[id].reported;
  }

  method GetShadow(db: Database, id: string) returns (status: int, desired: Dict, reported: Dict, delta: Dict)
    modifies db
    ensures db.file == old(db.file)
    ensures status == if id in db.file.devices then 200 else 404
    ensures status == 200 ==>
              && desired == Desired(db.file, id) && reported == Reported(db.file, id)
              && desired == (if id in db.file.shadows then db.file.shadows[id].desired else map[])
              && reported == (if id in db.file.shadows then db.file.shadows[id].reported else map[])
              && delta == ComputeDelta(desired, reported)
              && delta.Keys <= desired.Keys && (forall k | k in delta :: delta[k] == desired[k])
              && Satisfies(reported + delta, desired)
  {
    db.GetConnection();
    if id !in db.open.devices {
      db.Close();
      return 404, map[], map[], map[];
    }
    desired, reported := LoadShadow(db, id);
    db.Close();
    delta := ComputeDelta(desired, reported);
    DeltaRepairs(desired, reported);
    status := 200;
  }

  /** `desired.update(delta)`, commit, then a best-effort publish of the whole merged document. */
  method PatchDesired(db: Database, pub: Publisher, id: string, delta: Dict, now: int, accepted: bool)
    returns (status: int, desired: Dict)
    modifies db, pub
    ensures id !in old(db.file).devices ==>
              status == 404 && db.file == old(db.file) && pub.queue == old(pub.queue)
    ensures id in old(db.file).devices ==>
              && status == 200
              && desired == Desired(old(db.file), id) + delta
              && db.file == old(db.file).(
                   shadows := old(db.file).shadows[id := ShadowRow(desired, Reported(old(db.file), id), now)])
              && pub.queue == old(pub.queue) +
                              if accepted && Topics.Publishable(id)
                              then [Message("embediq/" + id + "/state/desired", desired, true)] else []
  {
    db.GetConnection();
    if id !in db.open.devices {
      db.Close();
      return 404, map[];
    }
    var reported;
    desired, reported := LoadShadow(db, id);
    desired := desired + delta;
    var upserted := UpsertDesired(db.open, id, desired, now);
    db.open := upserted.value;
    db.Commit();
    db.Close();
    Topics.PublishableIff(id);
    Topics.TopicsSpelled(id);
    pub.PublishRetained(Topics.DesiredTopic(id), desired, accepted);
    status := 200;
  }
}
