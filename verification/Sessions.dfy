/** What the bridge still learns of a device when its session is lost. */
module Sessions {
  import opened Prelude
  import opened Json
  import opened Db
  import opened Topics
  import opened Shadow
  import opened ControlPlane
  import opened Delivery
  import opened Fleet

  datatype Answer = Answer(reported: Dict, retain: bool)

  /** `f` is a report of the device. */
  predicate Answers(w: World, f: Move, id: string) {
    f.Apply? && f.id == id && Applies(w, id, f.reported) && Publishable(ReportedTopic(id))
  }

  /** The last report the device made. */
  ghost function LastAnswer(fs: seq<Move>, id: string): Option<Answer> {
    if fs == [] then None
    else
      var init, f := fs[..|fs| - 1], fs[|fs| - 1];
      if Answers(Play(init), f, id) then Some(Answer(f.reported, f.retain)) else LastAnswer(init, id)
  }

  /** The last report the device made with the retain flag. */
  ghost function LastKept(fs: seq<Move>, id: string): Option<Dict> {
    if fs == [] then None
    else
      var init, f := fs[..|fs| - 1], fs[|fs| - 1];
      if Answers(Play(init), f, id) && f.retain then Some(f.reported) else LastKept(init, id)
  }

  lemma ToldAfter(w: World, f: Move, id: string)
    ensures Told(Next(w, f), id) == if Answers(w, f, id) && f.retain then Some(f.reported) else Told(w, id)
  {
  }

  /** The broker retains the last report that was made with the flag, whatever happened since. */
  lemma {:induction false} ToldIsLastKept(fs: seq<Move>, id: string)
    ensures Told(Play(fs), id) == LastKept(fs, id)
  {
    if fs == [] {
    } else {
      ToldIsLastKept(fs[..|fs| - 1], id);
      ToldAfter(Play(fs[..|fs| - 1]), fs[|fs| - 1], id);
    }
  }

  /** The device reported while registered, and since then it stayed so, nobody else reported in its
      name and the bridge kept its session. */
  ghost predicate Reporting(fs: seq<Move>, id: string) {
    fs != [] &&
    var init, f := fs[..|fs| - 1], fs[|fs| - 1];
    if Answers(Play(init), f, id) then id in Play(init).cloud.tables.devices
    else Reporting(init, id) && Unspoken(f, id) && f != Resubscribe && !IsRestart(f)
  }

  lemma ReportAnswered(w: World, f: Move, id: string)
    requires Answers(w, f, id)
    ensures NewestReport(Next(w, f), id) == f.reported && Next(w, f).cloud == w.cloud
  {
  }

  lemma UplinkStays(w: World, f: Move, id: string)
    requires f != Resubscribe && !IsRestart(f) && !Answers(w, f, id) && (f.Take? ==> Uplink(w, id) == [])
    ensures Uplink(Next(w, f), id) == Uplink(w, id)
  {
  }

  lemma ReportStays(w: World, f: Move, id: string)
    requires id in w.cloud.tables.devices && '/' !in id && Unspoken(f, id) && f != Resubscribe && !IsRestart(f)
    requires !Answers(w, f, id)
    ensures NewestReport(Next(w, f), id) == NewestReport(w, id)
  {
    match f {
      case Cloud(e) => LegsAfterCloud(w, e, id);
      case Take(who, now) => LegsAfterTake(w, id, who, now);
      case _ =>
        CloudAfter(w, f);
        UplinkStays(w, f, id);
    }
  }

  lemma {:induction false} AnswerIsNewest(fs: seq<Move>, id: string)
    requires Reporting(fs, id) && '/' !in id
    ensures id in Play(fs).cloud.tables.devices
    ensures LastAnswer(fs, id).Some? && NewestReport(Play(fs), id) == LastAnswer(fs, id).value.reported
    ensures LastAnswer(fs, id).value.retain ==> LastKept(fs, id) == Some(LastAnswer(fs, id).value.reported)
  {
    var init, f := fs[..|fs| - 1], fs[|fs| - 1];
    if Answers(Play(init), f, id) {
      ReportAnswered(Play(init), f, id);
    } else {
      AnswerIsNewest(init, id);
      RegisteredAfter(Play(init), f, id);
      ReportStays(Play(init), f, id);
    }
  }

  /** Nobody reports in the name of the registered device, itself included. */
  predicate Silent(f: Move, id: string) {
    Unspoken(f, id) && !(f.Apply? && f.id == id)
  }

  /** `report` is all the bridge can still learn of the device. */
  predicate Resumed(w: World, id: string, report: Dict) {
    && id in w.cloud.tables.devices && NewestReport(w, id) == report
    && if Told(w, id).Some? then Told(w, id).value == report else Uplink(w, id) == []
  }

  lemma ResumedOnReset(w: World, f: Move, id: string)
    requires id in w.cloud.tables.devices && (f == Resubscribe || IsRestart(f))
    ensures Resumed(Next(w, f), id, if Told(w, id).Some? then Told(w, id).value else Reported(w.cloud.tables, id))
  {
  }

  lemma ResumedMove(w: World, f: Move, id: string, report: Dict)
    requires Resumed(w, id, report) && Silent(f, id) && '/' !in id
    ensures Resumed(Next(w, f), id, report)
  {
    if f == Resubscribe || IsRestart(f) {
      ResumedOnReset(w, f, id);
    } else {
      RegisteredAfter(w, f, id);
      ReportStays(w, f, id);
      ToldAfter(w, f, id);
      if Told(w, id).None? { UplinkStays(w, f, id); }
    }
  }

  lemma {:induction false} StaysResumed(start: seq<Move>, ext: seq<Move>, id: string, report: Dict)
    requires Resumed(Play(start), id, report) && '/' !in id
    requires forall f | f in ext :: Silent(f, id)
    ensures Resumed(Play(start + ext), id, report)
  {
    if ext == [] {
      assert start + ext == start;
    } else {
      var init, f := ext[..|ext| - 1], ext[|ext| - 1];
      assert ext == init + [f];
      StaysResumed(start, init, id, report);
      PlayExtended(start, ext);
      ResumedMove(Play(start + init), f, id, report);
    }
  }

  /** When the bridge loses its session after a report, alone or in a restart, the report survives
      exactly when it was made with the retain flag, or an earlier one made with the flag is the same,
      or none ever was and the row holds it already. If not, it is lost until the device reports again,
      whatever else happens. */
  lemma ResubscribeKeepsIff(fs: seq<Move>, reset: Move, ext: seq<Move>, id: string)
    requires Reporting(fs, id) && '/' !in id && (reset == Resubscribe || IsRestart(reset))
    requires forall f | f in ext :: Silent(f, id)
    ensures LastAnswer(fs, id).Some? && NewestReport(Play(fs), id) == LastAnswer(fs, id).value.reported
    ensures var a, kept := LastAnswer(fs, id).value, LastKept(fs, id);
            NewestReport(Play(fs + [reset] + ext), id) == a.reported <==>
            || a.retain
            || (if kept.Some? then kept.value else Reported(Play(fs).cloud.tables, id)) == a.reported
  {
    AnswerIsNewest(fs, id);
    ToldIsLastKept(fs, id);
    PlaySnoc(fs, reset);
    ResumedOnReset(Play(fs), reset, id);
    var kept := LastKept(fs, id);
    StaysResumed(fs + [reset], ext, id, if kept.Some? then kept.value else Reported(Play(fs).cloud.tables, id));
  }

  lemma OldReportTaken(w: World, id: string, row: DeviceRow, now: int)
    requires Consistent(w.cloud.tables) && '/' !in id && Told(w, id).Some?
    ensures var created := Next(Next(w, Cloud(DeleteDevice(id))), Cloud(PostDevice(id, row)));
            && Reported(created.cloud.tables, id) == map[]
            && Reported(Next(Next(created, Resubscribe), Take(id, now)).cloud.tables, id) == Told(w, id).value
  {
    var deleted := Next(w, Cloud(DeleteDevice(id)));
    var created := Next(deleted, Cloud(PostDevice(id, row)));
    var resumed := Next(created, Resubscribe);
    assert resumed.uplink[id] == [w.told[id]] && id in resumed.cloud.tables.devices;
    ReportReaches(resumed.cloud, id, w.told[id], now, id);
  }

  /** Nor does the other direction start afresh: after a deletion and a new creation the shadow reports
      nothing, until the bridge subscribes again and is handed the last report that the device of the
      old life retained. */
  lemma RecreatedGetsOldReport(fs: seq<Move>, id: string, row: DeviceRow, now: int)
    requires '/' !in id && LastKept(fs, id).Some?
    ensures var created := fs + [Cloud(DeleteDevice(id))] + [Cloud(PostDevice(id, row))];
            && Reported(Play(created).cloud.tables, id) == map[]
            && Reported(Play(created + [Resubscribe] + [Take(id, now)]).cloud.tables, id) == LastKept(fs, id).value
  {
    var deleted := fs + [Cloud(DeleteDevice(id))];
    var created := deleted + [Cloud(PostDevice(id, row))];
    ToldIsLastKept(fs, id);
    CloudIsRun(fs);
    AlwaysConsistent(CloudEvents(fs));
    OldReportTaken(Play(fs), id, row, now);
    PlaySnoc(fs, Cloud(DeleteDevice(id)));
    PlaySnoc(deleted, Cloud(PostDevice(id, row)));
    PlaySnoc(created, Resubscribe);
    PlaySnoc(created + [Resubscribe], Take(id, now));
  }

  lemma AwayMove(w: World, f: Move, id: string)
    requires Delivers(w, f, id) && id !in w.inbox && Uplink(w, id) == []
    ensures var w' := Next(w, f);
            w'.cloud == w.cloud && w'.told == w.told && id !in w'.inbox && Uplink(w', id) == []
  {
  }

  lemma {:induction false} AwayStays(fs: seq<Move>, ext: seq<Move>, id: string)
    requires DeliveryRun(fs, ext, id) && id !in Play(fs).inbox && Uplink(Play(fs), id) == []
    ensures var w, w' := Play(fs), Play(fs + ext);
            w'.cloud == w.cloud && w'.told == w.told && id !in w'.inbox && Uplink(w', id) == []
  {
    if ext == [] {
      assert fs + ext == fs;
    } else {
      var init, f := ext[..|ext| - 1], ext[|ext| - 1];
      AwayStays(fs, init, id);
      PlayExtended(fs, ext);
      AwayMove(Play(fs + init), f, id);
    }
  }

  /** A run that leaves `p` stored and retained, nothing under way and the device away. */
  lemma RetainedWhileAway(p: Dict) returns (fs: seq<Move>)
    ensures var w := Play(fs);
            && Quiet(w, "d") && "d" !in w.inbox && "d" !in w.told && Retained(w, "d") == Some(p)
            && "d" in w.cloud.tables.devices
            && Desired(w.cloud.tables, "d") == p && Reported(w.cloud.tables, "d") == map[]
  {
    var before := PatchedWhileAway(p);
    var ext := DeliveryComesToRest(before, "d");
    AwayStays(before, ext, "d");
    DeliveryOnly(before, ext, "d");
    OutsideKeepsSynced(before, ext, "d");
    fs := before + ext;
    PipelineHeals(fs, "d");
  }

  lemma UnretainedStep(w: World, id: string, p: Dict)
    requires Quiet(w, id) && id !in w.told && Retained(w, id) == Some(p) && Publishable(id)
    ensures var given := Next(w, Connect(id));
            var lost := Next(Next(given, Apply(id, p, false)), Resubscribe);
            && Answers(given, Apply(id, p, false), id)
            && Quiet(lost, id) && lost.cloud == w.cloud && id in lost.inbox
  {
    HandedOwn(w.retained, id);
    PublishableIff(id);
    SelfSatisfies(p);
    var given := Next(w, Connect(id));
    assert Inbox(given, id) == [p] && given.queue == [];
  }

  /** For every document: the device is given it, reports it without the retain flag, and the bridge
      loses its session. The device has what it should, nothing is under way, and the shadow delta is
      not empty unless all that is asked for is null. */
  lemma UnretainedReportLost(p: Dict) returns (fs: seq<Move>)
    ensures Reporting(fs, "d") && LastAnswer(fs, "d") == Some(Answer(p, false))
    ensures var w := Play(fs + [Resubscribe]);
            var delta := ComputeDelta(Desired(w.cloud.tables, "d"), Reported(w.cloud.tables, "d"));
            && Quiet(w, "d") && "d" in w.inbox && Desired(w.cloud.tables, "d") == p
            && (delta == map[] <==> forall k | k in p :: p[k] == Null)
  {
    var away := RetainedWhileAway(p);
    UnretainedStep(Play(away), "d", p);
    fs := away + [Connect("d")] + [Apply("d", p, false)];
    PlaySnoc(away, Connect("d"));
    PlaySnoc(away + [Connect("d")], Apply("d", p, false));
    PlaySnoc(fs, Resubscribe);
    assert fs[..|fs| - 1] == away + [Connect("d")];
    ConnectKeepsCloud(away, "d");
    DeltaEmptyIffSatisfied(p, map[]);
  }
}
