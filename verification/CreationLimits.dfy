/** The assumptions of CreationGuarantees cannot be dropped: concrete runs, and the exact
    bound that the grace period puts on Begin and recovery. */
module CreationLimits {
  import opened Options
  import opened RunStatus
  import opened RunRecord
  import opened CreationMachine
  import opened CreationGuarantees
  import opened CreationRefinement

  /** A run of the operator exists while its record does not. */
  ghost predicate RunWithoutRecord(w: World) {
    w.sh.record.None? && w.sh.run.Some? && w.sh.run.value.managed
  }

  /** The record says that creation failed, and yet the run exists. */
  ghost predicate FailedButRunning(w: World) {
    && w.sh.record.Some? && w.sh.record.value.status.condition.Some?
    && w.sh.record.value.status.condition.value.phase == PHASE_FAILED && !w.sh.record.value.pending
    && w.sh.run == Some(Run(w.sh.record.value.status.clusterName, true))
  }

  function Fresh(key: Digest): World {
    World(Shared("run", key, 0, 0, None, None, map[], {}, None, {}, 0, [], {}, []), map[])
  }

  // ---------------------------------------------------------------- runs that keep the assumptions

  /** Begin writes the identity within `beginWithin`, recovery acts within `lag`, a create
      takes effect within `landWithin` or never, and runs of pending records are deleted
      only if `deletes`. */
  datatype Assumptions = Assumptions(beginWithin: int, lag: int, landWithin: int, deletes: bool)
  {
    predicate Proper() { 0 < beginWithin && 0 <= lag && 0 < landWithin }

    /** The grace period covers all of it. */
    predicate Covered() {
      beginWithin + lag <= PENDING_RUN_GRACE && landWithin <= PENDING_RUN_GRACE && !deletes
    }

    ghost predicate KeptBy(w: World, steps: seq<Step>)
      requires IsRun(w, steps)
    {
      TimelyRun(w, steps, beginWithin, lag) && HonestRun(w, steps, landWithin, deletes)
    }

    ghost predicate Allow(w: World, step: Step) {
      Timely(w, step, beginWithin, lag) && Honest(w, step, landWithin, deletes)
    }
  }

  ghost predicate KeptReaches(w: World, v: World, a: Assumptions) {
    exists steps :: IsRun(w, steps) && a.KeptBy(w, steps) && After(w, steps) == v
  }

  lemma {:induction false} ExtendKept(w: World, steps: seq<Step>, step: Step, a: Assumptions)
    requires IsRun(w, steps) && a.KeptBy(w, steps)
    requires Enabled(After(w, steps), step) && a.Allow(After(w, steps), step)
    ensures IsRun(w, steps + [step]) && a.KeptBy(w, steps + [step])
    ensures After(w, steps + [step]) == Apply(After(w, steps), step)
    decreases |steps|
  {
    if steps == [] {
      assert [step][1..] == [];
      assert IsRun(Apply(w, step), []);
    } else {
      assert (steps + [step])[1..] == steps[1..] + [step];
      ExtendKept(Apply(w, steps[0]), steps[1..], step, a);
    }
  }

  lemma ThenKept(w: World, v: World, step: Step, a: Assumptions) returns (u: World)
    requires KeptReaches(w, v, a) && Enabled(v, step) && a.Allow(v, step)
    ensures u == Apply(v, step) && KeptReaches(w, u, a)
  {
    var steps :| IsRun(w, steps) && a.KeptBy(w, steps) && After(w, steps) == v;
    ExtendKept(w, steps, step, a);
    u := Apply(v, step);
  }

  // ---------------------------------------------------------------- the race

  function EarlyRecord(key: Digest): Record {
    Record(1, key("spoke", "run"), true, true, Some(0), EMPTY_STATUS)
  }

  /** Creator 0 has created the record. */
  lemma RecordCreated(key: Digest, a: Assumptions) returns (w: World)
    requires a.Proper()
    ensures KeptReaches(Fresh(key), w, a)
    ensures w.sh == Fresh(key).sh.(last := 1, record := Some(EarlyRecord(key)))
    ensures w.procs == map[0 := Recorded("spoke", EarlyRecord(key))]
  {
    var f := Fresh(key);
    assert IsRun(f, []) && a.KeptBy(f, []) && After(f, []) == f;
    w := ThenKept(f, f, By(0, Start("spoke")), a);
    w := ThenKept(f, w, By(0, CreateRecord), a);
    assert w.procs == map[0 := Recorded("spoke", EarlyRecord(key))];
  }

  /** Pass 1 has listed it just before its identity has to be written. */
  lemma ListedLate(key: Digest, a: Assumptions) returns (w: World)
    requires a.Proper()
    ensures KeptReaches(Fresh(key), w, a)
    ensures w.sh == Fresh(key).sh.(now := a.beginWithin - 1, last := 1, record := Some(EarlyRecord(key)))
    ensures w.procs == map[0 := Recorded("spoke", EarlyRecord(key)), 1 := Listed(EarlyRecord(key), a.beginWithin - 1)]
  {
    w := RecordCreated(key, a);
    w := ThenKept(Fresh(key), w, Tick(a.beginWithin - 1), a);
    w := ThenKept(Fresh(key), w, By(1, List), a);
  }

  /** Then creator 0 writes the identity, as late as it may, and sends its create. */
  lemma LateIdentity(key: Digest, a: Assumptions) returns (w: World)
    requires a.Proper()
    ensures KeptReaches(Fresh(key), w, a)
    ensures w.sh.run.None? && w.sh.now == a.beginWithin - 1 && w.sh.issued == ["spoke"]
    ensures w.sh.inFlight == map[0 := Flight("spoke", 0)] && w.Proc(0) == Issued("spoke")
    ensures w.Proc(1) == Listed(EarlyRecord(key), a.beginWithin - 1) && w.Proc(2) == Idle
  {
    var f := Fresh(key);
    w := ListedLate(key, a);
    assert w.Proc(0) == Recorded("spoke", EarlyRecord(key)) && w.Proc(1).Listed?;
    w := ThenKept(f, w, By(0, WriteIdentity), a);
    assert w.Proc(0) == Begun("spoke", 0);
    w := ThenKept(f, w, By(0, IssueCreate), a);
  }

  /** And pass 1 deletes the record, if the bounds let it. */
  lemma DeletesCompleted(f: World, w: World, a: Assumptions) returns (v: World)
    requires a.Proper() && a.beginWithin + a.lag > PENDING_RUN_GRACE
    requires KeptReaches(f, w, a) && w.sh.now == a.beginWithin - 1
    requires w.Proc(1).Listed? && w.Proc(1).at == w.sh.now
    requires w.Proc(1).seen.created == Some(0) && !w.Proc(1).seen.Complete()
    ensures KeptReaches(f, v, a) && v.sh.record.None?
    ensures v.sh == w.sh.(record := None, now := v.sh.now) && v.sh.now < FloorSecond(v.sh.now) + a.beginWithin
    ensures forall p: nat :: p != 1 ==> v.Proc(p) == w.Proc(p)
  {
    var late := if a.beginWithin - 1 < PENDING_RUN_GRACE then PENDING_RUN_GRACE else a.beginWithin - 1;
    v := ThenKept(f, w, Tick(late), a);
    v := ThenKept(f, v, By(1, Recover), a);
  }

  /** If Begin and the lag of recovery exceed the grace period together, however little,
      the pass deletes the record of the run, and another creator sends a second create. */
  lemma LooseBoundsRace(key: Digest, a: Assumptions) returns (orphaned: World, twice: World)
    requires a.Proper() && a.beginWithin + a.lag > PENDING_RUN_GRACE && a.beginWithin <= a.landWithin
    ensures KeptReaches(Fresh(key), orphaned, a) && RunWithoutRecord(orphaned)
    ensures KeptReaches(Fresh(key), twice, a) && |twice.sh.issued| == 2
  {
    var f := Fresh(key);
    var w := LateIdentity(key, a);
    w := ThenKept(f, w, Land(0), a);
    orphaned := DeletesCompleted(f, w, a);
    twice := SecondCreate(f, orphaned, a);
  }

  /** Without a record the name is free for another creator, if Begin is prompt enough. */
  lemma SecondCreate(f: World, w: World, a: Assumptions) returns (v: World)
    requires KeptReaches(f, w, a) && w.sh.record.None? && w.Proc(2) == Idle
    requires w.sh.now < FloorSecond(w.sh.now) + a.beginWithin
    ensures KeptReaches(f, v, a) && v.sh.issued == w.sh.issued + ["spoke"]
    ensures v.sh.record.Some? && Writable(v.sh.record.value) && !HasCondition(v.sh.record.value.status)
    ensures v.sh.inFlight == w.sh.inFlight[2 := Flight("spoke", FloorSecond(w.sh.now))]
    ensures v.sh.run == w.sh.run && v.sh.now == w.sh.now
    ensures forall p: nat :: p != 2 ==> v.Proc(p) == w.Proc(p)
  {
    v := ThenKept(f, w, By(2, Start("spoke")), a);
    v := ThenKept(f, v, By(2, CreateRecord), a);
    assert v.Proc(2) == Recorded("spoke", v.sh.record.value);
    assert v.sh.record.value.created == Some(FloorSecond(w.sh.now));
    v := ThenKept(f, v, By(2, WriteIdentity), a);
    v := ThenKept(f, v, By(2, IssueCreate), a);
  }

  /** What the protocol promises of every run that keeps these times. */
  ghost predicate RacesExcluded(beginWithin: int, lag: int) {
    forall w, steps :: Initial(w) && IsRun(w, steps) && TimelyRun(w, steps, beginWithin, lag) ==> RaceFree(w, steps)
  }

  ghost predicate OneCreate(beginWithin: int, lag: int) {
    forall w, steps :: Initial(w) && IsRun(w, steps) && TimelyRun(w, steps, beginWithin, lag) ==>
      |After(w, steps).sh.issued| <= 1
  }

  ghost predicate RunsRecorded(beginWithin: int, lag: int) {
    forall w, steps :: Initial(w) && IsRun(w, steps) && TimelyRun(w, steps, beginWithin, lag) ==>
      !RunWithoutRecord(After(w, steps))
  }

  /** The bound is exact: the race is excluded, at most one create is sent, and no run is
      without its record, each if and only if the time of Begin and the lag of recovery
      add up to no more than the grace period. */
  lemma GraceIsExact(beginWithin: int, lag: int)
    requires 0 < beginWithin && 0 <= lag
    ensures RacesExcluded(beginWithin, lag) <==> beginWithin + lag <= PENDING_RUN_GRACE
    ensures OneCreate(beginWithin, lag) <==> beginWithin + lag <= PENDING_RUN_GRACE
    ensures RunsRecorded(beginWithin, lag) <==> beginWithin + lag <= PENDING_RUN_GRACE
  {
    if beginWithin + lag <= PENDING_RUN_GRACE {
      forall w, steps | Initial(w) && IsRun(w, steps) && TimelyRun(w, steps, beginWithin, lag)
        ensures RaceFree(w, steps) && |After(w, steps).sh.issued| <= 1 && !RunWithoutRecord(After(w, steps))
      {
        GraceRulesOutRace(w, steps, beginWithin, lag);
        RecordOfRun(w, steps);
      }
    } else {
      var key: Digest := (cluster, name) => "";
      var f := Fresh(key);
      var a := Assumptions(beginWithin, lag, beginWithin, false);
      var orphaned, twice := LooseBoundsRace(key, a);
      var lost :| IsRun(f, lost) && a.KeptBy(f, lost) && After(f, lost) == orphaned;
      var again :| IsRun(f, again) && a.KeptBy(f, again) && After(f, again) == twice;
      if RaceFree(f, again) {
        RecordOfRun(f, again);
      }
      assert Initial(f) && !RaceFree(f, again);
    }
  }

  lemma RecordOfRun(w: World, steps: seq<Step>)
    requires Initial(w) && IsRun(w, steps) && RaceFree(w, steps)
    ensures |After(w, steps).sh.issued| <= 1 && !RunWithoutRecord(After(w, steps))
  {
    AtMostOneRunAndOutcome(w, steps);
    InitialCore(w);
    BackedRun(w, steps);
  }

  // ---------------------------------------------------------------- outcomes that are not true

  /** A failure is on record, written and stored, although a run has existed. */
  ghost predicate FalseFailure(sh: Shared) {
    PHASE_FAILED in sh.outcomes && Says(sh, PHASE_FAILED) && sh.ran != {}
  }

  /** Creator 0 has sent its create in time. */
  lemma SentInTime(key: Digest, a: Assumptions) returns (w: World)
    requires a.Proper()
    ensures KeptReaches(Fresh(key), w, a)
    ensures w.procs == map[0 := Issued("spoke")] && w.sh.now == 0 && w.sh.run.None?
    ensures w.sh.inFlight == map[0 := Flight("spoke", 0)]
    ensures w.sh.record.Some? && Writable(w.sh.record.value) && PendingSince(w.sh.record.value)
  {
    var f := Fresh(key);
    w := RecordCreated(key, a);
    w := ThenKept(f, w, By(0, WriteIdentity), a);
    assert w.procs == map[0 := Begun("spoke", 0)];
    w := ThenKept(f, w, By(0, IssueCreate), a);
    assert w.procs == map[0 := Issued("spoke")];
  }

  /** A complete pending record that was created at time 0. */
  predicate PendingSince(r: Record) {
    r.pending && r.hubOrigin && r.created == Some(0) && r.Complete() && !HasCondition(r.status)
  }

  /** Recovery finds no run after the grace period and writes the failure. */
  lemma GivesUp(f: World, w: World, a: Assumptions) returns (v: World)
    requires a.Proper() && KeptReaches(f, w, a) && w.procs == map[0 := Issued("spoke")]
    requires w.sh.now == 0 && w.sh.run.None?
    requires w.sh.record.Some? && Writable(w.sh.record.value) && PendingSince(w.sh.record.value)
    ensures KeptReaches(f, v, a) && PHASE_FAILED in v.sh.outcomes && Says(v.sh, PHASE_FAILED)
    ensures v.sh.ran == w.sh.ran && v.sh.inFlight == w.sh.inFlight && v.sh.run.None? && v.sh.now == PENDING_RUN_GRACE
  {
    var r := w.sh.record.value;
    v := ThenKept(f, w, Tick(PENDING_RUN_GRACE), a);
    v := ThenKept(f, v, By(1, List), a);
    assert v.Proc(1) == Listed(r, PENDING_RUN_GRACE);
    v := ThenKept(f, v, By(1, Recover), a);
    assert v.Proc(1) == Finishing(PHASE_FAILED) && v.sh == w.sh.(now := PENDING_RUN_GRACE);
    v := WritesFailure(f, v, 1, a);
  }

  /** A process that is to record a failure does so, whosever record it finds. */
  lemma WritesFailure(f: World, w: World, p: nat, a: Assumptions) returns (v: World)
    requires KeptReaches(f, w, a) && w.Proc(p) == Finishing(PHASE_FAILED)
    requires w.sh.record.Some? && Writable(w.sh.record.value) && !HasCondition(w.sh.record.value.status)
    ensures KeptReaches(f, v, a) && PHASE_FAILED in v.sh.outcomes && Says(v.sh, PHASE_FAILED)
    ensures v.sh == w.sh.(record := v.sh.record, last := v.sh.last, outcomes := v.sh.outcomes)
  {
    v := ThenKept(f, w, By(p, ReadForOutcome), a);
    assert v.Proc(p) == FinishRead(PHASE_FAILED, w.sh.record.value) && v.sh == w.sh;
    v := ThenKept(f, v, By(p, RecordOutcome), a);
  }

  /** A create that takes effect at the end of the grace period, or a run that is deleted
      while its record is pending, is called a failure. */
  lemma DishonestFailure(key: Digest, a: Assumptions) returns (v: World)
    requires a.Proper() && (a.landWithin > PENDING_RUN_GRACE || a.deletes)
    ensures KeptReaches(Fresh(key), v, a) && FalseFailure(v.sh)
  {
    var f := Fresh(key);
    v := SentInTime(key, a);
    if a.deletes {
      v := ThenKept(f, v, Land(0), a);
      v := ThenKept(f, v, DeleteRun, a);
      v := GivesUp(f, v, a);
    } else {
      v := GivesUp(f, v, a);
      v := ThenKept(f, v, Land(0), a);
    }
  }

  /** After the race two creates are on their way. */
  lemma TwoOnTheWay(key: Digest, a: Assumptions) returns (v: World)
    requires a.Proper() && a.beginWithin + a.lag > PENDING_RUN_GRACE
    ensures KeptReaches(Fresh(key), v, a) && v.Proc(0) == Issued("spoke") && v.sh.run.None?
    ensures 0 in v.sh.inFlight && 2 in v.sh.inFlight && v.sh.inFlight[2].created == v.sh.now
    ensures v.sh.record.Some? && Writable(v.sh.record.value) && !HasCondition(v.sh.record.value.status)
  {
    var f := Fresh(key);
    v := LateIdentity(key, a);
    v := DeletesCompleted(f, v, a);
    assert v.Proc(0) == Issued("spoke") && v.Proc(2) == Idle;
    v := ThenKept(f, v, Tick(FloorSecond(v.sh.now) + SECOND), a);
    assert v.Proc(0) == Issued("spoke") && v.Proc(2) == Idle;
    v := SecondCreate(f, v, a);
  }

  /** The second one lands; the first creator, refused, writes its failure to the record of
      the second. */
  lemma RacingFailure(key: Digest, a: Assumptions) returns (v: World)
    requires a.Proper() && a.beginWithin + a.lag > PENDING_RUN_GRACE
    ensures KeptReaches(Fresh(key), v, a) && FalseFailure(v.sh)
  {
    var f := Fresh(key);
    v := TwoOnTheWay(key, a);
    v := ThenKept(f, v, Land(2), a);
    assert v.Proc(0) == Issued("spoke") && v.sh.ran != {};
    v := ThenKept(f, v, By(0, AnswerRefused), a);
    v := WritesFailure(f, v, 0, a);
  }

  /** In every run that keeps the assumptions, a failure that was written is true. */
  ghost predicate WrittenFailuresTrue(a: Assumptions) {
    forall w, steps :: Initial(w) && IsRun(w, steps) && a.KeptBy(w, steps) ==>
      (PHASE_FAILED in After(w, steps).sh.outcomes ==> After(w, steps).sh.ran == {})
  }

  /** And so is one that a record holds. */
  ghost predicate StoredFailuresTrue(a: Assumptions) {
    forall w, steps :: Initial(w) && IsRun(w, steps) && a.KeptBy(w, steps) ==>
      (Says(After(w, steps).sh, PHASE_FAILED) ==> After(w, steps).sh.ran == {})
  }

  /** Failed can be relied on exactly when the grace period covers both Begin with recovery
      and the time a create may take, and runs of pending records are not deleted. */
  lemma FailedIsExact(a: Assumptions)
    requires a.Proper()
    ensures WrittenFailuresTrue(a) <==> a.Covered()
    ensures StoredFailuresTrue(a) <==> a.Covered()
  {
    if a.Covered() {
      forall w, steps | Initial(w) && IsRun(w, steps) && a.KeptBy(w, steps)
        ensures FailedTrue(After(w, steps).sh)
      {
        GraceRulesOutRace(w, steps, a.beginWithin, a.lag);
        TruthfulOutcomes(w, steps, a.landWithin, a.deletes);
      }
    } else {
      var key: Digest := (cluster, name) => "";
      var v;
      if a.beginWithin + a.lag > PENDING_RUN_GRACE {
        v := RacingFailure(key, a);
      } else {
        v := DishonestFailure(key, a);
      }
      var steps :| IsRun(Fresh(key), steps) && a.KeptBy(Fresh(key), steps) && After(Fresh(key), steps) == v;
      assert Initial(Fresh(key));
    }
  }

  /** Without the race, whatever the times of Begin and recovery. */
  ghost predicate RaceFreeFailuresTrue(landWithin: int, deletes: bool) {
    forall w, steps ::
      Initial(w) && IsRun(w, steps) && RaceFree(w, steps) && HonestRun(w, steps, landWithin, deletes) ==>
        FailedTrue(After(w, steps).sh)
  }

  /** In runs free of the race it is the other two conditions that are exact. */
  lemma FailedIsExactWithoutRace(landWithin: int, deletes: bool)
    requires 0 < landWithin
    ensures RaceFreeFailuresTrue(landWithin, deletes) <==> landWithin <= PENDING_RUN_GRACE && !deletes
  {
    if landWithin <= PENDING_RUN_GRACE && !deletes {
      forall w, steps |
        Initial(w) && IsRun(w, steps) && RaceFree(w, steps) && HonestRun(w, steps, landWithin, deletes)
        ensures FailedTrue(After(w, steps).sh)
      {
        TruthfulOutcomes(w, steps, landWithin, deletes);
      }
    } else {
      var key: Digest := (cluster, name) => "";
      var a := Assumptions(1, 0, landWithin, deletes);
      var v := DishonestFailure(key, a);
      var steps :| IsRun(Fresh(key), steps) && a.KeptBy(Fresh(key), steps) && After(Fresh(key), steps) == v;
      GraceRulesOutRace(Fresh(key), steps, 1, 0);
    }
  }

  /** Creator 0 has created the record and sent its create; nothing has answered it. */
  lemma SendCreate(key: Digest) returns (w: World)
    ensures Reaches(Fresh(key), w) && w.Proc(1) == Idle && w.Proc(2) == Idle && w.Proc(0) == Issued("spoke")
    ensures w.sh.run.None? && w.sh.inFlight == map[0 := Flight("spoke", 0)] && w.sh.now == 0
    ensures w.sh.name == "run" && w.sh.key == key
    ensures w.sh.record == Some(Record(2, key("spoke", "run"), true, true, Some(0), BegunStatus("run", "spoke")))
  {
    var f := Fresh(key);
    assert IsRun(f, []) && After(f, []) == f;
    w := Then(f, f, By(0, Start("spoke")));
    w := Then(f, w, By(0, CreateRecord));
    assert w.procs == map[0 := Recorded("spoke", EarlyRecord(key))];
    w := Then(f, w, By(0, WriteIdentity));
    assert w.procs == map[0 := Begun("spoke", 0)];
    w := Then(f, w, By(0, IssueCreate));
  }

  /** Recovery finds no run after the grace period and records the failure. */
  lemma CallFailed(f: World, w: World) returns (v: World)
    requires Reaches(f, w) && w.Proc(1) == Idle && w.Proc(2) == Idle && w.sh.run.None? && w.sh.now == 0
    requires w.sh.record == Some(Record(2, w.sh.key("spoke", "run"), true, true, Some(0), BegunStatus("run", "spoke")))
    ensures Reaches(f, v) && v.sh.run.None? && v.sh.inFlight == w.sh.inFlight && v.sh.ran == w.sh.ran
    ensures v.sh.record.Some? && !v.sh.record.value.pending
    ensures v.sh.record.value.status == WithPhase(BegunStatus("run", "spoke"), PHASE_FAILED)
  {
    var r := w.sh.record.value;
    v := Then(f, w, Tick(PENDING_RUN_GRACE));
    v := Then(f, v, By(1, List));
    assert v.Proc(1) == Listed(r, PENDING_RUN_GRACE) && v.Proc(2) == Idle && v.sh == w.sh.(now := PENDING_RUN_GRACE);
    v := Does(f, v, 1, Recover);
    v := FinishRun(f, v, 1, 2, PHASE_FAILED, [], []);
    CalmFailure(r);
  }

  lemma CalmFailure(r: Record)
    requires r.pending && r.status == BegunStatus("run", "spoke")
    ensures var s := Finish(r, PHASE_FAILED, [], []).0;
      !s.pending && s.status == WithPhase(BegunStatus("run", "spoke"), PHASE_FAILED)
  {
    SecondFinishChangesNothing(r, PHASE_FAILED, PHASE_FAILED);
    FinishSettles(r, PHASE_FAILED, [], []);
  }

  /** If a create takes effect after the grace period, recovery has called it failed. */
  lemma LateCreateContradictsFailed(key: Digest)
    ensures exists v :: Initial(Fresh(key)) && Reaches(Fresh(key), v) && FailedButRunning(v)
  {
    var f := Fresh(key);
    var sent := SendCreate(key);
    var w := CallFailed(f, sent);
    w := Then(f, w, Land(0));
    assert Initial(f) && Reaches(f, w) && FailedButRunning(w);
  }

  /** If a run is deleted while its record is pending, recovery calls it failed although
      it has existed. */
  lemma DeletedRunCalledFailed(key: Digest)
    ensures exists v ::
      && Initial(Fresh(key)) && Reaches(Fresh(key), v)
      && v.sh.ran != {} && v.sh.record.Some?
      && v.sh.record.value.status == WithPhase(BegunStatus("run", "spoke"), PHASE_FAILED)
  {
    var f := Fresh(key);
    var w := SendCreate(key);
    w := Then(f, w, Land(0));
    w := Then(f, w, DeleteRun);
    var v := CallFailed(f, w);
    assert Initial(f) && Reaches(f, v) && v.sh.ran != {};
  }
}
