/** What the creation protocol promises over whole runs, and under which assumptions. */
module CreationGuarantees {
  import opened Options
  import opened RunStatus
  import opened HubRunStatus
  import opened RunRecord
  import opened CreationMachine

  // ---------------------------------------------------------------- the first outcome wins

  ghost predicate Closed(sh: Shared) { sh.record.Some? && !Open(sh.record.value.status) }

  ghost predicate Seen(sh: Shared, r: Record) {
    && r.version <= sh.last
    && (sh.record.Some? && sh.record.value.version == r.version ==> sh.record.value == r)
  }

  ghost predicate RecordValid(sh: Shared) {
    sh.record.Some? ==>
      var r := sh.record.value;
      && r.version == sh.last && r.created.Some? && r.hubOrigin
      && (r.Complete() ==>
           && sh.committed == {r.status.clusterName}
           && r.status.runName == sh.name && r.runKey == sh.key(r.status.clusterName, sh.name))
      && (!r.Complete() ==>
           && sh.committed == {} && r.pending
           && r.status.condition.None? && r.status.clusterName == "" && r.status.runName == "")
  }

  ghost predicate HistoryValid(sh: Shared) {
    && |sh.issued| <= 1 && |sh.outcomes| <= 1
    && (sh.committed == {} ==> sh.author.None? && sh.issued == [] && sh.outcomes == [])
    && (sh.committed != {} ==> sh.author.Some? && sh.record.Some? && sh.record.value.Complete())
    && (sh.issued == [] ==> sh.ran == {} && sh.inFlight == map[] && sh.landed == {})
    && sh.ran <= sh.committed
    && (forall p :: p in sh.landed ==> sh.ran != {})
    && (forall p :: p in sh.inFlight ==>
         sh.author == Some(p) && sh.ran == {} && sh.landed == {}
         && sh.inFlight[p].cluster in sh.committed
         && sh.record.Some? && sh.record.value.created == Some(sh.inFlight[p].created))
  }

  /** Whatever decides a record decides it for good: an outcome or the removal of the
      pending mark is there only when something is recorded. */
  ghost predicate OutcomeValid(sh: Shared) {
    && (sh.outcomes != [] ==> Closed(sh))
    && (sh.record.Some? && !sh.record.value.pending ==> Closed(sh))
  }

  ghost predicate CoreShared(sh: Shared) {
    sh.name != "" && RecordValid(sh) && HistoryValid(sh) && OutcomeValid(sh)
  }

  ghost predicate CoreProcess(sh: Shared, p: nat, q: Process) {
    match q
    case Idle => true
    case Creating(cluster) => cluster != ""
    case Recorded(cluster, base) =>
      && cluster != "" && Seen(sh, base)
      && base.status == EMPTY_STATUS && base.pending && base.hubOrigin && base.created.Some?
      && base.runKey == sh.key(cluster, sh.name)
    case Begun(cluster, created) =>
      && sh.author == Some(p) && sh.issued == [] && cluster in sh.committed
      && sh.record.Some? && sh.record.value.created == Some(created)
    case Issued(cluster) => sh.author == Some(p) && sh.issued != [] && cluster in sh.committed
    case Listed(seen, at) =>
      && at <= sh.now && seen.pending && seen.hubOrigin && seen.created.Some?
      && (seen.Complete() ==> ListedComplete(sh, seen))
    case Finishing(phase) => phase in {PHASE_CREATED, PHASE_FAILED} && sh.committed != {}
    case FinishRead(phase, seen) =>
      phase in {PHASE_CREATED, PHASE_FAILED} && sh.committed != {} && Seen(sh, seen) && Writable(seen)
    case Unmarking => sh.committed != {} && Closed(sh)
    case UnmarkRead(seen) => sh.committed != {} && Closed(sh) && Seen(sh, seen) && seen.pending
    case Observing(obs, _) => LegalAction(obs.action) && ProperReason(obs)
    case SyncRead(obs, _, seen) => LegalAction(obs.action) && ProperReason(obs) && Seen(sh, seen) && seen.Complete()
  }

  ghost predicate ListedComplete(sh: Shared, seen: Record) {
    && sh.committed == {seen.status.clusterName}
    && seen.status.runName == sh.name && seen.runKey == sh.key(seen.status.clusterName, sh.name)
    && sh.record.Some? && sh.record.value.created == seen.created
  }

  ghost predicate Core(w: World) {
    CoreShared(w.sh) && forall p: nat :: CoreProcess(w.sh, p, w.Proc(p))
  }

  /** Recovery deletes no record whose identity has been committed since it was listed. */
  ghost predicate NoRace(w: World, step: Step) {
    step.By? && step.action == Recover && w.Proc(step.p).Listed? && !w.Proc(step.p).seen.Complete() &&
    w.sh.record.Some? ==>
      !w.sh.record.value.Complete()
  }

  /** What no step takes back. */
  ghost predicate Evolves(s: Shared, t: Shared, p: nat) {
    && t.name == s.name && t.key == s.key && s.now <= t.now && s.last <= t.last
    && (t.record.Some? && t.record.value.version <= s.last ==> t.record == s.record)
    && (s.committed != {} ==>
         && t.committed == s.committed && t.author == s.author
         && s.record.Some? && t.record.Some? && t.record.value.created == s.record.value.created
         && (Closed(s) ==> Closed(t))
         && (!s.record.value.pending ==> !t.record.value.pending))
    && (t.issued == s.issued || t.author == Some(p))
    && (s.issued != [] ==> t.issued != [])
  }

  lemma Frame(s: Shared, t: Shared, p: nat, r: nat, q: Process)
    requires Evolves(s, t, p) && CoreProcess(s, r, q) && (r != p || t.issued == s.issued)
    requires s.committed == {} ==> s.author.None?
    ensures CoreProcess(t, r, q)
  {
  }

  lemma CoreCreator(sh: Shared, p: nat, q: Process, a: Action)
    requires CoreShared(sh) && CoreProcess(sh, p, q) && CanAct(sh, p, q, a)
    requires a.Start? || a.CreateRecord? || a.WriteIdentity? || a.IssueCreate? || a.AnswerOk? || a.AnswerRefused?
    ensures var (t, r) := Act(sh, p, q, a); CoreShared(t) && CoreProcess(t, p, r) && Evolves(sh, t, p)
  {
    var (t, r) := Act(sh, p, q, a);
    match a
    case WriteIdentity =>
      if Current(sh, q.base) {
        assert !q.base.Complete() && sh.committed == {};
        assert t.committed == {q.cluster};
      }
    case AnswerRefused =>
    case _ =>
  }

  lemma CoreFinisher(sh: Shared, p: nat, q: Process, a: Action)
    requires CoreShared(sh) && CoreProcess(sh, p, q) && CanAct(sh, p, q, a)
    requires a.ReadForOutcome? || a.RecordOutcome? || a.ReadForPending? || a.RemovePending?
    ensures var (t, r) := Act(sh, p, q, a); CoreShared(t) && CoreProcess(t, p, r) && Evolves(sh, t, p)
  {
    if a == RecordOutcome && Current(sh, q.seen) {
      assert q.phase[0] in {'C', 'F'};
    }
  }

  lemma CoreSync(sh: Shared, p: nat, q: Process, a: Action)
    requires CoreShared(sh) && CoreProcess(sh, p, q) && CanAct(sh, p, q, a)
    requires a.ReadRun? || a.ReadForSync? || a.WriteSync?
    ensures var (t, r) := Act(sh, p, q, a); CoreShared(t) && CoreProcess(t, p, r) && Evolves(sh, t, p)
  {
    if a.WriteSync? && Current(sh, q.seen) {
      SyncKeepsRecord(q.seen, SyncWrite(q.obs, a.clock));
    }
  }

  lemma SyncKeepsRecord(r: Record, w: SyncWrite)
    requires ProperReason(w.obs)
    ensures var s := ApplySync(r, w);
      && s.version == r.version + 1 && s.(version := r.version, status := r.status) == r
      && s.status.clusterName == r.status.clusterName && s.status.runName == r.status.runName
      && (!Open(r.status) ==> !Open(s.status))
  {
  }

  lemma CoreRecovery(sh: Shared, p: nat, q: Process, a: Action)
    requires CoreShared(sh) && CoreProcess(sh, p, q) && CanAct(sh, p, q, a)
    requires a.List? || a.Recover? || a.Stop?
    requires a == Recover && !q.seen.Complete() && sh.record.Some? ==> !sh.record.value.Complete()
    ensures var (t, r) := Act(sh, p, q, a); CoreShared(t) && CoreProcess(t, p, r) && Evolves(sh, t, p)
  {
  }

  lemma CoreEnvironment(sh: Shared, step: Step, p: nat)
    requires CoreShared(sh) && !step.By?
    requires step.Tick? ==> sh.now <= step.to
    requires step.AlertWrite? && sh.record.Some? ==> AlertFieldsOnly(sh.record.value.status, step.status)
    ensures var t := Environment(sh, step); CoreShared(t) && Evolves(sh, t, p) && t.issued == sh.issued
  {
  }

  lemma CoreAct(sh: Shared, p: nat, q: Process, a: Action)
    requires CoreShared(sh) && CoreProcess(sh, p, q) && CanAct(sh, p, q, a)
    requires a == Recover && !q.seen.Complete() && sh.record.Some? ==> !sh.record.value.Complete()
    ensures var (t, r) := Act(sh, p, q, a); CoreShared(t) && CoreProcess(t, p, r) && Evolves(sh, t, p)
  {
    match a
    case Start(_) | CreateRecord | WriteIdentity | IssueCreate | AnswerOk | AnswerRefused => CoreCreator(sh, p, q, a);
    case ReadForOutcome | RecordOutcome | ReadForPending | RemovePending => CoreFinisher(sh, p, q, a);
    case ReadRun(_) | ReadForSync | WriteSync(_) => CoreSync(sh, p, q, a);
    case _ => CoreRecovery(sh, p, q, a);
  }

  lemma CoreStep(w: World, step: Step)
    requires Core(w) && Enabled(w, step) && NoRace(w, step)
    ensures Core(Apply(w, step))
  {
    var v := Apply(w, step);
    var p := if step.By? then step.p else 0;
    assert CoreProcess(w.sh, p, w.Proc(p));
    if step.By? {
      CoreAct(w.sh, p, w.Proc(p), step.action);
    } else {
      CoreEnvironment(w.sh, step, p);
    }
    forall r: nat
      ensures CoreProcess(v.sh, r, v.Proc(r))
    {
      if !step.By? || r != p {
        assert v.Proc(r) == w.Proc(r) && CoreProcess(w.sh, r, w.Proc(r));
        Frame(w.sh, v.sh, p, r, w.Proc(r));
      }
    }
  }

  lemma InitialCore(w: World)
    requires Initial(w)
    ensures Core(w) && Backed(w)
  {
  }

  ghost predicate RaceFree(w: World, steps: seq<Step>)
    requires IsRun(w, steps)
    decreases |steps|
  {
    steps == [] || (NoRace(w, steps[0]) && RaceFree(Apply(w, steps[0]), steps[1..]))
  }

  lemma {:induction false} CoreRun(w: World, steps: seq<Step>)
    requires Core(w) && IsRun(w, steps) && RaceFree(w, steps)
    ensures Core(After(w, steps))
    decreases |steps|
  {
    if steps != [] {
      CoreStep(w, steps[0]);
      CoreRun(Apply(w, steps[0]), steps[1..]);
    }
  }

  /** The only thing that can break the protocol is a step that takes away the record of a
      committed identity. */
  lemma RaceExactly(w: World, step: Step)
    requires Core(w) && Enabled(w, step) && w.sh.committed != {}
    ensures NoRace(w, step) <==> Apply(w, step).sh.record.Some?
  {
    if NoRace(w, step) {
      CoreStep(w, step);
      CommittedGrows(w, step);
    }
  }

  lemma CommittedGrows(w: World, step: Step)
    requires Enabled(w, step)
    ensures w.sh.committed <= Apply(w, step).sh.committed
  {
  }

  /** In every state of the run the record of a committed identity is there. */
  ghost predicate RecordStays(w: World, steps: seq<Step>)
    requires IsRun(w, steps)
    decreases |steps|
  {
    && (w.sh.committed != {} ==> w.sh.record.Some?)
    && (steps == [] || RecordStays(Apply(w, steps[0]), steps[1..]))
  }

  /** A run is free of the race exactly when it never loses the record of a committed identity. */
  lemma {:induction false} RaceFreeExactly(w: World, steps: seq<Step>)
    requires Core(w) && IsRun(w, steps)
    ensures RaceFree(w, steps) <==> RecordStays(w, steps)
    decreases |steps|
  {
    if steps != [] {
      var v := Apply(w, steps[0]);
      CommittedGrows(w, steps[0]);
      if w.sh.committed != {} {
        RaceExactly(w, steps[0]);
      }
      if NoRace(w, steps[0]) {
        CoreStep(w, steps[0]);
        RaceFreeExactly(v, steps[1..]);
      }
    }
  }

  /** Whatever happens, a create is sent and a run of the operator exists only for an
      identity that some creator committed to the record first. */
  lemma RecordBeforeRun(w: World, steps: seq<Step>)
    requires Initial(w) && IsRun(w, steps)
    ensures var v := After(w, steps);
      && (forall p: nat :: CanAct(v.sh, p, v.Proc(p), IssueCreate) ==> v.Proc(p).cluster in v.sh.committed)
      && (forall i :: 0 <= i < |v.sh.issued| ==> v.sh.issued[i] in v.sh.committed)
      && (v.sh.run.Some? && v.sh.run.value.managed ==> v.sh.run.value.cluster in v.sh.committed)
  {
    InitialCore(w);
    BackedRun(w, steps);
    var v := After(w, steps);
    forall p: nat | CanAct(v.sh, p, v.Proc(p), IssueCreate)
      ensures v.Proc(p).cluster in v.sh.committed
    {
      assert BackedProcess(v.sh, v.Proc(p));
    }
  }

  /** Only a creator whose identity stands in the record sends a create, at most one
      create is ever sent, at most one outcome is ever written, and a record that is no
      longer pending has something recorded. */
  lemma AtMostOneRunAndOutcome(w: World, steps: seq<Step>)
    requires Initial(w) && IsRun(w, steps) && RaceFree(w, steps)
    ensures var sh := After(w, steps).sh;
      && |sh.issued| <= 1 && |sh.outcomes| <= 1
      && (sh.issued != [] ==>
           sh.record.Some? && sh.record.value.Complete() && sh.record.value.status.runName == sh.name)
      && (forall c :: c in sh.ran ==> sh.record.Some? && sh.record.value.status.clusterName == c)
      && (sh.record.Some? && !sh.record.value.pending ==> !Open(sh.record.value.status))
  {
    InitialCore(w);
    CoreRun(w, steps);
  }

  predicate Syncs(step: Step) { step.By? && step.action.WriteSync? }

  /** Once decided, a record keeps its phase until a condition arrives, and then only
      conditions change it: no finish ever overwrites an outcome or a condition. */
  lemma DecidedStep(w: World, step: Step)
    requires Core(w) && Enabled(w, step) && NoRace(w, step) && Closed(w.sh)
    ensures var v := Apply(w, step);
      && Closed(v.sh)
      && (v.sh.record.value.status.condition == w.sh.record.value.status.condition || Syncs(step))
      && (v.sh.record.value.status.condition.value.phase == w.sh.record.value.status.condition.value.phase ||
           HasCondition(v.sh.record.value.status))
      && (HasCondition(w.sh.record.value.status) ==> HasCondition(v.sh.record.value.status))
  {
    CoreStep(w, step);
    if step.By? {
      assert CoreProcess(w.sh, step.p, w.Proc(step.p));
    }
  }

  /** Over a whole run: what is decided stays, a condition that is there stays one, and as
      long as no sync writes, the whole condition stays as it is. */
  lemma {:induction false} FirstOutcomeWins(w: World, steps: seq<Step>)
    requires Core(w) && IsRun(w, steps) && RaceFree(w, steps) && Closed(w.sh)
    ensures var v := After(w, steps);
      && Closed(v.sh)
      && (v.sh.record.value.status.condition.value.phase == w.sh.record.value.status.condition.value.phase ||
           HasCondition(v.sh.record.value.status))
      && (HasCondition(w.sh.record.value.status) ==> HasCondition(v.sh.record.value.status))
      // Without a sync nothing at all changes it, whatever finishes and recoveries run.
      && ((forall i :: 0 <= i < |steps| ==> !Syncs(steps[i])) ==>
           v.sh.record.value.status.condition == w.sh.record.value.status.condition)
    decreases |steps|
  {
    if steps != [] {
      DecidedStep(w, steps[0]);
      CoreStep(w, steps[0]);
      FirstOutcomeWins(Apply(w, steps[0]), steps[1..]);
    }
  }

  /** To the alert queue, the creation protocol is a writer of the phase only: although a
      finish writes the whole status back, the lock keeps it from undoing anything. */
  lemma OnlyPhaseWritten(w: World, p: nat, action: Action)
    requires Core(w) && Enabled(w, By(p, action)) && NoRace(w, By(p, action))
    requires w.sh.record.Some? && w.sh.record.value.Complete() && !action.WriteSync?
    ensures var v := Apply(w, By(p, action));
      && v.sh.record.Some?
      && (v.sh.record.value.status == w.sh.record.value.status ||
          exists phase :: v.sh.record.value.status == WithPhase(w.sh.record.value.status, phase))
  {
    assert CoreProcess(w.sh, p, w.Proc(p));
    if action.RecordOutcome? {
      var v := Apply(w, By(p, action));
      assert v.sh.record == w.sh.record ||
        v.sh.record.value.status == WithPhase(w.sh.record.value.status, w.Proc(p).phase);
    }
  }

  // ---------------------------------------------------------------- outcomes tell the truth

  /** A create takes effect within `landWithin` of the creation of its record or never, and
      unless `deletes` a run is not deleted while its record is pending. */
  ghost predicate Honest(w: World, step: Step, landWithin: int, deletes: bool) {
    && (step.Land? && step.p in w.sh.inFlight ==> w.sh.now < w.sh.inFlight[step.p].created + landWithin)
    && (step.DeleteRun? && w.sh.record.Some? && w.sh.record.value.pending ==> deletes)
  }

  /** No run of this name exists, has existed, or can still come into existence. */
  ghost predicate Dead(sh: Shared) {
    && sh.ran == {}
    && sh.record.Some? && sh.record.value.created.Some?
    && ((sh.issued != [] && sh.inFlight == map[]) || sh.now >= sh.record.value.created.value + PENDING_RUN_GRACE)
  }

  ghost predicate Justified(sh: Shared, phase: string) {
    phase == PHASE_FAILED ==> Dead(sh) || (sh.record.Some? && !sh.record.value.pending)
  }

  ghost predicate TruthProcess(sh: Shared, q: Process) {
    q.Finishing? || q.FinishRead? ==> Justified(sh, q.phase)
  }

  ghost predicate TruthShared(sh: Shared) {
    && (PHASE_FAILED in sh.outcomes ==> Dead(sh))
    && (sh.ran != {} && sh.record.Some? && sh.record.value.pending ==>
         sh.run.Some? && sh.run.value.managed && sh.run.value.cluster in sh.ran)
  }

  ghost predicate Truth(w: World) {
    TruthShared(w.sh) && forall p: nat :: TruthProcess(w.sh, w.Proc(p))
  }

  /** What keeps the justification of an outcome. */
  ghost predicate KeepsTruth(s: Shared, t: Shared) {
    && s.ran <= t.ran && (Dead(s) ==> Dead(t))
    && (s.committed != {} && s.record.Some? && !s.record.value.pending ==> t.record.Some? && !t.record.value.pending)
  }

  ghost predicate TruthKept(s: Shared, t: Shared, q: Process) {
    TruthShared(t) && TruthProcess(t, q) && (s.committed != {} ==> KeepsTruth(s, t))
  }

  lemma TruthCreator(sh: Shared, p: nat, q: Process, a: Action)
    requires CoreShared(sh) && CoreProcess(sh, p, q) && CanAct(sh, p, q, a) && TruthShared(sh)
    requires a.Start? || a.CreateRecord? || a.WriteIdentity? || a.IssueCreate?
    ensures var (t, r) := Act(sh, p, q, a); TruthKept(sh, t, r)
  {
  }

  lemma TruthAnswer(sh: Shared, p: nat, q: Process, a: Action)
    requires CoreShared(sh) && CoreProcess(sh, p, q) && CanAct(sh, p, q, a) && TruthShared(sh)
    requires a.AnswerOk? || a.AnswerRefused?
    ensures var (t, r) := Act(sh, p, q, a); TruthKept(sh, t, r)
  {
    assert PHASE_CREATED[0] != PHASE_FAILED[0];
    if a.AnswerRefused? {
      assert forall k :: k in sh.inFlight ==> k == p;
      assert Act(sh, p, q, a).0.inFlight == map[];
    }
  }

  lemma TruthFinisher(sh: Shared, p: nat, q: Process, a: Action)
    requires CoreShared(sh) && CoreProcess(sh, p, q) && CanAct(sh, p, q, a)
    requires TruthShared(sh) && TruthProcess(sh, q)
    requires a.ReadForOutcome? || a.RecordOutcome? || a.ReadForPending? || a.RemovePending?
    ensures var (t, r) := Act(sh, p, q, a); TruthKept(sh, t, r)
  {
    assert PHASE_CREATED[0] != PHASE_FAILED[0];
  }

  lemma TruthRecovery(sh: Shared, p: nat, q: Process, a: Action)
    requires CoreShared(sh) && CoreProcess(sh, p, q) && CanAct(sh, p, q, a) && BackedShared(sh) && TruthShared(sh)
    requires a.List? || a.Recover? || a.Stop?
    requires a == Recover && !q.seen.Complete() && sh.record.Some? ==> !sh.record.value.Complete()
    ensures var (t, r) := Act(sh, p, q, a); TruthKept(sh, t, r)
  {
    assert PHASE_CREATED[0] != PHASE_FAILED[0];
  }

  lemma TruthSync(sh: Shared, p: nat, q: Process, a: Action)
    requires CoreShared(sh) && CoreProcess(sh, p, q) && CanAct(sh, p, q, a) && TruthShared(sh)
    requires a.ReadRun? || a.ReadForSync? || a.WriteSync?
    ensures var (t, r) := Act(sh, p, q, a); TruthKept(sh, t, r)
  {
    if a.WriteSync? && Current(sh, q.seen) {
      SyncKeepsRecord(q.seen, SyncWrite(q.obs, a.clock));
    }
  }

  lemma TruthAct(sh: Shared, p: nat, q: Process, a: Action)
    requires CoreShared(sh) && CoreProcess(sh, p, q) && CanAct(sh, p, q, a) && BackedShared(sh)
    requires a == Recover && !q.seen.Complete() && sh.record.Some? ==> !sh.record.value.Complete()
    requires TruthShared(sh) && TruthProcess(sh, q)
    ensures var (t, r) := Act(sh, p, q, a); TruthKept(sh, t, r)
  {
    match a
    case Start(_) | CreateRecord | WriteIdentity | IssueCreate => TruthCreator(sh, p, q, a);
    case AnswerOk | AnswerRefused => TruthAnswer(sh, p, q, a);
    case ReadForOutcome | RecordOutcome | ReadForPending | RemovePending => TruthFinisher(sh, p, q, a);
    case ReadRun(_) | ReadForSync | WriteSync(_) => TruthSync(sh, p, q, a);
    case _ => TruthRecovery(sh, p, q, a);
  }

  lemma TruthEnvironment(sh: Shared, step: Step)
    requires CoreShared(sh) && BackedShared(sh) && TruthShared(sh) && !step.By?
    requires step.Tick? ==> sh.now <= step.to
    requires step.ForeignRun? ==> sh.run.None?
    requires step.Land? && step.p in sh.inFlight ==> sh.now < sh.inFlight[step.p].created + PENDING_RUN_GRACE
    requires step.DeleteRun? && sh.record.Some? ==> !sh.record.value.pending
    ensures TruthShared(Environment(sh, step)) && KeepsTruth(sh, Environment(sh, step))
  {
    var t := Environment(sh, step);
    if step.Lose? && Dead(sh) && sh.inFlight == map[] {
      assert t.inFlight == map[];
    }
  }

  lemma TruthStep(w: World, step: Step)
    requires Core(w) && Backed(w) && Truth(w) && Enabled(w, step) && NoRace(w, step)
    requires Honest(w, step, PENDING_RUN_GRACE, false)
    ensures Truth(Apply(w, step))
  {
    var v := Apply(w, step);
    if step.By? {
      assert CoreProcess(w.sh, step.p, w.Proc(step.p)) && TruthProcess(w.sh, w.Proc(step.p));
      TruthAct(w.sh, step.p, w.Proc(step.p), step.action);
    } else {
      TruthEnvironment(w.sh, step);
    }
    forall r: nat
      ensures TruthProcess(v.sh, v.Proc(r))
    {
      if !step.By? || r != step.p {
        assert v.Proc(r) == w.Proc(r) && TruthProcess(w.sh, w.Proc(r)) && CoreProcess(w.sh, r, w.Proc(r));
      }
    }
  }

  ghost predicate HonestRun(w: World, steps: seq<Step>, landWithin: int, deletes: bool)
    requires IsRun(w, steps)
    decreases |steps|
  {
    steps == [] ||
    (Honest(w, steps[0], landWithin, deletes) && HonestRun(Apply(w, steps[0]), steps[1..], landWithin, deletes))
  }

  lemma {:induction false} TruthRun(w: World, steps: seq<Step>, landWithin: int)
    requires Core(w) && Backed(w) && Truth(w) && landWithin <= PENDING_RUN_GRACE
    requires IsRun(w, steps) && RaceFree(w, steps) && HonestRun(w, steps, landWithin, false)
    ensures Truth(After(w, steps))
    decreases |steps|
  {
    if steps != [] {
      TruthStep(w, steps[0]);
      CoreStep(w, steps[0]);
      BackedStep(w, steps[0]);
      TruthRun(Apply(w, steps[0]), steps[1..], landWithin);
    }
  }

  // ---------------------------------------------------------------- Created

  ghost predicate RanShared(sh: Shared) {
    (sh.landed != {} || PHASE_CREATED in sh.outcomes) ==> sh.ran != {}
  }

  ghost predicate RanProcess(sh: Shared, q: Process) {
    (q.Finishing? || q.FinishRead?) && q.phase == PHASE_CREATED ==> sh.ran != {}
  }

  ghost predicate RanValid(w: World) {
    RanShared(w.sh) && forall p: nat :: RanProcess(w.sh, w.Proc(p))
  }

  lemma RanAct(sh: Shared, p: nat, q: Process, a: Action)
    requires RanShared(sh) && RanProcess(sh, q) && BackedShared(sh) && CanAct(sh, p, q, a)
    ensures var (t, r) := Act(sh, p, q, a); RanShared(t) && RanProcess(t, r) && t.ran == sh.ran
  {
    assert PHASE_CREATED[0] != PHASE_FAILED[0];
  }

  lemma RanStep(w: World, step: Step)
    requires RanValid(w) && Backed(w) && Enabled(w, step)
    ensures RanValid(Apply(w, step))
  {
    var v := Apply(w, step);
    if step.By? {
      assert RanProcess(w.sh, w.Proc(step.p));
      RanAct(w.sh, step.p, w.Proc(step.p), step.action);
    }
    assert w.sh.ran <= v.sh.ran;
    forall r: nat
      ensures RanProcess(v.sh, v.Proc(r))
    {
      assert RanProcess(w.sh, w.Proc(r));
    }
  }

  lemma {:induction false} RanRun(w: World, steps: seq<Step>)
    requires RanValid(w) && Backed(w) && IsRun(w, steps)
    ensures RanValid(After(w, steps))
    decreases |steps|
  {
    if steps != [] {
      RanStep(w, steps[0]);
      BackedStep(w, steps[0]);
      RanRun(Apply(w, steps[0]), steps[1..]);
    }
  }

  /** Created is never written, in any run at all, unless a run of the name has existed,
      for an identity that was committed. */
  lemma CreatedMeansRun(w: World, steps: seq<Step>)
    requires Initial(w) && IsRun(w, steps)
    ensures var sh := After(w, steps).sh;
      PHASE_CREATED in sh.outcomes ==> sh.ran != {} && sh.ran <= sh.committed
  {
    InitialCore(w);
    RanRun(w, steps);
    BackedRun(w, steps);
  }

  // ---------------------------------------------------------------- the stored outcome

  /** The record itself says how its creation ended: its phase is no condition's reason. */
  ghost predicate Says(sh: Shared, phase: string) {
    && sh.record.Some? && sh.record.value.status.condition.Some? && !HasCondition(sh.record.value.status)
    && sh.record.value.status.condition.value.phase == phase
  }

  /** Whatever a record says before it has a condition was written by a finish. */
  ghost predicate SaysWritten(sh: Shared) {
    forall phase :: Says(sh, phase) ==> phase in {"", PHASE_PENDING} || phase in sh.outcomes
  }

  lemma SaysWrittenAct(sh: Shared, p: nat, q: Process, a: Action)
    requires CoreShared(sh) && CoreProcess(sh, p, q) && CanAct(sh, p, q, a) && SaysWritten(sh)
    ensures SaysWritten(Act(sh, p, q, a).0)
  {
    var t := Act(sh, p, q, a).0;
    forall phase | Says(t, phase)
      ensures phase in {"", PHASE_PENDING} || phase in t.outcomes
    {
      if t.record != sh.record {
        SaysBefore(sh, p, q, a, phase);
      } else {
        assert Says(sh, phase);
      }
    }
  }

  lemma SaysBefore(sh: Shared, p: nat, q: Process, a: Action, phase: string)
    requires CoreShared(sh) && CoreProcess(sh, p, q) && CanAct(sh, p, q, a) && SaysWritten(sh)
    requires Act(sh, p, q, a).0.record != sh.record && Says(Act(sh, p, q, a).0, phase)
    ensures phase in {"", PHASE_PENDING} || phase in Act(sh, p, q, a).0.outcomes
  {
    var t := Act(sh, p, q, a).0;
    match a
    case WriteSync(clock) =>
      assert q.seen == sh.record.value;
      assert phase == "" || Says(sh, phase);
    case RemovePending =>
      assert q.seen == sh.record.value && Says(sh, phase);
    case RecordOutcome =>
      assert phase == q.phase;
    case _ =>
  }

  lemma SaysWrittenStep(w: World, step: Step)
    requires Core(w) && Enabled(w, step) && SaysWritten(w.sh)
    ensures SaysWritten(Apply(w, step).sh)
  {
    if step.By? {
      assert CoreProcess(w.sh, step.p, w.Proc(step.p));
      SaysWrittenAct(w.sh, step.p, w.Proc(step.p), step.action);
    } else {
      var t := Environment(w.sh, step);
      forall phase | Says(t, phase)
        ensures phase in {"", PHASE_PENDING} || phase in t.outcomes
      {
        assert Says(w.sh, phase);
      }
    }
  }

  lemma {:induction false} SaysWrittenRun(w: World, steps: seq<Step>)
    requires Core(w) && IsRun(w, steps) && RaceFree(w, steps) && SaysWritten(w.sh)
    ensures SaysWritten(After(w, steps).sh)
    decreases |steps|
  {
    if steps != [] {
      SaysWrittenStep(w, steps[0]);
      CoreStep(w, steps[0]);
      SaysWrittenRun(Apply(w, steps[0]), steps[1..]);
    }
  }

  /** Created, written or stored, is true: the run existed with the identity of the record. */
  ghost predicate CreatedTrue(sh: Shared) {
    PHASE_CREATED in sh.outcomes || Says(sh, PHASE_CREATED) ==>
      sh.record.Some? && sh.ran == {sh.record.value.status.clusterName}
  }

  /** Failed, written or stored, is true: the run has never existed. */
  ghost predicate FailedTrue(sh: Shared) {
    PHASE_FAILED in sh.outcomes || Says(sh, PHASE_FAILED) ==> sh.ran == {}
  }

  /** Outcomes are true, the written ones and those the record holds: Created in every run
      free of the race; Failed in those, too, in which creates land within the grace
      period or never and no run is deleted while its record is pending. */
  lemma TruthfulOutcomes(w: World, steps: seq<Step>, landWithin: int, deletes: bool)
    requires Initial(w) && IsRun(w, steps) && RaceFree(w, steps)
    ensures CreatedTrue(After(w, steps).sh)
    ensures HonestRun(w, steps, landWithin, deletes) && landWithin <= PENDING_RUN_GRACE && !deletes ==>
      FailedTrue(After(w, steps).sh)
  {
    InitialCore(w);
    CoreRun(w, steps);
    CreatedMeansRun(w, steps);
    SaysWrittenRun(w, steps);
    PhasesDiffer();
    if HonestRun(w, steps, landWithin, deletes) && landWithin <= PENDING_RUN_GRACE && !deletes {
      TruthRun(w, steps, landWithin);
    }
  }

  lemma PhasesDiffer()
    ensures PHASE_CREATED != PHASE_FAILED && PHASE_CREATED != PHASE_PENDING && PHASE_FAILED != PHASE_PENDING
    ensures PHASE_CREATED != "" && PHASE_FAILED != ""
  {
    assert PHASE_CREATED[0] == 'C' && PHASE_FAILED[0] == 'F' && PHASE_PENDING[0] == 'P';
  }

  // ---------------------------------------------------------------- what rules the race out

  /** Begin writes the identity within `beginWithin` of creating the record, a recovery
      pass acts within `lag` of listing, and recovery passes do not overlap. */
  ghost predicate Timely(w: World, step: Step, beginWithin: int, lag: int) {
    step.By? ==>
      var q := w.Proc(step.p);
      match step.action
      case WriteIdentity =>
        q.Recorded? && q.base.created.Some? ==> w.sh.now < q.base.created.value + beginWithin
      case Recover => q.Listed? ==> w.sh.now <= q.at + lag
      case List => forall r: nat :: !w.Proc(r).Listed?
      case _ => true
  }

  ghost predicate TimeProcess(sh: Shared, q: Process) {
    q.Listed? ==>
      && q.at <= sh.now
      && sh.record.Some? && sh.record.value.created == q.seen.created
      && (!q.seen.Complete() && sh.record.value.Complete() ==> q.at <= sh.committedAt)
  }

  ghost predicate TimeShared(sh: Shared, beginWithin: int) {
    sh.record.Some? && sh.record.value.Complete() ==>
      && sh.record.value.created.Some?
      && sh.committedAt <= sh.now && sh.committedAt < sh.record.value.created.value + beginWithin
  }

  ghost predicate TimeValid(w: World, beginWithin: int) {
    && TimeShared(w.sh, beginWithin)
    && (forall p: nat :: TimeProcess(w.sh, w.Proc(p)))
    && (forall p: nat, r: nat :: w.Proc(p).Listed? && w.Proc(r).Listed? ==> p == r)
  }

  lemma TimelyMeansNoRace(w: World, step: Step, beginWithin: int, lag: int)
    requires TimeValid(w, beginWithin) && Enabled(w, step) && Timely(w, step, beginWithin, lag)
    requires beginWithin + lag <= PENDING_RUN_GRACE
    ensures NoRace(w, step)
  {
    if step.By? {
      assert TimeProcess(w.sh, w.Proc(step.p));
    }
  }

  /** What keeps a listed snapshot timely. */
  ghost predicate KeepsTime(s: Shared, t: Shared) {
    && s.now <= t.now
    && (s.record.Some? ==>
         && t.record.Some? && t.record.value.created == s.record.value.created
         && (t.record.value.Complete() ==>
              if s.record.value.Complete() then t.committedAt == s.committedAt else s.now <= t.committedAt))
  }

  lemma TimeKept(w: World, step: Step)
    requires Core(w) && Enabled(w, step) && NoRace(w, step)
    requires !(step.By? && step.action.Recover? && !w.Proc(step.p).seen.Complete())
    ensures KeepsTime(w.sh, Apply(w, step).sh)
  {
    if step.By? {
      assert CoreProcess(w.sh, step.p, w.Proc(step.p));
    }
  }

  /** The step's own process keeps its snapshot timely. */
  lemma TimeOwn(w: World, step: Step, lag: int, beginWithin: int)
    requires Core(w) && TimeValid(w, beginWithin) && Enabled(w, step) && step.By?
    requires Timely(w, step, beginWithin, lag) && NoRace(w, step)
    ensures TimeProcess(Apply(w, step).sh, Apply(w, step).Proc(step.p))
    ensures TimeShared(Apply(w, step).sh, beginWithin)
  {
    assert CoreProcess(w.sh, step.p, w.Proc(step.p)) && TimeProcess(w.sh, w.Proc(step.p));
  }

  lemma OneListed(w: World, step: Step, beginWithin: int, lag: int, p: nat, r: nat)
    requires TimeValid(w, beginWithin) && Enabled(w, step) && Timely(w, step, beginWithin, lag)
    requires Apply(w, step).Proc(p).Listed? && Apply(w, step).Proc(r).Listed?
    ensures p == r
  {
    assert w.Proc(p).Listed? || (step.By? && step.p == p && step.action.List?);
    assert w.Proc(r).Listed? || (step.By? && step.p == r && step.action.List?);
  }

  lemma TimeStep(w: World, step: Step, beginWithin: int, lag: int)
    requires Core(w) && TimeValid(w, beginWithin) && Enabled(w, step) && Timely(w, step, beginWithin, lag)
    requires NoRace(w, step)
    ensures TimeValid(Apply(w, step), beginWithin)
  {
    var v := Apply(w, step);
    if step.By? {
      TimeOwn(w, step, lag, beginWithin);
    }
    var deletes := step.By? && step.action.Recover? && !w.Proc(step.p).seen.Complete();
    if !deletes {
      TimeKept(w, step);
    }
    forall r: nat
      ensures TimeProcess(v.sh, v.Proc(r))
    {
      assert TimeProcess(w.sh, w.Proc(r));
      assert (step.By? && r == step.p) || v.Proc(r) == w.Proc(r);
    }
    forall p: nat, r: nat | v.Proc(p).Listed? && v.Proc(r).Listed?
      ensures p == r
    {
      OneListed(w, step, beginWithin, lag, p, r);
    }
  }

  ghost predicate TimelyRun(w: World, steps: seq<Step>, beginWithin: int, lag: int)
    requires IsRun(w, steps)
    decreases |steps|
  {
    steps == [] ||
    (Timely(w, steps[0], beginWithin, lag) && TimelyRun(Apply(w, steps[0]), steps[1..], beginWithin, lag))
  }

  lemma {:induction false} TimelyRunIsRaceFree(w: World, steps: seq<Step>, beginWithin: int, lag: int)
    requires Core(w) && TimeValid(w, beginWithin) && IsRun(w, steps) && TimelyRun(w, steps, beginWithin, lag)
    requires beginWithin + lag <= PENDING_RUN_GRACE
    ensures RaceFree(w, steps)
    decreases |steps|
  {
    if steps != [] {
      TimelyMeansNoRace(w, steps[0], beginWithin, lag);
      CoreStep(w, steps[0]);
      TimeStep(w, steps[0], beginWithin, lag);
      TimelyRunIsRaceFree(Apply(w, steps[0]), steps[1..], beginWithin, lag);
    }
  }

  /** So the grace period rules the race out when Begin and a recovery pass fit into it. */
  lemma GraceRulesOutRace(w: World, steps: seq<Step>, beginWithin: int, lag: int)
    requires Initial(w) && IsRun(w, steps) && TimelyRun(w, steps, beginWithin, lag)
    requires beginWithin + lag <= PENDING_RUN_GRACE
    ensures RaceFree(w, steps)
  {
    InitialCore(w);
    TimelyRunIsRaceFree(w, steps, beginWithin, lag);
  }
}
