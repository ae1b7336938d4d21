/** The creation protocol of one run name as a state machine. Any number of creators,
    recovery passes and status syncs work on the record and the run of that name; every
    step is one access to the API server, and every process may stop after any step.
    (Records and runs of different names never meet: both are keyed by the name.) */
module CreationMachine {
  import opened Options
  import opened RunStatus
  import opened HubRunStatus
  import opened RunRecord

  /** A create of the run that was sent and has neither taken effect nor been refused. */
  datatype Flight = Flight(cluster: string, created: Time)

  datatype Shared = Shared(
    name: string,
    key: Digest,
    now: Time,
    last: nat,                     // the newest version given to a record
    record: Option<Record>,
    run: Option<Run>,
    inFlight: map<nat, Flight>,    // by creator
    landed: set<nat>,              // creators whose create took effect
    // history
    author: Option<nat>,           // the creator that last committed an identity
    committed: set<string>,        // clusters of the identities committed so far
    committedAt: Time,
    issued: seq<string>,           // clusters of the creates sent so far
    ran: set<string>,              // clusters of the operator's runs that have existed
    outcomes: seq<string>)         // phases written by finishCreation

  datatype Process =
    | Idle
    | Creating(cluster: string)
    | Recorded(cluster: string, base: Record)
    | Begun(cluster: string, created: Time)
    | Issued(cluster: string)
    | Listed(seen: Record, at: Time)
    | Finishing(phase: string)
    | FinishRead(phase: string, seen: Record)
    | Unmarking
    | UnmarkRead(seen: Record)
    | Observing(obs: Observation, cluster: string)
    | SyncRead(obs: Observation, cluster: string, seen: Record)

  datatype World = World(sh: Shared, procs: map<nat, Process>)
  {
    function Proc(p: nat): Process { if p in procs then procs[p] else Idle }
  }

  datatype Action =
    // a creator
    | Start(cluster: string) | CreateRecord | WriteIdentity | IssueCreate | AnswerOk | AnswerRefused
    // a recovery pass
    | List | Recover
    // finishCreation
    | ReadForOutcome | RecordOutcome | ReadForPending | RemovePending
    // the status sync
    | ReadRun(obs: Observation) | ReadForSync | WriteSync(clock: Time)
    | Stop

  datatype Step =
    | By(p: nat, action: Action)
    // a create on its way
    | Land(p: nat)
    | Lose(p: nat)
    // the environment
    | Tick(to: Time)
    | DeleteRun
    | ForeignRun(cluster: string)
    | AlertWrite(status: Status)

  ghost predicate CanAct(sh: Shared, p: nat, q: Process, a: Action) {
    match a
    case Start(cluster) => q.Idle? && cluster != ""
    case CreateRecord => q.Creating?
    case WriteIdentity => q.Recorded?
    case IssueCreate => q.Begun?
    case AnswerOk => q.Issued? && p in sh.landed
    case AnswerRefused => q.Issued? && p in sh.inFlight
    case List => q.Idle? && sh.record.Some? && sh.record.value.pending && sh.record.value.hubOrigin
    case Recover =>
      q.Listed? && q.seen.created.Some? && sh.now - q.seen.created.value >= PENDING_RUN_GRACE
    case ReadForOutcome => q.Finishing?
    case RecordOutcome => q.FinishRead?
    case ReadForPending => q.Unmarking?
    case RemovePending => q.UnmarkRead?
    case ReadRun(obs) =>
      q.Idle? && sh.run.Some? && sh.run.value.managed && LegalAction(obs.action) && ProperReason(obs)
    case ReadForSync => q.Observing?
    case WriteSync(_) => q.SyncRead?
    case Stop => true
  }

  function Put(sh: Shared, r: Record): Shared {
    sh.(record := Some(r), last := r.version)
  }

  /** Whether an update made from `seen` passes the optimistic lock. */
  predicate Current(sh: Shared, seen: Record) {
    sh.record.Some? && sh.record.value.version == seen.version
  }

  /** The record that a sync of this run writes to. */
  predicate SyncTarget(sh: Shared, cluster: string) {
    && sh.record.Some?
    && var r := sh.record.value;
    && r.hubOrigin && r.status.clusterName == cluster && r.status.runName == sh.name
    && r.runKey == sh.key(cluster, sh.name) && r.Complete()
  }

  function Act(sh: Shared, p: nat, q: Process, a: Action): (Shared, Process)
    requires CanAct(sh, p, q, a)
  {
    match a
    case Start(cluster) => (sh, Creating(cluster))
    case CreateRecord =>
      if sh.record.Some? then (sh, Idle)
      else
        var r := Record(sh.last + 1, sh.key(q.cluster, sh.name), true, true, Some(FloorSecond(sh.now)), EMPTY_STATUS);
        (Put(sh, r), Recorded(q.cluster, r))
    case WriteIdentity =>
      if !Current(sh, q.base) || q.base.created.None? then (sh, Idle)
      else
        (Put(sh, Identified(q.base, sh.name, q.cluster)).(
           author := Some(p), committed := sh.committed + {q.cluster}, committedAt := sh.now),
         Begun(q.cluster, q.base.created.value))
    case IssueCreate =>
      (sh.(issued := sh.issued + [q.cluster], inFlight := sh.inFlight[p := Flight(q.cluster, q.created)]),
       Issued(q.cluster))
    case AnswerOk => (sh, Finishing(PHASE_CREATED))
    case AnswerRefused => (sh.(inFlight := sh.inFlight - {p}), Finishing(PHASE_FAILED))
    case List => (sh, Listed(sh.record.value, sh.now))
    case Recover =>
      // The delete carries no version: it removes whatever is stored under the name.
      if !q.seen.Complete() then (sh.(record := None), Idle)
      else if sh.run.None? then (sh, Finishing(PHASE_FAILED))
      else if Matches(q.seen, sh.name, sh.run.value, sh.key) then (sh, Finishing(PHASE_CREATED))
      else (sh, Idle)
    case ReadForOutcome =>
      if sh.record.None? then (sh, Idle)
      else if !Writable(sh.record.value) then (sh, Unmarking)
      else (sh, FinishRead(q.phase, sh.record.value))
    case RecordOutcome =>
      if !Current(sh, q.seen) then (sh, Finishing(q.phase))
      else (Put(sh, WriteOutcome(q.seen, q.phase)).(outcomes := sh.outcomes + [q.phase]), Unmarking)
    case ReadForPending =>
      if sh.record.None? || !sh.record.value.pending then (sh, Idle)
      else (sh, UnmarkRead(sh.record.value))
    case RemovePending =>
      if !Current(sh, q.seen) then (sh, Unmarking) else (Put(sh, ClearPending(q.seen)), Idle)
    case ReadRun(obs) => (sh, Observing(obs, sh.run.value.cluster))
    case ReadForSync =>
      if SyncTarget(sh, q.cluster) then (sh, SyncRead(q.obs, q.cluster, sh.record.value)) else (sh, Idle)
    case WriteSync(clock) =>
      if !Current(sh, q.seen) then (sh, Observing(q.obs, q.cluster))
      else (Put(sh, ApplySync(q.seen, SyncWrite(q.obs, clock))), Idle)
    case Stop => (sh, Idle)
  }

  /** A write that leaves the identity and the condition alone. */
  predicate AlertFieldsOnly(s: Status, t: Status) {
    s.runName == t.runName && s.clusterName == t.clusterName && s.condition == t.condition
  }

  ghost predicate Enabled(w: World, step: Step) {
    match step
    case By(p, a) => CanAct(w.sh, p, w.Proc(p), a)
    case Land(p) => p in w.sh.inFlight
    case Lose(p) => p in w.sh.inFlight
    case Tick(to) => w.sh.now <= to
    case DeleteRun => true
    case ForeignRun(_) => w.sh.run.None?
    case AlertWrite(status) => w.sh.record.Some? && AlertFieldsOnly(w.sh.record.value.status, status)
  }

  function Environment(sh: Shared, step: Step): Shared {
    match step
    case Land(p) =>
      if p !in sh.inFlight then sh
      else if sh.run.Some? then sh.(inFlight := sh.inFlight - {p})
      else
        var cluster := sh.inFlight[p].cluster;
        sh.(inFlight := sh.inFlight - {p}, run := Some(Run(cluster, true)),
            landed := sh.landed + {p}, ran := sh.ran + {cluster})
    case Lose(p) => sh.(inFlight := sh.inFlight - {p})
    case Tick(to) => sh.(now := to)
    case DeleteRun => sh.(run := None)
    case ForeignRun(cluster) => sh.(run := Some(Run(cluster, false)))
    case AlertWrite(status) =>
      if sh.record.None? then sh
      else Put(sh, sh.record.value.(version := sh.record.value.version + 1, status := status))
    case By(_, _) => sh
  }

  function Apply(w: World, step: Step): World
    requires Enabled(w, step)
  {
    match step
    case By(p, a) =>
      var (sh, q) := Act(w.sh, p, w.Proc(p), a);
      World(sh, w.procs[p := q])
    case _ => w.(sh := Environment(w.sh, step))
  }

  ghost predicate Initial(w: World) {
    && w.procs == map[]
    && w.sh.name != ""
    && w.sh.record.None? && (w.sh.run.Some? ==> !w.sh.run.value.managed)
    && w.sh.inFlight == map[] && w.sh.landed == {}
    && w.sh.author.None? && w.sh.committed == {} && w.sh.issued == [] && w.sh.ran == {} && w.sh.outcomes == []
  }

  ghost predicate IsRun(w: World, steps: seq<Step>)
    decreases |steps|
  {
    steps == [] || (Enabled(w, steps[0]) && IsRun(Apply(w, steps[0]), steps[1..]))
  }

  ghost function After(w: World, steps: seq<Step>): World
    requires IsRun(w, steps)
    decreases |steps|
  {
    if steps == [] then w else After(Apply(w, steps[0]), steps[1..])
  }

  ghost predicate Reaches(w: World, v: World) {
    exists steps :: IsRun(w, steps) && After(w, steps) == v
  }

  lemma {:induction false} Extend(w: World, steps: seq<Step>, step: Step)
    requires IsRun(w, steps) && Enabled(After(w, steps), step)
    ensures IsRun(w, steps + [step]) && After(w, steps + [step]) == Apply(After(w, steps), step)
    decreases |steps|
  {
    if steps == [] {
      assert [step][1..] == [];
      assert IsRun(Apply(w, step), []);
    } else {
      assert (steps + [step])[1..] == steps[1..] + [step];
      Extend(Apply(w, steps[0]), steps[1..], step);
    }
  }

  lemma Then(w: World, v: World, step: Step) returns (u: World)
    requires Reaches(w, v) && Enabled(v, step)
    ensures u == Apply(v, step) && Reaches(w, u)
  {
    var steps :| IsRun(w, steps) && After(w, steps) == v;
    Extend(w, steps, step);
    u := Apply(v, step);
  }

  // ---------------------------------------------------------------- record before run

  ghost predicate BackedProcess(sh: Shared, q: Process) {
    q.Begun? || q.Issued? ==> q.cluster in sh.committed
  }

  ghost predicate BackedShared(sh: Shared) {
    && (forall p :: p in sh.inFlight ==> sh.inFlight[p].cluster in sh.committed)
    && (forall i :: 0 <= i < |sh.issued| ==> sh.issued[i] in sh.committed)
    && sh.ran <= sh.committed
    && (sh.run.Some? && sh.run.value.managed ==> sh.run.value.cluster in sh.ran)
  }

  /** A create is sent, and a run of the operator exists, only for an identity that
      was committed to a record before. */
  ghost predicate Backed(w: World) {
    BackedShared(w.sh) && forall p: nat :: BackedProcess(w.sh, w.Proc(p))
  }

  lemma BackedAct(sh: Shared, p: nat, q: Process, a: Action)
    requires BackedShared(sh) && BackedProcess(sh, q) && CanAct(sh, p, q, a)
    ensures var (sh', q') := Act(sh, p, q, a);
      BackedShared(sh') && BackedProcess(sh', q') && sh.committed <= sh'.committed
  {
  }

  lemma BackedStep(w: World, step: Step)
    requires Backed(w) && Enabled(w, step)
    ensures Backed(Apply(w, step))
  {
    var v := Apply(w, step);
    if step.By? {
      BackedAct(w.sh, step.p, w.Proc(step.p), step.action);
    }
    forall p: nat
      ensures BackedProcess(v.sh, v.Proc(p))
    {
      assert BackedProcess(w.sh, w.Proc(p));
    }
  }

  lemma {:induction false} BackedRun(w: World, steps: seq<Step>)
    requires Backed(w) && IsRun(w, steps)
    ensures Backed(After(w, steps))
    decreases |steps|
  {
    if steps != [] {
      BackedStep(w, steps[0]);
      BackedRun(Apply(w, steps[0]), steps[1..]);
    }
  }
}
