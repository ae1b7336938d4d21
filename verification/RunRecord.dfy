/** Records of hub runs: Begin, Confirm, Fail (internal/healthcheckrun/record.go) and the
    recovery of pending records (internal/controller/runrecovery.go). */
module RunRecord {
  import opened Options
  import opened RunStatus
  import opened HubRunStatus

  const PHASE_PENDING := "Pending"
  const PHASE_CREATED := "Created"
  const PHASE_FAILED := "Failed"
  const PENDING_RUN_GRACE: int := 2 * MINUTE

  /** A record. `runKey` is the run-key label, `pending` and `hubOrigin` are its annotations. */
  datatype Record = Record(
    version: nat,
    runKey: string,
    pending: bool,
    hubOrigin: bool,
    created: Option<Time>,
    status: Status)
  {
    predicate Complete() { status.clusterName != "" && status.runName != "" }
  }

  const EMPTY_STATUS := Status("", "", None, "", [], None, None)

  function BegunStatus(runName: string, clusterName: string): Status {
    Status(runName, clusterName, Some(RunCondition("", PHASE_PENDING, "")), "", [], None, None)
  }

  /** The second write of Begin. */
  function Identified(r: Record, name: string, cluster: string): Record {
    r.(version := r.version + 1, status := BegunStatus(name, cluster))
  }

  /** A run on the hub. */
  datatype Run = Run(cluster: string, managed: bool)

  /** The digest of a cluster and a run name. Nothing is assumed about it. */
  type Digest = (string, string) -> string

  /** No outcome and no condition has been recorded yet. */
  predicate Open(s: Status) {
    || s.condition.None?
    || s.condition.value.phase == PHASE_PENDING
    || (s.condition.value.phase == "" && s.condition.value.summary == "")
  }

  /** finishCreation may write an outcome. */
  predicate Writable(r: Record) { r.pending && Open(r.status) }

  /** The run is the one this record was made for. */
  predicate Matches(r: Record, name: string, run: Run, key: Digest) {
    run.cluster == r.status.clusterName && r.runKey == key(run.cluster, name) && run.managed
  }

  // ---------------------------------------------------------------- finishing a creation

  /** A status sync that gets in between. A condition always has a proper reason. */
  datatype SyncWrite = SyncWrite(obs: Observation, clock: Time)

  predicate ProperReason(o: Observation) {
    o.conditionType != "" ==> o.phase != "" && o.phase != PHASE_PENDING
  }

  function ApplySync(r: Record, w: SyncWrite): Record {
    r.(version := r.version + 1, status := SyncStatus(r.status, w.obs, w.clock))
  }

  function ApplySyncs(r: Record, ws: seq<SyncWrite>): (s: Record)
    ensures s.version == r.version + |ws|
    ensures s.(version := r.version, status := r.status) == r
    decreases |ws|
  {
    if ws == [] then r else ApplySyncs(ApplySync(r, ws[0]), ws[1..])
  }

  function WriteOutcome(r: Record, phase: string): Record {
    r.(version := r.version + 1, status := WithPhase(r.status, phase))
  }

  function ClearPending(r: Record): Record {
    r.(version := r.version + 1, pending := false)
  }

  /** One attempt of finishCreation: whether its read succeeds, what syncs write between
      the read and the write, and how the write ends. */
  datatype Turn = Turn(readable: bool, syncs: seq<SyncWrite>, call: Call)

  const CALM_TURN := Turn(true, [], Works)

  /** A write under optimistic lock; `written` is what it stores. */
  function TryWrite(r: Record, turn: Turn, written: Record): (Record, Verdict) {
    if turn.syncs == [] && !turn.call.Fails? then (written, if turn.call.Works? then Stored else Error)
    else (ApplySyncs(r, turn.syncs), if turn.call.Works? then Conflict else Error)
  }

  /** The first loop of finishCreation: record the outcome, unless something is recorded already. */
  function OutcomeLoop(r: Record, phase: string, turns: seq<Turn>, attempts: nat): (Record, bool)
    decreases attempts
  {
    if attempts == 0 || !FirstOf(turns, CALM_TURN).readable then (r, false)
    else if !Writable(r) then (r, true)
    else
      match TryWrite(r, FirstOf(turns, CALM_TURN), WriteOutcome(r, phase))
      case (s, Stored) => (s, true)
      case (s, Error) => (s, false)
      case (s, Conflict) => OutcomeLoop(s, phase, RestOf(turns), attempts - 1)
  }

  /** The second loop: the record is no longer pending. */
  function PendingLoop(r: Record, turns: seq<Turn>, attempts: nat): (Record, bool)
    decreases attempts
  {
    if attempts == 0 || !FirstOf(turns, CALM_TURN).readable then (r, false)
    else if !r.pending then (r, true)
    else
      match TryWrite(r, FirstOf(turns, CALM_TURN), ClearPending(r))
      case (s, Stored) => (s, true)
      case (s, Error) => (s, false)
      case (s, Conflict) => PendingLoop(s, RestOf(turns), attempts - 1)
  }

  /** `turns` are the attempts of the first loop, `more` those of the second. */
  function Finish(r: Record, phase: string, turns: seq<Turn>, more: seq<Turn>): (Record, bool) {
    var (recorded, ok) := OutcomeLoop(r, phase, turns, RETRIES);
    if ok then PendingLoop(recorded, more, RETRIES) else (recorded, false)
  }

  predicate AllProper(ws: seq<SyncWrite>) {
    forall i :: 0 <= i < |ws| ==> ProperReason(ws[i].obs)
  }

  predicate TurnsProper(turns: seq<Turn>) {
    forall i :: 0 <= i < |turns| ==> AllProper(turns[i].syncs)
  }

  /** A condition was recorded by a sync. */
  predicate HasCondition(s: Status) { s.condition.Some? && s.condition.value.conditionType != "" }

  lemma {:induction false} SyncsKeepClosed(r: Record, ws: seq<SyncWrite>)
    requires AllProper(ws)
    ensures !Open(r.status) ==> !Open(ApplySyncs(r, ws).status)
    ensures HasCondition(r.status) ==> HasCondition(ApplySyncs(r, ws).status)
    decreases |ws|
  {
    if ws != [] { SyncsKeepClosed(ApplySync(r, ws[0]), ws[1..]); }
  }

  lemma {:induction false} SyncsJoin(r: Record, ws: seq<SyncWrite>, more: seq<SyncWrite>)
    ensures ApplySyncs(r, ws + more) == ApplySyncs(ApplySyncs(r, ws), more)
    decreases |ws|
  {
    if ws == [] {
      assert ws + more == more;
    } else {
      assert (ws + more)[1..] == ws[1..] + more;
      SyncsJoin(ApplySync(r, ws[0]), ws[1..], more);
    }
  }

  /** The first loop leaves what syncs have made of the record, or writes the outcome on
      top of that, once and only while the record is open. */
  ghost predicate OutcomeHistory(r: Record, phase: string, s: Record, before: seq<SyncWrite>) {
    || s == ApplySyncs(r, before)
    || (Writable(ApplySyncs(r, before)) && s == WriteOutcome(ApplySyncs(r, before), phase))
  }

  lemma {:induction false} OutcomeLoopHistory(r: Record, phase: string, turns: seq<Turn>, attempts: nat)
    returns (before: seq<SyncWrite>)
    ensures OutcomeHistory(r, phase, OutcomeLoop(r, phase, turns, attempts).0, before)
    decreases attempts
  {
    before := [];
    if attempts > 0 && FirstOf(turns, CALM_TURN).readable && Writable(r) {
      var turn := FirstOf(turns, CALM_TURN);
      var (s, verdict) := TryWrite(r, turn, WriteOutcome(r, phase));
      if turn.syncs != [] || turn.call.Fails? {
        before := turn.syncs;
      }
      if verdict.Conflict? {
        var later := OutcomeLoopHistory(s, phase, RestOf(turns), attempts - 1);
        before := turn.syncs + later;
        SyncsJoin(r, turn.syncs, later);
      }
    }
  }

  lemma {:induction false} OutcomeLoopCloses(r: Record, phase: string, turns: seq<Turn>, attempts: nat)
    requires phase in {PHASE_CREATED, PHASE_FAILED} && (r.pending || !Open(r.status))
    ensures var (s, ok) := OutcomeLoop(r, phase, turns, attempts);
      && s.pending == r.pending && (ok ==> !Open(s.status))
      && (!Open(r.status) ==> s == r)
    decreases attempts
  {
    if attempts > 0 && FirstOf(turns, CALM_TURN).readable && Writable(r) {
      var (s, verdict) := TryWrite(r, FirstOf(turns, CALM_TURN), WriteOutcome(r, phase));
      if verdict.Conflict? {
        OutcomeLoopCloses(s, phase, RestOf(turns), attempts - 1);
      }
    }
  }

  lemma {:induction false} PendingLoopSettles(r: Record, turns: seq<Turn>, attempts: nat) returns (ws: seq<SyncWrite>)
    requires TurnsProper(turns) && !Open(r.status)
    ensures var (s, ok) := PendingLoop(r, turns, attempts);
      && s.status == ApplySyncs(r, ws).status && AllProper(ws)
      && !Open(s.status) && (ok ==> !s.pending)
    decreases attempts
  {
    ws := [];
    if attempts > 0 && FirstOf(turns, CALM_TURN).readable && r.pending {
      var turn := FirstOf(turns, CALM_TURN);
      var (s, verdict) := TryWrite(r, turn, ClearPending(r));
      if turn.syncs != [] || turn.call.Fails? {
        SyncsKeepClosed(r, turn.syncs);
        ws := turn.syncs;
      }
      if verdict.Conflict? {
        var later := PendingLoopSettles(s, RestOf(turns), attempts - 1);
        ws := turn.syncs + later;
        SyncsJoin(r, turn.syncs, later);
      }
    }
  }

  /** A finish that reports success leaves a settled record. Whatever it reports, and
      however its attempts go: a record that is no longer pending has something recorded;
      and a record that had something recorded before has it still, except for what the
      syncs in between write. */
  lemma FinishSettles(r: Record, phase: string, turns: seq<Turn>, more: seq<Turn>)
    requires TurnsProper(turns) && TurnsProper(more) && phase in {PHASE_CREATED, PHASE_FAILED}
    requires r.pending || !Open(r.status)
    ensures var (s, ok) := Finish(r, phase, turns, more);
      && (ok ==> !s.pending && !Open(s.status))
      && (s.pending || !Open(s.status))
      && (!Open(r.status) ==> exists ws :: AllProper(ws) && s.status == ApplySyncs(r, ws).status)
  {
    OutcomeLoopCloses(r, phase, turns, RETRIES);
    var (recorded, ok) := OutcomeLoop(r, phase, turns, RETRIES);
    if ok {
      var ws := PendingLoopSettles(recorded, more, RETRIES);
      assert AllProper(ws);
    } else if !Open(r.status) {
      assert AllProper([]) && recorded.status == ApplySyncs(r, []).status;
    }
  }

  /** However its attempts go, a finish changes the status only by the syncs in between
      and by at most one outcome, written while nothing else was recorded. */
  lemma FinishWritesOnce(r: Record, phase: string, turns: seq<Turn>, more: seq<Turn>)
    requires TurnsProper(turns) && TurnsProper(more) && phase in {PHASE_CREATED, PHASE_FAILED}
    requires r.pending || !Open(r.status)
    ensures var s := Finish(r, phase, turns, more).0;
      exists before, mid, after ::
        OutcomeHistory(r, phase, mid, before) && s.status == ApplySyncs(mid, after).status
  {
    var before := OutcomeLoopHistory(r, phase, turns, RETRIES);
    OutcomeLoopCloses(r, phase, turns, RETRIES);
    var (mid, ok) := OutcomeLoop(r, phase, turns, RETRIES);
    if ok {
      var after := PendingLoopSettles(mid, more, RETRIES);
    } else {
      assert mid.status == ApplySyncs(mid, []).status;
    }
  }

  /** Undisturbed, exactly the first of two finishes decides: Confirm after Fail, or Fail
      after Confirm, changes nothing. */
  lemma SecondFinishChangesNothing(r: Record, first: string, second: string)
    requires first in {PHASE_CREATED, PHASE_FAILED} && second in {PHASE_CREATED, PHASE_FAILED}
    requires r.pending || !Open(r.status)
    ensures Finish(Finish(r, first, [], []).0, second, [], []) == (Finish(r, first, [], []).0, true)
    ensures Writable(r) ==> Finish(r, first, [], []).0.status == WithPhase(r.status, first)
  {
    FinishSettles(r, first, [], []);
  }

  /** An undisturbed finish leaves a record alone that is not pending. A pending one is no
      longer pending, whatever it says; and it says the outcome if nothing was recorded, or
      else what it said. Nothing else of the record changes. */
  lemma FinishByField(r: Record, phase: string)
    ensures !r.pending ==> Finish(r, phase, [], []) == (r, true)
    ensures r.pending ==> var (s, ok) := Finish(r, phase, [], []);
      var before := if r.status.condition.Some? then r.status.condition.value else RunCondition("", "", "");
      var open := before.phase == "Pending" || (before.phase == "" && before.summary == "");
      && ok && !s.pending && r.version < s.version
      && s.status.condition.Some?
      && s.status.condition.value ==
           RunCondition(before.conditionType, if open then phase else before.phase, before.summary)
      && s.(version := r.version, pending := true, status := s.status.(condition := r.status.condition)) == r
  {
    assert PHASE_PENDING == "Pending";
  }

  /** A sync gets in before the write. */
  predicate Conflicts(turn: Turn) {
    turn.readable && turn.syncs != [] && turn.call.Works?
  }

  lemma {:induction false} OutcomeRetries(r: Record, phase: string, turns: seq<Turn>, attempts: nat, n: nat)
    requires n < attempts && n <= |turns| && (forall i :: 0 <= i < n ==> Conflicts(turns[i]))
    requires n < |turns| ==> turns[n] == Turn(true, [], Works)
    ensures OutcomeLoop(r, phase, turns, attempts).1
    decreases attempts
  {
    if n > 0 && Writable(r) {
      OutcomeRetries(ApplySyncs(r, turns[0].syncs), phase, turns[1..], attempts - 1, n - 1);
    }
  }

  lemma {:induction false} PendingRetries(r: Record, turns: seq<Turn>, attempts: nat, n: nat)
    requires n < attempts && n <= |turns| && (forall i :: 0 <= i < n ==> Conflicts(turns[i]))
    requires n < |turns| ==> turns[n] == Turn(true, [], Works)
    ensures PendingLoop(r, turns, attempts).1
    decreases attempts
  {
    if n > 0 && r.pending {
      PendingRetries(ApplySyncs(r, turns[0].syncs), turns[1..], attempts - 1, n - 1);
    }
  }

  lemma {:induction false} PendingGivesUp(r: Record, turns: seq<Turn>, attempts: nat)
    requires r.pending && attempts <= |turns| && forall i :: 0 <= i < attempts ==> Conflicts(turns[i])
    ensures var (s, ok) := PendingLoop(r, turns, attempts); !ok && s.pending
    decreases attempts
  {
    if attempts > 0 {
      PendingGivesUp(ApplySyncs(r, turns[0].syncs), turns[1..], attempts - 1);
    }
  }

  /** Each loop of a finish survives up to four conflicts if the attempt after them meets
      nothing; five are too many for the mark. */
  lemma FinishTriesFiveTimes(r: Record, phase: string, turns: seq<Turn>, more: seq<Turn>, n: nat, m: nat)
    requires n <= |turns| && m <= |more|
    requires (forall i :: 0 <= i < n ==> Conflicts(turns[i])) && forall i :: 0 <= i < m ==> Conflicts(more[i])
    requires n <= 4 && (n < |turns| ==> turns[n] == Turn(true, [], Works))
    ensures m <= 4 && (m < |more| ==> more[m] == Turn(true, [], Works)) ==> Finish(r, phase, turns, more).1
    ensures m >= 5 && r.pending ==> var (s, ok) := Finish(r, phase, turns, more); !ok && s.pending
  {
    OutcomeRetries(r, phase, turns, RETRIES, n);
    var recorded := OutcomeLoop(r, phase, turns, RETRIES).0;
    if m <= 4 && (m < |more| ==> more[m] == Turn(true, [], Works)) {
      PendingRetries(recorded, more, RETRIES, m);
    }
    if m >= 5 && r.pending {
      OutcomeLoopPending(r, phase, turns, RETRIES);
      PendingGivesUp(recorded, more, RETRIES);
    }
  }

  lemma {:induction false} OutcomeLoopPending(r: Record, phase: string, turns: seq<Turn>, attempts: nat)
    ensures OutcomeLoop(r, phase, turns, attempts).0.pending == r.pending
    decreases attempts
  {
    if attempts > 0 && FirstOf(turns, CALM_TURN).readable && Writable(r) {
      var (s, verdict) := TryWrite(r, FirstOf(turns, CALM_TURN), WriteOutcome(r, phase));
      if verdict.Conflict? {
        OutcomeLoopPending(s, phase, RestOf(turns), attempts - 1);
      }
    }
  }

  /** A sync that sees nothing new leaves a record as open as it was. */
  const IDLE_SYNC := SyncWrite(Observation("", "", "", ""), 0)

  lemma {:induction false} OutcomeGivesUp(r: Record, phase: string, attempts: nat)
    requires r.pending && r.status.condition == Some(RunCondition("", "Pending", ""))
    ensures var (s, ok) := OutcomeLoop(r, phase, seq(attempts, _ => Turn(true, [IDLE_SYNC], Works)), attempts);
      !ok && s.status == r.status && s.pending
    decreases attempts
  {
    if attempts > 0 {
      var turns := seq(attempts, _ => Turn(true, [IDLE_SYNC], Works));
      var s := ApplySyncs(r, [IDLE_SYNC]);
      assert ApplySync(r, IDLE_SYNC).status == r.status;
      assert [IDLE_SYNC][1..] == [] && s == ApplySyncs(ApplySync(r, IDLE_SYNC), []);
      assert turns[1..] == seq(attempts - 1, _ => Turn(true, [IDLE_SYNC], Works));
      assert PHASE_PENDING == "Pending";
      OutcomeGivesUp(s, phase, attempts - 1);
    }
  }

  /** And five conflicts are too many for the outcome: the record stays pending. */
  lemma FiveConflictsLeavePending(r: Record, phase: string)
    requires r.pending && r.status.condition == Some(RunCondition("", "Pending", ""))
    ensures var (s, ok) := Finish(r, phase, seq(5, _ => Turn(true, [IDLE_SYNC], Works)), []);
      !ok && s.status == r.status && s.pending
  {
    OutcomeGivesUp(r, phase, RETRIES);
  }

  /** The assumption on reasons is needed: a condition whose reason is empty, with no
      summary, is overwritten by a late Confirm; so is one whose reason is "Pending". */
  lemma OverwrittenExactlyWhenOpen(r: Record, o: Observation, clock: Time)
    requires r.pending && o.conditionType != ""
    ensures var seen := ApplySync(r, SyncWrite(o, clock));
      (Finish(seen, PHASE_CREATED, [], []).0.status == seen.status) <==>
      (o.phase != PHASE_PENDING && (o.phase != "" || seen.status.Summary() != ""))
  {
    var seen := ApplySync(r, SyncWrite(o, clock));
    assert seen.status.condition.Some? && seen.status.condition.value.phase == o.phase;
  }
}
