/** The code of RunRecordClient takes steps of the creation machine: one creation and one
    turn of a recovery pass, whatever they meet, are runs of it. */
module CreationRefinement {
  import opened Options
  import opened RunStatus
  import opened HubRunStatus
  import opened RunRecord
  import Client = RunRecordClient
  import opened CreationMachine

  /** All but the record is as it was. */
  ghost predicate Kept(w: Shared, v: Shared) {
    v == w.(record := v.record, last := v.last, outcomes := v.outcomes)
  }

  /** One more step of process `p`. */
  lemma Does(o: World, w: World, p: nat, a: Action) returns (v: World)
    requires Reaches(o, w) && CanAct(w.sh, p, w.Proc(p), a)
    ensures Reaches(o, v) && (v.sh, v.Proc(p)) == Act(w.sh, p, w.Proc(p), a)
    ensures forall r: nat :: r != p ==> v.Proc(r) == w.Proc(r)
  {
    v := Then(o, w, By(p, a));
  }

  /** What reads of a run can return. */
  ghost predicate Legal(ws: seq<SyncWrite>) {
    forall i :: 0 <= i < |ws| ==> LegalAction(ws[i].obs.action) && ProperReason(ws[i].obs)
  }

  ghost predicate LegalTurns(turns: seq<Turn>) {
    forall i :: 0 <= i < |turns| ==> Legal(turns[i].syncs)
  }

  ghost predicate NoSyncs(turns: seq<Turn>) {
    forall i :: 0 <= i < |turns| ==> turns[i].syncs == []
  }

  /** The syncs that get in between can take place: there are none unless the run of the
      record exists. */
  ghost predicate Plausible(sh: Shared, turns: seq<Turn>) {
    LegalTurns(turns) && (Synced(sh) || NoSyncs(turns))
  }

  lemma PlausibleFirst(sh: Shared, turns: seq<Turn>)
    requires Plausible(sh, turns)
    ensures Legal(FirstOf(turns, CALM_TURN).syncs) && (FirstOf(turns, CALM_TURN).syncs == [] || Synced(sh))
    ensures Plausible(sh, RestOf(turns))
  {
  }

  /** The run of the record exists. */
  predicate Synced(sh: Shared) {
    sh.run.Some? && sh.run.value.managed && SyncTarget(sh, sh.run.value.cluster)
  }

  /** Syncs by process `q`, while process `p` waits. */
  lemma {:induction false} SyncsRun(o: World, w: World, p: nat, q: nat, ws: seq<SyncWrite>) returns (v: World)
    requires p != q && Reaches(o, w) && w.Proc(q) == Idle && w.sh.record.Some?
    requires Legal(ws) && (ws == [] || Synced(w.sh))
    ensures Reaches(o, v) && Kept(w.sh, v.sh) && v.Proc(q) == Idle && v.Proc(p) == w.Proc(p)
    ensures v.sh.record == Some(ApplySyncs(w.sh.record.value, ws))
    ensures Synced(w.sh) ==> Synced(v.sh)
    decreases |ws|
  {
    v := w;
    if ws != [] {
      v := Does(o, v, q, ReadRun(ws[0].obs));
      v := Does(o, v, q, ReadForSync);
      v := Does(o, v, q, WriteSync(ws[0].clock));
      assert v.sh.record == Some(ApplySync(w.sh.record.value, ws[0]));
      v := SyncsRun(o, v, p, q, ws[1..]);
    }
  }

  /** A process that gives up changes nothing. */
  lemma StopRun(o: World, w: World, p: nat) returns (v: World)
    requires Reaches(o, w)
    ensures Reaches(o, v) && v.sh == w.sh && v.Proc(p) == Idle
    ensures forall r: nat :: r != p ==> v.Proc(r) == w.Proc(r)
  {
    v := Does(o, w, p, Stop);
  }

  /** The reads of a finish, and what each decides. */
  lemma FinishReads(o: World, w: World, p: nat) returns (v: World)
    requires Reaches(o, w) && w.sh.record.Some? && (w.Proc(p).Finishing? || w.Proc(p).Unmarking?)
    ensures Reaches(o, v) && v.sh == w.sh
    ensures forall r: nat :: r != p ==> v.Proc(r) == w.Proc(r)
    ensures var r := w.sh.record.value;
      v.Proc(p) ==
        if w.Proc(p).Finishing? then (if Writable(r) then FinishRead(w.Proc(p).phase, r) else Unmarking)
        else (if r.pending then UnmarkRead(r) else Idle)
  {
    v := Does(o, w, p, if w.Proc(p).Finishing? then ReadForOutcome else ReadForPending);
  }

  /** What a process that has read the record is about to store. */
  function Intended(q: Process): Record
    requires q.FinishRead? || q.UnmarkRead?
  {
    if q.FinishRead? then WriteOutcome(q.seen, q.phase) else ClearPending(q.seen)
  }

  /** Where the process goes on: after its write, or from the read again after a conflict. */
  function Next(q: Process, verdict: Verdict): Process
    requires q.FinishRead? || q.UnmarkRead?
  {
    match verdict
    case Error => Idle
    case Stored => if q.FinishRead? then Unmarking else Idle
    case Conflict => if q.FinishRead? then Finishing(q.phase) else Unmarking
  }

  /** One write of a finish, with the syncs that get in between. */
  lemma TryRun(o: World, w: World, p: nat, q: nat, turn: Turn, action: Action) returns (v: World)
    requires p != q && Reaches(o, w) && w.Proc(q) == Idle && w.sh.record.Some?
    requires action == (if w.Proc(p).FinishRead? then RecordOutcome else RemovePending)
    requires w.Proc(p).FinishRead? || w.Proc(p).UnmarkRead?
    requires w.Proc(p).seen == w.sh.record.value && Legal(turn.syncs) && (turn.syncs == [] || Synced(w.sh))
    ensures Reaches(o, v) && Kept(w.sh, v.sh) && v.Proc(q) == Idle
    ensures var (r, verdict) := TryWrite(w.sh.record.value, turn, Intended(w.Proc(p)));
      v.sh.record == Some(r) && v.Proc(p) == Next(w.Proc(p), verdict)
    ensures Synced(w.sh) ==> Synced(v.sh)
  {
    if turn.syncs == [] {
      v := CallRun(o, w, p, turn.call, action);
    } else {
      v := SyncsRun(o, w, p, q, turn.syncs);
      v := CallRun(o, v, p, turn.call, action);
    }
  }

  /** The call that a write of a finish is, from the record as it is by then. */
  lemma CallRun(o: World, w: World, p: nat, call: Call, action: Action) returns (v: World)
    requires Reaches(o, w) && w.sh.record.Some?
    requires action == (if w.Proc(p).FinishRead? then RecordOutcome else RemovePending)
    requires w.Proc(p).FinishRead? || w.Proc(p).UnmarkRead?
    ensures Reaches(o, v) && Kept(w.sh, v.sh)
    ensures forall r: nat :: r != p ==> v.Proc(r) == w.Proc(r)
    ensures var current := w.sh.record.value.version == w.Proc(p).seen.version;
      && v.sh.record == (if current && !call.Fails? then Some(Intended(w.Proc(p))) else w.sh.record)
      && v.Proc(p) == Next(w.Proc(p), if !call.Works? then Error else if current then Stored else Conflict)
    ensures Synced(w.sh) && SameTarget(w.sh.record.value, Intended(w.Proc(p))) ==> Synced(v.sh)
  {
    if call.Fails? {
      v := StopRun(o, w, p);
    } else {
      v := WriteRun(o, w, p, action);
      if call.AnswerLost? {
        v := StopRun(o, v, p);
      }
    }
  }

  /** The write itself takes effect if the record is as the process has read it. */
  lemma WriteRun(o: World, w: World, p: nat, action: Action) returns (v: World)
    requires Reaches(o, w) && w.sh.record.Some?
    requires action == (if w.Proc(p).FinishRead? then RecordOutcome else RemovePending)
    requires w.Proc(p).FinishRead? || w.Proc(p).UnmarkRead?
    ensures Reaches(o, v) && Kept(w.sh, v.sh)
    ensures forall r: nat :: r != p ==> v.Proc(r) == w.Proc(r)
    ensures var current := w.sh.record.value.version == w.Proc(p).seen.version;
      && v.sh.record == (if current then Some(Intended(w.Proc(p))) else w.sh.record)
      && v.Proc(p) == Next(w.Proc(p), if current then Stored else Conflict)
    ensures Synced(w.sh) && SameTarget(w.sh.record.value, Intended(w.Proc(p))) ==> Synced(v.sh)
  {
    v := Does(o, w, p, action);
  }

  predicate SameTarget(r: Record, s: Record) {
    && s.hubOrigin == r.hubOrigin && s.runKey == r.runKey
    && s.status.clusterName == r.status.clusterName && s.status.runName == r.status.runName
  }

  /** One attempt of the first loop by process `p`, with syncs by process `q`. */
  lemma OutcomeTurn(o: World, w: World, p: nat, q: nat, phase: string, turn: Turn) returns (v: World)
    requires p != q && Reaches(o, w) && w.Proc(p) == Finishing(phase) && w.Proc(q) == Idle
    requires w.sh.record.Some? && Legal(turn.syncs) && (turn.syncs == [] || Synced(w.sh))
    ensures Reaches(o, v) && Kept(w.sh, v.sh) && v.Proc(q) == Idle && (Synced(w.sh) ==> Synced(v.sh))
    ensures var r := w.sh.record.value;
      if !Writable(r) then v.sh.record == Some(r) && v.Proc(p) == Unmarking
      else
        var (s, verdict) := TryWrite(r, turn, WriteOutcome(r, phase));
        v.sh.record == Some(s) && v.Proc(p) == Next(FinishRead(phase, r), verdict)
  {
    v := FinishReads(o, w, p);
    if Writable(w.sh.record.value) {
      v := TryRun(o, v, p, q, turn, RecordOutcome);
    }
  }

  /** The first loop. */
  lemma {:induction false} OutcomeRun(o: World, w: World, p: nat, q: nat, phase: string, turns: seq<Turn>,
                                      attempts: nat)
    returns (v: World)
    requires p != q && Reaches(o, w) && w.Proc(p) == Finishing(phase) && w.Proc(q) == Idle
    requires w.sh.record.Some? && Plausible(w.sh, turns)
    ensures Reaches(o, v) && Kept(w.sh, v.sh) && v.Proc(q) == Idle
    ensures var (r, ok) := OutcomeLoop(w.sh.record.value, phase, turns, attempts);
      v.sh.record == Some(r) && v.Proc(p) == if ok then Unmarking else Idle
    decreases attempts
  {
    if attempts == 0 || !FirstOf(turns, CALM_TURN).readable {
      v := StopRun(o, w, p);
    } else {
      PlausibleFirst(w.sh, turns);
      var r := w.sh.record.value;
      var turn := FirstOf(turns, CALM_TURN);
      v := OutcomeTurn(o, w, p, q, phase, turn);
      var (s, verdict) := TryWrite(r, turn, WriteOutcome(r, phase));
      if Writable(r) && verdict.Conflict? {
        assert v.sh.record == Some(s) && Plausible(v.sh, RestOf(turns));
        v := OutcomeRun(o, v, p, q, phase, RestOf(turns), attempts - 1);
        assert v.sh.record == Some(OutcomeLoop(s, phase, RestOf(turns), attempts - 1).0);
      }
    }
  }

  /** One attempt of the second loop. */
  lemma PendingTurn(o: World, w: World, p: nat, q: nat, turn: Turn) returns (v: World)
    requires p != q && Reaches(o, w) && w.Proc(p) == Unmarking && w.Proc(q) == Idle
    requires w.sh.record.Some? && Legal(turn.syncs) && (turn.syncs == [] || Synced(w.sh))
    ensures Reaches(o, v) && Kept(w.sh, v.sh) && v.Proc(q) == Idle && (Synced(w.sh) ==> Synced(v.sh))
    ensures var r := w.sh.record.value;
      if !r.pending then v.sh.record == Some(r) && v.Proc(p) == Idle
      else
        var (s, verdict) := TryWrite(r, turn, ClearPending(r));
        v.sh.record == Some(s) && v.Proc(p) == Next(UnmarkRead(r), verdict)
  {
    v := FinishReads(o, w, p);
    if w.sh.record.value.pending {
      v := TryRun(o, v, p, q, turn, RemovePending);
    }
  }

  /** The second loop. */
  lemma {:induction false} PendingRun(o: World, w: World, p: nat, q: nat, turns: seq<Turn>, attempts: nat)
    returns (v: World)
    requires p != q && Reaches(o, w) && w.Proc(p) == Unmarking && w.Proc(q) == Idle
    requires w.sh.record.Some? && Plausible(w.sh, turns)
    ensures Reaches(o, v) && Kept(w.sh, v.sh) && v.Proc(p) == Idle
    ensures v.sh.record == Some(PendingLoop(w.sh.record.value, turns, attempts).0)
    decreases attempts
  {
    if attempts == 0 || !FirstOf(turns, CALM_TURN).readable {
      v := StopRun(o, w, p);
    } else {
      PlausibleFirst(w.sh, turns);
      var r := w.sh.record.value;
      var turn := FirstOf(turns, CALM_TURN);
      v := PendingTurn(o, w, p, q, turn);
      var (s, verdict) := TryWrite(r, turn, ClearPending(r));
      if r.pending && verdict.Conflict? {
        assert v.sh.record == Some(s) && Plausible(v.sh, RestOf(turns));
        v := PendingRun(o, v, p, q, RestOf(turns), attempts - 1);
      }
    }
  }

  /** A process about to finish a creation does to the record what Finish says. */
  lemma FinishRun(o: World, w: World, p: nat, q: nat, phase: string, turns: seq<Turn>, more: seq<Turn>)
    returns (v: World)
    requires p != q && Reaches(o, w) && w.Proc(p) == Finishing(phase) && w.Proc(q) == Idle
    requires w.sh.record.Some? && Plausible(w.sh, turns) && Plausible(w.sh, more)
    ensures Reaches(o, v) && Kept(w.sh, v.sh) && v.Proc(p) == Idle
    ensures v.sh.record == Some(Finish(w.sh.record.value, phase, turns, more).0)
  {
    v := OutcomeRun(o, w, p, q, phase, turns, RETRIES);
    if OutcomeLoop(w.sh.record.value, phase, turns, RETRIES).1 {
      Client.OutcomeKeepsIdentity(w.sh.record.value, phase, turns, RETRIES);
      assert Plausible(v.sh, more);
      v := PendingRun(o, v, p, q, more, RETRIES);
    }
  }

  /** The turn of a record in a recovery pass of process `p` is a run of the machine,
      whatever process `q` syncs meanwhile and however its calls end. */
  lemma RecoveryRun(w: World, p: nat, q: nat, turns: seq<Turn>, more: seq<Turn>) returns (v: World)
    requires p != q && w.Proc(p) == Idle && w.Proc(q) == Idle && w.sh.record.Some?
    requires w.sh.record.value.Complete() ==> w.sh.record.value.status.runName == w.sh.name
    requires Plausible(w.sh, turns) && Plausible(w.sh, more)
    ensures Reaches(w, v) && v.sh.run == w.sh.run
    ensures v.sh.record == Client.Recovered(w.sh.record.value, w.sh.run, w.sh.now, w.sh.key, turns, more)
  {
    var r := w.sh.record.value;
    assert IsRun(w, []) && After(w, []) == w;
    v := w;
    if Client.Stale(r, w.sh.now) {
      v := Does(w, v, p, List);
      v := Does(w, v, p, Recover);
      if r.Complete() && Client.Finding(r, w.sh.run, w.sh.key).Some? {
        var phase := Client.Finding(r, w.sh.run, w.sh.key).value;
        assert v.Proc(p) == Finishing(phase) && v.sh == w.sh;
        v := FinishRun(w, v, p, q, phase, turns, more);
      }
    }
  }

  /** The first write of Begin, and what may end it there: an answer that is lost, or
      another process `q` whose recovery deletes the record. */
  lemma BeginRun(w: World, p: nat, q: nat, cluster: string, e: Client.Creation) returns (v: World)
    requires p != q && w.Proc(p) == Idle && w.Proc(q) == Idle && cluster != ""
    requires e.version == w.sh.last + 1 && e.clock == w.sh.now
    ensures Reaches(w, v) && v.sh.run == w.sh.run && v.sh.inFlight == w.sh.inFlight
    ensures v.sh.name == w.sh.name && v.sh.key == w.sh.key && v.Proc(q) == Idle
    ensures var (r, ok) := Client.BeginSpec(w.sh.record, w.sh.name, cluster, w.sh.key, e);
      && v.sh.record == r
      && v.Proc(p) == if ok then Begun(cluster, FloorSecond(w.sh.now)) else Idle
  {
    assert IsRun(w, []) && After(w, []) == w;
    v := w;
    if e.ownerUID != "" && !e.create.Fails? {
      v := Does(w, v, p, Start(cluster));
      v := Does(w, v, p, CreateRecord);
      if w.sh.record.None? {
        v := IdentityRun(w, v, p, q, cluster, Client.NewRecord(w.sh.name, cluster, w.sh.key, e), e);
      }
    }
  }

  /** The second write of Begin, and what may keep it from being made. */
  lemma IdentityRun(o: World, w: World, p: nat, q: nat, cluster: string, r: Record, e: Client.Creation)
    returns (v: World)
    requires p != q && Reaches(o, w) && w.Proc(p) == Recorded(cluster, r) && w.Proc(q) == Idle
    requires w.sh.record == Some(r) && r.pending && r.hubOrigin && !r.Complete() && r.created.Some?
    ensures Reaches(o, v) && v.sh.run == w.sh.run && v.sh.inFlight == w.sh.inFlight
    ensures v.sh.name == w.sh.name && v.sh.key == w.sh.key && v.Proc(q) == Idle
    ensures
      if e.create.AnswerLost? then v.sh.record == Some(r) && v.Proc(p) == Idle
      else if e.deleted then v.sh.record == None && v.Proc(p) == Idle
      else if e.status.Fails? then v.sh.record == Some(r) && v.Proc(p) == Idle
      else
        && v.sh.record == Some(Identified(r, w.sh.name, cluster))
        && v.Proc(p) == if e.status.Works? then Begun(cluster, r.created.value) else Idle
  {
    if e.create.AnswerLost? || (!e.deleted && e.status.Fails?) {
      v := Does(o, w, p, Stop);
    } else if e.deleted {
      v := DeletedRun(o, w, q);
      v := Does(o, v, p, WriteIdentity);
    } else {
      v := Does(o, w, p, WriteIdentity);
      if e.status.AnswerLost? {
        v := Does(o, v, p, Stop);
      }
    }
  }

  /** Recovery by process `q` deletes a record that stays incomplete for too long. */
  lemma DeletedRun(o: World, w: World, q: nat) returns (v: World)
    requires Reaches(o, w) && w.Proc(q) == Idle && w.sh.record.Some?
    requires w.sh.record.value.pending && w.sh.record.value.hubOrigin && !w.sh.record.value.Complete()
    requires w.sh.record.value.created.Some?
    ensures Reaches(o, v) && v.sh.record.None? && v.Proc(q) == Idle
    ensures v.sh.name == w.sh.name && v.sh.key == w.sh.key && v.sh.run == w.sh.run && v.sh.inFlight == w.sh.inFlight
    ensures forall r: nat :: r != q ==> v.Proc(r) == w.Proc(r)
  {
    var late := if w.sh.now <= w.sh.record.value.created.value + PENDING_RUN_GRACE
                then w.sh.record.value.created.value + PENDING_RUN_GRACE else w.sh.now;
    v := Does(o, w, q, List);
    v := Then(o, v, Tick(late));
    v := Does(o, v, q, Recover);
  }

  /** The state in which the answer to the create of the run arrives. */
  lemma AnswerRun(o: World, w: World, p: nat, e: Client.Creation) returns (v: World)
    requires Reaches(o, w) && w.Proc(p).Begun? && p !in w.sh.inFlight && w.sh.record.Some?
    ensures Reaches(o, v) && v.sh.record == w.sh.record && v.sh.name == w.sh.name && v.sh.key == w.sh.key
    ensures v.sh.run == Client.IssueSpec(w.sh.record.value, w.sh.run, w.Proc(p).cluster, e).1
    ensures forall r: nat :: r != p ==> v.Proc(r) == w.Proc(r)
    ensures match Client.Answer(w.sh.run, e.reply)
      case Accepted => v.Proc(p) == Finishing(PHASE_CREATED)
      case Refused(error) =>
        v.Proc(p) == if Client.Definitive(error) then Finishing(PHASE_FAILED) else Idle
  {
    v := Does(o, w, p, IssueCreate);
    match Client.Answer(w.sh.run, e.reply)
    case Accepted =>
      v := Then(o, v, Land(p));
      v := Does(o, v, p, AnswerOk);
    case Refused(error) =>
      v := RefusedRun(o, v, p, error, e.took);
  }

  /** The create was refused; if the answer leaves that open it may land all the same. */
  lemma RefusedRun(o: World, w: World, p: nat, error: Client.ApiError, took: bool) returns (v: World)
    requires Reaches(o, w) && w.Proc(p).Issued? && p in w.sh.inFlight
    ensures Reaches(o, v) && v.sh.record == w.sh.record && v.sh.name == w.sh.name && v.sh.key == w.sh.key
    ensures v.sh.run == if w.sh.run.None? && took && !Client.Definitive(error)
                        then Some(Run(w.sh.inFlight[p].cluster, true)) else w.sh.run
    ensures forall r: nat :: r != p ==> v.Proc(r) == w.Proc(r)
    ensures v.Proc(p) == if Client.Definitive(error) then Finishing(PHASE_FAILED) else Idle
  {
    if Client.Definitive(error) {
      v := Does(o, w, p, AnswerRefused);
    } else {
      v := Then(o, w, if took then Land(p) else Lose(p));
      v := Does(o, v, p, Stop);
    }
  }

  /** One creation by process `p` is a run of the machine, whatever it meets: a record or a
      run that stands already, a failed or unanswered call anywhere, a record deleted in
      between, any answer to the create, and syncs by process `q` during the finish (which
      can take place only when the run of the record exists by then: because the create
      was accepted, or because such a run stood already). */
  lemma CreationRun(w: World, p: nat, q: nat, cluster: string, e: Client.Creation) returns (v: World)
    requires p != q && w.Proc(p) == Idle && w.Proc(q) == Idle && p !in w.sh.inFlight
    requires cluster != "" && w.sh.name != "" && e.version == w.sh.last + 1 && e.clock == w.sh.now
    requires LegalTurns(e.turns) && LegalTurns(e.more)
    requires e.reply.Accepted? || w.sh.run == Some(Run(cluster, true)) || (NoSyncs(e.turns) && NoSyncs(e.more))
    ensures Reaches(w, v)
    ensures (v.sh.record, v.sh.run) == Client.Created(w.sh.name, cluster, w.sh.record, w.sh.run, e, w.sh.key)
  {
    v := BeginRun(w, p, q, cluster, e);
    if Client.BeginSpec(w.sh.record, w.sh.name, cluster, w.sh.key, e).1 {
      var r := v.sh.record.value;
      v := AnswerRun(w, v, p, e);
      if v.Proc(p).Finishing? {
        assert v.sh.record == Some(r) && r.Complete();
        assert v.sh.run == Some(Run(cluster, true)) ==> Synced(v.sh);
        v := FinishRun(w, v, p, q, v.Proc(p).phase, e.turns, e.more);
      }
    }
  }
}
