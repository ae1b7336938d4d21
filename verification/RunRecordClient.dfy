/** The writers of run records, against the API server: Begin and finishCreation
    (internal/healthcheckrun/record.go), one run creation (internal/controller/agenticrun.go
    and internal/alertreceiver/handler.go), and the recovery pass (internal/controller/runrecovery.go). */
module RunRecordClient {
  import opened Options
  import opened RunStatus
  import opened HubRunStatus
  import opened RunRecord

  /** How the API server, or the network, can fail a create. */
  datatype ApiError =
    | Invalid | BadRequest | Forbidden | Unauthorized | NotFound | MethodNotSupported | RequestEntityTooLarge
    | AlreadyExists | Conflict | Timeout | ServerTimeout | TooManyRequests | InternalError | Unavailable | Transport

  /** DefinitiveCreateError: the server has said that nothing was created. */
  predicate Definitive(e: ApiError) {
    match e
    case Invalid | BadRequest | Forbidden | Unauthorized | NotFound | MethodNotSupported | RequestEntityTooLarge => true
    case _ => false
  }

  datatype Reply = Accepted | Refused(error: ApiError)

  // ---------------------------------------------------------------- the server

  /** The HTTP status of an answer; none when the network failed instead of the server. */
  function StatusCode(e: ApiError): Option<int> {
    match e
    case Invalid => Some(422)
    case BadRequest => Some(400)
    case Forbidden => Some(403)
    case Unauthorized => Some(401)
    case NotFound => Some(404)
    case MethodNotSupported => Some(405)
    case RequestEntityTooLarge => Some(413)
    case AlreadyExists => Some(409)
    case Conflict => Some(409)
    case Timeout => Some(504)
    case ServerTimeout => Some(500)
    case TooManyRequests => Some(429)
    case InternalError => Some(500)
    case Unavailable => Some(503)
    case Transport => None
  }

  /** Whether a server that has created the run can be behind an answer. A request that is
      unacceptable in itself is turned down before anything is stored; a conflict or
      throttling can meet the repetition of one that was carried out; and with a failure of
      the server or of the network it is not known how far the request has come. */
  predicate MayFollowCreation(e: ApiError) {
    var code := StatusCode(e);
    code.None? || code.value == 409 || code.value == 429 || code.value >= 500
  }

  /** The errors that the code takes for definitive are those that exclude a creation. */
  lemma DefinitiveExactly(e: ApiError)
    ensures Definitive(e) <==> !MayFollowCreation(e)
  {
  }

  /** What one create request does: an accepted one makes the run; a refused one may have
      done so, too, if its answer does not exclude it. */
  function Served(run: Option<Run>, cluster: string, e: Creation): Option<Run> {
    if run.Some? then run
    else if e.reply.Accepted? || (e.took && MayFollowCreation(e.reply.error)) then Some(Run(cluster, true))
    else None
  }

  // ---------------------------------------------------------------- one creation

  /** Everything that one creation meets: the owner's UID, how the two calls of Begin and
      the create of the run end, and the attempts of the finish. `deleted` says that the
      record is removed before its status is written, `took` that a create that was refused
      has taken effect all the same, where the answer leaves that open. */
  datatype Creation = Creation(
    ownerUID: string,
    version: nat,       // given to the new record
    clock: Time,
    create: Call,
    deleted: bool,
    status: Call,
    reply: Reply,
    took: bool,
    turns: seq<Turn>,
    more: seq<Turn>)

  function NewRecord(name: string, cluster: string, key: Digest, e: Creation): Record {
    Record(e.version, key(cluster, name), true, true, Some(FloorSecond(e.clock)), EMPTY_STATUS)
  }

  /** What Begin leaves under the name, and whether it reports success. */
  function BeginSpec(stored: Option<Record>, name: string, cluster: string, key: Digest, e: Creation)
    : (Option<Record>, bool)
  {
    if e.ownerUID == "" || stored.Some? || e.create.Fails? then (stored, false)
    else
      var r := NewRecord(name, cluster, key, e);
      if e.create.AnswerLost? then (Some(r), false)
      else if e.deleted then (None, false)
      else if e.status.Fails? then (Some(r), false)
      else (Some(Identified(r, name, cluster)), e.status.Works?)
  }

  /** The server's answer to the create of the run. */
  function Answer(run: Option<Run>, reply: Reply): Reply {
    if run.Some? && reply.Accepted? then Refused(AlreadyExists) else reply
  }

  /** The record and the run after the create of the run and its finish. */
  function IssueSpec(r: Record, run: Option<Run>, cluster: string, e: Creation): (Record, Option<Run>) {
    var made := Served(run, cluster, e);
    match Answer(run, e.reply)
    case Accepted => (Finish(r, PHASE_CREATED, e.turns, e.more).0, made)
    case Refused(error) =>
      if Definitive(error) then (Finish(r, PHASE_FAILED, e.turns, e.more).0, made) else (r, made)
  }

  /** The record and the run of the name after one creation. */
  function Created(name: string, cluster: string, stored: Option<Record>, run: Option<Run>, e: Creation, key: Digest)
    : (Option<Record>, Option<Run>)
  {
    match BeginSpec(stored, name, cluster, key, e)
    case (Some(r), true) => var (s, made) := IssueSpec(r, run, cluster, e); (Some(s), made)
    case (left, _) => (left, run)
  }

  /** The finish of this creation goes through. */
  predicate Finishes(r: Record, phase: string, e: Creation) {
    Finish(r, phase, e.turns, e.more).1
  }

  /** A Begin that nothing disturbs leaves a pending record with the whole identity of the
      run to come, stamped with the time, and nothing else in it. */
  lemma CalmBegin(name: string, cluster: string, key: Digest, e: Creation)
    requires e.ownerUID != "" && e.create.Works? && !e.deleted && e.status.Works?
    ensures var (r, ok) := BeginSpec(None, name, cluster, key, e);
      && ok && r.Some? && r.value.version > e.version
      && r.value.runKey == key(cluster, name) && r.value.pending && r.value.hubOrigin
      && r.value.created == Some(FloorSecond(e.clock))
      && r.value.status ==
           Status(name, cluster, Some(RunCondition("", "Pending", "")), "", [], None, None)
  {
  }

  /** Whatever a creation meets: where a record stands already nothing happens; a run
      appears only beside its complete record; a record that is no longer pending has
      something recorded; and after Begin the record ceases to be pending when the
      answer to the create excludes or reports a creation and its finish goes through, and is
      left untouched when the answer leaves that open. */
  lemma CreationTells(name: string, cluster: string, stored: Option<Record>, run: Option<Run>, e: Creation, key: Digest)
    requires TurnsProper(e.turns) && TurnsProper(e.more) && name != "" && cluster != ""
    ensures var (r, made) := Created(name, cluster, stored, run, e, key);
      && (stored.Some? ==> r == stored && made == run)
      && (made != run ==>
           && run.None? && made == Some(Run(cluster, true)) && stored.None?
           && r.Some? && r.value.status.clusterName == cluster && r.value.status.runName == name
           && r.value.runKey == key(cluster, name))
      && (stored.None? && r.Some? && !r.value.pending ==> !Open(r.value.status))
      && (BeginSpec(stored, name, cluster, key, e).1 ==>
           && r.Some?
           && var begun := BeginSpec(stored, name, cluster, key, e).0.value;
           && made == Served(run, cluster, e)
           && (e.reply.Accepted? && run.None? && Finishes(begun, PHASE_CREATED, e) ==> !r.value.pending)
           && (e.reply.Refused? && !MayFollowCreation(e.reply.error) && Finishes(begun, PHASE_FAILED, e) ==>
                !r.value.pending)
           && ((e.reply.Accepted? && run.Some?) || (e.reply.Refused? && MayFollowCreation(e.reply.error)) ==>
                r.value == begun))
  {
    if BeginSpec(stored, name, cluster, key, e).1 {
      var begun := BeginSpec(stored, name, cluster, key, e).0.value;
      if e.reply.Refused? { DefinitiveExactly(e.reply.error); }
      FinishSettles(begun, PHASE_CREATED, e.turns, e.more);
      FinishSettles(begun, PHASE_FAILED, e.turns, e.more);
      FinishKeepsIdentity(begun, PHASE_CREATED, e.turns, e.more);
      FinishKeepsIdentity(begun, PHASE_FAILED, e.turns, e.more);
    }
  }

  /** Left undisturbed, the record says what became of the create: Created beside its run,
      Failed after every refusal that excludes a run, and pending after all others. */
  lemma UndisturbedCreation(name: string, cluster: string, run: Option<Run>, e: Creation, key: Digest)
    requires BeginSpec(None, name, cluster, key, e).1 && e.turns == [] && e.more == []
    ensures var (r, made) := Created(name, cluster, None, run, e, key);
      && r.Some? && r.value.status.condition.Some?
      && var phase := r.value.status.condition.value.phase;
      if e.reply.Accepted? && run.None? then
        !r.value.pending && phase == "Created" && made == Some(Run(cluster, true))
      else if e.reply.Refused? && !MayFollowCreation(e.reply.error) then
        !r.value.pending && phase == "Failed" && made == run
      else r.value.pending && phase == "Pending"
  {
    var begun := BeginSpec(None, name, cluster, key, e).0.value;
    if e.reply.Refused? { DefinitiveExactly(e.reply.error); }
    FinishByField(begun, PHASE_CREATED);
    FinishByField(begun, PHASE_FAILED);
  }

  // ---------------------------------------------------------------- Failed beside a run

  /** The phase of a record that has no condition yet. */
  predicate SaysOnly(s: Status, phases: set<string>) {
    s.condition.None? || HasCondition(s) || s.condition.value.phase in phases
  }

  lemma {:induction false} SyncsSay(r: Record, ws: seq<SyncWrite>, phases: set<string>)
    requires SaysOnly(r.status, phases) && "" in phases
    ensures SaysOnly(ApplySyncs(r, ws).status, phases)
    decreases |ws|
  {
    if ws != [] {
      SyncedCondition(r.status, ws[0].obs, ws[0].clock);
      SyncsSay(ApplySync(r, ws[0]), ws[1..], phases);
    }
  }

  lemma FinishSays(r: Record, phase: string, turns: seq<Turn>, more: seq<Turn>, phases: set<string>)
    requires TurnsProper(turns) && TurnsProper(more) && phase in {PHASE_CREATED, PHASE_FAILED}
    requires (r.pending || !Open(r.status)) && SaysOnly(r.status, phases) && "" in phases && phase in phases
    ensures SaysOnly(Finish(r, phase, turns, more).0.status, phases)
  {
    FinishWritesOnce(r, phase, turns, more);
    var s := Finish(r, phase, turns, more).0;
    var before, mid, after :|
      OutcomeHistory(r, phase, mid, before) && s.status == ApplySyncs(mid, after).status;
    SyncsSay(r, before, phases);
    SyncsSay(mid, after, phases);
  }

  /** A creation never ends with Failed beside a run that its own create has made, whatever
      it meets: it takes no answer for a failure that a run can be behind. */
  lemma FailedMeansNoRun(name: string, cluster: string, stored: Option<Record>, run: Option<Run>, e: Creation,
                         key: Digest)
    requires TurnsProper(e.turns) && TurnsProper(e.more)
    ensures var (r, made) := Created(name, cluster, stored, run, e, key);
      made != run ==> r.Some? && SaysOnly(r.value.status, {"", "Pending", "Created"})
  {
    if BeginSpec(stored, name, cluster, key, e).1 {
      var begun := BeginSpec(stored, name, cluster, key, e).0.value;
      if e.reply.Refused? {
        DefinitiveExactly(e.reply.error);
      } else {
        FinishSays(begun, PHASE_CREATED, e.turns, e.more, {"", "Pending", "Created"});
      }
    }
  }

  /** The identity of a record, which no finish and no sync changes. */
  predicate SameIdentity(r: Record, s: Record) {
    && s.runKey == r.runKey && s.hubOrigin == r.hubOrigin && s.created == r.created
    && s.status.runName == r.status.runName && s.status.clusterName == r.status.clusterName
  }

  lemma {:induction false} SyncsKeepIdentity(r: Record, ws: seq<SyncWrite>)
    ensures SameIdentity(r, ApplySyncs(r, ws))
    decreases |ws|
  {
    if ws != [] { SyncsKeepIdentity(ApplySync(r, ws[0]), ws[1..]); }
  }

  lemma {:induction false} OutcomeKeepsIdentity(r: Record, phase: string, turns: seq<Turn>, attempts: nat)
    ensures SameIdentity(r, OutcomeLoop(r, phase, turns, attempts).0)
    decreases attempts
  {
    if attempts > 0 && FirstOf(turns, CALM_TURN).readable && Writable(r) {
      var turn := FirstOf(turns, CALM_TURN);
      SyncsKeepIdentity(r, turn.syncs);
      var (s, verdict) := TryWrite(r, turn, WriteOutcome(r, phase));
      if verdict.Conflict? { OutcomeKeepsIdentity(s, phase, RestOf(turns), attempts - 1); }
    }
  }

  lemma {:induction false} PendingKeepsIdentity(r: Record, turns: seq<Turn>, attempts: nat)
    ensures SameIdentity(r, PendingLoop(r, turns, attempts).0)
    decreases attempts
  {
    if attempts > 0 && FirstOf(turns, CALM_TURN).readable && r.pending {
      var turn := FirstOf(turns, CALM_TURN);
      SyncsKeepIdentity(r, turn.syncs);
      var (s, verdict) := TryWrite(r, turn, ClearPending(r));
      if verdict.Conflict? { PendingKeepsIdentity(s, RestOf(turns), attempts - 1); }
    }
  }

  lemma FinishKeepsIdentity(r: Record, phase: string, turns: seq<Turn>, more: seq<Turn>)
    ensures SameIdentity(r, Finish(r, phase, turns, more).0)
  {
    OutcomeKeepsIdentity(r, phase, turns, RETRIES);
    PendingKeepsIdentity(OutcomeLoop(r, phase, turns, RETRIES).0, more, RETRIES);
  }

  // ---------------------------------------------------------------- recovery

  /** Old enough for recovery to decide. */
  predicate Stale(r: Record, now: Time) {
    r.pending && r.hubOrigin && r.created.Some? && now - r.created.value >= PENDING_RUN_GRACE
  }

  /** What recovery finds out about a complete stale record: the phase to finish it with. */
  function Finding(r: Record, run: Option<Run>, key: Digest): Option<string> {
    if run.None? then Some(PHASE_FAILED)
    else if Matches(r, r.status.runName, run.value, key) then Some(PHASE_CREATED)
    else None
  }

  /** What one recovery pass makes of a record; None is a deletion. */
  function Recovered(r: Record, run: Option<Run>, now: Time, key: Digest, turns: seq<Turn>, more: seq<Turn>)
    : Option<Record>
  {
    if !Stale(r, now) then Some(r)
    else if !r.Complete() then None
    else if Finding(r, run, key).None? then Some(r)
    else Some(Finish(r, Finding(r, run, key).value, turns, more).0)
  }

  function RunOf(name: string, runs: map<string, Run>): Option<Run> {
    if name in runs then Some(runs[name]) else None
  }

  /** A pass settles everything it may. A record is deleted exactly when it is stale and
      its identity incomplete; what stays pending although no call failed is younger than
      the grace period, has no timestamp, or has a run of another identity, and is
      untouched; and a stale record nothing disturbs is marked Failed when its run does not
      exist and Created when it does, unless something was recorded before. A finish that
      fails half-way still leaves no record without a mark and without an outcome. */
  lemma RecoverySettles(r: Record, run: Option<Run>, now: Time, key: Digest, turns: seq<Turn>, more: seq<Turn>)
    requires r.pending || !Open(r.status)
    requires TurnsProper(turns) && TurnsProper(more)
    ensures var s := Recovered(r, run, now, key, turns, more);
      var stale := r.created.Some? && now - r.created.value >= 2 * MINUTE;
      var complete := r.status.clusterName != "" && r.status.runName != "";
      var own := run.Some? && run.value.managed && run.value.cluster == r.status.clusterName
              && r.runKey == key(run.value.cluster, r.status.runName);
      var decides := r.pending && r.hubOrigin && stale && complete && (run.None? || own);
      var finish := Finish(r, if run.None? then "Failed" else "Created", turns, more);
      && (s == None <==> r.pending && r.hubOrigin && stale && !complete)
      && (s.Some? && !decides ==> s == Some(r))
      && (decides ==> s == Some(finish.0))
      && (s.Some? ==> s.value.pending || !Open(s.value.status))
      && (decides && finish.1 ==> !s.value.pending && !Open(s.value.status))
      && (decides && turns == [] && more == [] ==>
           && !s.value.pending && s.value.status.condition.Some?
           && s.value.status.condition.value.phase ==
                (if !Open(r.status) then r.status.condition.value.phase else if run.None? then "Failed" else "Created"))
  {
    assert PHASE_CREATED == "Created" && PHASE_FAILED == "Failed";
    FinishSettles(r, PHASE_FAILED, turns, more);
    FinishSettles(r, PHASE_CREATED, turns, more);
    if r.pending {
      FinishByField(r, PHASE_FAILED);
      FinishByField(r, PHASE_CREATED);
    }
  }

  /** A record that makes recoverPendingRuns report pending work. */
  predicate Awaited(r: Record) { r.pending && r.hubOrigin }

  function Lookup(records: map<string, Record>, name: string): Option<Record> {
    if name in records then Some(records[name]) else None
  }

  /** What the turn of one record in a pass meets. The reads and deletes of recovery
      itself succeed when it is `healthy`. */
  datatype Visit = Visit(now: Time, healthy: bool, turns: seq<Turn>, more: seq<Turn>)

  /** What has become of record `r` after its turn in a pass. */
  function AfterPass(r: Record, v: Visit, key: Digest, runs: map<string, Run>): Option<Record> {
    if v.healthy then Recovered(r, RunOf(r.status.runName, runs), v.now, key, v.turns, v.more) else Some(r)
  }

  class Client {
    var records: map<string, Record>
    var runs: map<string, Run>

    constructor ()
      ensures records == map[] && runs == map[]
    {
      records, runs := map[], map[];
    }

    /** Status syncs by another controller. */
    method Interfere(name: string, writes: seq<SyncWrite>)
      requires name in records
      modifies this`records
      ensures records == old(records)[name := ApplySyncs(old(records)[name], writes)]
    {
      var i := 0;
      while i < |writes|
        invariant 0 <= i <= |writes|
        invariant name in records && records == old(records)[name := records[name]]
        invariant ApplySyncs(records[name], writes[i..]) == ApplySyncs(old(records)[name], writes)
      {
        records := records[name := ApplySync(records[name], writes[i])];
        i := i + 1;
      }
    }

    /** An update under optimistic lock. */
    method Update(name: string, record: Record) returns (ok: bool)
      requires name in records
      modifies this`records
      ensures ok == (record.version == old(records)[name].version)
      ensures records == if ok then old(records)[name := record.(version := record.version + 1)] else old(records)
    {
      ok := record.version == records[name].version;
      if ok {
        records := records[name := record.(version := record.version + 1)];
      }
    }

    /** A write of what was read and changed, after others have written. */
    method Write(name: string, record: Record, turn: Turn) returns (verdict: Verdict)
      requires name in records && record.version == records[name].version
      modifies this`records
      ensures var (r, v) := TryWrite(old(records)[name], turn, record.(version := record.version + 1));
        verdict == v && records == old(records)[name := r]
    {
      Interfere(name, turn.syncs);
      if turn.call.Fails? {
        return Error;
      }
      var ok := Update(name, record);
      if turn.call.AnswerLost? {
        return Error;
      }
      verdict := if ok then Verdict.Stored else Verdict.Conflict;
    }

    /** Two writes: the record, then its identity. */
    method Begin(name: string, cluster: string, key: Digest, e: Creation) returns (ok: bool)
      modifies this`records
      ensures (Lookup(records, name), ok) == BeginSpec(Lookup(old(records), name), name, cluster, key, e)
      ensures records - {name} == old(records) - {name}
    {
      if e.ownerUID == "" {
        return false;
      }
      if name in records || e.create.Fails? {
        return false;
      }
      var record := Record(e.version, key(cluster, name), true, true, Some(FloorSecond(e.clock)), EMPTY_STATUS);
      records := records[name := record];
      if e.create.AnswerLost? {
        return false;
      }
      if e.deleted {
        records := records - {name};
      }
      record := record.(status := BegunStatus(name, cluster));
      if name !in records || e.status.Fails? {
        return false;
      }
      ok := Update(name, record);
      ok := ok && e.status.Works?;
    }

    /** Both loops of finishCreation; false is NotFound, a failed call or five conflicts. */
    method FinishCreation(name: string, phase: string, turns: seq<Turn>, more: seq<Turn>) returns (ok: bool)
      modifies this`records
      ensures name !in old(records) ==> !ok && records == old(records)
      ensures name in old(records) ==>
        var (r, done) := Finish(old(records)[name], phase, turns, more);
        ok == done && records == old(records)[name := r]
    {
      if name !in records {
        return false;
      }
      ok := RecordOutcome(name, phase, turns);
      if ok {
        ok := RemovePending(name, more);
      }
    }

    method RecordOutcome(name: string, phase: string, turns: seq<Turn>) returns (ok: bool)
      requires name in records
      modifies this`records
      ensures var (r, done) := OutcomeLoop(old(records)[name], phase, turns, RETRIES);
        ok == done && records == old(records)[name := r]
    {
      var attempt, left := 0, turns;
      ghost var stored := records[name];
      while attempt < RETRIES
        invariant 0 <= attempt <= RETRIES
        invariant records == old(records)[name := stored]
        invariant OutcomeLoop(stored, phase, left, RETRIES - attempt)
               == OutcomeLoop(old(records)[name], phase, turns, RETRIES)
      {
        if !FirstOf(left, CALM_TURN).readable {
          return false;
        }
        var record := records[name];
        if !record.pending ||
           (record.status.condition.Some? && record.status.condition.value.phase != PHASE_PENDING &&
            (record.status.condition.value.phase != "" || record.status.condition.value.summary != "")) {
          return true;
        }
        if record.status.condition.None? {
          record := record.(status := record.status.(condition := Some(EMPTY_CONDITION)));
        }
        record := record.(status := record.status.(condition := Some(record.status.condition.value.(phase := phase))));
        assert record.(version := record.version + 1) == WriteOutcome(stored, phase);
        var verdict := Write(name, record, FirstOf(left, CALM_TURN));
        if !verdict.Conflict? {
          return verdict.Stored?;
        }
        stored := records[name];
        attempt, left := attempt + 1, RestOf(left);
      }
      ok := false;
    }

    method RemovePending(name: string, turns: seq<Turn>) returns (ok: bool)
      requires name in records
      modifies this`records
      ensures var (r, done) := PendingLoop(old(records)[name], turns, RETRIES);
        ok == done && records == old(records)[name := r]
    {
      var attempt, left := 0, turns;
      ghost var stored := records[name];
      while attempt < RETRIES
        invariant 0 <= attempt <= RETRIES
        invariant records == old(records)[name := stored]
        invariant PendingLoop(stored, left, RETRIES - attempt)
               == PendingLoop(old(records)[name], turns, RETRIES)
      {
        if !FirstOf(left, CALM_TURN).readable {
          return false;
        }
        var record := records[name];
        if !record.pending {
          return true;
        }
        record := record.(pending := false);
        assert record.(version := record.version + 1) == ClearPending(stored);
        var verdict := Write(name, record, FirstOf(left, CALM_TURN));
        if !verdict.Conflict? {
          return verdict.Stored?;
        }
        stored := records[name];
        attempt, left := attempt + 1, RestOf(left);
      }
      ok := false;
    }

    /** Identity first, then one create of the run, then its outcome. */
    method CreateRun(name: string, cluster: string, key: Digest, e: Creation)
      modifies this
      ensures (Lookup(records, name), RunOf(name, runs))
           == Created(name, cluster, Lookup(old(records), name), RunOf(name, old(runs)), e, key)
      ensures records - {name} == old(records) - {name} && runs - {name} == old(runs) - {name}
    {
      var begun := Begin(name, cluster, key, e);
      if !begun {
        return;
      }
      var answer := if name in runs && e.reply.Accepted? then Refused(AlreadyExists) else e.reply;
      if name !in runs && (answer.Accepted? || (e.took && MayFollowCreation(answer.error))) {
        runs := runs[name := Run(cluster, true)];
      }
      if answer.Refused? {
        if Definitive(answer.error) {
          var _ := FinishCreation(name, PHASE_FAILED, e.turns, e.more);
        }
        return;
      }
      var _ := FinishCreation(name, PHASE_CREATED, e.turns, e.more);
    }

    /** One recovery pass over all listed records. */
    method RecoverPendingRuns(names: seq<string>, visits: string -> Visit, key: Digest) returns (pending: bool)
      requires forall n :: n in names <==> n in records
      requires forall i, j :: 0 <= i < j < |names| ==> names[i] != names[j]
      modifies this`records
      ensures pending <==> exists n :: n in old(records) && old(records)[n].pending && old(records)[n].hubOrigin
      ensures forall n :: n !in old(records) ==> Lookup(records, n).None?
      ensures forall n :: n in old(records) ==>
        Lookup(records, n) == AfterPass(old(records)[n], visits(n), key, runs)
      ensures forall n :: n in old(records) && !visits(n).healthy ==> Lookup(records, n) == Some(old(records)[n])
    {
      pending := false;
      var i := 0;
      while i < |names|
        invariant 0 <= i <= |names|
        invariant pending <==> exists k :: 0 <= k < i && Awaited(old(records)[names[k]])
        invariant forall n :: n !in old(records) ==> Lookup(records, n).None?
        invariant forall k :: i <= k < |names| ==> Lookup(records, names[k]) == Some(old(records)[names[k]])
        invariant forall k :: 0 <= k < i ==>
          Lookup(records, names[k]) == AfterPass(old(records)[names[k]], visits(names[k]), key, runs)
      {
        var awaited := RecoverOne(names[i], visits(names[i]), key);
        pending := pending || awaited;
        i := i + 1;
      }
    }

    method RecoverOne(name: string, v: Visit, key: Digest) returns (awaited: bool)
      requires name in records
      modifies this`records
      ensures awaited == Awaited(old(records)[name])
      ensures Lookup(records, name) == AfterPass(old(records)[name], v, key, runs)
      ensures forall n :: n != name ==> Lookup(records, n) == Lookup(old(records), n)
    {
      var record := records[name];
      if !record.pending || !record.hubOrigin {
        return false;
      }
      awaited := true;
      if record.created.None? || v.now - record.created.value < PENDING_RUN_GRACE || !v.healthy {
        return;
      }
      if record.status.clusterName == "" || record.status.runName == "" {
        records := records - {name};
        return;
      }
      var runName := record.status.runName;
      if runName !in runs {
        var _ := FinishCreation(name, PHASE_FAILED, v.turns, v.more);
        return;
      }
      var run := runs[runName];
      if run.cluster != record.status.clusterName || record.runKey != key(run.cluster, runName) || !run.managed {
        return;
      }
      var _ := FinishCreation(name, PHASE_CREATED, v.turns, v.more);
    }
  }
}
