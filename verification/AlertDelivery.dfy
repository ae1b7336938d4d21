/** One reconcile pass of the run alert reconciler (internal/controller/runalerts.go),
    as a method over the stored record, with other writers interfering. */
module AlertDelivery {
  import opened Options
  import opened RunStatus
  import opened HubRunStatus

  const ALERT_REFRESH_INTERVAL: int := MINUTE
  const ALERT_LIFETIME: int := 5 * MINUTE

  /** A POST that the Alertmanager accepted. `index` is the place of the
      notification among all that were ever queued. */
  datatype Post = Post(event: Notification, renewal: bool, index: nat, sentAt: Time, endsAt: Time)

  /** The stored record, the Alertmanager configuration, and what has happened so far. */
  datatype Hub = Hub(
    version: nat,
    status: Status,
    configured: bool,
    posts: seq<Post>,
    enqueued: seq<Notification>,  // every notification ever queued
    settled: seq<Notification>,   // every notification ever removed from the queue
    delivered: seq<bool>,         // for each of those, whether it was delivered or dropped
    cleared: bool)                // delivery was switched off at some point
  {
    predicate NeedsFiring() { status.action == "True" && status.alertStartsAt.None? }

    predicate NothingToClear() {
      status.queue == [] && status.alertStartsAt.None? && status.lastSent.None?
    }
  }

  // ---------------------------------------------------------------- atomic writes

  /** Another writer changes the metadata, and may set the phase of the condition. */
  function Foreign(h: Hub, phase: Option<string>): Hub {
    h.(version := h.version + 1, status := MaybeWithPhase(h.status, phase))
  }

  function MaybeWithPhase(s: Status, phase: Option<string>): Status {
    if phase.Some? then WithPhase(s, phase.value) else s
  }

  function ForeignAll(h: Hub, phases: seq<Option<string>>): Hub
    decreases |phases|
  {
    if phases == [] then h else ForeignAll(Foreign(h, phases[0]), phases[1..])
  }

  function PatchSync(h: Hub, o: Observation, clock: Time): Hub {
    SyncAppends(h.status, o, clock);
    var t := SyncStatus(h.status, o, clock);
    h.(version := h.version + 1, status := t,
       enqueued := h.enqueued + t.queue[|h.status.queue|..])
  }

  function PatchClear(h: Hub): Hub {
    h.(version := h.version + 1,
       status := h.status.(queue := [], alertStartsAt := None, lastSent := None),
       settled := h.settled + h.status.queue,
       delivered := h.delivered + seq(|h.status.queue|, _ => false),
       cleared := true)
  }

  function PatchInitialise(h: Hub, clock: Time): Hub {
    var now := FloorSecond(clock);
    var firing := Notification(true, now, None, h.status.Summary());
    h.(version := h.version + 1,
       status := h.status.(alertStartsAt := Some(now), queue := h.status.queue + [firing]),
       enqueued := h.enqueued + [firing])
  }

  /** The head of the queue is a firing that seems to be the one of the current period. */
  predicate MarksDelivery(s: Status)
    requires s.queue != []
  {
    s.queue[0].firing && s.action == "True" && s.alertStartsAt == Some(s.queue[0].startsAt)
  }

  function PatchAcknowledge(h: Hub, clock: Time): Hub
    requires h.status.queue != []
  {
    var event := h.status.queue[0];
    var lastSent := if MarksDelivery(h.status) then Some(FloorSecond(clock)) else h.status.lastSent;
    h.(version := h.version + 1,
       status := h.status.(queue := h.status.queue[1..], lastSent := lastSent),
       settled := h.settled + [event],
       delivered := h.delivered + [true])
  }

  function PatchRenew(h: Hub, clock: Time): Hub {
    h.(version := h.version + 1, status := h.status.(lastSent := Some(FloorSecond(clock))))
  }

  // ---------------------------------------------------------------- sending

  /** The notification a pass would POST: the head of the queue, else a renewal. */
  function Outgoing(s: Status): Notification
    requires s.queue != [] || s.alertStartsAt.Some?
  {
    if s.queue != [] then s.queue[0] else Notification(true, s.alertStartsAt.value, None, s.Summary())
  }

  /** send refuses a resolution without an end before it posts anything. */
  predicate Sendable(n: Notification) { n.firing || n.endsAt.Some? }

  function EndsAt(n: Notification, clock: Time): Time
    requires Sendable(n)
  {
    if n.firing then clock + ALERT_LIFETIME else n.endsAt.value
  }

  function AddPost(h: Hub, clock: Time): Hub
    requires h.status.queue != [] || h.status.alertStartsAt.Some?
    requires Sendable(Outgoing(h.status))
  {
    var renewal := h.status.queue == [];
    var index := if renewal && h.settled != [] then |h.settled| - 1 else |h.settled|;
    h.(posts := h.posts + [Post(Outgoing(h.status), renewal, index, clock, EndsAt(Outgoing(h.status), clock))])
  }

  // ---------------------------------------------------------------- one pass

  datatype RunRead =
    | NothingToSync              // not a hub record, or the run does not exist
    | ReadFailed                 // the run, its result or their identity is in error
    | RunRead(obs: Observation)

  /** How a read of the API server can end. */
  datatype Fetch = Got | Missing | Broken

  /** One attempt of the sync: how its read of the record ends (`Missing` also when the
      record has another identity), what others write before its patch, and how that ends. */
  datatype Attempt = Attempt(read: Fetch, gap: seq<Option<string>>, call: Call)

  const CALM_ATTEMPT := Attempt(Got, [], Works)

  /** Everything a pass meets: what it reads, what others write meanwhile, the
      clock readings, and the outcome of its POST. */
  datatype Environment = Environment(
    record: Fetch,               // the record at the start of the pass
    run: RunRead,
    attempts: seq<Attempt>,      // of the sync
    syncClock: Time,
    again: Fetch,                // the record after the sync
    owner: Fetch,                // the TelcoHealthcheck
    gap: seq<Option<string>>,    // foreign writes between the re-read and the last patch
    patch: Call,                 // how that patch ends
    checkClock: Time,
    sendClock: Time,
    accepted: bool,              // the Alertmanager took the POST
    reported: bool,              // and the response came back
    writeClock: Time)

  datatype Result = Done | Failed | Requeue | RequeueAfter(delay: int)

  /** The retry loop of the sync: a conflict is a foreign write between read and patch.
      Only a conflict is tried again. */
  function SyncLoop(h: Hub, o: Observation, attempts: seq<Attempt>, clock: Time, left: nat): (Hub, bool)
    decreases left
  {
    var attempt := FirstOf(attempts, CALM_ATTEMPT);
    if left == 0 || attempt.read.Broken? then (h, false)
    else if attempt.read.Missing? || Observe(h.status, o) == h.status then (h, true)
    else if attempt.gap == [] && !attempt.call.Fails? then (PatchSync(h, o, clock), attempt.call.Works?)
    else if !attempt.call.Works? then (ForeignAll(h, attempt.gap), false)
    else SyncLoop(ForeignAll(h, attempt.gap), o, RestOf(attempts), clock, left - 1)
  }

  function SyncSpec(h: Hub, env: Environment): (Hub, bool) {
    match env.run
    case NothingToSync => (h, true)
    case ReadFailed => (h, false)
    case RunRead(o) => SyncLoop(h, o, env.attempts, env.syncClock, RETRIES)
  }

  /** An optimistic patch: it takes effect only when nobody wrote since the read. */
  function Commit(h: Hub, env: Environment, patched: Hub, result: Result): (Hub, Result) {
    if env.gap == [] && !env.patch.Fails? then (patched, if env.patch.Works? then result else Failed)
    else (ForeignAll(h, env.gap), Failed)
  }

  /** POST the outgoing notification, then record that. */
  function Deliver(h: Hub, env: Environment): (Hub, Result)
    requires h.status.queue != [] || h.status.alertStartsAt.Some?
  {
    if !Sendable(Outgoing(h.status)) || !env.accepted then (h, Failed)
    else
      var sent := AddPost(h, env.sendClock);
      if !env.reported then (sent, Failed)
      else if h.status.queue != [] then Commit(sent, env, PatchAcknowledge(sent, env.writeClock), Requeue)
      else Commit(sent, env, PatchRenew(sent, env.writeClock), RequeueAfter(ALERT_REFRESH_INTERVAL))
  }

  /** How long a renewal still has to wait; nothing when it is due. */
  function UntilRenewal(s: Status, clock: Time): int {
    if s.lastSent.Some? then Max(0, ALERT_REFRESH_INTERVAL - (clock - s.lastSent.value)) else 0
  }

  function ActSpec(h: Hub, env: Environment): (Hub, Result) {
    if !h.configured then
      if h.NothingToClear() then (h, Done) else Commit(h, env, PatchClear(h), Done)
    else if h.NeedsFiring() then Commit(h, env, PatchInitialise(h, env.writeClock), Requeue)
    else if h.status.queue != [] then Deliver(h, env)
    else if h.status.action != "True" || h.status.alertStartsAt.None? then (h, Done)
    else if UntilRenewal(h.status, env.checkClock) > 0 then (h, RequeueAfter(UntilRenewal(h.status, env.checkClock)))
    else Deliver(h, env)
  }

  function PassSpec(h: Hub, env: Environment): (Hub, Result) {
    if env.record != Got then (h, Unread(env.record))
    else
      var (h1, ok) := SyncSpec(h, env);
      if env.again != Got then (h1, Unread(env.again))
      else if !ok && h1.status.queue == [] then (h1, Failed)
      else if env.owner != Got then (h1, Unread(env.owner))
      else ActSpec(h1, env)
  }

  /** IgnoreNotFound: an object that is gone ends a pass without an error. */
  function Unread(read: Fetch): Result {
    if read.Missing? then Done else Failed
  }

  // ---------------------------------------------------------------- the reconciler

  /** The working copy that a reconciler reads, changes and patches back. */
  class WorkingCopy {
    var version: nat
    var status: Status

    constructor (version: nat, status: Status)
      ensures this.version == version && this.status == status
    {
      this.version, this.status := version, status;
    }

    /** queueActionAlert, which changes the status through a pointer. */
    method QueueActionAlert(previous: Status, clock: Time)
      modifies this`status
      ensures status == HubRunStatus.QueueActionAlert(old(status), previous.action, clock)
    {
      var oldAction, newAction := previous.action, status.action;
      if oldAction == newAction { return; }
      var now := FloorSecond(clock);
      var summary := status.Summary();
      if newAction == "True" {
        status := status.(alertStartsAt := Some(now));
        status := status.(lastSent := None);
        status := status.(queue := status.queue + [Notification(true, now, None, summary)]);
      } else if oldAction == "True" {
        var startsAt := now;
        if status.alertStartsAt.Some? {
          startsAt := status.alertStartsAt.value;
        }
        if !(now > startsAt) {
          now := startsAt + SECOND;
        }
        status := status.(queue := status.queue + [Notification(false, startsAt, Some(now), summary)]);
        status := status.(alertStartsAt := None);
        status := status.(lastSent := None);
      }
    }

    /** The assignments of syncHubRunStatus to its working copy. */
    method ApplyObservation(o: Observation)
      modifies this`status
      ensures status == Observe(old(status), o)
    {
      var condition := EMPTY_CONDITION;
      if status.condition.Some? {
        condition := status.condition.value;
      }
      if o.conditionType != "" {
        condition := condition.(conditionType := o.conditionType);
        condition := condition.(phase := o.phase);
        if o.conditionType != "Analyzed" {
          status := status.(action := "False");
        } else {
          status := status.(action := o.action);
        }
      }
      if o.summary != "" {
        condition := condition.(summary := o.summary);
      }
      status := status.(condition := Some(condition));
    }
  }

  class RunAlertReconciler {
    // The stored record and the configuration of the singleton.
    var version: nat
    var status: Status
    var configured: bool
    // What the Alertmanager has accepted, and the history of the queue.
    ghost var posts: seq<Post>
    ghost var enqueued: seq<Notification>
    ghost var settled: seq<Notification>
    ghost var delivered: seq<bool>
    ghost var cleared: bool

    constructor (status: Status, configured: bool)
      ensures View() == Hub(0, status, configured, [], status.queue, [], [], false)
    {
      this.version, this.status, this.configured, posts := 0, status, configured, [];
      enqueued, settled, delivered, cleared := status.queue, [], [], false;
    }

    ghost function View(): Hub
      reads this
    {
      Hub(version, status, configured, posts, enqueued, settled, delivered, cleared)
    }

    /** Other controllers write to the record. */
    method Interfere(phases: seq<Option<string>>)
      modifies this`version, this`status
      ensures View() == ForeignAll(old(View()), phases)
      ensures version == old(version) + |phases|
    {
      var i := 0;
      while i < |phases|
        invariant 0 <= i <= |phases|
        invariant ForeignAll(View(), phases[i..]) == ForeignAll(old(View()), phases)
        invariant version == old(version) + i
      {
        status := MaybeWithPhase(status, phases[i]);
        version := version + 1;
        i := i + 1;
      }
    }

    /** A status patch under optimistic lock. */
    method Patch(record: WorkingCopy, call: Call) returns (verdict: Verdict, ghost stored: bool)
      modifies this`version, this`status
      ensures stored == (record.version == old(version) && !call.Fails?)
      ensures (version, status) == if stored then (old(version) + 1, record.status) else (old(version), old(status))
      ensures verdict == if !call.Works? then Error else if stored then Stored else Conflict
    {
      stored := false;
      if call.Fails? {
        return Error, stored;
      }
      verdict := Conflict;
      if record.version == version {
        status := record.status;
        version := version + 1;
        verdict, stored := Stored, true;
      }
      if call.AnswerLost? {
        verdict := Error;
      }
    }

    /** The retry loop of syncHubRunStatus; false when every attempt conflicted. */
    method SyncHubRunStatus(o: Observation, attempts: seq<Attempt>, clock: Time) returns (ok: bool)
      modifies this
      ensures (View(), ok) == SyncLoop(old(View()), o, attempts, clock, RETRIES)
    {
      var attempt, left := 0, attempts;
      while attempt < RETRIES
        invariant 0 <= attempt <= RETRIES
        invariant SyncLoop(View(), o, left, clock, RETRIES - attempt)
               == SyncLoop(old(View()), o, attempts, clock, RETRIES)
      {
        var read := FirstOf(left, CALM_ATTEMPT).read;
        if read != Got {
          return read.Missing?;
        }
        var current := new WorkingCopy(version, status);
        ghost var before := View();
        current.ApplyObservation(o);
        if current.status == status {
          return true;
        }
        current.QueueActionAlert(status, clock);
        Interfere(FirstOf(left, CALM_ATTEMPT).gap);
        var verdict; ghost var stored;
        verdict, stored := Patch(current, FirstOf(left, CALM_ATTEMPT).call);
        if stored {
          enqueued := enqueued + status.queue[|before.status.queue|..];
          assert View() == PatchSync(before, o, clock);
        }
        if !verdict.Conflict? {
          return verdict.Stored?;
        }
        attempt, left := attempt + 1, RestOf(left);
      }
      ok := false;
    }

    /** POST one notification; false is an error of any kind. */
    method Send(event: Notification, renewal: bool, env: Environment) returns (ok: bool)
      requires status.queue != [] || status.alertStartsAt.Some?
      requires event == Outgoing(status) && renewal == (status.queue == [])
      modifies this`posts
      ensures View() == if Sendable(event) && env.accepted then AddPost(old(View()), env.sendClock) else old(View())
      ensures ok == (Sendable(event) && env.accepted && env.reported)
    {
      var endsAt := env.sendClock + ALERT_LIFETIME;
      if !event.firing {
        if event.endsAt.None? {
          return false;
        }
        endsAt := event.endsAt.value;
      }
      if !env.accepted {
        return false;
      }
      ghost var index := if renewal && settled != [] then |settled| - 1 else |settled|;
      posts := posts + [Post(event, renewal, index, env.sendClock, endsAt)];
      ok := env.reported;
    }

    method Reconcile(env: Environment) returns (result: Result)
      modifies this
      ensures (View(), result) == PassSpec(old(View()), env)
    {
      if env.record != Got {
        return Unread(env.record);
      }
      var synced := env.run.NothingToSync?;
      if env.run.RunRead? {
        synced := SyncHubRunStatus(env.run.obs, env.attempts, env.syncClock);
      }
      if env.again != Got {
        return Unread(env.again);
      }
      var record := new WorkingCopy(version, status);
      if !synced {
        if |record.status.queue| == 0 {
          return Failed;
        }
      }
      if env.owner != Got {
        return Unread(env.owner);
      }
      if !configured {
        if |record.status.queue| == 0 && record.status.alertStartsAt.None? && record.status.lastSent.None? {
          return Done;
        }
        result := ClearQueue(record, env);
        return;
      }
      if record.status.action == "True" && record.status.alertStartsAt.None? {
        result := Initialise(record, env);
        return;
      }
      if |record.status.queue| > 0 {
        result := DeliverHead(record, env);
        return;
      }
      if record.status.action != "True" || record.status.alertStartsAt.None? {
        return Done;
      }
      if record.status.lastSent.Some? {
        var until := ALERT_REFRESH_INTERVAL - (env.checkClock - record.status.lastSent.value);
        if until > 0 {
          return RequeueAfter(until);
        }
      }
      result := Renew(record, env);
    }

    ghost predicate ReadBy(record: WorkingCopy)
      reads this, record
    {
      record.version == version && record.status == status
    }

    method ClearQueue(record: WorkingCopy, env: Environment) returns (result: Result)
      requires ReadBy(record)
      modifies this, record
      ensures (View(), result) == Commit(old(View()), env, PatchClear(old(View())), Done)
    {
      record.status := record.status.(queue := []);
      record.status := record.status.(alertStartsAt := None);
      record.status := record.status.(lastSent := None);
      Interfere(env.gap);
      var verdict; ghost var stored;
      verdict, stored := Patch(record, env.patch);
      if stored {
        var dropped := old(status.queue);
        delivered := delivered + seq(|dropped|, _ => false);
        settled := settled + dropped;
        cleared := true;
      }
      if !verdict.Stored? {
        return Failed;
      }
      result := Done;
    }

    method Initialise(record: WorkingCopy, env: Environment) returns (result: Result)
      requires ReadBy(record)
      modifies this, record
      ensures (View(), result) == Commit(old(View()), env, PatchInitialise(old(View()), env.writeClock), Requeue)
    {
      var now := FloorSecond(env.writeClock);
      record.status := record.status.(alertStartsAt := Some(now));
      var firing := Notification(true, now, None, record.status.Summary());
      record.status := record.status.(queue := record.status.queue + [firing]);
      Interfere(env.gap);
      var verdict; ghost var stored;
      verdict, stored := Patch(record, env.patch);
      if stored {
        enqueued := enqueued + [firing];
      }
      if !verdict.Stored? {
        return Failed;
      }
      result := Requeue;
    }

    method DeliverHead(record: WorkingCopy, env: Environment) returns (result: Result)
      requires ReadBy(record) && |status.queue| > 0
      modifies this, record
      ensures (View(), result) == Deliver(old(View()), env)
    {
      var event := record.status.queue[0];
      var sent := Send(event, false, env);
      if !sent {
        return Failed;
      }
      record.status := record.status.(queue := record.status.queue[1..]);
      if event.firing && record.status.action == "True" && record.status.alertStartsAt == Some(event.startsAt) {
        record.status := record.status.(lastSent := Some(FloorSecond(env.writeClock)));
      }
      Interfere(env.gap);
      var verdict; ghost var stored;
      verdict, stored := Patch(record, env.patch);
      if stored {
        settled := settled + [event];
        delivered := delivered + [true];
      }
      if !verdict.Stored? {
        return Failed;
      }
      result := Requeue;
    }

    method Renew(record: WorkingCopy, env: Environment) returns (result: Result)
      requires ReadBy(record) && status.queue == [] && status.alertStartsAt.Some?
      modifies this, record
      ensures (View(), result) == Deliver(old(View()), env)
    {
      var sent := Send(Notification(true, record.status.alertStartsAt.value, None, record.status.Summary()), true, env);
      if !sent {
        return Failed;
      }
      record.status := record.status.(lastSent := Some(FloorSecond(env.writeClock)));
      Interfere(env.gap);
      var verdict; ghost var stored;
      verdict, stored := Patch(record, env.patch);
      if !verdict.Stored? {
        return Failed;
      }
      result := RequeueAfter(ALERT_REFRESH_INTERVAL);
    }
  }
}
