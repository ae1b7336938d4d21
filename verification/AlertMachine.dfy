/** The alert reconciler and its environment as a state machine: one step is one
    access to the API server or one POST. Any step of the environment may fall
    between two steps of a pass, and a pass may stop for good after any step. */
module AlertMachine {
  import opened Options
  import opened RunStatus
  import opened HubRunStatus
  import opened AlertDelivery

  /** The record as a pass has read it. */
  datatype Snapshot = Snapshot(version: nat, status: Status)

  /** How far the pass in progress has come. Passes of one record never overlap. */
  datatype Pass =
    | Idle
    | Observed(obs: Observation, attempts: nat)
    | SyncRead(obs: Observation, attempts: nat, base: Snapshot)
    | Synced(failed: bool)
    | Reread(base: Snapshot, failed: bool)
    | Ready(base: Snapshot, configured: bool)
    | Posted(base: Snapshot)

  datatype System = System(hub: Hub, pass: Pass)

  datatype Step =
    // the pass
    | ReadRun(run: RunRead)
    | ReadForSync
    | PatchSynced(clock: Time)
    | LeaveSync(failed: bool)
    | ReadAgain
    | ReadOwner
    | SwitchOff
    | StartFiring(clock: Time)
    | Send(accepted: bool, reported: bool, check: Time, clock: Time)
    | Acknowledge(clock: Time)
    | Stop
    // the environment
    | ForeignWrite(phase: Option<string>)
    | Configure(on: bool)

  ghost predicate Enabled(s: System, step: Step) {
    match step
    case ReadRun(run) => s.pass.Idle? && (run.RunRead? ==> LegalAction(run.obs.action))
    case ReadForSync => s.pass.Observed?
    case PatchSynced(_) => s.pass.SyncRead?
    case LeaveSync(failed) => s.pass.Observed? || (failed && (s.pass.SyncRead? || s.pass.Synced?))
    case ReadAgain => s.pass.Synced?
    case ReadOwner => s.pass.Reread?
    case SwitchOff => s.pass.Ready? && !s.pass.configured && !OfBase(s).NothingToClear()
    case StartFiring(_) => s.pass.Ready? && s.pass.configured && OfBase(s).NeedsFiring()
    case Send(_, _, check, _) =>
      && s.pass.Ready? && s.pass.configured && !OfBase(s).NeedsFiring()
      && var read := s.pass.base.status;
      && (read.queue != [] ||
         (read.action == "True" && read.alertStartsAt.Some? && UntilRenewal(read, check) == 0))
    case Acknowledge(_) => s.pass.Posted?
    case Stop => true
    case ForeignWrite(_) => true
    case Configure(_) => true
  }

  /** The hub as the pass in progress believes it to be. */
  function OfBase(s: System): Hub
    requires s.pass.SyncRead? || s.pass.Reread? || s.pass.Ready? || s.pass.Posted?
  {
    s.hub.(version := s.pass.base.version, status := s.pass.base.status)
  }

  /** Whether the optimistic lock of a patch made from `base` holds. */
  predicate Current(s: System)
    requires s.pass.SyncRead? || s.pass.Reread? || s.pass.Ready? || s.pass.Posted?
  {
    s.pass.base.version == s.hub.version
  }

  function Apply(s: System, step: Step): System
    requires Enabled(s, step)
  {
    match step
    case ReadRun(run) =>
      s.(pass := if run.RunRead? then Observed(run.obs, RETRIES) else Synced(run.ReadFailed?))
    case ReadForSync =>
      if s.pass.attempts == 0 then s.(pass := Synced(true))
      else s.(pass := SyncRead(s.pass.obs, s.pass.attempts - 1, Snapshot(s.hub.version, s.hub.status)))
    case PatchSynced(clock) =>
      if Observe(s.pass.base.status, s.pass.obs) == s.pass.base.status then s.(pass := Synced(false))
      else if Current(s) then System(PatchSync(OfBase(s), s.pass.obs, clock), Synced(false))
      else s.(pass := Observed(s.pass.obs, s.pass.attempts))
    case LeaveSync(failed) => s.(pass := Synced(failed))
    case ReadAgain => s.(pass := Reread(Snapshot(s.hub.version, s.hub.status), s.pass.failed))
    case ReadOwner =>
      if s.pass.failed && s.pass.base.status.queue == [] then s.(pass := Idle)
      else s.(pass := Ready(s.pass.base, s.hub.configured))
    case SwitchOff =>
      System(if Current(s) then PatchClear(OfBase(s)) else s.hub, Idle)
    case StartFiring(clock) =>
      System(if Current(s) then PatchInitialise(OfBase(s), clock) else s.hub, Idle)
    case Send(accepted, reported, _, clock) =>
      if !Sendable(Outgoing(s.pass.base.status)) || !accepted then s.(pass := Idle)
      else
        var post := AddPost(OfBase(s), clock).posts;
        System(s.hub.(posts := post), if reported then Posted(s.pass.base) else Idle)
    case Acknowledge(clock) =>
      if !Current(s) then s.(pass := Idle)
      else if s.pass.base.status.queue != [] then System(PatchAcknowledge(OfBase(s), clock), Idle)
      else System(PatchRenew(OfBase(s), clock), Idle)
    case Stop => s.(pass := Idle)
    case ForeignWrite(phase) => s.(hub := Foreign(s.hub, phase))
    case Configure(on) => s.(hub := s.hub.(configured := on))
  }

  ghost predicate Run(s: System, steps: seq<Step>)
    decreases |steps|
  {
    steps == [] || (Enabled(s, steps[0]) && Run(Apply(s, steps[0]), steps[1..]))
  }

  ghost function After(s: System, steps: seq<Step>): System
    requires Run(s, steps)
    decreases |steps|
  {
    if steps == [] then s else After(Apply(s, steps[0]), steps[1..])
  }

  /** A record as it is first seen: any consistent action, nothing queued or sent yet. */
  ghost predicate Initial(s: System) {
    && s.pass.Idle?
    && ActionFollowsType(s.hub.status)
    && s.hub.status.queue == [] && s.hub.status.alertStartsAt.None? && s.hub.status.lastSent.None?
    && s.hub.posts == [] && s.hub.enqueued == [] && s.hub.settled == [] && s.hub.delivered == []
    && !s.hub.cleared
  }

  // ---------------------------------------------------------------- invariant

  /** Everything ever queued has been settled, in order, or is still in the queue. */
  ghost predicate NothingLost(h: Hub) {
    && h.enqueued == h.settled + h.status.queue
    && |h.delivered| == |h.settled|
    && (!h.cleared ==> forall i :: 0 <= i < |h.delivered| ==> h.delivered[i])
  }

  ghost predicate PostedAt(posts: seq<Post>, i: nat) {
    exists j :: 0 <= j < |posts| && posts[j].index == i && !posts[j].renewal
  }

  /** A delivery is a POST of a notification at its own place, not beyond the head
      of the queue; a renewal repeats a settled firing. */
  ghost predicate PostExplained(h: Hub, p: Post) {
    if p.renewal then
      && p.index < |h.settled| && p.index < |h.delivered| && h.delivered[p.index]
      && h.settled[p.index].firing
      && p.event.firing && p.event.startsAt == h.settled[p.index].startsAt
    else
      && p.index < |h.enqueued| && p.index <= |h.settled|
      && p.event == h.enqueued[p.index]
  }

  ghost predicate PostsExplained(h: Hub) {
    forall j :: 0 <= j < |h.posts| ==> PostExplained(h, h.posts[j])
  }

  /** POSTs go through the notifications in order. */
  ghost predicate InOrder(posts: seq<Post>) {
    forall j, k :: 0 <= j < k < |posts| ==> posts[j].index <= posts[k].index
  }

  /** A renewal directly follows a POST of the same firing. */
  ghost predicate RenewalsFollow(posts: seq<Post>) {
    forall j :: 0 <= j < |posts| && posts[j].renewal ==>
      0 < j && posts[j - 1].event.firing && posts[j - 1].event.startsAt == posts[j].event.startsAt
  }

  /** Whatever counts as delivered was accepted at least once. */
  ghost predicate DeliveredPosted(h: Hub) {
    forall i :: 0 <= i < |h.delivered| && h.delivered[i] ==> PostedAt(h.posts, i)
  }

  ghost predicate LogExplained(h: Hub) {
    PostsExplained(h) && InOrder(h.posts) && RenewalsFollow(h.posts) && DeliveredPosted(h)
  }

  ghost predicate LastPostFires(h: Hub) {
    h.posts != [] && h.posts[|h.posts| - 1].event.firing
  }

  /** Something queued after the notification of the last POST has left the queue. */
  ghost predicate SettledBeyondLastPost(h: Hub) {
    h.posts != [] && h.posts[|h.posts| - 1].index + 1 < |h.settled|
  }

  /** With nothing left to deliver, the last POST tells the truth, unless something
      queued after it was dropped. */
  ghost predicate QuietTruth(h: Hub) {
    h.status.queue == [] ==>
      && (h.status.alertStartsAt.Some? ==>
           && h.settled != [] && h.delivered != [] && h.delivered[|h.delivered| - 1]
           && h.settled[|h.settled| - 1].firing
           && h.settled[|h.settled| - 1].startsAt == h.status.alertStartsAt.value
           && LastPostFires(h)
           && h.posts[|h.posts| - 1].event.startsAt == h.status.alertStartsAt.value)
      && (LastPostFires(h) && !SettledBeyondLastPost(h) ==> h.status.action == "True")
  }

  /** What a snapshot still says about the record: nothing about the condition once
      the version has moved, but always the truth about the alert fields. */
  ghost predicate SnapshotValid(h: Hub, base: Snapshot) {
    && base.version <= h.version
    && (base.version == h.version ==> base.status == h.status)
    && SameAlertFields(base.status, h.status)
  }

  ghost predicate PassValid(s: System) {
    && (s.pass.SyncRead? || s.pass.Reread? || s.pass.Ready? || s.pass.Posted? ==> SnapshotValid(s.hub, s.pass.base))
    && (s.pass.Observed? || s.pass.SyncRead? ==> LegalAction(s.pass.obs.action))
    && (s.pass.Posted? ==>
         && s.hub.posts != []
         && var last := s.hub.posts[|s.hub.posts| - 1];
         && (s.hub.status.queue != [] || s.hub.status.alertStartsAt.Some?)
         && last.renewal == (s.hub.status.queue == [])
         && last.event.firing == Outgoing(s.hub.status).firing
         && last.event.startsAt == Outgoing(s.hub.status).startsAt
         && (!last.renewal ==> last.index == |s.hub.settled|))
  }

  ghost predicate HubInv(h: Hub) {
    && ActionFollowsType(h.status)
    && AlertFieldsConsistent(h.status)
    && NothingLost(h)
    && LogExplained(h)
    && QuietTruth(h)
  }

  ghost predicate Inv(s: System) {
    HubInv(s.hub) && PassValid(s)
  }

  lemma InitialInv(s: System)
    requires Initial(s)
    ensures Inv(s)
  {
  }

  // The log stays explained while the history grows.
  lemma LogGrows(h: Hub, g: Hub)
    requires LogExplained(h) && g.posts == h.posts
    requires h.enqueued <= g.enqueued && h.settled <= g.settled && h.delivered <= g.delivered
    requires forall i :: |h.delivered| <= i < |g.delivered| && g.delivered[i] ==> PostedAt(h.posts, i)
    ensures LogExplained(g)
  {
    forall j | 0 <= j < |g.posts|
      ensures PostExplained(g, g.posts[j])
    {
      assert PostExplained(h, h.posts[j]);
    }
  }

  lemma LogAppends(h: Hub, p: Post)
    requires LogExplained(h) && PostExplained(h, p)
    requires h.posts != [] ==> h.posts[|h.posts| - 1].index <= p.index
    requires p.renewal ==>
      h.posts != [] && h.posts[|h.posts| - 1].event.firing && h.posts[|h.posts| - 1].event.startsAt == p.event.startsAt
    ensures LogExplained(h.(posts := h.posts + [p]))
  {
    StillExplained(h, p);
    AppendInOrder(h.posts, p);
    AppendRenewal(h.posts, p);
    StillPosted(h, p);
  }

  lemma StillExplained(h: Hub, p: Post)
    requires PostsExplained(h) && PostExplained(h, p)
    ensures PostsExplained(h.(posts := h.posts + [p]))
  {
    var g := h.(posts := h.posts + [p]);
    forall j | 0 <= j < |g.posts|
      ensures PostExplained(g, g.posts[j])
    {
      if j < |h.posts| { assert PostExplained(h, h.posts[j]); }
    }
  }

  lemma AppendRenewal(posts: seq<Post>, p: Post)
    requires RenewalsFollow(posts)
    requires p.renewal ==>
      posts != [] && posts[|posts| - 1].event.firing && posts[|posts| - 1].event.startsAt == p.event.startsAt
    ensures RenewalsFollow(posts + [p])
  {
  }

  lemma AppendInOrder(posts: seq<Post>, p: Post)
    requires InOrder(posts) && (posts != [] ==> posts[|posts| - 1].index <= p.index)
    ensures InOrder(posts + [p])
  {
    forall j, k | 0 <= j < k < |posts + [p]|
      ensures (posts + [p])[j].index <= (posts + [p])[k].index
    {
      if k == |posts| && j < |posts| - 1 { assert posts[j].index <= posts[|posts| - 1].index; }
    }
  }

  lemma StillPosted(h: Hub, p: Post)
    requires DeliveredPosted(h)
    ensures DeliveredPosted(h.(posts := h.posts + [p]))
  {
    forall i | 0 <= i < |h.delivered| && h.delivered[i]
      ensures PostedAt(h.posts + [p], i)
    {
      var j :| 0 <= j < |h.posts| && h.posts[j].index == i && !h.posts[j].renewal;
      assert (h.posts + [p])[j] == h.posts[j];
    }
  }

  lemma SyncInv(h: Hub, o: Observation, clock: Time)
    requires HubInv(h) && LegalAction(o.action) && Observe(h.status, o) != h.status
    ensures HubInv(PatchSync(h, o, clock))
  {
    var g := PatchSync(h, o, clock);
    SyncKeepsActionFollowsType(h.status, o, clock);
    SyncKeepsAlertFields(h.status, o, clock);
    SyncAppends(h.status, o, clock);
    LogGrows(h, g);
    SyncLoses(h, o, clock);
    SyncQuiet(h, o, clock);
  }

  lemma SyncLoses(h: Hub, o: Observation, clock: Time)
    requires NothingLost(h)
    ensures NothingLost(PatchSync(h, o, clock))
  {
    SyncAppends(h.status, o, clock);
    var g := PatchSync(h, o, clock);
    assert g.status.queue == h.status.queue + g.status.queue[|h.status.queue|..];
  }

  lemma SyncQuiet(h: Hub, o: Observation, clock: Time)
    requires QuietTruth(h)
    ensures QuietTruth(PatchSync(h, o, clock))
  {
    var g := PatchSync(h, o, clock);
    SyncAppends(h.status, o, clock);
    if g.status.queue == [] {
      assert h.status.queue == [];
      assert g.status.alertStartsAt == h.status.alertStartsAt;
    }
  }

  lemma ClearInv(h: Hub)
    requires HubInv(h)
    ensures HubInv(PatchClear(h))
  {
    LogGrows(h, PatchClear(h));
    ClearQuiet(h);
  }

  /** A last POST that nothing was settled beyond is that of the only entry dropped. */
  lemma ClearQuiet(h: Hub)
    requires HubInv(h)
    ensures QuietTruth(PatchClear(h))
  {
    if h.posts != [] {
      assert PostExplained(h, h.posts[|h.posts| - 1]);
    }
  }

  lemma InitialiseInv(h: Hub, clock: Time)
    requires HubInv(h) && h.NeedsFiring()
    ensures HubInv(PatchInitialise(h, clock))
  {
    LogGrows(h, PatchInitialise(h, clock));
  }

  /** A POST is made from the status as it was read; only its summary can be out of date. */
  lemma PostInv(h: Hub, read: Status, clock: Time)
    requires HubInv(h) && SameAlertFields(read, h.status)
    requires h.status.queue != [] || h.status.alertStartsAt.Some?
    ensures Sendable(Outgoing(read))
    ensures HubInv(h.(posts := AddPost(h.(status := read), clock).posts))
  {
    var g := h.(posts := AddPost(h.(status := read), clock).posts);
    var p := g.posts[|h.posts|];
    assert PostExplained(h, p);
    if h.posts != [] {
      assert PostExplained(h, h.posts[|h.posts| - 1]);
    }
    LogAppends(h, p);
    PostQuiet(h, read, clock);
  }

  lemma PostQuiet(h: Hub, read: Status, clock: Time)
    requires QuietTruth(h) && AlertFieldsConsistent(h.status) && SameAlertFields(read, h.status)
    requires h.status.queue != [] || h.status.alertStartsAt.Some?
    requires Sendable(Outgoing(read))
    ensures QuietTruth(h.(posts := AddPost(h.(status := read), clock).posts))
  {
  }

  lemma AcknowledgeInv(h: Hub, clock: Time)
    requires HubInv(h) && h.status.queue != [] && h.posts != []
    requires var last := h.posts[|h.posts| - 1];
      && !last.renewal && last.index == |h.settled|
      && last.event.firing == h.status.queue[0].firing && last.event.startsAt == h.status.queue[0].startsAt
    ensures HubInv(PatchAcknowledge(h, clock))
  {
    var g := PatchAcknowledge(h, clock);
    var q := h.status.queue;
    assert q == [q[0]] + q[1..];
    assert NothingLost(g) by {
      assert h.settled + q == h.settled + [q[0]] + q[1..];
    }
    assert PostedAt(h.posts, |h.settled|) by {
      assert h.posts[|h.posts| - 1].index == |h.settled|;
    }
    LogGrows(h, g);
    AcknowledgeFields(h, clock);
    assert QuietTruth(g);
  }

  lemma AcknowledgeFields(h: Hub, clock: Time)
    requires AlertFieldsConsistent(h.status) && h.status.queue != []
    ensures AlertFieldsConsistent(PatchAcknowledge(h, clock).status)
  {
  }

  lemma StepInv(s: System, step: Step)
    requires Inv(s) && Enabled(s, step)
    ensures Inv(Apply(s, step))
  {
    match step
    case PatchSynced(clock) =>
      if Observe(s.pass.base.status, s.pass.obs) != s.pass.base.status && Current(s) {
        assert OfBase(s) == s.hub;
        SyncInv(s.hub, s.pass.obs, clock);
      }
    case SwitchOff =>
      if Current(s) { assert OfBase(s) == s.hub; ClearInv(s.hub); }
    case StartFiring(clock) =>
      if Current(s) { assert OfBase(s) == s.hub; InitialiseInv(s.hub, clock); }
    case Send(accepted, reported, check, clock) => SendInv(s, step);
    case Acknowledge(clock) =>
      if Current(s) {
        assert OfBase(s) == s.hub;
        if s.hub.status.queue != [] { AcknowledgeInv(s.hub, clock); }
        else { RenewInv(s.hub, clock); }
      }
    case ForeignWrite(phase) => ForeignInv(s, phase);
    case Configure(_) => ConfigureInv(s, step);
    case _ =>
  }

  lemma SendInv(s: System, step: Step)
    requires Inv(s) && Enabled(s, step) && step.Send?
    ensures Inv(Apply(s, step))
  {
    SendPass(s, step);
    PostInv(s.hub, s.pass.base.status, step.clock);
    SendHub(s, step);
  }

  lemma SendPass(s: System, step: Step)
    requires PassValid(s) && Enabled(s, step) && step.Send?
    ensures PassValid(Apply(s, step))
  {
  }

  lemma SendHub(s: System, step: Step)
    requires Enabled(s, step) && step.Send? && Sendable(Outgoing(s.pass.base.status))
    ensures var t := Apply(s, step);
      || t.hub == s.hub
      || t.hub == s.hub.(posts := AddPost(s.hub.(status := s.pass.base.status), step.clock).posts)
  {
  }

  lemma RenewInv(h: Hub, clock: Time)
    requires HubInv(h) && h.status.alertStartsAt.Some?
    ensures HubInv(PatchRenew(h, clock))
  {
    LogGrows(h, PatchRenew(h, clock));
  }

  lemma ForeignInv(s: System, phase: Option<string>)
    requires Inv(s)
    ensures Inv(Apply(s, ForeignWrite(phase)))
  {
    ForeignHub(s.hub, phase);
  }

  lemma ForeignHub(h: Hub, phase: Option<string>)
    requires HubInv(h)
    ensures HubInv(Foreign(h, phase))
  {
    LogGrows(h, Foreign(h, phase));
  }

  lemma ConfigureInv(s: System, step: Step)
    requires Inv(s) && step.Configure?
    ensures Inv(Apply(s, step))
  {
    LogGrows(s.hub, Apply(s, step).hub);
  }

  lemma {:induction false} RunInv(s: System, steps: seq<Step>)
    requires Inv(s) && Run(s, steps)
    ensures Inv(After(s, steps))
    decreases |steps|
  {
    if steps != [] {
      StepInv(s, steps[0]);
      RunInv(Apply(s, steps[0]), steps[1..]);
    }
  }
}
