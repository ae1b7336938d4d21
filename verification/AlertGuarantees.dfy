/** What the alert queue promises over whole runs. */
module AlertGuarantees {
  import opened Options
  import opened RunStatus
  import opened HubRunStatus
  import opened AlertDelivery
  import opened AlertMachine
  import opened AlertRefinement

  lemma ReachableInv(s: System, t: System)
    requires Initial(s) && Reaches(s, t)
    ensures Inv(t)
  {
    InitialInv(s);
    var steps :| Run(s, steps) && After(s, steps) == t;
    RunInv(s, steps);
  }

  // ---------------------------------------------------------------- the stored fields

  /** In every reachable state the action follows the condition type, and the alert
      fields agree with the action and with each other, spelled out. */
  lemma AlertStateInvariant(s: System, t: System)
    requires Initial(s) && Reaches(s, t)
    ensures var r := t.hub.status;
      && (r.condition.None? || r.condition.value.conditionType == "" ==> r.action == "")
      && (r.condition.Some? && r.condition.value.conditionType !in {"", "Analyzed"} ==> r.action == "False")
      && (forall i :: 0 < i < |r.queue| ==> r.queue[i].firing != r.queue[i - 1].firing)
      && (forall i :: 0 < i < |r.queue| && !r.queue[i].firing ==>
           && r.queue[i].startsAt == r.queue[i - 1].startsAt
           && r.queue[i].endsAt.Some? && r.queue[i].endsAt.value > r.queue[i].startsAt)
      && (forall i :: 0 <= i < |r.queue| && r.queue[i].firing ==> r.queue[i].endsAt == None)
      && (r.queue != [] ==> (r.queue[|r.queue| - 1].firing <==> r.action == "True"))
      && (r.queue != [] && r.queue[|r.queue| - 1].firing ==> r.alertStartsAt == Some(r.queue[|r.queue| - 1].startsAt))
      && (r.lastSent.Some? ==> r.alertStartsAt.Some?) && (r.alertStartsAt.Some? ==> r.action == "True")
      && (t.hub.NeedsFiring() ==> r.queue == [])
  {
    ReachableInv(s, t);
  }

  lemma {:induction false} ForeignKeepsAlerts(h: Hub, phases: seq<Option<string>>)
    ensures SameAlertFields(ForeignAll(h, phases).status, h.status) && ForeignAll(h, phases).enqueued == h.enqueued
    decreases |phases|
  {
    if phases != [] { ForeignKeepsAlerts(Foreign(h, phases[0]), phases[1..]); }
  }

  /** Every attempt found the record. */
  ghost predicate AllFound(attempts: seq<Attempt>) {
    forall i :: 0 <= i < |attempts| ==> attempts[i].read.Got?
  }

  /** What a sync may do to the history of the queue. */
  ghost predicate QueuesOnce(h: Hub, g: Hub) {
    && h.enqueued <= g.enqueued
    && |g.enqueued| == |h.enqueued| + (if (h.status.action == "True") != (g.status.action == "True") then 1 else 0)
  }

  lemma PatchQueuesOnce(h: Hub, o: Observation, clock: Time)
    ensures QueuesOnce(h, PatchSync(h, o, clock))
  {
    SyncAppends(h.status, o, clock);
  }

  lemma {:induction false} SyncQueues(h: Hub, o: Observation, attempts: seq<Attempt>, clock: Time, left: nat)
    ensures QueuesOnce(h, SyncLoop(h, o, attempts, clock, left).0)
    decreases left
  {
    var attempt := FirstOf(attempts, CALM_ATTEMPT);
    if left > 0 && attempt.read.Got? && Observe(h.status, o) != h.status {
      PatchQueuesOnce(h, o, clock);
      ForeignKeepsAlerts(h, attempt.gap);
      if attempt.gap != [] && attempt.call.Works? {
        SyncQueues(ForeignAll(h, attempt.gap), o, RestOf(attempts), clock, left - 1);
      }
    }
  }

  lemma {:induction false} SyncConverges(h: Hub, o: Observation, attempts: seq<Attempt>, clock: Time, left: nat)
    requires SyncLoop(h, o, attempts, clock, left).1 && AllFound(attempts)
    ensures var s := SyncLoop(h, o, attempts, clock, left).0.status; Observe(s, o) == s
    decreases left
  {
    var attempt := FirstOf(attempts, CALM_ATTEMPT);
    if Observe(h.status, o) != h.status {
      if attempt.gap == [] {
        SyncIdempotent(h.status, o, clock, clock);
      } else {
        SyncConverges(ForeignAll(h, attempt.gap), o, RestOf(attempts), clock, left - 1);
      }
    }
  }

  /** However often its attempts conflict, and however it ends, a sync queues at most one
      notification, exactly when the action enters or leaves "True". After one that found
      its record and succeeded, the same observation changes and queues nothing at any time. */
  lemma SyncOnce(h: Hub, o: Observation, attempts: seq<Attempt>, clock: Time, left: nat,
                 again: seq<Attempt>, later: Time)
    ensures var (g, ok) := SyncLoop(h, o, attempts, clock, left);
      && QueuesOnce(h, g)
      && (ok && AllFound(attempts) && !FirstOf(again, CALM_ATTEMPT).read.Broken? ==>
           SyncLoop(g, o, again, later, RETRIES) == (g, true))
  {
    SyncQueues(h, o, attempts, clock, left);
    if SyncLoop(h, o, attempts, clock, left).1 && AllFound(attempts) {
      SyncConverges(h, o, attempts, clock, left);
    }
  }

  // ---------------------------------------------------------------- lossless FIFO delivery

  /** The Alertmanager took the notification settled at place `i`, at that place. */
  ghost predicate Accepted(h: Hub, i: nat)
    requires i < |h.settled|
  {
    exists j :: 0 <= j < |h.posts| && h.posts[j].index == i && !h.posts[j].renewal && h.posts[j].event == h.settled[i]
  }

  /** A firing is posted to last five minutes unless it is renewed; a resolution with the end
      it was queued with, which lies after its start. */
  ghost predicate EndsRight(p: Post) {
    if p.event.firing then p.endsAt == p.sentAt + 5 * MINUTE && p.event.endsAt == None
    else p.event.endsAt == Some(p.endsAt) && p.endsAt > p.event.startsAt
  }

  /** The POST that may come next: the head of the queue in its own place, or with an empty
      queue a renewal of what was settled last, if that is a delivered firing. */
  ghost predicate NextPost(h: Hub, p: Post) {
    && EndsRight(p)
    && if p.renewal then
      && h.status.queue == [] && h.settled != [] && p.index == |h.settled| - 1
      && p.index < |h.delivered| && h.delivered[p.index] && h.settled[p.index].firing
      && p.event.firing && p.event.startsAt == h.settled[p.index].startsAt
    else h.status.queue != [] && p.index == |h.settled| && p.event == h.status.queue[0]
  }

  lemma NextPostStep(s: System, step: Step)
    requires Inv(s) && Enabled(s, step)
    ensures var h, g := s.hub, Apply(s, step).hub;
      && |h.settled| <= |g.settled|
      && (g.posts == h.posts ||
          (&& |g.posts| == |h.posts| + 1 && h.posts <= g.posts && NextPost(h, g.posts[|h.posts|])))
  {
    if step.Send? {
      SendHub(s, step);
    }
  }

  /** The log grows by one POST at a time, and only by the one whose turn it is. */
  lemma PostsInTurn(s: System, t: System, step: Step)
    requires Initial(s) && Reaches(s, t) && Enabled(t, step)
    ensures var h, g := t.hub, Apply(t, step).hub;
      g.posts == h.posts ||
      (&& |g.posts| == |h.posts| + 1 && h.posts <= g.posts && NextPost(h, g.posts[|h.posts|]))
  {
    ReachableInv(s, t);
    NextPostStep(t, step);
  }

  /** From place `from` of the log on, nothing is delivered of the first `settled` notifications,
      and only the last of them renewed. */
  ghost predicate DoneWith(posts: seq<Post>, from: nat, settled: nat) {
    forall k :: from <= k < |posts| ==> posts[k].index >= if posts[k].renewal then settled - 1 else settled
  }

  lemma DoneWithStep(h: Hub, posts: seq<Post>, from: nat, settled: nat)
    requires settled <= |h.settled| && from <= |h.posts| && DoneWith(h.posts, from, settled)
    requires posts == h.posts || (|posts| == |h.posts| + 1 && h.posts <= posts && NextPost(h, posts[|h.posts|]))
    ensures h.posts <= posts && DoneWith(posts, from, settled)
  {
  }

  lemma {:induction false} LaterPosts(t: System, steps: seq<Step>, from: nat, settled: nat)
    requires Inv(t) && Run(t, steps) && settled <= |t.hub.settled|
    requires from <= |t.hub.posts| && DoneWith(t.hub.posts, from, settled)
    ensures t.hub.posts <= After(t, steps).hub.posts && DoneWith(After(t, steps).hub.posts, from, settled)
    decreases |steps|
  {
    if steps != [] {
      var u := Apply(t, steps[0]);
      NextPostStep(t, steps[0]);
      DoneWithStep(t.hub, u.hub.posts, from, settled);
      StepInv(t, steps[0]);
      LaterPosts(u, steps[1..], from, settled);
    }
  }

  /** A notification that has left the queue is never delivered again, and of those only
      the last one is ever renewed. */
  lemma NeverDeliveredAgain(s: System, t: System, u: System)
    requires Initial(s) && Reaches(s, t) && Reaches(t, u)
    ensures t.hub.posts <= u.hub.posts && DoneWith(u.hub.posts, |t.hub.posts|, |t.hub.settled|)
  {
    ReachableInv(s, t);
    var steps :| Run(t, steps) && After(t, steps) == u;
    LaterPosts(t, steps, |t.hub.posts|, |t.hub.settled|);
  }

  /** Once a firing has been renewed, its turn to be delivered is over. */
  ghost predicate TurnsOver(posts: seq<Post>) {
    forall j, k :: 0 <= j < k < |posts| && posts[j].renewal && !posts[k].renewal ==> posts[j].index < posts[k].index
  }

  ghost predicate LogRight(posts: seq<Post>) {
    TurnsOver(posts) && forall j :: 0 <= j < |posts| ==> EndsRight(posts[j])
  }

  lemma {:induction false} LogRightRun(s: System, steps: seq<Step>)
    requires Inv(s) && Run(s, steps) && LogRight(s.hub.posts)
    ensures LogRight(After(s, steps).hub.posts)
    decreases |steps|
  {
    if steps != [] {
      NextPostStep(s, steps[0]);
      StepInv(s, steps[0]);
      TurnsOverStep(s.hub, Apply(s, steps[0]).hub.posts);
      LogRightRun(Apply(s, steps[0]), steps[1..]);
    }
  }

  lemma TurnsOverStep(h: Hub, posts: seq<Post>)
    requires PostsExplained(h) && LogRight(h.posts)
    requires posts == h.posts || (|posts| == |h.posts| + 1 && h.posts <= posts && NextPost(h, posts[|h.posts|]))
    ensures LogRight(posts)
  {
    forall j, k | 0 <= j < k < |posts| && posts[j].renewal && !posts[k].renewal
      ensures posts[j].index < posts[k].index
    {
      assert posts[j] == h.posts[j] && PostExplained(h, h.posts[j]);
    }
  }

  /** No notification is lost, reordered or invented: those removed from the queue,
      followed by those in it, are exactly those ever queued; each one counted as
      delivered was accepted in its own turn; and every accepted POST is a delivery of a
      notification in its turn, a repetition of the head, or a renewal of a delivered firing,
      after which that firing is not delivered again; and each is posted with the end it
      should have. (PostsInTurn and NeverDeliveredAgain
      say what "in its turn" means while the log grows.) */
  lemma LosslessFifo(s: System, t: System)
    requires Initial(s) && Reaches(s, t)
    ensures var h := t.hub;
      && h.settled + h.status.queue == h.enqueued
      && |h.delivered| == |h.settled|
      && (forall i :: 0 <= i < |h.settled| && h.delivered[i] ==> Accepted(h, i))
      && (forall j, k :: 0 <= j < k < |h.posts| ==> h.posts[j].index <= h.posts[k].index)
      && TurnsOver(h.posts) && (forall j :: 0 <= j < |h.posts| ==> EndsRight(h.posts[j]))
      && (forall j :: 0 <= j < |h.posts| && !h.posts[j].renewal ==>
           && h.posts[j].index < |h.enqueued| && h.posts[j].index <= |h.settled|
           && h.posts[j].event == h.enqueued[h.posts[j].index])
      && (forall j :: 0 <= j < |h.posts| && h.posts[j].renewal ==>
           && h.posts[j].index < |h.settled| && h.delivered[h.posts[j].index] && h.posts[j].event.firing
           && h.settled[h.posts[j].index].firing
           && h.settled[h.posts[j].index].startsAt == h.posts[j].event.startsAt)
  {
    InitialInv(s);
    var steps :| Run(s, steps) && After(s, steps) == t;
    LogRightRun(s, steps);
    ReachableInv(s, t);
    var h := t.hub;
    forall j | 0 <= j < |h.posts|
      ensures PostExplained(h, h.posts[j])
    {
    }
    forall i | 0 <= i < |h.settled| && h.delivered[i]
      ensures Accepted(h, i)
    {
      assert PostedAt(h.posts, i);
      var j :| 0 <= j < |h.posts| && h.posts[j].index == i && !h.posts[j].renewal;
      assert PostExplained(h, h.posts[j]);
      assert h.enqueued[i] == h.settled[i];
    }
  }

  /** The run leaves delivery switched on. */
  ghost predicate StaysConfigured(s: System, steps: seq<Step>) {
    s.hub.configured && forall i :: 0 <= i < |steps| ==> steps[i] != Configure(false)
  }

  lemma {:induction false} NeverCleared(s: System, steps: seq<Step>)
    requires Run(s, steps) && StaysConfigured(s, steps)
    requires !s.hub.cleared && (s.pass.Ready? ==> s.pass.configured)
    ensures !After(s, steps).hub.cleared
    decreases |steps|
  {
    if steps != [] {
      NeverCleared(Apply(s, steps[0]), steps[1..]);
    }
  }

  /** While delivery stays configured nothing at all is dropped. */
  lemma NothingDropped(s: System, steps: seq<Step>)
    requires Initial(s) && Run(s, steps) && StaysConfigured(s, steps)
    ensures var h := After(s, steps).hub;
      forall i :: 0 <= i < |h.settled| ==> Accepted(h, i)
  {
    var t := After(s, steps);
    assert Reaches(s, t);
    LosslessFifo(s, t);
    ReachableInv(s, t);
    NeverCleared(s, steps);
  }

  // ---------------------------------------------------------------- quiescent agreement

  /** Once a firing period has nothing left to deliver, the last accepted POST is a
      firing of that period. This holds even if delivery was switched off and on. */
  lemma QuietFiringWasPosted(s: System, t: System)
    requires Initial(s) && Reaches(s, t)
    requires t.hub.status.queue == [] && t.hub.status.alertStartsAt.Some?
    ensures var h := t.hub;
      && h.status.action == "True"
      && h.posts != []
      && h.posts[|h.posts| - 1].event.firing
      && h.posts[|h.posts| - 1].event.startsAt == h.status.alertStartsAt.value
      && h.status.lastSent.Some?
  {
    ReachableInv(s, t);
  }

  /** What was settled last was delivered last, so the last POST is not behind it. */
  lemma LastDelivered(h: Hub)
    requires HubInv(h) && h.settled != [] && h.delivered[|h.delivered| - 1]
    ensures h.posts != [] && !SettledBeyondLastPost(h)
  {
    var i := |h.settled| - 1;
    assert PostedAt(h.posts, i);
    var j :| 0 <= j < |h.posts| && h.posts[j].index == i && !h.posts[j].renewal;
    if j < |h.posts| - 1 {
      assert h.posts[j].index <= h.posts[|h.posts| - 1].index;
    }
  }

  /** With an empty queue, the Alertmanager was last told what the record says, unless
      the last POST is a firing and something queued after it was dropped; and then it
      was not. (A record first seen with the action "True" gets its firing from its first pass.) */
  lemma AgreementExactly(s: System, t: System)
    requires Initial(s) && Reaches(s, t)
    requires t.hub.status.queue == [] && !t.hub.NeedsFiring()
    ensures (LastPostFires(t.hub) <==> t.hub.status.action == "True") <==>
            !(LastPostFires(t.hub) && SettledBeyondLastPost(t.hub))
  {
    ReachableInv(s, t);
    if t.hub.status.action == "True" {
      LastDelivered(t.hub);
    }
  }

  /** The initial firing of a record that needs one comes before any POST. */
  ghost predicate NeedsFirst(h: Hub) { h.NeedsFiring() ==> h.posts == [] }

  lemma NeedsFirstStep(s: System, step: Step)
    requires Inv(s) && Enabled(s, step) && NeedsFirst(s.hub) && (s.pass.Ready? ==> s.pass.configured)
    ensures var h := Apply(s, step).hub; NeedsFirst(h) && (!s.hub.NeedsFiring() ==> !h.NeedsFiring())
  {
    if step.PatchSynced? && Current(s) {
      assert OfBase(s) == s.hub;
    }
  }

  lemma {:induction false} NeedsFirstRun(s: System, steps: seq<Step>)
    requires Inv(s) && Run(s, steps) && StaysConfigured(s, steps)
    requires NeedsFirst(s.hub) && (s.pass.Ready? ==> s.pass.configured)
    ensures var h := After(s, steps).hub; NeedsFirst(h) && (!s.hub.NeedsFiring() ==> !h.NeedsFiring())
    decreases |steps|
  {
    if steps != [] {
      StepInv(s, steps[0]);
      NeedsFirstStep(s, steps[0]);
      NeedsFirstRun(Apply(s, steps[0]), steps[1..]);
    }
  }

  /** While delivery stays configured, an empty queue means that the Alertmanager was last
      told exactly what the record says, except while the initial firing of a record first
      seen with the action "True" is not queued yet; and then it does not agree. */
  lemma QuietAgreement(s: System, steps: seq<Step>)
    requires Initial(s) && Run(s, steps) && StaysConfigured(s, steps)
    requires After(s, steps).hub.status.queue == []
    ensures var h := After(s, steps).hub;
      && ((LastPostFires(h) <==> h.status.action == "True") <==> !h.NeedsFiring())
      && (s.hub.status.action != "True" ==> !h.NeedsFiring())
  {
    var t := After(s, steps);
    assert Reaches(s, t);
    ReachableInv(s, t);
    InitialInv(s);
    NeverCleared(s, steps);
    NeedsFirstRun(s, steps);
    if t.hub.settled != [] {
      LastDelivered(t.hub);
    }
    if !t.hub.NeedsFiring() {
      AgreementExactly(s, t);
    }
  }

  const CALM := Environment(Got, NothingToSync, [], 0, Got, Got, [], Works, 0, 0, true, true, 0)
  const FIRES := CALM.(run := RunRead(Observation("Analyzed", "Done", "", "True")))
  const STOPS := CALM.(run := RunRead(Observation("Analyzed", "Done", "", "False")))
  const FIRST := Hub(0, Status("run", "spoke", None, "", [], None, None), true, [], [], [], [], false)

  /** Switching delivery off and on breaks that agreement: a firing that was delivered
      before is never resolved, although the action has left "True". */
  lemma SwitchingOffLeavesFiring()
    ensures exists s, t ::
      && Initial(s) && Reaches(s, t) && t.hub.configured && t.pass.Idle?
      && t.hub.status.queue == [] && t.hub.status.action == "False"
      && LastPostFires(t.hub) && SettledBeyondLastPost(t.hub)
  {
    var h := OffAndOn();
    var s, t := System(FIRST, Idle), System(h, Idle);
    assert Initial(s) && Reaches(s, t);
  }

  lemma OffAndOn() returns (h: Hub)
    ensures Reaches(System(FIRST, Idle), System(h, Idle)) && h.configured
    ensures h.status.queue == [] && h.status.action == "False" && LastPostFires(h) && SettledBeyondLastPost(h)
  {
    var h1, h3, h4 := FireAndStop();
    var s := System(FIRST, Idle);
    PassRun(FIRST, FIRES);
    ThenStep(s, System(h1, Idle), Configure(false));
    PassRun(h1.(configured := false), CALM);
    ReachesTrans(s, System(h1.(configured := false), Idle), System(h3, Idle));
    PassRun(h3, STOPS);
    ReachesTrans(s, System(h3, Idle), System(h4, Idle));
    ThenStep(s, System(h4, Idle), Configure(true));
    h := h4.(configured := true);
  }

  /** A pass that delivers a firing, one that clears it, one that sees the action end. */
  lemma FireAndStop() returns (h1: Hub, h3: Hub, h4: Hub)
    ensures h1 == PassSpec(FIRST, FIRES).0
    ensures h3 == PassSpec(h1.(configured := false), CALM).0 && h4 == PassSpec(h3, STOPS).0
    ensures h4.status.queue == [] && h4.status.action == "False" && LastPostFires(h4) && SettledBeyondLastPost(h4)
  {
    h1 := PassSpec(FIRST, FIRES).0;
    assert SyncSpec(FIRST, FIRES).0 == PatchSync(FIRST, FIRES.run.obs, 0);
    assert LastPostFires(h1) && h1.status.queue == [] && h1.status.action == "True" && h1.configured;
    assert |h1.settled| == 1 && |h1.posts| == 1 && h1.posts[0].index == 0;
    h3 := PassSpec(h1.(configured := false), CALM).0;
    assert h3.posts == h1.posts && h3.settled == h1.settled;
    assert h3.NothingToClear() && h3.status.action == "True" && !h3.configured;
    h4 := PassSpec(h3, STOPS).0;
    AfterTheEnd(h3);
  }

  /** With delivery off, the resolution is queued and dropped by the same pass. */
  lemma AfterTheEnd(h: Hub)
    requires h.NothingToClear() && h.status.action == "True" && !h.configured
    ensures var g := PassSpec(h, STOPS).0;
      && g.status.queue == [] && g.status.action == "False" && g.posts == h.posts && |g.settled| == |h.settled| + 1
  {
    assert SyncSpec(h, STOPS).0 == PatchSync(h, STOPS.run.obs, 0);
  }

  // ---------------------------------------------------------------- the delivery time

  /** The head of the queue is the firing of the current period. */
  ghost predicate HeadIsCurrent(s: Status) {
    |s.queue| == 1 && s.queue[0].firing
  }

  /** The acknowledgement of the current period's firing always sets the delivery time.
      That of an older firing sets it if and only if the queue ends with a firing of the
      same second. */
  lemma OlderFiringMarks(s: System, t: System)
    requires Initial(s) && Reaches(s, t) && t.hub.status.queue != []
    ensures var r := t.hub.status;
      var last := r.queue[|r.queue| - 1];
      && (HeadIsCurrent(r) ==> MarksDelivery(r))
      && (MarksDelivery(r) && !HeadIsCurrent(r) <==>
           |r.queue| > 1 && r.queue[0].firing && last.firing && last.startsAt == r.queue[0].startsAt)
  {
    ReachableInv(s, t);
  }

  /** It does happen: the action turns on, off and on within a second, the Alertmanager
      takes the first POST, and the delivery time of the second firing is set with
      that firing and the resolution before it still in the queue. */
  lemma SameSecondMarksEarly()
    ensures exists s, t :: Initial(s) && Reaches(s, t) && t.hub.status.lastSent.Some? && |t.hub.status.queue| == 2
  {
    var h := OnOffOn();
    var s, t := System(FIRST, Idle), System(h, Idle);
    assert Initial(s) && Reaches(s, t);
  }

  lemma OnOffOn() returns (h: Hub)
    ensures Reaches(System(FIRST, Idle), System(h, Idle)) && h.status.lastSent.Some? && |h.status.queue| == 2
  {
    var fires, stops := FIRES.(accepted := false), STOPS.(accepted := false);
    var h1 := PassSpec(FIRST, fires).0;
    assert SyncSpec(FIRST, fires).0 == PatchSync(FIRST, FIRES.run.obs, 0);
    assert h1.status.action == "True" && h1.status.queue == [Notification(true, 0, None, "")];
    var h2 := PassSpec(h1, stops).0;
    assert SyncSpec(h1, stops).0 == PatchSync(h1, STOPS.run.obs, 0);
    assert h2.status.action == "False" && |h2.status.queue| == 2 && h2.configured;
    assert h2.status.queue[0] == Notification(true, 0, None, "");
    SecondFiring(h2);
    h := PassSpec(h2, FIRES).0;
    ThreePasses(fires, stops, FIRES);
  }

  lemma ThreePasses(first: Environment, second: Environment, third: Environment)
    requires forall e :: e in [first, second, third] && e.run.RunRead? ==> LegalAction(e.run.obs.action)
    ensures Reaches(System(FIRST, Idle), System(PassSpec(PassSpec(PassSpec(FIRST, first).0, second).0, third).0, Idle))
  {
    var s := System(FIRST, Idle);
    var h1 := PassSpec(FIRST, first).0;
    var h2 := PassSpec(h1, second).0;
    assert first in [first, second, third] && second in [first, second, third] && third in [first, second, third];
    PassRun(FIRST, first);
    PassRun(h1, second);
    ReachesTrans(s, System(h1, Idle), System(h2, Idle));
    PassRun(h2, third);
    ReachesTrans(s, System(h2, Idle), System(PassSpec(h2, third).0, Idle));
  }

  lemma SecondFiring(h: Hub)
    requires h.status.action == "False" && |h.status.queue| == 2 && h.configured
    requires h.status.queue[0] == Notification(true, 0, None, "")
    ensures var g := PassSpec(h, FIRES).0; g.status.lastSent.Some? && |g.status.queue| == 2
  {
    var synced := PatchSync(h, FIRES.run.obs, 0);
    assert SyncSpec(h, FIRES).0 == synced;
    assert synced.status.alertStartsAt == Some(0) && synced.status.queue[0] == h.status.queue[0];
  }

  /** The delivery queue never jams: whatever is next can be sent. */
  lemma HeadAlwaysSendable(s: System, t: System)
    requires Initial(s) && Reaches(s, t) && t.hub.status.queue != []
    ensures forall i :: 0 <= i < |t.hub.status.queue| ==> Sendable(t.hub.status.queue[i])
  {
    ReachableInv(s, t);
  }

  // ---------------------------------------------------------------- bounded draining

  /** Immediate requeues still to come. */
  function Backlog(h: Hub): nat {
    (if h.NeedsFiring() then 2 else 0) + |h.status.queue|
  }

  /** The pass meets no change, no interference and no failure. */
  ghost predicate Undisturbed(h: Hub, env: Environment) {
    && !env.run.ReadFailed?
    && (env.run.RunRead? ==> LegalAction(env.run.obs.action) && Observe(h.status, env.run.obs) == h.status)
    && env.record.Got? && FirstOf(env.attempts, CALM_ATTEMPT).read.Got? && env.again.Got? && env.owner.Got?
    && env.gap == [] && env.patch.Works? && env.accepted && env.reported
  }

  lemma DrainStep(h: Hub, env: Environment)
    requires HubInv(h) && h.configured && Undisturbed(h, env)
    ensures var (g, result) := PassSpec(h, env);
      && HubInv(g) && g.configured
      && (result == Requeue <==> Backlog(h) > 0)
      && Backlog(g) == if Backlog(h) > 0 then Backlog(h) - 1 else 0
  {
    PassInv(h, env);
    assert SyncSpec(h, env) == (h, true);
  }

  ghost predicate UndisturbedPasses(h: Hub, envs: seq<Environment>)
    decreases |envs|
  {
    envs == [] || (Undisturbed(h, envs[0]) && UndisturbedPasses(PassSpec(h, envs[0]).0, envs[1..]))
  }

  function Passes(h: Hub, envs: seq<Environment>): (Hub, seq<Result>)
    decreases |envs|
  {
    if envs == [] then (h, [])
    else
      var (g, result) := PassSpec(h, envs[0]);
      var (last, results) := Passes(g, envs[1..]);
      (last, [result] + results)
  }

  /** The passes that ask to run again at once are the first `Backlog` ones, and only those. */
  lemma {:induction false} Draining(h: Hub, envs: seq<Environment>)
    requires HubInv(h) && h.configured && UndisturbedPasses(h, envs)
    ensures var (g, results) := Passes(h, envs);
      && HubInv(g) && |results| == |envs|
      && (forall i :: 0 <= i < |envs| ==> (results[i] == Requeue <==> i < Backlog(h)))
      && (|envs| >= Backlog(h) ==> g.status.queue == [] && !g.NeedsFiring())
    decreases |envs|
  {
    if envs != [] {
      var (g, result) := PassSpec(h, envs[0]);
      DrainStep(h, envs[0]);
      Draining(g, envs[1..]);
      var (last, results) := Passes(g, envs[1..]);
      assert forall i :: 0 < i < |envs| ==> ([result] + results)[i] == results[i - 1];
    }
  }
}
