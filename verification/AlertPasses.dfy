/** What one pass of the run alert reconciler does and reports (internal/controller/runalerts.go),
    told in terms of the stored fields. */
module AlertPasses {
  import opened Options
  import opened RunStatus
  import opened HubRunStatus
  import opened AlertDelivery
  import opened AlertMachine
  import opened AlertRefinement
  import opened AlertGuarantees

  function SummaryOf(s: Status): string {
    if s.condition.Some? then s.condition.value.summary else ""
  }

  // ---------------------------------------------------------------- undisturbed passes

  /** Without a configured Alertmanager a pass drops the queue and forgets the alert. */
  ghost predicate Forgets(h: Hub, g: Hub) {
    && g.posts == h.posts && g.settled == h.settled + h.status.queue
    && (forall k :: |h.settled| <= k < |g.delivered| ==> !g.delivered[k])
    && g.status == h.status.(queue := [], alertStartsAt := None, lastSent := None)
  }

  /** A record that should be firing, but is not, gets the firing it needs. */
  ghost predicate StartsFiring(h: Hub, g: Hub, now: Time) {
    && g.posts == h.posts && g.settled == h.settled
    && g.status == h.status.(alertStartsAt := Some(now),
                             queue := [Notification(true, now, None, SummaryOf(h.status))])
  }

  /** The head of the queue is posted and leaves it; if it is the firing of the record, its
      delivery time is now. */
  ghost predicate DeliversHead(h: Hub, g: Hub, sent: Time, now: Time)
    requires h.status.queue != []
  {
    var head := h.status.queue[0];
    var ours := head.firing && h.status.action == "True" && h.status.alertStartsAt == Some(head.startsAt);
    && |g.posts| == |h.posts| + 1 && h.posts <= g.posts
    && g.posts[|h.posts|].event == head && !g.posts[|h.posts|].renewal && g.posts[|h.posts|].sentAt == sent
    && g.settled == h.settled + [head] && g.delivered == h.delivered + [true]
    && g.status == h.status.(queue := h.status.queue[1..],
                             lastSent := if ours then Some(now) else h.status.lastSent)
  }

  /** The alert is posted once more, as it started, and with the summary of the record. */
  ghost predicate Renews(h: Hub, g: Hub, sent: Time, now: Time)
    requires h.status.alertStartsAt.Some?
  {
    && |g.posts| == |h.posts| + 1 && h.posts <= g.posts
    && g.posts[|h.posts|].event == Notification(true, h.status.alertStartsAt.value, None, SummaryOf(h.status))
    && g.posts[|h.posts|].renewal && g.posts[|h.posts|].sentAt == sent
    && g.settled == h.settled && g.status == h.status.(lastSent := Some(now))
  }

  /** All that an undisturbed pass does, and when it asks to run again. */
  lemma CalmPass(h: Hub, env: Environment)
    requires HubInv(h) && Undisturbed(h, env)
    ensures var (g, result) := PassSpec(h, env);
      var s, now := h.status, FloorSecond(env.writeClock);
      if !h.configured then Forgets(h, g) && result == Done
      else if s.action == "True" && s.alertStartsAt == None then StartsFiring(h, g, now) && result == Requeue
      else if s.queue != [] then DeliversHead(h, g, env.sendClock, now) && result == Requeue
      else if s.action != "True" then g == h && result == Done
      else
        && s.alertStartsAt.Some? && s.lastSent.Some?
        && var age := env.checkClock - s.lastSent.value;
        if age < MINUTE then g == h && result == RequeueAfter(MINUTE - age)
        else Renews(h, g, env.sendClock, now) && result == RequeueAfter(MINUTE)
  {
    assert SyncSpec(h, env) == (h, true);
  }

  /** A firing alert without a delivery time is renewed at once. */
  lemma UnsentRenewedAtOnce(h: Hub, env: Environment)
    requires Undisturbed(h, env) && h.configured && h.status.queue == [] && h.status.action == "True"
    requires h.status.alertStartsAt.Some? && h.status.lastSent == None
    ensures var (g, result) := PassSpec(h, env);
      Renews(h, g, env.sendClock, FloorSecond(env.writeClock)) && result == RequeueAfter(MINUTE)
  {
    assert SyncSpec(h, env) == (h, true);
  }

  // ---------------------------------------------------------------- any pass

  /** The state in which the sync of a pass leaves the record. */
  function AfterSync(h: Hub, env: Environment): Hub {
    SyncSpec(h, env).0
  }

  /** What a pass reads, in the order in which it reads it, until something is missing or fails. */
  ghost predicate ReadsAll(h: Hub, env: Environment) {
    && env.record.Got? && env.again.Got? && env.owner.Got?
    && (SyncSpec(h, env).1 || AfterSync(h, env).status.queue != [])
  }

  /** The pass has something to tell the Alertmanager. */
  ghost predicate Posts(g: Hub, checkClock: Time) {
    && g.configured && !(g.status.action == "True" && g.status.alertStartsAt == None)
    && (g.status.queue != [] ||
        (g.status.action == "True" && g.status.lastSent.Some? && checkClock - g.status.lastSent.value >= MINUTE))
  }

  /** The pass has something to write, apart from what follows a POST. */
  ghost predicate Writes(g: Hub) {
    if g.configured then g.status.action == "True" && g.status.alertStartsAt == None
    else g.status.queue != [] || g.status.alertStartsAt.Some? || g.status.lastSent.Some?
  }

  ghost predicate PatchWorks(env: Environment) { env.gap == [] && env.patch.Works? }

  lemma SyncHub(h: Hub, env: Environment)
    requires HubInv(h) && (env.run.RunRead? ==> LegalAction(env.run.obs.action))
    ensures HubInv(AfterSync(h, env))
  {
    SyncRun(h, env);
    var s, t := System(h, Idle), System(AfterSync(h, env), Synced(!SyncSpec(h, env).1));
    var steps :| Run(s, steps) && After(s, steps) == t;
    RunInv(s, steps);
  }

  /** A pass that gets to act reports a failure exactly when its POST or its patch failed. */
  lemma ActReports(g: Hub, env: Environment)
    requires HubInv(g)
    ensures ActSpec(g, env).1 == Failed <==>
      || (Posts(g, env.checkClock) && !(env.accepted && env.reported && PatchWorks(env)))
      || (Writes(g) && !PatchWorks(env))
  {
  }

  /** A pass reports a failure exactly when a read failed, or the sync did with nothing left
      to deliver, or its POST or its patch did. An object that is missing is no failure. */
  lemma FailureReportedExactly(h: Hub, env: Environment)
    requires HubInv(h) && (env.run.RunRead? ==> LegalAction(env.run.obs.action))
    ensures var g := AfterSync(h, env);
      PassSpec(h, env).1 == Failed <==>
        || env.record.Broken?
        || (env.record.Got? && env.again.Broken?)
        || (env.record.Got? && env.again.Got? && !SyncSpec(h, env).1 && g.status.queue == [])
        || (env.record.Got? && env.again.Got? && (SyncSpec(h, env).1 || g.status.queue != []) && env.owner.Broken?)
        || (ReadsAll(h, env) && Posts(g, env.checkClock) && !(env.accepted && env.reported && PatchWorks(env)))
        || (ReadsAll(h, env) && Writes(g) && !PatchWorks(env))
  {
    SyncHub(h, env);
    ActReports(AfterSync(h, env), env);
  }

  /** Nothing is queued, no firing is missing and none has to be renewed. */
  ghost predicate Finished(g: Hub) {
    && g.status.queue == [] && g.status.alertStartsAt == None && g.status.lastSent == None
    && (g.configured ==> g.status.action != "True")
  }

  lemma ActDone(g: Hub, env: Environment)
    requires HubInv(g) && ActSpec(g, env).1 == Done
    ensures Finished(ActSpec(g, env).0)
  {
  }

  /** A pass that finds an object missing ends there, done, with what its sync has written. */
  lemma MissingEndsPass(h: Hub, env: Environment)
    ensures env.record.Missing? ==> PassSpec(h, env) == (h, Done)
    ensures env.record.Got? && env.again.Missing? ==> PassSpec(h, env) == (AfterSync(h, env), Done)
    ensures ReadsAll(h, env.(owner := Got)) && env.owner.Missing? ==> PassSpec(h, env) == (AfterSync(h, env), Done)
  {
  }

  /** Whatever a pass meets, it does not end as done with work left over. */
  lemma DoneMeansFinished(h: Hub, env: Environment)
    requires HubInv(h) && (env.run.RunRead? ==> LegalAction(env.run.obs.action)) && ReadsAll(h, env)
    requires PassSpec(h, env).1 == Done
    ensures Finished(PassSpec(h, env).0)
  {
    SyncHub(h, env);
    ActDone(AfterSync(h, env), env);
  }

  /** A pass whose POST fails, or whose patch does, leaves what it was to deliver in the queue. */
  lemma FailedPassKeepsQueue(h: Hub, env: Environment)
    requires HubInv(h) && (env.run.RunRead? ==> LegalAction(env.run.obs.action))
    requires ReadsAll(h, env) && (env.gap != [] || env.patch.Fails? || !env.accepted || !env.reported)
    requires AfterSync(h, env).configured && !AfterSync(h, env).NeedsFiring()
    ensures var g := PassSpec(h, env).0;
      SameAlertFields(g.status, AfterSync(h, env).status) && g.settled == AfterSync(h, env).settled
  {
    var s := AfterSync(h, env);
    SyncHub(h, env);
    ForeignKeepsHistory(s, env.gap);
    if s.status.queue != [] || s.status.alertStartsAt.Some? {
      ForeignKeepsHistory(AddPost(s, env.sendClock), env.gap);
    }
  }

  lemma {:induction false} ForeignKeepsHistory(h: Hub, phases: seq<Option<string>>)
    ensures SameAlertFields(ForeignAll(h, phases).status, h.status) && ForeignAll(h, phases).settled == h.settled
    decreases |phases|
  {
    if phases != [] { ForeignKeepsHistory(Foreign(h, phases[0]), phases[1..]); }
  }

  // ---------------------------------------------------------------- the retries of the sync

  /** Another writer gets in before the patch. */
  predicate Conflicts(attempt: Attempt) {
    attempt.read.Got? && attempt.gap != [] && attempt.call.Works?
  }

  lemma {:induction false} SyncRetries(h: Hub, o: Observation, attempts: seq<Attempt>, clock: Time, left: nat, n: nat)
    requires n < left && n <= |attempts| && (forall i :: 0 <= i < n ==> Conflicts(attempts[i]))
    requires n < |attempts| ==> attempts[n] == Attempt(Got, [], Works)
    ensures var (g, ok) := SyncLoop(h, o, attempts, clock, left);
      ok && Observe(g.status, o) == g.status
    decreases left
  {
    var attempt := FirstOf(attempts, CALM_ATTEMPT);
    if Observe(h.status, o) != h.status {
      if n == 0 {
        SyncIdempotent(h.status, o, clock, clock);
      } else {
        SyncRetries(ForeignAll(h, attempt.gap), o, RestOf(attempts), clock, left - 1, n - 1);
      }
    }
  }

  lemma {:induction false} SyncGivesUp(h: Hub, o: Observation, attempts: seq<Attempt>, clock: Time, left: nat)
    requires left <= |attempts| && forall i :: 0 <= i < left ==> Conflicts(attempts[i])
    requires Observe(h.status, o).action != h.status.action
    ensures var (g, ok) := SyncLoop(h, o, attempts, clock, left);
      !ok && SameAlertFields(g.status, h.status) && g.enqueued == h.enqueued
    decreases left
  {
    if left > 0 {
      var f := ForeignAll(h, attempts[0].gap);
      ForeignKeepsAlerts(h, attempts[0].gap);
      SyncGivesUp(f, o, attempts[1..], clock, left - 1);
    }
  }

  /** An attempt that ends the sync otherwise than by a conflict or by its patch. */
  predicate Ends(attempt: Attempt) {
    !attempt.read.Got? || !attempt.call.Works?
  }

  /** What the last attempt of a sync leads to when the action has to change: the record is
      gone, which is fine; or a call failed, and nothing is queued unless the patch took
      effect although its answer was lost. */
  lemma {:induction false} SyncEnds(h: Hub, o: Observation, attempts: seq<Attempt>, clock: Time, left: nat, n: nat)
    requires n < left && n < |attempts| && (forall i :: 0 <= i < n ==> Conflicts(attempts[i])) && Ends(attempts[n])
    requires Observe(h.status, o).action != h.status.action
    ensures var (g, ok) := SyncLoop(h, o, attempts, clock, left);
      var last := attempts[n];
      && (ok <==> last.read.Missing?)
      && (if last.read.Got? && last.gap == [] && last.call.AnswerLost? then Observe(g.status, o) == g.status
          else SameAlertFields(g.status, h.status) && g.enqueued == h.enqueued)
    decreases left
  {
    ForeignKeepsAlerts(h, attempts[0].gap);
    if n > 0 {
      SyncEnds(ForeignAll(h, attempts[0].gap), o, attempts[1..], clock, left - 1, n - 1);
    } else {
      SyncIdempotent(h.status, o, clock, clock);
    }
  }

  /** A sync survives up to four conflicts: if the attempt after them meets nothing, the
      record says what was observed. Five conflicts in front of a change of the action are
      too many, and then nothing is queued. Otherwise a change fails with the attempt that
      meets a failed or unanswered call, and succeeds without one if the record is gone. */
  lemma SyncTriesFiveTimes(h: Hub, o: Observation, attempts: seq<Attempt>, n: nat, env: Environment)
    requires env.run == RunRead(o) && env.attempts == attempts
    requires n <= |attempts| && forall i :: 0 <= i < n ==> Conflicts(attempts[i])
    ensures n <= 4 && (n < |attempts| ==> attempts[n] == Attempt(Got, [], Works)) ==>
      var (g, ok) := SyncSpec(h, env); ok && Observe(g.status, o) == g.status
    ensures n >= 5 && Observe(h.status, o).action != h.status.action ==>
      var (g, ok) := SyncSpec(h, env); !ok && SameAlertFields(g.status, h.status) && g.enqueued == h.enqueued
    ensures n <= 4 && n < |attempts| && Ends(attempts[n]) && Observe(h.status, o).action != h.status.action ==>
      (SyncSpec(h, env).1 <==> attempts[n].read.Missing?)
  {
    if n <= 4 && n < |attempts| && Ends(attempts[n]) && Observe(h.status, o).action != h.status.action {
      SyncEnds(h, o, attempts, env.syncClock, RETRIES, n);
    }
    if n <= 4 && (n < |attempts| ==> attempts[n] == Attempt(Got, [], Works)) {
      SyncRetries(h, o, attempts, env.syncClock, RETRIES, n);
    }
    if n >= 5 && Observe(h.status, o).action != h.status.action {
      SyncGivesUp(h, o, attempts, env.syncClock, RETRIES);
    }
  }
}
