/** Renewals of a firing alert (internal/controller/runalerts.go): when they are sent, and
    that the alert does not end between them. */
module AlertRenewal {
  import opened Options
  import opened RunStatus
  import opened HubRunStatus
  import opened AlertDelivery
  import opened AlertMachine
  import opened AlertRefinement
  import opened AlertGuarantees

  // ---------------------------------------------------------------- one pass

  /** A sync that leaves the queue empty leaves the alert alone. */
  lemma {:induction false} QuietSync(h: Hub, o: Observation, attempts: seq<Attempt>, clock: Time, left: nat)
    ensures var g := SyncLoop(h, o, attempts, clock, left).0;
      && g.posts == h.posts
      && (g.status.queue == [] ==>
           && h.status.queue == []
           && g.status.alertStartsAt == h.status.alertStartsAt && g.status.lastSent == h.status.lastSent)
    decreases left
  {
    var attempt := FirstOf(attempts, CALM_ATTEMPT);
    if left > 0 && attempt.read.Got? && Observe(h.status, o) != h.status {
      if attempt.gap == [] && !attempt.call.Fails? {
        SyncAppends(h.status, o, clock);
      } else {
        ForeignKeepsAlerts(h, attempt.gap);
        ForeignKeepsPosts(h, attempt.gap);
      }
      if attempt.gap != [] && attempt.call.Works? {
        QuietSync(ForeignAll(h, attempt.gap), o, RestOf(attempts), clock, left - 1);
      }
    }
  }

  lemma {:induction false} ForeignKeepsPosts(h: Hub, phases: seq<Option<string>>)
    ensures ForeignAll(h, phases).posts == h.posts
    decreases |phases|
  {
    if phases != [] { ForeignKeepsPosts(Foreign(h, phases[0]), phases[1..]); }
  }

  lemma DeliverPosts(h: Hub, env: Environment)
    requires h.status.queue != [] || h.status.alertStartsAt.Some?
    ensures var g := Deliver(h, env).0;
      g.posts == h.posts || (Sendable(Outgoing(h.status)) && g.posts == AddPost(h, env.sendClock).posts)
  {
    if Sendable(Outgoing(h.status)) {
      ForeignKeepsPosts(AddPost(h, env.sendClock), env.gap);
    }
  }

  /** Whatever a pass meets, the Alertmanager takes at most one POST from it; and a renewal
      is never sent before a minute has passed since the stored delivery time. */
  lemma RenewalNeverEarly(h: Hub, env: Environment)
    requires HubInv(h) && (env.run.RunRead? ==> LegalAction(env.run.obs.action))
    ensures var posts := PassSpec(h, env).0.posts;
      && h.posts <= posts && |posts| <= |h.posts| + 1
      && (posts != h.posts && posts[|h.posts|].renewal ==>
           && h.configured && h.status.queue == []
           && h.status.alertStartsAt == Some(posts[|h.posts|].event.startsAt)
           && h.status.lastSent.Some? && env.checkClock >= h.status.lastSent.value + MINUTE)
  {
    if env.record.Got? {
      var g := SyncSpec(h, env).0;
      if env.run.RunRead? {
        QuietSync(h, env.run.obs, env.attempts, env.syncClock, RETRIES);
        SyncConfigured(h, env.run.obs, env.attempts, env.syncClock, RETRIES);
      }
      assert g.posts == h.posts && g.configured == h.configured;
      ActPosts(g, env);
    }
  }

  lemma ActPosts(h: Hub, env: Environment)
    ensures var posts := ActSpec(h, env).0.posts;
      posts == h.posts ||
      (&& h.configured && |posts| == |h.posts| + 1 && h.posts <= posts
       && (posts[|h.posts|].renewal ==>
            && h.status.queue == [] && h.status.alertStartsAt == Some(posts[|h.posts|].event.startsAt)
            && UntilRenewal(h.status, env.checkClock) == 0))
  {
    ForeignKeepsPosts(h, env.gap);
    if h.status.queue != [] || h.status.alertStartsAt.Some? {
      DeliverPosts(h, env);
    }
  }

  lemma {:induction false} SyncConfigured(h: Hub, o: Observation, attempts: seq<Attempt>, clock: Time, left: nat)
    ensures SyncLoop(h, o, attempts, clock, left).0.configured == h.configured
    decreases left
  {
    var attempt := FirstOf(attempts, CALM_ATTEMPT);
    if left > 0 && attempt.read.Got? && Observe(h.status, o) != h.status {
      ForeignConfigured(h, attempt.gap);
      if attempt.gap != [] && attempt.call.Works? {
        SyncConfigured(ForeignAll(h, attempt.gap), o, RestOf(attempts), clock, left - 1);
      }
    }
  }

  lemma {:induction false} ForeignConfigured(h: Hub, phases: seq<Option<string>>)
    ensures ForeignAll(h, phases).configured == h.configured
    decreases |phases|
  {
    if phases != [] { ForeignConfigured(Foreign(h, phases[0]), phases[1..]); }
  }

  /** A quiet firing alert is renewed exactly when a minute has passed since the stored
      delivery time; until then the pass changes nothing and asks for the rest of that minute. */
  lemma RenewalWhenDue(h: Hub, env: Environment)
    requires HubInv(h) && h.configured && Undisturbed(h, env)
    requires h.status.queue == [] && h.status.alertStartsAt.Some?
    ensures var (g, result) := PassSpec(h, env);
      var age := env.checkClock - h.status.lastSent.value;
      if age < MINUTE then g == h && result == RequeueAfter(MINUTE - age)
      else
        && result == RequeueAfter(MINUTE)
        && g.posts == h.posts + [g.posts[|h.posts|]]
        && g.posts[|h.posts|].renewal && g.posts[|h.posts|].event.startsAt == h.status.alertStartsAt.value
        && g.posts[|h.posts|].endsAt == env.sendClock + ALERT_LIFETIME
        && g.status == h.status.(lastSent := Some(FloorSecond(env.writeClock)))
  {
    assert SyncSpec(h, env) == (h, true);
    assert UntilRenewal(h.status, env.checkClock) == Max(0, MINUTE - (env.checkClock - h.status.lastSent.value));
  }

  /** The delay that a pass asks for is the right one: the next pass renews the alert if it
      comes when the delay is over, and a pass that waits asks for no longer than needed. */
  lemma DelayIsRight(h: Hub, first: Environment, g: Hub, result: Result, second: Environment)
    requires HubInv(h) && h.configured && Undisturbed(h, first)
    requires h.status.queue == [] && h.status.alertStartsAt.Some?
    requires (g, result) == PassSpec(h, first) && Undisturbed(g, second)
    ensures var posts := PassSpec(g, second).0.posts;
      && result.RequeueAfter? && 0 < result.delay
      && (second.checkClock >= Max(first.checkClock, first.writeClock) + result.delay ==>
           && |posts| == |g.posts| + 1 && posts[|g.posts|].renewal
           && posts[|g.posts|].event.startsAt == h.status.alertStartsAt.value)
      && (g == h && second.checkClock < first.checkClock + result.delay ==> posts == g.posts)
  {
    RenewalWhenDue(h, first);
    QuietStays(h, first);
    RenewalWhenDue(g, second);
  }

  lemma QuietStays(h: Hub, env: Environment)
    requires HubInv(h) && h.configured && Undisturbed(h, env)
    requires h.status.queue == [] && h.status.alertStartsAt.Some?
    ensures var g := PassSpec(h, env).0;
      && HubInv(g) && g.configured && g.status.queue == []
      && g.status.alertStartsAt == h.status.alertStartsAt && g.status.lastSent.Some?
  {
    RenewalWhenDue(h, env);
    DrainStep(h, env);
  }

  // ---------------------------------------------------------------- no lapse

  /** A POST and its acknowledgement take at most `response`; a renewal starts at most
      `delay` after it is due and the previous attempt is over. The clock never runs back. */
  ghost predicate Timely(s: System, step: Step, response: int, delay: int) {
    match step
    case Send(accepted, _, check, clock) =>
      s.hub.posts != [] && s.hub.status.queue == [] && s.hub.status.lastSent.Some? ==>
        var last := s.hub.posts[|s.hub.posts| - 1];
        && last.sentAt <= clock
        && clock <= Max(s.hub.status.lastSent.value + MINUTE, last.sentAt + response) + delay
    case Acknowledge(clock) =>
      s.hub.posts != [] ==> clock <= s.hub.posts[|s.hub.posts| - 1].sentAt + response
    case _ => true
  }

  ghost predicate TimelyRun(s: System, steps: seq<Step>, response: int, delay: int)
    requires Run(s, steps)
    decreases |steps|
  {
    steps == [] ||
    (Timely(s, steps[0], response, delay) && TimelyRun(Apply(s, steps[0]), steps[1..], response, delay))
  }

  /** A renewal that takes `transit` to arrive does so before the alert it renews ends. */
  ghost predicate InTime(posts: seq<Post>, transit: int) {
    forall j :: 0 < j < |posts| && posts[j].renewal ==> posts[j].sentAt + transit < posts[j - 1].endsAt
  }

  ghost predicate FiringsLast(posts: seq<Post>) {
    forall j :: 0 <= j < |posts| && posts[j].event.firing ==> posts[j].endsAt == posts[j].sentAt + ALERT_LIFETIME
  }

  /** The stored delivery time is not later than the response to the last POST. */
  ghost predicate SentInTime(h: Hub, response: int) {
    h.status.queue == [] && h.status.lastSent.Some? && h.posts != [] ==>
      h.status.lastSent.value <= h.posts[|h.posts| - 1].sentAt + response
  }

  ghost predicate TimedInv(h: Hub, response: int, transit: int) {
    InTime(h.posts, transit) && FiringsLast(h.posts) && SentInTime(h, response)
  }

  /** The bounds under which renewals come in time. */
  ghost predicate Bounds(response: int, delay: int, transit: int) {
    0 <= response && 0 <= delay && 0 <= transit && response + transit + delay < 4 * MINUTE
  }

  lemma TimedSync(h: Hub, o: Observation, clock: Time, response: int)
    requires SentInTime(h, response)
    ensures SentInTime(PatchSync(h, o, clock), response)
  {
    SyncAppends(h.status, o, clock);
  }

  lemma TimedSend(s: System, step: Step, response: int, delay: int, transit: int)
    requires Inv(s) && TimedInv(s.hub, response, transit) && Bounds(response, delay, transit)
    requires Enabled(s, step) && step.Send? && Timely(s, step, response, delay)
    ensures TimedInv(Apply(s, step).hub, response, transit)
  {
    PostInv(s.hub, s.pass.base.status, step.clock);
    SendHub(s, step);
    if Apply(s, step).hub != s.hub {
      TimedPost(s.hub, s.pass.base.status, step.clock, response, delay, transit);
    }
  }

  lemma TimedPost(h: Hub, read: Status, clock: Time, response: int, delay: int, transit: int)
    requires AlertFieldsConsistent(h.status) && QuietTruth(h) && SameAlertFields(read, h.status)
    requires h.status.queue != [] || h.status.alertStartsAt.Some?
    requires Sendable(Outgoing(read)) && TimedInv(h, response, transit) && Bounds(response, delay, transit)
    requires h.posts != [] && h.status.queue == [] && h.status.lastSent.Some? ==>
      var last := h.posts[|h.posts| - 1];
      last.sentAt <= clock <= Max(h.status.lastSent.value + MINUTE, last.sentAt + response) + delay
    ensures TimedInv(h.(posts := AddPost(h.(status := read), clock).posts), response, transit)
  {
    var posts := AddPost(h.(status := read), clock).posts;
    var p := posts[|h.posts|];
    if p.renewal {
      var last := h.posts[|h.posts| - 1];
      assert last.event.firing && last.endsAt == last.sentAt + ALERT_LIFETIME;
      assert p.sentAt + transit < last.endsAt;
    }
  }

  lemma TimedAcknowledge(s: System, step: Step, response: int, delay: int, transit: int)
    requires Inv(s) && TimedInv(s.hub, response, transit)
    requires Enabled(s, step) && step.Acknowledge? && Timely(s, step, response, delay)
    ensures TimedInv(Apply(s, step).hub, response, transit)
  {
    if Current(s) {
      assert OfBase(s) == s.hub;
    }
  }

  lemma TimedStep(s: System, step: Step, response: int, delay: int, transit: int)
    requires Inv(s) && Enabled(s, step) && TimedInv(s.hub, response, transit)
    requires Timely(s, step, response, delay) && Bounds(response, delay, transit)
    ensures TimedInv(Apply(s, step).hub, response, transit)
  {
    match step
    case PatchSynced(clock) =>
      if Current(s) {
        assert OfBase(s) == s.hub;
        TimedSync(s.hub, s.pass.obs, clock, response);
      }
    case Send(_, _, _, _) => TimedSend(s, step, response, delay, transit);
    case Acknowledge(_) => TimedAcknowledge(s, step, response, delay, transit);
    case _ =>
  }

  lemma {:induction false} TimedRun(s: System, steps: seq<Step>, response: int, delay: int, transit: int)
    requires Inv(s) && Run(s, steps) && TimedInv(s.hub, response, transit)
    requires TimelyRun(s, steps, response, delay) && Bounds(response, delay, transit)
    ensures TimedInv(After(s, steps).hub, response, transit)
    decreases |steps|
  {
    if steps != [] {
      TimedStep(s, steps[0], response, delay, transit);
      StepInv(s, steps[0]);
      TimedRun(Apply(s, steps[0]), steps[1..], response, delay, transit);
    }
  }

  /** A firing alert never lapses: from the arrival of a firing to the end of the last
      of the renewals that follow it, some accepted POST of the same alert is always in
      force. With `transit` 0 this is about the sending of the POSTs, with `response`
      about their arrival however long they take. */
  lemma NoLapse(s: System, steps: seq<Step>, response: int, delay: int, transit: int, i: nat, j: nat, now: Time)
    requires Initial(s) && Run(s, steps) && TimelyRun(s, steps, response, delay) && Bounds(response, delay, transit)
    requires var posts := After(s, steps).hub.posts;
      && i <= j < |posts| && posts[i].event.firing
      && (forall k :: i < k <= j ==> posts[k].renewal)
      && posts[i].sentAt + transit <= now < posts[j].endsAt
    ensures var posts := After(s, steps).hub.posts;
      exists k ::
        && i <= k <= j && posts[k].event.firing && posts[k].event.startsAt == posts[i].event.startsAt
        && posts[k].sentAt + transit <= now < posts[k].endsAt
  {
    InitialInv(s);
    TimedRun(s, steps, response, delay, transit);
    RunInv(s, steps);
    Chain(After(s, steps).hub.posts, transit, i, j, now);
  }

  lemma {:induction false} Chain(posts: seq<Post>, transit: int, i: nat, j: nat, now: Time)
    requires InTime(posts, transit) && RenewalsFollow(posts)
    requires i <= j < |posts| && posts[i].event.firing
    requires forall k :: i < k <= j ==> posts[k].renewal && posts[k].event.firing
    requires posts[i].sentAt + transit <= now < posts[j].endsAt
    ensures exists k ::
        && i <= k <= j && posts[k].event.firing && posts[k].event.startsAt == posts[i].event.startsAt
        && posts[k].sentAt + transit <= now < posts[k].endsAt
    decreases j
  {
    SameStart(posts, i, j);
    if posts[j].sentAt + transit > now {
      assert j > i;
      Chain(posts, transit, i, j - 1, now);
    }
  }

  lemma {:induction false} SameStart(posts: seq<Post>, i: nat, j: nat)
    requires RenewalsFollow(posts) && i <= j < |posts|
    requires forall k :: i < k <= j ==> posts[k].renewal
    ensures posts[j].event.startsAt == posts[i].event.startsAt
    decreases j
  {
    if i < j { SameStart(posts, i, j - 1); }
  }
}
