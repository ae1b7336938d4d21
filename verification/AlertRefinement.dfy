/** One pass of the reconciler, with all the interference it may meet, is a run of
    the step machine. What holds of every run therefore holds of every sequence of passes. */
module AlertRefinement {
  import opened Options
  import opened RunStatus
  import opened HubRunStatus
  import opened AlertDelivery
  import opened AlertMachine

  ghost predicate Reaches(s: System, t: System) {
    exists steps :: Run(s, steps) && After(s, steps) == t
  }

  lemma {:induction false} RunAppend(s: System, steps: seq<Step>, more: seq<Step>)
    requires Run(s, steps) && Run(After(s, steps), more)
    ensures Run(s, steps + more) && After(s, steps + more) == After(After(s, steps), more)
    decreases |steps|
  {
    if steps == [] {
      assert steps + more == more;
    } else {
      assert (steps + more)[1..] == steps[1..] + more;
      RunAppend(Apply(s, steps[0]), steps[1..], more);
    }
  }

  lemma ReachesStep(s: System, step: Step)
    requires Enabled(s, step)
    ensures Reaches(s, Apply(s, step))
  {
    var t := Apply(s, step);
    assert [step][1..] == [];
    assert Run(t, []) && After(t, []) == t;
    assert Run(s, [step]) && After(s, [step]) == t;
  }

  lemma ReachesSelf(s: System)
    ensures Reaches(s, s)
  {
    assert Run(s, []) && After(s, []) == s;
  }

  lemma ReachesTrans(s: System, t: System, u: System)
    requires Reaches(s, t) && Reaches(t, u)
    ensures Reaches(s, u)
  {
    var steps :| Run(s, steps) && After(s, steps) == t;
    var more :| Run(t, more) && After(t, more) == u;
    RunAppend(s, steps, more);
  }

  lemma ThenStep(s: System, t: System, step: Step)
    requires Reaches(s, t) && Enabled(t, step)
    ensures Reaches(s, Apply(t, step))
  {
    ReachesStep(t, step);
    ReachesTrans(s, t, Apply(t, step));
  }

  lemma {:induction false} ForeignRun(h: Hub, pass: Pass, phases: seq<Option<string>>)
    ensures Reaches(System(h, pass), System(ForeignAll(h, phases), pass))
    ensures ForeignAll(h, phases).version == h.version + |phases|
    ensures ForeignAll(h, phases).configured == h.configured
    decreases |phases|
  {
    var s := System(h, pass);
    if phases == [] {
      ReachesSelf(s);
    } else {
      ReachesStep(s, ForeignWrite(phases[0]));
      ForeignRun(Foreign(h, phases[0]), pass, phases[1..]);
      ReachesTrans(s, Apply(s, ForeignWrite(phases[0])), System(ForeignAll(h, phases), pass));
    }
  }

  lemma {:induction false} SyncLoopRun(h: Hub, o: Observation, attempts: seq<Attempt>, clock: Time, left: nat)
    ensures var (g, ok) := SyncLoop(h, o, attempts, clock, left);
      Reaches(System(h, Observed(o, left)), System(g, Synced(!ok)))
    decreases left
  {
    var s := System(h, Observed(o, left));
    var attempt := FirstOf(attempts, CALM_ATTEMPT);
    if left > 0 && attempt.read != Got {
      ReachesStep(s, LeaveSync(attempt.read.Broken?));
    } else if left == 0 {
      ReachesStep(s, ReadForSync);
    } else {
      var pass := SyncRead(o, left - 1, Snapshot(h.version, h.status));
      ReachesStep(s, ReadForSync);
      if Observe(h.status, o) == h.status || (attempt.gap == [] && !attempt.call.Fails?) {
        ThenStep(s, System(h, pass), PatchSynced(clock));
        if Observe(h.status, o) != h.status && attempt.call.AnswerLost? {
          ThenStep(s, System(PatchSync(h, o, clock), Synced(false)), LeaveSync(true));
        }
      } else {
        var g := ForeignAll(h, attempt.gap);
        ForeignRun(h, pass, attempt.gap);
        ReachesTrans(s, System(h, pass), System(g, pass));
        if !attempt.call.Works? {
          ThenStep(s, System(g, pass), LeaveSync(true));
        } else {
          ThenStep(s, System(g, pass), PatchSynced(clock));
          SyncLoopRun(g, o, RestOf(attempts), clock, left - 1);
          ReachesTrans(s, System(g, Observed(o, left - 1)),
            (var (k, ok) := SyncLoop(g, o, RestOf(attempts), clock, left - 1); System(k, Synced(!ok))));
        }
      }
    }
  }

  lemma SyncRun(h: Hub, env: Environment)
    requires env.run.RunRead? ==> LegalAction(env.run.obs.action)
    ensures var (g, ok) := SyncSpec(h, env); Reaches(System(h, Idle), System(g, Synced(!ok)))
  {
    ReachesStep(System(h, Idle), ReadRun(env.run));
    if env.run.RunRead? {
      SyncLoopRun(h, env.run.obs, env.attempts, env.syncClock, RETRIES);
      var (g, ok) := SyncSpec(h, env);
      ReachesTrans(System(h, Idle), System(h, Observed(env.run.obs, RETRIES)), System(g, Synced(!ok)));
    }
  }

  /** A patch that ends a pass, with foreign writes in front of it. */
  lemma CommitRun(s: System, env: Environment, last: Step, patched: Hub, result: Result)
    requires s.pass.Ready? || s.pass.Posted?
    requires s.pass.base == Snapshot(s.hub.version, s.hub.status)
    requires last.SwitchOff? || last.StartFiring? || last.Acknowledge?
    requires Enabled(s, last) && Apply(s, last) == System(patched, Idle)
    ensures Reaches(s, System(Commit(s.hub, env, patched, result).0, Idle))
  {
    if env.gap == [] && !env.patch.Fails? {
      ReachesStep(s, last);
    } else {
      ForeignRun(s.hub, s.pass, env.gap);
      ThenStep(s, System(ForeignAll(s.hub, env.gap), s.pass), Stop);
    }
  }

  lemma DeliverRun(h: Hub, env: Environment)
    requires h.configured && !h.NeedsFiring()
    requires h.status.queue != [] ||
      (h.status.action == "True" && h.status.alertStartsAt.Some? && UntilRenewal(h.status, env.checkClock) == 0)
    ensures Reaches(System(h, Ready(Snapshot(h.version, h.status), true)), System(Deliver(h, env).0, Idle))
  {
    var base := Snapshot(h.version, h.status);
    var s := System(h, Ready(base, true));
    var send := Send(env.accepted, env.reported, env.checkClock, env.sendClock);
    assert OfBase(s) == h;
    ReachesStep(s, send);
    if Sendable(Outgoing(h.status)) && env.accepted && env.reported {
      var sent := AddPost(h, env.sendClock);
      var t := System(sent, Posted(base));
      assert Apply(s, send) == t && OfBase(t) == sent;
      var patched := if h.status.queue != [] then PatchAcknowledge(sent, env.writeClock)
                     else PatchRenew(sent, env.writeClock);
      CommitRun(t, env, Acknowledge(env.writeClock), patched, Requeue);
      ReachesTrans(s, t, System(Commit(sent, env, patched, Requeue).0, Idle));
    }
  }

  lemma ActRun(h: Hub, env: Environment)
    ensures Reaches(System(h, Ready(Snapshot(h.version, h.status), h.configured)), System(ActSpec(h, env).0, Idle))
  {
    var s := System(h, Ready(Snapshot(h.version, h.status), h.configured));
    assert OfBase(s) == h;
    if !h.configured && !h.NothingToClear() {
      CommitRun(s, env, SwitchOff, PatchClear(h), Done);
    } else if h.configured && h.NeedsFiring() {
      CommitRun(s, env, StartFiring(env.writeClock), PatchInitialise(h, env.writeClock), Requeue);
    } else if h.configured && (h.status.queue != [] ||
      (h.status.action == "True" && UntilRenewal(h.status, env.checkClock) == 0)) {
      DeliverRun(h, env);
    } else {
      ReachesStep(s, Stop);
    }
  }

  /** A whole pass is a run of the step machine. */
  lemma PassRun(h: Hub, env: Environment)
    requires env.run.RunRead? ==> LegalAction(env.run.obs.action)
    ensures Reaches(System(h, Idle), System(PassSpec(h, env).0, Idle))
  {
    var s := System(h, Idle);
    if env.record != Got {
      ReachesSelf(s);
    } else {
      var (g, ok) := SyncSpec(h, env);
      SyncRun(h, env);
      if env.again != Got {
        ThenStep(s, System(g, Synced(!ok)), Stop);
      } else {
        AfterSyncRun(s, g, ok, env);
      }
    }
  }

  /** The second half of a pass, from the re-read of the record on. */
  lemma AfterSyncRun(s: System, g: Hub, ok: bool, env: Environment)
    requires Reaches(s, System(g, Synced(!ok)))
    ensures var last :=
        if !ok && g.status.queue == [] then g
        else if env.owner != Got then g
        else ActSpec(g, env).0;
      Reaches(s, System(last, Idle))
  {
    var base := Snapshot(g.version, g.status);
    ThenStep(s, System(g, Synced(!ok)), ReadAgain);
    ThenStep(s, System(g, Reread(base, !ok)), ReadOwner);
    if ok || g.status.queue != [] {
      var ready := System(g, Ready(base, g.configured));
      if env.owner == Got {
        ActRun(g, env);
        ReachesTrans(s, ready, System(ActSpec(g, env).0, Idle));
      } else {
        ThenStep(s, ready, Stop);
      }
    }
  }

  /** So every pass keeps the invariant, whatever it meets. */
  lemma PassInv(h: Hub, env: Environment)
    requires env.run.RunRead? ==> LegalAction(env.run.obs.action)
    requires HubInv(h)
    ensures HubInv(PassSpec(h, env).0)
  {
    PassRun(h, env);
    var s := System(h, Idle);
    var steps :| Run(s, steps) && After(s, steps) == System(PassSpec(h, env).0, Idle);
    RunInv(s, steps);
  }
}
