/** Any number of reconciles share the schedule, each holding a copy of any age, beside
    writers of other things and even of the stored times. Claims of one check still exclude
    each other (internal/controller/telcohealthcheck_controller.go:316-331). */
module ScheduleMachine {
  import opened Options
  import opened RunStatus
  import opened PeriodicSchedule

  /** A reconcile has read the singleton, and then read the clock. */
  datatype Held =
    | Read(copy: Copy, at: Time)
    | Running(copy: Copy, at: Time)

  datatype World = World(clock: Time, s: Schedule, held: map<nat, Held>)

  datatype Step =
    | Get(p: nat)
    | ReadClock(p: nat)
    | Attempt(p: nat, check: nat, period: int, name: string, clusters: seq<string>, answered: bool)
    | ForeignWrite
    | Rewrite(times: map<nat, Time>)
    | Tick(to: Time)

  ghost predicate Enabled(w: World, step: Step) {
    match step
    case Get(_) => true
    case ReadClock(p) => p in w.held && w.held[p].Read?
    case Attempt(p, check, period, _, _, _) =>
      p in w.held && w.held[p].Running? && Due(w.held[p].copy.lastRun, check, period, w.clock)
    case ForeignWrite => true
    case Rewrite(_) => true
    case Tick(to) => w.clock <= to
  }

  /** The claim of an attempt. */
  function Made(w: World, step: Step): Claim
    requires step.Attempt? && step.p in w.held
  {
    Claim(step.check, step.name, step.clusters, step.period, FloorSecond(w.held[step.p].at), w.clock, step.answered)
  }

  function Apply(w: World, step: Step): World
    requires Enabled(w, step)
  {
    match step
    case Get(p) => w.(held := w.held[p := Read(Copy(w.s.version, w.s.lastRun), w.clock)])
    case ReadClock(p) => w.(held := w.held[p := Running(w.held[p].copy, w.clock)])
    case Attempt(p, _, _, _, _, answered) =>
      if w.held[p].copy.version != w.s.version then w.(held := w.held - {p})
      else
        var c := Commit(w.s, w.held[p].copy, Made(w, step));
        if !answered then World(w.clock, c, w.held - {p})
        else World(w.clock, Launched(c, Made(w, step)), w.held[p := Running(Copy(c.version, c.lastRun), w.held[p].at)])
    case ForeignWrite => w.(s := w.s.(version := w.s.version + 1))
    case Rewrite(times) => w.(s := w.s.(version := w.s.version + 1, lastRun := times))
    case Tick(to) => w.(clock := to)
  }

  ghost predicate Initial(w: World) {
    w.held == map[] && w.s.claims == [] && w.s.tasks == []
  }

  ghost predicate IsRun(w: World, steps: seq<Step>)
    decreases |steps|
  {
    steps == [] || (Enabled(w, steps[0]) && IsRun(Apply(w, steps[0]), steps[1..]))
  }

  ghost function After(w: World, steps: seq<Step>): World
    requires IsRun(w, steps)
    decreases |steps|
  {
    if steps == [] then w else After(Apply(w, steps[0]), steps[1..])
  }

  // ---------------------------------------------------------------- tasks

  lemma TasksStep(w: World, step: Step)
    requires Enabled(w, step) && w.s.tasks == TasksOf(w.s.claims)
    ensures var s := Apply(w, step).s; s.tasks == TasksOf(s.claims)
  {
    if step.Attempt? && w.held[step.p].copy.version == w.s.version {
      TasksJoin(w.s.claims, [Made(w, step)]);
      TasksOne(Made(w, step));
    }
  }

  lemma {:induction false} TasksRun(w: World, steps: seq<Step>)
    requires IsRun(w, steps) && w.s.tasks == TasksOf(w.s.claims)
    ensures After(w, steps).s.tasks == TasksOf(After(w, steps).s.claims)
    decreases |steps|
  {
    if steps != [] {
      TasksStep(w, steps[0]);
      TasksRun(Apply(w, steps[0]), steps[1..]);
    }
  }

  /** However the reconciles overlap, and whatever others write: the tasks ever launched
      serve the answered claims, one task for each of their clusters, in order. */
  lemma TasksAreOfClaims(w: World, steps: seq<Step>)
    requires Initial(w) && IsRun(w, steps)
    ensures Serve(After(w, steps).s.tasks, After(w, steps).s.claims)
  {
    TasksRun(w, steps);
    TasksServe(After(w, steps).s.claims);
  }

  // ---------------------------------------------------------------- claims exclude each other

  /** A claim is decided at least its period after every earlier claim of the same
      check, and its time is not before theirs. */
  ghost predicate Exclusive(claims: seq<Claim>) {
    forall j, k :: 0 <= j < k < |claims| && claims[j].check == claims[k].check ==>
      claims[k].decidedAt - claims[j].time >= claims[k].period && claims[j].time <= claims[k].time
  }

  /** The stored time of a check that was ever claimed is not before its claims. */
  ghost predicate Recorded(s: Schedule) {
    forall k :: 0 <= k < |s.claims| ==>
      s.claims[k].check in s.lastRun && s.claims[k].time <= s.lastRun[s.claims[k].check]
  }

  /** Claimed times are whole seconds that had passed by `t`. */
  ghost predicate ClaimedBy(claims: seq<Claim>, t: Time) {
    forall k :: 0 <= k < |claims| ==> claims[k].time <= t && FloorSecond(claims[k].time) == claims[k].time
  }

  ghost predicate HeldValid(w: World, h: Held) {
    && h.at <= w.clock && h.copy.version <= w.s.version
    && (h.copy.version == w.s.version ==> h.copy.lastRun == w.s.lastRun && ClaimedBy(w.s.claims, h.at))
  }

  ghost predicate Inv(w: World) {
    && ClaimedBy(w.s.claims, w.clock)
    && Recorded(w.s) && Exclusive(w.s.claims)
    && (forall p :: p in w.held ==> HeldValid(w, w.held[p]))
  }

  lemma FloorKeepsOrder(x: Time, y: Time)
    requires x <= y && FloorSecond(x) == x
    ensures x <= FloorSecond(y)
  {
    assert x / SECOND <= y / SECOND;
  }

  lemma FloorTwice(x: Time)
    ensures FloorSecond(FloorSecond(x)) == FloorSecond(x)
  {
  }

  /** A claim made from a current copy joins the others. */
  lemma ClaimJoins(s: Schedule, claim: Claim, now: Time)
    requires Recorded(s) && Exclusive(s.claims) && ClaimedBy(s.claims, now)
    requires Due(s.lastRun, claim.check, claim.period, claim.decidedAt) && claim.time == FloorSecond(now)
    ensures var claims := s.claims + [claim]; Exclusive(claims) && ClaimedBy(claims, now)
    ensures forall k :: 0 <= k < |s.claims| && s.claims[k].check == claim.check ==> s.claims[k].time <= claim.time
  {
    FloorTwice(now);
    forall k | 0 <= k < |s.claims|
      ensures s.claims[k].time <= claim.time
    {
      FloorKeepsOrder(s.claims[k].time, now);
    }
  }

  lemma AttemptInv(w: World, step: Step)
    requires Inv(w) && Enabled(w, step) && step.Attempt? && w.held[step.p].copy.version == w.s.version
    ensures Inv(Apply(w, step))
  {
    assert HeldValid(w, w.held[step.p]);
    ClaimJoins(w.s, Made(w, step), w.held[step.p].at);
  }

  /** Whoever rewrites the stored times leaves those of claimed checks at or after the claims. */
  ghost predicate KeepsClaims(w: World, step: Step) {
    step.Rewrite? ==> Recorded(w.s.(lastRun := step.times))
  }

  ghost predicate ClaimsKept(w: World, steps: seq<Step>)
    requires IsRun(w, steps)
    decreases |steps|
  {
    steps == [] || (KeepsClaims(w, steps[0]) && ClaimsKept(Apply(w, steps[0]), steps[1..]))
  }

  lemma StepInv(w: World, step: Step)
    requires Inv(w) && Enabled(w, step) && KeepsClaims(w, step)
    ensures Inv(Apply(w, step))
  {
    if step.Attempt? && w.held[step.p].copy.version == w.s.version {
      AttemptInv(w, step);
    }
  }

  lemma {:induction false} RunInv(w: World, steps: seq<Step>)
    requires Inv(w) && IsRun(w, steps) && ClaimsKept(w, steps)
    ensures Inv(After(w, steps))
    decreases |steps|
  {
    if steps != [] {
      StepInv(w, steps[0]);
      RunInv(Apply(w, steps[0]), steps[1..]);
    }
  }

  // ---------------------------------------------------------------- stored times

  /** Stored times are whole seconds that had passed by `t`. */
  ghost predicate StoredBy(lastRun: map<nat, Time>, t: Time) {
    forall i :: i in lastRun ==> lastRun[i] <= t && FloorSecond(lastRun[i]) == lastRun[i]
  }

  ghost predicate NotBack(s: map<nat, Time>, t: map<nat, Time>) {
    forall i :: i in s ==> i in t && s[i] <= t[i]
  }

  ghost predicate HeldTimes(w: World, h: Held) {
    && h.at <= w.clock && h.copy.version <= w.s.version
    && (h.copy.version == w.s.version ==> h.copy.lastRun == w.s.lastRun && StoredBy(w.s.lastRun, h.at))
  }

  ghost predicate TimesInv(w: World) {
    StoredBy(w.s.lastRun, w.clock) && forall p :: p in w.held ==> HeldTimes(w, w.held[p])
  }

  /** Whoever rewrites the stored times does not take them back, and not into the future. */
  ghost predicate KeepsTimes(w: World, step: Step) {
    step.Rewrite? ==> NotBack(w.s.lastRun, step.times) && StoredBy(step.times, w.clock)
  }

  ghost predicate TimesKept(w: World, steps: seq<Step>)
    requires IsRun(w, steps)
    decreases |steps|
  {
    steps == [] || (KeepsTimes(w, steps[0]) && TimesKept(Apply(w, steps[0]), steps[1..]))
  }

  lemma TimesStep(w: World, step: Step)
    requires TimesInv(w) && Enabled(w, step) && KeepsTimes(w, step)
    ensures TimesInv(Apply(w, step)) && NotBack(w.s.lastRun, Apply(w, step).s.lastRun)
  {
    if step.Attempt? && w.held[step.p].copy.version == w.s.version {
      var now := w.held[step.p].at;
      assert HeldTimes(w, w.held[step.p]);
      FloorTwice(now);
      if step.check in w.s.lastRun {
        FloorKeepsOrder(w.s.lastRun[step.check], now);
      }
    }
  }

  lemma {:induction false} TimesRun(w: World, steps: seq<Step>)
    requires TimesInv(w) && IsRun(w, steps) && TimesKept(w, steps)
    ensures NotBack(w.s.lastRun, After(w, steps).s.lastRun)
    decreases |steps|
  {
    if steps != [] {
      TimesStep(w, steps[0]);
      TimesRun(Apply(w, steps[0]), steps[1..]);
    }
  }

  /** However the reconciles overlap: committed claims of one check are at least its period
      apart as long as nobody sets its stored time back before a claim; and no stored time
      ever goes back unless somebody sets it back, or into the future. */
  lemma ScheduleExclusive(w: World, steps: seq<Step>)
    requires Initial(w) && IsRun(w, steps)
    ensures var claims := After(w, steps).s.claims;
      ClaimsKept(w, steps) ==>
        forall j, k :: 0 <= j < k < |claims| && claims[j].check == claims[k].check ==>
          && claims[k].decidedAt - claims[j].time >= claims[k].period
          && claims[j].time <= claims[k].time
    ensures StoredBy(w.s.lastRun, w.clock) && TimesKept(w, steps) ==>
      NotBack(w.s.lastRun, After(w, steps).s.lastRun)
  {
    if ClaimsKept(w, steps) {
      RunInv(w, steps);
    }
    if StoredBy(w.s.lastRun, w.clock) && TimesKept(w, steps) {
      TimesRun(w, steps);
    }
  }

  // ---------------------------------------------------------------- the condition is exact

  /** Whatever follows, claims exclude each other (if nobody sets times back again). */
  ghost predicate StaysExclusive(w: World) {
    forall steps :: IsRun(w, steps) && ClaimsKept(w, steps) ==> Exclusive(After(w, steps).s.claims)
  }

  /** After somebody has rewritten the stored times, claims go on excluding each other if and
      only if the new times of all claimed checks are not before their claims. */
  lemma ResetExactly(w: World, steps: seq<Step>, times: map<nat, Time>)
    requires Initial(w) && IsRun(w, steps) && ClaimsKept(w, steps)
    ensures var v := Apply(After(w, steps), Rewrite(times)); StaysExclusive(v) <==> Recorded(v.s)
  {
    RunInv(w, steps);
    var u := After(w, steps);
    var v := Apply(u, Rewrite(times));
    if Recorded(v.s) {
      StepInv(u, Rewrite(times));
      forall more | IsRun(v, more) && ClaimsKept(v, more)
        ensures Exclusive(After(v, more).s.claims)
      {
        RunInv(v, more);
      }
    } else {
      var k :| 0 <= k < |v.s.claims| &&
        !(v.s.claims[k].check in times && v.s.claims[k].time <= times[v.s.claims[k].check]);
      EarlyClaim(v, k);
    }
  }

  /** A check whose time was set back before a claim is claimed again at once. */
  lemma EarlyClaim(v: World, k: nat)
    requires k < |v.s.claims|
    requires v.s.claims[k].check in v.s.lastRun ==> v.s.lastRun[v.s.claims[k].check] < v.s.claims[k].time
    ensures exists more :: IsRun(v, more) && ClaimsKept(v, more) && !Exclusive(After(v, more).s.claims)
  {
    var check := v.s.claims[k].check;
    var period := if check in v.s.lastRun then v.clock - v.s.lastRun[check] else v.clock - v.s.claims[k].time + 1;
    var attempt := Attempt(0, check, period, "", [], true);
    var v1 := Apply(v, Get(0));
    var v2 := Apply(v1, ReadClock(0));
    var v3 := Apply(v2, attempt);
    assert v3.s.claims == v.s.claims + [Made(v2, attempt)];
    assert v3.s.claims[k].check == v3.s.claims[|v.s.claims|].check;
    assert !Exclusive(v3.s.claims);
    var more := [Get(0), ReadClock(0), attempt];
    assert more[1..] == [ReadClock(0), attempt] && more[1..][1..] == [attempt] && more[1..][1..][1..] == [];
    assert IsRun(v3, []) && ClaimsKept(v3, []) && After(v3, []) == v3;
    assert IsRun(v2, [attempt]) && ClaimsKept(v2, [attempt]) && After(v2, [attempt]) == v3;
    assert IsRun(v1, more[1..]) && ClaimsKept(v1, more[1..]) && After(v1, more[1..]) == v3;
    assert IsRun(v, more) && ClaimsKept(v, more) && After(v, more) == v3;
  }

  // ---------------------------------------------------------------- a pass is a run

  ghost predicate Reaches(w: World, v: World) {
    exists steps :: IsRun(w, steps) && After(w, steps) == v
  }

  lemma {:induction false} ReachAppend(w: World, steps: seq<Step>, step: Step)
    requires IsRun(w, steps) && Enabled(After(w, steps), step)
    ensures IsRun(w, steps + [step]) && After(w, steps + [step]) == Apply(After(w, steps), step)
    decreases |steps|
  {
    if steps == [] {
      assert [step][1..] == [] && IsRun(Apply(w, step), []);
    } else {
      assert (steps + [step])[1..] == steps[1..] + [step];
      ReachAppend(Apply(w, steps[0]), steps[1..], step);
    }
  }

  lemma Then(w: World, v: World, step: Step)
    requires Reaches(w, v) && Enabled(v, step)
    ensures Reaches(w, Apply(v, step))
  {
    var steps :| IsRun(w, steps) && After(w, steps) == v;
    ReachAppend(w, steps, step);
  }

  /** The clock readings of a pass follow each other. */
  ghost predicate Forward(env: Environment, clock: Time) {
    && (forall i: nat :: clock <= env.at(i) && env.now <= env.at(i))
    && (forall i: nat, j: nat :: i <= j ==> env.at(i) <= env.at(j))
  }

  /** What another writer does just before a claim. */
  lemma MeddleRun(o: World, w: World, meddling: Meddling) returns (v: World)
    requires Reaches(o, w)
    ensures Reaches(o, v) && v == w.(s := Meddle(w.s, meddling))
  {
    v := w;
    match meddling
    case Undisturbed =>
    case Touched =>
      Then(o, w, ForeignWrite);
      v := Apply(w, ForeignWrite);
    case Rewritten(times) =>
      Then(o, w, Rewrite(times));
      v := Apply(w, Rewrite(times));
  }

  lemma {:induction false} ChecksRun(o: World, w: World, p: nat, copy: Copy, checks: seq<Check>, i: nat, period: int,
                                     clusters: seq<string>, env: Environment, requeueAfter: int, persisted: bool)
    requires Reaches(o, w) && p in w.held && w.held[p] == Running(copy, env.now)
    requires i <= |checks|
    requires forall j: nat :: i <= j ==> w.clock <= env.at(j)
    requires forall j: nat, k: nat :: j <= k ==> env.at(j) <= env.at(k)
    ensures exists v ::
      && Reaches(o, v)
      && v.s == ChecksSpec(w.s, copy, checks, i, period, clusters, env, requeueAfter, persisted).s
    decreases |checks| - i
  {
    if i < |checks| && !checks[i].enabled {
      ChecksRun(o, w, p, copy, checks, i + 1, period, clusters, env, requeueAfter, persisted);
    } else if i < |checks| && checks[i].jitterOk {
      var q := CheckPeriod(checks[i], period);
      var r := if q > 0 then Least(requeueAfter, q) else requeueAfter;
      var t := Apply(w, Tick(env.at(i)));
      Then(o, w, Tick(env.at(i)));
      if Due(copy.lastRun, i, q, env.at(i)) {
        if checks[i].configOk {
          var attempt := Attempt(p, i, q, checks[i].name, clusters, env.calls(i).Works?);
          var u := MeddleRun(o, t, env.meddled(i));
          if env.calls(i).Fails? {
            return;
          }
          assert Made(u, attempt) == ClaimOf(checks[i], i, period, clusters, env);
          Then(o, u, attempt);
          var v := Apply(u, attempt);
          if copy.version == u.s.version && env.calls(i).Works? {
            ChecksRun(o, v, p, v.held[p].copy, checks, i + 1, period, clusters, env, r, true);
          }
        }
      } else {
        var until := q - (env.at(i) - copy.lastRun[i]);
        var sooner := if until > 0 then Least(r, until) else r;
        ChecksRun(o, t, p, copy, checks, i + 1, period, clusters, env, sooner, persisted);
      }
    }
  }

  /** A whole pass, from whatever copy it holds and whatever is written meanwhile, is a run
      of the machine. */
  lemma PassRun(w: World, p: nat, checks: seq<Check>, period: int, clusters: seq<string>, env: Environment)
    requires p in w.held && w.held[p].Running? && w.held[p].at == env.now && Forward(env, w.clock)
    ensures exists v :: Reaches(w, v) && v.s == PassSpec(w.s, w.held[p].copy, checks, period, clusters, env).s
  {
    assert IsRun(w, []) && After(w, []) == w;
    assert Reaches(w, w);
    if period != 0 {
      ChecksRun(w, w, p, w.held[p].copy, checks, 0, period, clusters, env, period, false);
    }
  }
}
