/** Periodic checks: schedule claims, the tasks they launch and the next wake-up
    (runPeriodicChecks in internal/controller/telcohealthcheck_controller.go). */
module PeriodicSchedule {
  import opened Options
  import opened RunStatus

  /** A check of the spec; `jitterOk` and `configOk` say whether its settings are usable. */
  datatype Check = Check(name: string, enabled: bool, period: Option<int>, jitterOk: bool, configOk: bool)

  datatype Task = Task(check: string, cluster: string)

  /** A committed claim: the stored time of the check is now `time`, and if its writer has
      got the answer the check may run, on these clusters. */
  datatype Claim = Claim(
    check: nat,
    name: string,
    clusters: seq<string>,
    period: int,
    time: Time,
    decidedAt: Time,
    answered: bool)

  /** The stored status of the singleton, with the tasks launched and claims made so far. */
  datatype Schedule = Schedule(version: nat, lastRun: map<nat, Time>, tasks: seq<Task>, claims: seq<Claim>)

  /** The singleton as a reconcile holds it, possibly out of date. */
  datatype Copy = Copy(version: nat, lastRun: map<nat, Time>)

  /** What another writer has done just before a claim: nothing, a write that leaves the
      stored times alone, or one that replaces them. */
  datatype Meddling = Undisturbed | Touched | Rewritten(lastRun: map<nat, Time>)

  /** What a pass meets: its clock readings, the meddling before each claim, and how the
      status update of each claim ends. */
  datatype Environment = Environment(
    now: Time,
    at: nat -> Time,
    meddled: nat -> Meddling,
    calls: nat -> Call)

  /** shouldRunCheck. */
  predicate Due(lastRun: map<nat, Time>, i: nat, period: int, at: Time) {
    i !in lastRun || at - lastRun[i] >= period
  }

  function CheckPeriod(c: Check, period: int): int {
    if c.period.Some? then c.period.value else period
  }

  function Least(x: int, y: int): int {
    if x < y then x else y
  }

  function Meddle(s: Schedule, meddling: Meddling): Schedule {
    match meddling
    case Undisturbed => s
    case Touched => s.(version := s.version + 1)
    case Rewritten(lastRun) => s.(version := s.version + 1, lastRun := lastRun)
  }

  function Tasks(name: string, clusters: seq<string>): seq<Task> {
    seq(|clusters|, k requires 0 <= k < |clusters| => Task(name, clusters[k]))
  }

  /** The claim of the i-th check in a pass. */
  function ClaimOf(c: Check, i: nat, period: int, clusters: seq<string>, env: Environment): Claim {
    Claim(i, c.name, clusters, CheckPeriod(c, period), FloorSecond(env.now), env.at(i), env.calls(i).Works?)
  }

  /** A status update that takes effect. */
  function Commit(s: Schedule, copy: Copy, claim: Claim): Schedule {
    s.(version := s.version + 1,
       lastRun := copy.lastRun[claim.check := claim.time],
       claims := s.claims + [claim])
  }

  /** And what follows once it is answered. */
  function Launched(s: Schedule, claim: Claim): Schedule {
    s.(tasks := s.tasks + Tasks(claim.name, claim.clusters))
  }

  datatype Outcome = Outcome(s: Schedule, requeueAfter: int, persisted: bool, ok: bool)

  /** The loop over the checks from the i-th on. */
  function ChecksSpec(s: Schedule, copy: Copy, checks: seq<Check>, i: nat, period: int, clusters: seq<string>,
                      env: Environment, requeueAfter: int, persisted: bool): Outcome
    requires i <= |checks|
    decreases |checks| - i
  {
    if i == |checks| then Outcome(s, requeueAfter, persisted, true)
    else if !checks[i].enabled then ChecksSpec(s, copy, checks, i + 1, period, clusters, env, requeueAfter, persisted)
    else if !checks[i].jitterOk then Outcome(s, requeueAfter, persisted, false)
    else
      var p := CheckPeriod(checks[i], period);
      var r := if p > 0 then Least(requeueAfter, p) else requeueAfter;
      if Due(copy.lastRun, i, p, env.at(i)) then
        if !checks[i].configOk then Outcome(s, r, persisted, false)
        else
          var m := Meddle(s, env.meddled(i));
          if copy.version != m.version || env.calls(i).Fails? then Outcome(m, r, persisted, false)
          else
            var c := Commit(m, copy, ClaimOf(checks[i], i, period, clusters, env));
            if env.calls(i).AnswerLost? then Outcome(c, r, persisted, false)
            else
              ChecksSpec(Launched(c, ClaimOf(checks[i], i, period, clusters, env)), Copy(c.version, c.lastRun),
                         checks, i + 1, period, clusters, env, r, true)
      else
        var until := p - (env.at(i) - copy.lastRun[i]);
        ChecksSpec(s, copy, checks, i + 1, period, clusters, env, if until > 0 then Least(r, until) else r, persisted)
  }

  function PassSpec(s: Schedule, copy: Copy, checks: seq<Check>, period: int, clusters: seq<string>, env: Environment)
    : Outcome
  {
    if period == 0 then Outcome(s, 0, false, true)
    else ChecksSpec(s, copy, checks, 0, period, clusters, env, period, false)
  }

  // ---------------------------------------------------------------- the reconciler

  class Reconciler {
    var version: nat
    var lastRun: map<nat, Time>
    var tasks: seq<Task>
    ghost var claims: seq<Claim>

    constructor ()
      ensures View() == Schedule(0, map[], [], [])
    {
      version, lastRun, tasks, claims := 0, map[], [], [];
    }

    ghost function View(): Schedule
      reads this
    {
      Schedule(version, lastRun, tasks, claims)
    }

    /** createAgenticRunsForClustersWithConfig: one task for each cluster, at once or delayed. */
    method Launch(name: string, clusters: seq<string>)
      modifies this`tasks
      ensures tasks == old(tasks) + Tasks(name, clusters)
    {
      var k := 0;
      while k < |clusters|
        invariant 0 <= k <= |clusters|
        invariant tasks == old(tasks) + Tasks(name, clusters[..k])
      {
        tasks := tasks + [Task(name, clusters[k])];
        k := k + 1;
      }
      assert clusters[..k] == clusters;
    }

    /** The status update that claims a check, from a copy that may be out of date. */
    method PersistClaim(thc: Copy, claim: Claim, env: Environment) returns (copy: Copy, ok: bool)
      requires claim.answered == env.calls(claim.check).Works?
      modifies this`version, this`lastRun, this`claims
      ensures var m := Meddle(old(View()), env.meddled(claim.check));
        if thc.version != m.version || env.calls(claim.check).Fails? then !ok && View() == m
        else ok == claim.answered && View() == Commit(m, thc, claim) && copy == Copy(version, lastRun)
    {
      match env.meddled(claim.check) {
        case Undisturbed =>
        case Touched => version := version + 1;
        case Rewritten(times) => version, lastRun := version + 1, times;
      }
      copy := thc.(lastRun := thc.lastRun[claim.check := claim.time]);
      ok := false;
      if copy.version == version && !env.calls(claim.check).Fails? {
        ok := env.calls(claim.check).Works?;
        version, lastRun := version + 1, copy.lastRun;
        claims := claims + [claim];
        copy := Copy(version, lastRun);
      }
    }

    method RunPeriodicChecks(thc: Copy, checks: seq<Check>, period: int, clusters: seq<string>, env: Environment)
      returns (requeueAfter: int, persisted: bool, ok: bool)
      modifies this
      ensures Outcome(View(), requeueAfter, persisted, ok) == PassSpec(old(View()), thc, checks, period, clusters, env)
    {
      if period == 0 {
        return 0, false, true;
      }
      requeueAfter, persisted, ok := period, false, true;
      var copy := thc;
      var i := 0;
      while i < |checks|
        invariant 0 <= i <= |checks|
        invariant ok
        invariant ChecksSpec(View(), copy, checks, i, period, clusters, env, requeueAfter, persisted)
               == PassSpec(old(View()), thc, checks, period, clusters, env)
      {
        var check := checks[i];
        if !check.enabled {
          i := i + 1;
          continue;
        }
        if !check.jitterOk {
          return requeueAfter, persisted, false;
        }
        var checkPeriod := period;
        if check.period.Some? {
          checkPeriod := check.period.value;
        }
        if checkPeriod > 0 && checkPeriod < requeueAfter {
          requeueAfter := checkPeriod;
        }
        if Due(copy.lastRun, i, checkPeriod, env.at(i)) {
          if !check.configOk {
            return requeueAfter, persisted, false;
          }
          copy, ok := PersistClaim(copy, ClaimOf(check, i, period, clusters, env), env);
          if !ok {
            return requeueAfter, persisted, false;
          }
          persisted := true;
          Launch(check.name, clusters);
        } else {
          var untilNext := checkPeriod - (env.at(i) - copy.lastRun[i]);
          if untilNext > 0 && untilNext < requeueAfter {
            requeueAfter := untilNext;
          }
        }
        i := i + 1;
      }
    }
  }

  // ---------------------------------------------------------------- claims and tasks

  /** The tasks that a list of claims has to launch: none for a claim without an answer. */
  function TasksOf(claims: seq<Claim>): seq<Task> {
    if claims == [] then []
    else (if claims[0].answered then Tasks(claims[0].name, claims[0].clusters) else []) + TasksOf(claims[1..])
  }

  /** The tasks are, claim by claim, one for each of its clusters: the k-th names the check
      of the claim and the k-th cluster. A claim without an answer has none. */
  ghost predicate Serve(tasks: seq<Task>, claims: seq<Claim>)
    decreases |claims|
  {
    if claims == [] then tasks == []
    else
      var n := if claims[0].answered then |claims[0].clusters| else 0;
      && n <= |tasks|
      && (forall k :: 0 <= k < n ==>
           tasks[k].check == claims[0].name && tasks[k].cluster == claims[0].clusters[k])
      && Serve(tasks[n..], claims[1..])
  }

  lemma {:induction false} TasksServe(claims: seq<Claim>)
    ensures Serve(TasksOf(claims), claims)
    decreases |claims|
  {
    if claims != [] {
      var first := if claims[0].answered then Tasks(claims[0].name, claims[0].clusters) else [];
      assert TasksOf(claims)[|first|..] == TasksOf(claims[1..]);
      TasksServe(claims[1..]);
    }
  }

  lemma {:induction false} TasksJoin(claims: seq<Claim>, more: seq<Claim>)
    ensures TasksOf(claims + more) == TasksOf(claims) + TasksOf(more)
  {
    if claims == [] {
      assert claims + more == more;
    } else {
      assert (claims + more)[1..] == claims[1..] + more;
      TasksJoin(claims[1..], more);
    }
  }

  lemma TasksOne(claim: Claim)
    ensures TasksOf([claim]) == if claim.answered then Tasks(claim.name, claim.clusters) else []
  {
    assert [claim][1..] == [];
  }

  /** A claim of one of these checks, for all the clusters. */
  ghost predicate ClaimOfPass(claim: Claim, checks: seq<Check>, clusters: seq<string>) {
    && claim.check < |checks| && checks[claim.check].enabled
    && claim.name == checks[claim.check].name && claim.clusters == clusters
  }

  /** Whether a pass stands to its claims as it should: it has launched the tasks of the
      answered ones, and only a last claim that ended it can be without an answer. */
  ghost predicate ClaimsMatch(s: Schedule, o: Outcome, checks: seq<Check>, clusters: seq<string>) {
    && s.claims <= o.s.claims
    && o.s.tasks == s.tasks + TasksOf(o.s.claims[|s.claims|..])
    && forall k :: |s.claims| <= k < |o.s.claims| ==>
         && ClaimOfPass(o.s.claims[k], checks, clusters)
         && (!o.s.claims[k].answered ==> k == |o.s.claims| - 1 && !o.ok)
  }

  ghost predicate SomeAnswered(claims: seq<Claim>, from: nat) {
    exists k :: from <= k < |claims| && claims[k].answered
  }

  lemma ClaimsExtend(s: Schedule, d: Schedule, o: Outcome, checks: seq<Check>, clusters: seq<string>, claim: Claim)
    requires claim.answered && ClaimOfPass(claim, checks, clusters) && d.claims == s.claims + [claim]
    requires d.tasks == s.tasks + Tasks(claim.name, claim.clusters)
    requires ClaimsMatch(d, o, checks, clusters)
    ensures ClaimsMatch(s, o, checks, clusters) && SomeAnswered(o.s.claims, |s.claims|)
  {
    var rest := o.s.claims[|d.claims|..];
    assert o.s.claims[|s.claims|..] == [claim] + rest;
    TasksJoin([claim], rest);
    TasksOne(claim);
    assert o.s.claims[|s.claims|] == claim;
  }

  /** A claim whose answer is lost ends the pass without a task. */
  lemma ClaimLost(s: Schedule, o: Outcome, checks: seq<Check>, clusters: seq<string>, claim: Claim)
    requires !claim.answered && ClaimOfPass(claim, checks, clusters)
    requires o.s.claims == s.claims + [claim] && o.s.tasks == s.tasks && !o.ok
    ensures ClaimsMatch(s, o, checks, clusters) && !SomeAnswered(o.s.claims, |s.claims|)
  {
    assert o.s.claims[|s.claims|..] == [claim];
    TasksOne(claim);
  }

  /** What a pass owes from the i-th check on. */
  ghost predicate Owes(s: Schedule, copy: Copy, o: Outcome, checks: seq<Check>, clusters: seq<string>, persisted: bool)
  {
    && ClaimsMatch(s, o, checks, clusters)
    && (o.persisted <==> persisted || SomeAnswered(o.s.claims, |s.claims|))
    && (copy.version < s.version ==> o.s.claims == s.claims)
  }

  lemma {:induction false} ChecksClaim(s: Schedule, copy: Copy, checks: seq<Check>, i: nat, period: int,
                                       clusters: seq<string>, env: Environment, requeueAfter: int, persisted: bool)
    requires i <= |checks|
    ensures Owes(s, copy, ChecksSpec(s, copy, checks, i, period, clusters, env, requeueAfter, persisted),
                 checks, clusters, persisted)
    decreases |checks| - i
  {
    if i < |checks| && checks[i].enabled && checks[i].jitterOk {
      var p := CheckPeriod(checks[i], period);
      var r := if p > 0 then Least(requeueAfter, p) else requeueAfter;
      if !Due(copy.lastRun, i, p, env.at(i)) {
        var until := p - (env.at(i) - copy.lastRun[i]);
        ChecksClaim(s, copy, checks, i + 1, period, clusters, env, if until > 0 then Least(r, until) else r, persisted);
      } else if checks[i].configOk {
        var m := Meddle(s, env.meddled(i));
        if copy.version == m.version && !env.calls(i).Fails? {
          var c := Commit(m, copy, ClaimOf(checks[i], i, period, clusters, env));
          var d := Launched(c, ClaimOf(checks[i], i, period, clusters, env));
          var o := ChecksSpec(s, copy, checks, i, period, clusters, env, requeueAfter, persisted);
          if env.calls(i).Works? {
            ChecksClaim(d, Copy(d.version, d.lastRun), checks, i + 1, period, clusters, env, r, true);
          }
          ClaimOne(s, d, o, checks, i, period, clusters, env);
        }
      }
    } else if i < |checks| && !checks[i].enabled {
      ChecksClaim(s, copy, checks, i + 1, period, clusters, env, requeueAfter, persisted);
    }
  }

  lemma ClaimOne(s: Schedule, d: Schedule, o: Outcome, checks: seq<Check>, i: nat, period: int,
                 clusters: seq<string>, env: Environment)
    requires i < |checks| && checks[i].enabled
    requires var claim := ClaimOf(checks[i], i, period, clusters, env);
      && d.claims == s.claims + [claim] && d.tasks == s.tasks + Tasks(claim.name, claim.clusters)
      && (if claim.answered then ClaimsMatch(d, o, checks, clusters)
          else o.s.claims == d.claims && o.s.tasks == s.tasks && !o.ok)
    ensures ClaimsMatch(s, o, checks, clusters)
    ensures SomeAnswered(o.s.claims, |s.claims|) <==> env.calls(i).Works?
  {
    var claim := ClaimOf(checks[i], i, period, clusters, env);
    if claim.answered {
      ClaimsExtend(s, d, o, checks, clusters, claim);
    } else {
      ClaimLost(s, o, checks, clusters, claim);
    }
  }

  /** A pass launches exactly one task for each cluster and each claim it commits, in
      order, and none besides; from a stale copy it commits and launches nothing. The only
      claim without tasks is one whose answer was lost, which ends the pass in error. */
  lemma TasksMatchClaims(s: Schedule, copy: Copy, checks: seq<Check>, period: int, clusters: seq<string>,
                         env: Environment)
    ensures var o := PassSpec(s, copy, checks, period, clusters, env);
      && s.claims <= o.s.claims && s.tasks <= o.s.tasks
      && Serve(o.s.tasks[|s.tasks|..], o.s.claims[|s.claims|..])
      && (forall k :: |s.claims| <= k < |o.s.claims| ==>
           && ClaimOfPass(o.s.claims[k], checks, clusters)
           && (!o.s.claims[k].answered ==> k == |o.s.claims| - 1 && !o.ok))
      && (o.persisted <==> SomeAnswered(o.s.claims, |s.claims|))
      && (copy.version < s.version ==> o.s.claims == s.claims && o.s.tasks == s.tasks)
  {
    if period != 0 {
      ChecksClaim(s, copy, checks, 0, period, clusters, env, period, false);
    }
    var o := PassSpec(s, copy, checks, period, clusters, env);
    var made := o.s.claims[|s.claims|..];
    assert o.s.tasks == s.tasks + TasksOf(made) by {
      assert period == 0 ==> made == [];
    }
    assert o.s.tasks[|s.tasks|..] == TasksOf(made);
    TasksServe(made);
  }

  // ---------------------------------------------------------------- which checks are claimed

  /** The period that counts for a check: its own if it has one, else the global one. */
  function PeriodOf(c: Check, period: int): int {
    match c.period
    case Some(own) => own
    case None => period
  }

  predicate Elapsed(c: Check, period: int, last: map<nat, Time>, i: nat, at: Time) {
    i !in last || at - last[i] >= PeriodOf(c, period)
  }

  /** Nothing is in the way of this check: its settings are usable, and if it is to run its
      claim goes through. */
  predicate Passable(c: Check, i: nat, period: int, last: map<nat, Time>, env: Environment) {
    c.enabled ==>
      && c.jitterOk
      && (Elapsed(c, period, last, i, env.at(i)) ==>
           c.configOk && env.meddled(i).Undisturbed? && env.calls(i).Works?)
  }

  /** The claims of checks `i` to `n`: of the enabled ones whose period has elapsed, in
      their order, each once, stamped with the time of the pass. */
  ghost predicate ClaimsDue(claims: seq<Claim>, checks: seq<Check>, i: nat, n: nat, period: int,
                            last: map<nat, Time>, env: Environment)
    requires n <= |checks|
  {
    && (forall k :: 0 <= k < |claims| ==>
         && i <= claims[k].check < n && checks[claims[k].check].enabled
         && Elapsed(checks[claims[k].check], period, last, claims[k].check, env.at(claims[k].check))
         && claims[k].time == FloorSecond(env.now) && claims[k].decidedAt == env.at(claims[k].check)
         && claims[k].period == PeriodOf(checks[claims[k].check], period))
    && (forall j, k :: 0 <= j < k < |claims| ==> claims[j].check < claims[k].check)
    && (forall c :: i <= c < n && checks[c].enabled && Elapsed(checks[c], period, last, c, env.at(c)) ==>
         exists k :: 0 <= k < |claims| && claims[k].check == c)
  }

  /** The stored times after that: of claimed checks the time of the pass, of others as before. */
  ghost predicate TimesSet(now: map<nat, Time>, last: map<nat, Time>, claims: seq<Claim>, time: Time) {
    && (forall k :: 0 <= k < |claims| ==> claims[k].check in now && now[claims[k].check] == time)
    && (forall c :: (forall k :: 0 <= k < |claims| ==> claims[k].check != c) ==>
         (c in now <==> c in last) && (c in last ==> now[c] == last[c]))
  }

  /** What the loop has done when nothing was in the way from the i-th check on. */
  ghost predicate ClaimsAll(s: Schedule, copy: Copy, o: Outcome, checks: seq<Check>, i: nat, period: int,
                            env: Environment)
    requires i <= |checks|
  {
    && o.ok && s.claims <= o.s.claims
    && var made := o.s.claims[|s.claims|..];
    && ClaimsDue(made, checks, i, |checks|, period, copy.lastRun, env)
    && TimesSet(o.s.lastRun, copy.lastRun, made, FloorSecond(env.now))
  }

  ghost predicate AllPassable(checks: seq<Check>, i: nat, period: int, last: map<nat, Time>, env: Environment) {
    forall j :: i <= j < |checks| ==> Passable(checks[j], j, period, last, env)
  }

  lemma PassableFirst(checks: seq<Check>, i: nat, period: int, last: map<nat, Time>, env: Environment)
    requires i < |checks|
    ensures AllPassable(checks, i, period, last, env) <==>
      Passable(checks[i], i, period, last, env) && AllPassable(checks, i + 1, period, last, env)
  {
  }

  /** A check that is off or not due has no claim. */
  lemma NoClaim(s: Schedule, copy: Copy, o: Outcome, checks: seq<Check>, i: nat, period: int, env: Environment)
    requires i < |checks| && !(checks[i].enabled && Elapsed(checks[i], period, copy.lastRun, i, env.at(i)))
    requires ClaimsAll(s, copy, o, checks, i + 1, period, env)
    ensures ClaimsAll(s, copy, o, checks, i, period, env)
  {
  }

  /** What the rest of a pass has to come to. */
  ghost predicate Passes(s: Schedule, copy: Copy, o: Outcome, checks: seq<Check>, i: nat, period: int, env: Environment)
    requires i <= |checks|
  {
    && (o.ok <==> AllPassable(checks, i, period, copy.lastRun, env))
    && (o.ok ==> ClaimsAll(s, copy, o, checks, i, period, env))
  }

  lemma PassesOver(s: Schedule, copy: Copy, o: Outcome, checks: seq<Check>, i: nat, period: int, env: Environment)
    requires i < |checks| && !(checks[i].enabled && Elapsed(checks[i], period, copy.lastRun, i, env.at(i)))
    requires (checks[i].enabled ==> checks[i].jitterOk) && Passes(s, copy, o, checks, i + 1, period, env)
    ensures Passes(s, copy, o, checks, i, period, env)
  {
    PassableFirst(checks, i, period, copy.lastRun, env);
    if o.ok {
      NoClaim(s, copy, o, checks, i, period, env);
    }
  }

  lemma {:induction false} ChecksPass(s: Schedule, copy: Copy, checks: seq<Check>, i: nat, period: int,
                                      clusters: seq<string>, env: Environment, requeueAfter: int, persisted: bool)
    requires i <= |checks| && copy == Copy(s.version, s.lastRun)
    ensures Passes(s, copy, ChecksSpec(s, copy, checks, i, period, clusters, env, requeueAfter, persisted),
                   checks, i, period, env)
    decreases |checks| - i
  {
    if i < |checks| {
      var o := ChecksSpec(s, copy, checks, i, period, clusters, env, requeueAfter, persisted);
      var p := CheckPeriod(checks[i], period);
      var r := if p > 0 then Least(requeueAfter, p) else requeueAfter;
      if !checks[i].enabled {
        ChecksPass(s, copy, checks, i + 1, period, clusters, env, requeueAfter, persisted);
        PassesOver(s, copy, o, checks, i, period, env);
      } else if !checks[i].jitterOk {
        PassableFirst(checks, i, period, copy.lastRun, env);
      } else if !Due(copy.lastRun, i, p, env.at(i)) {
        var until := p - (env.at(i) - copy.lastRun[i]);
        ChecksPass(s, copy, checks, i + 1, period, clusters, env, if until > 0 then Least(r, until) else r, persisted);
        PassesOver(s, copy, o, checks, i, period, env);
      } else {
        PassDue(s, copy, checks, i, period, clusters, env, requeueAfter, persisted);
      }
    }
  }

  /** The turn of an enabled check whose period has elapsed. */
  lemma {:induction false} PassDue(s: Schedule, copy: Copy, checks: seq<Check>, i: nat, period: int,
                                   clusters: seq<string>, env: Environment, requeueAfter: int, persisted: bool)
    requires i < |checks| && copy == Copy(s.version, s.lastRun)
    requires checks[i].enabled && checks[i].jitterOk && Due(copy.lastRun, i, CheckPeriod(checks[i], period), env.at(i))
    ensures Passes(s, copy, ChecksSpec(s, copy, checks, i, period, clusters, env, requeueAfter, persisted),
                   checks, i, period, env)
    decreases |checks| - i, 0
  {
    PassableFirst(checks, i, period, copy.lastRun, env);
    if checks[i].configOk && env.meddled(i).Undisturbed? && env.calls(i).Works? {
      var p := CheckPeriod(checks[i], period);
      var r := if p > 0 then Least(requeueAfter, p) else requeueAfter;
      var claim := ClaimOf(checks[i], i, period, clusters, env);
      var d := Launched(Commit(s, copy, claim), claim);
      ChecksPass(d, Copy(d.version, d.lastRun), checks, i + 1, period, clusters, env, r, true);
      var o := ChecksSpec(d, Copy(d.version, d.lastRun), checks, i + 1, period, clusters, env, r, true);
      ClaimFirst(s, copy, d, o, checks, i, period, clusters, env);
    }
  }

  /** A claim of the i-th check goes before those of the later ones. */
  lemma ClaimFirst(s: Schedule, copy: Copy, d: Schedule, o: Outcome, checks: seq<Check>, i: nat, period: int,
                   clusters: seq<string>, env: Environment)
    requires i < |checks| && checks[i].enabled && Elapsed(checks[i], period, copy.lastRun, i, env.at(i))
    requires d == Launched(Commit(s, copy, ClaimOf(checks[i], i, period, clusters, env)),
                           ClaimOf(checks[i], i, period, clusters, env))
    ensures AllPassable(checks, i + 1, period, d.lastRun, env) <==>
            AllPassable(checks, i + 1, period, copy.lastRun, env)
    ensures ClaimsAll(d, Copy(d.version, d.lastRun), o, checks, i + 1, period, env) ==>
            ClaimsAll(s, copy, o, checks, i, period, env)
  {
    var claim := ClaimOf(checks[i], i, period, clusters, env);
    forall j | i < j < |checks|
      ensures Passable(checks[j], j, period, d.lastRun, env) <==> Passable(checks[j], j, period, copy.lastRun, env)
    {
    }
    if ClaimsAll(d, Copy(d.version, d.lastRun), o, checks, i + 1, period, env) {
      var rest := o.s.claims[|d.claims|..];
      var made := o.s.claims[|s.claims|..];
      assert made == [claim] + rest;
      ClaimsDueCons(claim, rest, checks, i, period, copy.lastRun, d.lastRun, env);
      TimesSetCons(claim, rest, o.s.lastRun, copy.lastRun, FloorSecond(env.now));
    }
  }

  lemma ClaimsDueCons(claim: Claim, rest: seq<Claim>, checks: seq<Check>, i: nat, period: int,
                      last: map<nat, Time>, next: map<nat, Time>, env: Environment)
    requires i < |checks| && checks[i].enabled && Elapsed(checks[i], period, last, i, env.at(i))
    requires claim.check == i && claim.time == FloorSecond(env.now) && claim.decidedAt == env.at(i)
    requires claim.period == PeriodOf(checks[i], period)
    requires next == last[i := claim.time]
    requires ClaimsDue(rest, checks, i + 1, |checks|, period, next, env)
    ensures ClaimsDue([claim] + rest, checks, i, |checks|, period, last, env)
  {
    var all := [claim] + rest;
    assert all[0] == claim && forall k :: 0 < k < |all| ==> all[k] == rest[k - 1];
    forall c | i <= c < |checks| && checks[c].enabled && Elapsed(checks[c], period, last, c, env.at(c))
      ensures exists k :: 0 <= k < |all| && all[k].check == c
    {
      ClaimFound(claim, rest, checks, i, c, period, last, next, env);
    }
  }

  lemma ClaimFound(claim: Claim, rest: seq<Claim>, checks: seq<Check>, i: nat, c: nat, period: int,
                   last: map<nat, Time>, next: map<nat, Time>, env: Environment)
    requires i <= c < |checks| && claim.check == i && next == last[i := claim.time]
    requires checks[c].enabled && Elapsed(checks[c], period, last, c, env.at(c))
    requires ClaimsDue(rest, checks, i + 1, |checks|, period, next, env)
    ensures var all := [claim] + rest; exists k :: 0 <= k < |all| && all[k].check == c
  {
    var all := [claim] + rest;
    if c == i {
      assert all[0].check == c;
    } else {
      assert Elapsed(checks[c], period, next, c, env.at(c));
      var k :| 0 <= k < |rest| && rest[k].check == c;
      assert all[k + 1].check == c;
    }
  }

  lemma TimesSetCons(claim: Claim, rest: seq<Claim>, now: map<nat, Time>, last: map<nat, Time>, time: Time)
    requires claim.time == time && TimesSet(now, last[claim.check := time], rest, time)
    ensures TimesSet(now, last, [claim] + rest, time)
  {
    var all := [claim] + rest;
    assert all[0] == claim && forall k :: 0 < k < |all| ==> all[k] == rest[k - 1];
    if forall k :: 0 <= k < |rest| ==> rest[k].check != claim.check {
      assert now[claim.check] == time;
    }
    forall c | forall k :: 0 <= k < |all| ==> all[k].check != c
      ensures (c in now <==> c in last) && (c in last ==> now[c] == last[c])
    {
      assert all[0].check != c;
      assert forall k :: 0 <= k < |rest| ==> rest[k].check == all[k + 1].check;
    }
  }

  /** A pass from a current copy succeeds exactly when nothing is in its way; and then it has
      claimed exactly the enabled checks whose period has elapsed, in their order, and set
      their stored times, and no others, to the time of the pass. */
  lemma DueChecksClaimed(s: Schedule, checks: seq<Check>, period: int, clusters: seq<string>, env: Environment)
    requires period != 0
    ensures var o := PassSpec(s, Copy(s.version, s.lastRun), checks, period, clusters, env);
      && (o.ok <==> forall j :: 0 <= j < |checks| ==> Passable(checks[j], j, period, s.lastRun, env))
      && (o.ok ==>
           && s.claims <= o.s.claims
           && ClaimsDue(o.s.claims[|s.claims|..], checks, 0, |checks|, period, s.lastRun, env)
           && TimesSet(o.s.lastRun, s.lastRun, o.s.claims[|s.claims|..], FloorSecond(env.now)))
  {
    ChecksPass(s, Copy(s.version, s.lastRun), checks, 0, period, clusters, env, period, false);
  }

  /** Such a claim does occur: the period of a check passes without a run of it. */
  lemma LostAnswerSkipsRun(copy: Copy, env: Environment)
    requires copy.lastRun == map[] && env.meddled(0).Undisturbed? && env.calls(0).AnswerLost?
    ensures var s := Schedule(copy.version, map[], [], []);
      var o := PassSpec(s, copy, [Check("version", true, None, true, true)], MINUTE, ["spoke"], env);
      && o.s.lastRun == map[0 := FloorSecond(env.now)] && |o.s.claims| == 1
      && o.s.tasks == [] && !o.ok
  {
    assert Due(copy.lastRun, 0, MINUTE, env.at(0));
  }

  // ---------------------------------------------------------------- next wake-up

  /** The bounds that one enabled check puts on the wake-up: the period that counts for it,
      and the time that is left of it since the last run. */
  ghost predicate Wakes(r: int, copy: Copy, c: Check, i: nat, period: int, env: Environment) {
    var p := PeriodOf(c, period);
    c.enabled ==>
      r <= p && (i in copy.lastRun && env.at(i) < copy.lastRun[i] + p ==> env.at(i) + r <= copy.lastRun[i] + p)
  }

  /** `r` is one of those bounds. */
  ghost predicate Reason(r: int, copy: Copy, c: Check, i: nat, period: int, env: Environment) {
    var p := PeriodOf(c, period);
    c.enabled &&
    (r == p || (i in copy.lastRun && env.at(i) < copy.lastRun[i] + p && env.at(i) + r == copy.lastRun[i] + p))
  }

  ghost predicate PositivePeriods(checks: seq<Check>, period: int) {
    period > 0 && forall i :: 0 <= i < |checks| && checks[i].enabled ==> CheckPeriod(checks[i], period) > 0
  }

  /** A claim of the i-th check changes nothing for the later ones. */
  lemma LaterChecks(r: int, copy: Copy, next: Copy, checks: seq<Check>, i: nat, period: int, env: Environment)
    requires i < |checks| && next.lastRun - {i} == copy.lastRun - {i}
    requires forall j :: i < j < |checks| ==> Wakes(r, next, checks[j], j, period, env)
    ensures forall j :: i < j < |checks| ==> Wakes(r, copy, checks[j], j, period, env)
    ensures forall j :: i < j < |checks| && Reason(r, next, checks[j], j, period, env) ==>
      Reason(r, copy, checks[j], j, period, env)
  {
    forall j | i < j < |checks|
      ensures j in next.lastRun <==> j in copy.lastRun
      ensures j in copy.lastRun ==> next.lastRun[j] == copy.lastRun[j]
    {
      assert j in next.lastRun - {i} <==> j in copy.lastRun - {i};
    }
  }

  /** `r` is the smallest of `bound` and the bounds of the checks from the i-th on. */
  ghost predicate Woken(r: int, bound: int, copy: Copy, checks: seq<Check>, i: nat, period: int, env: Environment) {
    && 0 < r <= bound
    && (forall j :: i <= j < |checks| ==> Wakes(r, copy, checks[j], j, period, env))
    && (r == bound || exists j :: i <= j < |checks| && Reason(r, copy, checks[j], j, period, env))
  }

  lemma WokenAfterClaim(r: int, bound: int, copy: Copy, next: Copy, checks: seq<Check>, i: nat, period: int,
                        env: Environment)
    requires i < |checks| && checks[i].enabled && Due(copy.lastRun, i, CheckPeriod(checks[i], period), env.at(i))
    requires next.lastRun - {i} == copy.lastRun - {i}
    requires Woken(r, Least(bound, CheckPeriod(checks[i], period)), next, checks, i + 1, period, env)
    ensures Woken(r, bound, copy, checks, i, period, env)
  {
    LaterChecks(r, copy, next, checks, i, period, env);
    assert Reason(CheckPeriod(checks[i], period), copy, checks[i], i, period, env);
  }

  lemma WokenBeforeDue(r: int, bound: int, copy: Copy, checks: seq<Check>, i: nat, period: int, env: Environment)
    requires i < |checks| && checks[i].enabled && !Due(copy.lastRun, i, CheckPeriod(checks[i], period), env.at(i))
    requires var p := CheckPeriod(checks[i], period);
      Woken(r, Least(Least(bound, p), p - (env.at(i) - copy.lastRun[i])), copy, checks, i + 1, period, env)
    ensures Woken(r, bound, copy, checks, i, period, env)
  {
    var p := CheckPeriod(checks[i], period);
    assert Reason(p, copy, checks[i], i, period, env);
    assert Reason(p - (env.at(i) - copy.lastRun[i]), copy, checks[i], i, period, env);
  }

  lemma {:induction false} ChecksWake(s: Schedule, copy: Copy, checks: seq<Check>, i: nat, period: int,
                                      clusters: seq<string>, env: Environment, requeueAfter: int, persisted: bool)
    requires i <= |checks| && PositivePeriods(checks, period) && requeueAfter > 0
    requires ChecksSpec(s, copy, checks, i, period, clusters, env, requeueAfter, persisted).ok
    ensures Woken(ChecksSpec(s, copy, checks, i, period, clusters, env, requeueAfter, persisted).requeueAfter,
                  requeueAfter, copy, checks, i, period, env)
    decreases |checks| - i
  {
    if i < |checks| {
      var final := ChecksSpec(s, copy, checks, i, period, clusters, env, requeueAfter, persisted).requeueAfter;
      var p := CheckPeriod(checks[i], period);
      var r := Least(requeueAfter, p);
      if !checks[i].enabled {
        ChecksWake(s, copy, checks, i + 1, period, clusters, env, requeueAfter, persisted);
      } else if Due(copy.lastRun, i, p, env.at(i)) {
        var c := Commit(Meddle(s, env.meddled(i)), copy, ClaimOf(checks[i], i, period, clusters, env));
        var d := Launched(c, ClaimOf(checks[i], i, period, clusters, env));
        var next := Copy(d.version, d.lastRun);
        ChecksWake(d, next, checks, i + 1, period, clusters, env, r, true);
        WokenAfterClaim(final, requeueAfter, copy, next, checks, i, period, env);
      } else {
        var until := p - (env.at(i) - copy.lastRun[i]);
        ChecksWake(s, copy, checks, i + 1, period, clusters, env, Least(r, until), persisted);
        WokenBeforeDue(final, requeueAfter, copy, checks, i, period, env);
      }
    }
  }

  /** The wake-up is the smallest of the global period and, for every enabled check, its
      period and the time until it is due. So no due time is slept past. */
  lemma NextWakeUp(s: Schedule, copy: Copy, checks: seq<Check>, period: int, clusters: seq<string>, env: Environment)
    requires PositivePeriods(checks, period)
    requires PassSpec(s, copy, checks, period, clusters, env).ok
    ensures var r := PassSpec(s, copy, checks, period, clusters, env).requeueAfter;
      && 0 < r <= period
      && (forall j :: 0 <= j < |checks| ==> Wakes(r, copy, checks[j], j, period, env))
      && (r == period || exists j :: 0 <= j < |checks| && Reason(r, copy, checks[j], j, period, env))
  {
    ChecksWake(s, copy, checks, 0, period, clusters, env, period, false);
  }

  /** Reconcile wakes up within a minute while runs are pending, and otherwise when the
      checks ask for it; 0 means that they do not. */
  function Clamp(requeueAfter: int, pendingRuns: bool): (r: int)
    ensures !pendingRuns ==> r == requeueAfter
    ensures pendingRuns && requeueAfter > 0 ==>
      r <= requeueAfter && r <= 60_000_000_000 && (r == requeueAfter || r == 60_000_000_000)
    ensures pendingRuns && requeueAfter == 0 ==> r == 60_000_000_000
    ensures requeueAfter < 0 ==> r == requeueAfter
  {
    if pendingRuns && (requeueAfter == 0 || requeueAfter > MINUTE) then MINUTE else requeueAfter
  }
}
