/** What a sync reads from the hub (internal/controller/hubrunstatus.go), and how the
    events of runs and results find the records they concern (internal/controller/runalerts.go). */
module HubRunRead {
  import opened Options
  import opened RunStatus
  import opened HubRunStatus
  import opened RunRecord
  import opened AlertDelivery

  /** A condition of a run; the stamp is absent when it does not parse. */
  datatype Condition = Condition(stamp: Option<Time>, conditionType: string, reason: string)

  datatype Owner = Owner(kind: string, uid: string)

  /** An option of a result: the summary of its diagnosis, and its own. */
  datatype ResultOption = ResultOption(diagnosis: string, summary: string)

  datatype AnalysisResult = AnalysisResult(
    runName: string,
    owners: seq<Owner>,
    actionRequired: string,
    diagnosis: string,
    options: seq<Option<ResultOption>>,
    failureReason: string)

  /** A run with its status. List items that are no maps, or have no name, are None. */
  datatype HubRun = HubRun(
    name: string,
    cluster: string,
    managed: bool,
    uid: string,
    conditions: seq<Option<Condition>>,
    refs: Option<seq<Option<string>>>)

  /** Go's zero time, the origin of all instants here. */
  const ZERO_TIME: Time := 0

  // ---------------------------------------------------------------- the latest condition

  predicate Dated(c: Option<Condition>) {
    c.Some? && c.value.stamp.Some? && c.value.stamp.value >= 0
  }

  /** The i-th condition is the newest one, and the last of those equally new. */
  ghost predicate Newest(cs: seq<Option<Condition>>, i: int) {
    && 0 <= i < |cs| && Dated(cs[i])
    && forall j :: 0 <= j < |cs| && Dated(cs[j]) ==>
         && cs[j].value.stamp.value <= cs[i].value.stamp.value
         && (j > i ==> cs[j].value.stamp.value < cs[i].value.stamp.value)
  }

  ghost predicate Latest(cs: seq<Option<Condition>>, conditionType: string, phase: string) {
    if exists j :: 0 <= j < |cs| && Dated(cs[j]) then
      exists i :: Newest(cs, i) && conditionType == cs[i].value.conditionType && phase == cs[i].value.reason
    else conditionType == "" && phase == ""
  }

  lemma LatestUnique(cs: seq<Option<Condition>>, t: string, p: string, u: string, q: string)
    requires Latest(cs, t, p) && Latest(cs, u, q)
    ensures t == u && p == q
  {
    if exists j :: 0 <= j < |cs| && Dated(cs[j]) {
      var i :| Newest(cs, i) && t == cs[i].value.conditionType && p == cs[i].value.reason;
      var k :| Newest(cs, k) && u == cs[k].value.conditionType && q == cs[k].value.reason;
      assert i == k;
    }
  }

  method LatestCondition(cs: seq<Option<Condition>>) returns (conditionType: string, phase: string)
    ensures Latest(cs, conditionType, phase)
  {
    var newest := ZERO_TIME;
    conditionType, phase := "", "";
    ghost var at := -1;
    var k := 0;
    while k < |cs|
      invariant 0 <= k <= |cs| && -1 <= at < k
      invariant at < 0 ==> newest == ZERO_TIME && conditionType == "" && phase == ""
      invariant at < 0 ==> forall j :: 0 <= j < k ==> !Dated(cs[j])
      invariant at >= 0 ==> Newest(cs[..k], at) && newest == cs[at].value.stamp.value
      invariant at >= 0 ==> conditionType == cs[at].value.conditionType && phase == cs[at].value.reason
    {
      if cs[k].Some? && cs[k].value.stamp.Some? {
        var when := cs[k].value.stamp.value;
        if !(when < newest) {
          newest := when;
          conditionType := cs[k].value.conditionType;
          phase := cs[k].value.reason;
          at := k;
        }
      }
      k := k + 1;
    }
    assert cs[..k] == cs;
  }

  // ---------------------------------------------------------------- the result

  function OptionSummary(o: Option<ResultOption>): string {
    if o.None? then "" else if o.value.diagnosis != "" then o.value.diagnosis else o.value.summary
  }

  function FirstSummary(options: seq<Option<ResultOption>>): string {
    if options == [] then ""
    else if OptionSummary(options[0]) != "" then OptionSummary(options[0])
    else FirstSummary(options[1..])
  }

  /** `said` is what the first option says that says anything. */
  ghost predicate FirstSaid(options: seq<Option<ResultOption>>, said: string) {
    if said == "" then forall i :: 0 <= i < |options| ==> OptionSummary(options[i]) == ""
    else exists i :: SaidAt(options, said, i)
  }

  ghost predicate SaidAt(options: seq<Option<ResultOption>>, said: string, i: int) {
    && 0 <= i < |options| && OptionSummary(options[i]) == said
    && forall j :: 0 <= j < i ==> OptionSummary(options[j]) == ""
  }

  lemma {:induction false} FirstSummaryExactly(options: seq<Option<ResultOption>>, said: string)
    ensures FirstSummary(options) == said <==> FirstSaid(options, said)
  {
    if options != [] {
      var rest := options[1..];
      FirstSummaryExactly(rest, said);
      if OptionSummary(options[0]) == "" {
        if said != "" && FirstSaid(rest, said) {
          var i :| SaidAt(rest, said, i);
          assert SaidAt(options, said, i + 1);
        }
        if said != "" && FirstSaid(options, said) {
          var i :| SaidAt(options, said, i);
          assert SaidAt(rest, said, i - 1);
        }
      } else if said == OptionSummary(options[0]) {
        assert SaidAt(options, said, 0);
      }
    }
  }

  /** The diagnosis, else the first option that says something, else the failure. */
  function SummaryOf(r: AnalysisResult): string {
    if r.diagnosis != "" then r.diagnosis
    else if FirstSummary(r.options) != "" then FirstSummary(r.options)
    else r.failureReason
  }

  /** Says nothing: no map, or neither text is there. */
  predicate Silent(o: Option<ResultOption>) {
    o == None || o == Some(ResultOption("", ""))
  }

  /** The diagnosis of the result if it has one; else what the first option says that is not
      silent, its diagnosis before its own summary; else the reason of the failure. */
  lemma SummaryByField(r: AnalysisResult)
    ensures r.diagnosis != "" ==> SummaryOf(r) == r.diagnosis
    ensures r.diagnosis == "" && (forall i :: 0 <= i < |r.options| ==> Silent(r.options[i])) ==>
      SummaryOf(r) == r.failureReason
    ensures forall i ::
      r.diagnosis == "" && 0 <= i < |r.options| && !Silent(r.options[i]) &&
      (forall j :: 0 <= j < i ==> Silent(r.options[j])) ==>
        SummaryOf(r) ==
          if r.options[i].value.diagnosis != "" then r.options[i].value.diagnosis else r.options[i].value.summary
  {
    FirstSummaryExactly(r.options, "");
    forall i | r.diagnosis == "" && 0 <= i < |r.options| && !Silent(r.options[i]) &&
      (forall j :: 0 <= j < i ==> Silent(r.options[j]))
      ensures SummaryOf(r) == OptionSummary(r.options[i]) && OptionSummary(r.options[i]) != ""
    {
      var said := OptionSummary(r.options[i]);
      assert SaidAt(r.options, said, i);
      FirstSummaryExactly(r.options, said);
    }
  }

  method ExtractResultSummary(r: AnalysisResult) returns (summary: string)
    ensures summary == SummaryOf(r)
  {
    summary := r.diagnosis;
    if summary == "" {
      var k := 0;
      while k < |r.options|
        invariant 0 <= k <= |r.options|
        invariant summary == "" && FirstSummary(r.options[k..]) == FirstSummary(r.options)
      {
        assert r.options[k..][1..] == r.options[k + 1..];
        if r.options[k].Some? {
          summary := r.options[k].value.diagnosis;
          if summary == "" {
            summary := r.options[k].value.summary;
          }
          if summary != "" {
            break;
          }
        }
        k := k + 1;
      }
    }
    if summary == "" {
      summary := r.failureReason;
    }
  }

  function ActionOf(r: AnalysisResult): string {
    if r.actionRequired == "True" || r.actionRequired == "False" then r.actionRequired else ""
  }

  predicate OwnedBy(r: AnalysisResult, uid: string) {
    Owner("AgenticRun", uid) in r.owners
  }

  method IsOwned(r: AnalysisResult, uid: string) returns (owned: bool)
    ensures owned == OwnedBy(r, uid)
  {
    owned := false;
    var k := 0;
    while k < |r.owners|
      invariant 0 <= k <= |r.owners|
      invariant !owned && Owner("AgenticRun", uid) !in r.owners[..k]
    {
      if r.owners[k].kind == "AgenticRun" && r.owners[k].uid == uid {
        return true;
      }
      k := k + 1;
    }
    assert r.owners[..k] == r.owners;
  }

  // ---------------------------------------------------------------- one read

  /** The identity test of a sync. */
  predicate SyncAccepts(r: Record, run: HubRun, key: Digest) {
    run.cluster == r.status.clusterName && run.managed && r.runKey == key(run.cluster, run.name)
  }

  /** The name of the result that a sync of this run has to read, if any. */
  function LastRef(run: HubRun): Option<string> {
    if run.refs.Some? && run.refs.value != [] then run.refs.value[|run.refs.value| - 1] else None
  }

  /** The run's references are readable, and the last of them, if there is any, names a
      result of this run and of this very object. */
  ghost predicate ResultUsable(run: HubRun, results: map<string, AnalysisResult>) {
    && run.refs.Some?
    && (run.refs.value == [] ||
        (LastRef(run).Some? && LastRef(run).value != "" && LastRef(run).value in results &&
         results[LastRef(run).value].runName == run.name &&
         (run.uid == "" || OwnedBy(results[LastRef(run).value], run.uid))))
  }

  /** Spelled out on the fields that are read. */
  lemma UsableByField(r: Record, run: HubRun, results: map<string, AnalysisResult>, key: Digest)
    ensures SyncAccepts(r, run, key) <==>
      run.managed && run.cluster == r.status.clusterName && r.runKey == key(run.cluster, run.name)
    ensures ResultUsable(run, results) <==>
      && run.refs.Some?
      && (run.refs.value != [] ==>
           var last := run.refs.value[|run.refs.value| - 1];
           && last.Some? && last.value != "" && last.value in results
           && results[last.value].runName == run.name
           && (run.uid != "" ==> exists i ::
                0 <= i < |results[last.value].owners| &&
                results[last.value].owners[i] == Owner("AgenticRun", run.uid)))
  {
  }

  /** The reads of syncHubRunStatus. An observation is made only of a run that is the
      record's own and of a result that is the run's own. `runBroken` and `resultBroken`
      say that the read of the run or of the result fails. */
  method ReadForSync(r: Record, runs: map<string, HubRun>, results: map<string, AnalysisResult>, key: Digest,
                     runBroken: bool, resultBroken: bool)
    returns (read: RunRead)
    ensures read.NothingToSync? <==>
      !r.hubOrigin || r.status.runName == "" || r.status.clusterName == "" || (!runBroken && r.status.runName !in runs)
    ensures read.RunRead? ==>
      && r.status.runName in runs
      && var run := runs[r.status.runName];
      && SyncAccepts(r, run, key) && ResultUsable(run, results)
      && Latest(run.conditions, read.obs.conditionType, read.obs.phase) && LegalAction(read.obs.action)
      && (if run.refs.value == [] then read.obs.summary == "" && read.obs.action == ""
          else
            var result := results[run.refs.value[|run.refs.value| - 1].value];
            && read.obs.summary == SummaryOf(result)
            && (read.obs.action == "True" <==> result.actionRequired == "True")
            && (read.obs.action == "False" <==> result.actionRequired == "False"))
    ensures !read.NothingToSync? ==>
      (read.RunRead? <==>
        && !runBroken && SyncAccepts(r, runs[r.status.runName], key) && ResultUsable(runs[r.status.runName], results)
        && (runs[r.status.runName].refs.value == [] || !resultBroken))
  {
    if !r.hubOrigin || r.status.runName == "" || r.status.clusterName == "" {
      return NothingToSync;
    }
    if runBroken {
      return ReadFailed;
    }
    if r.status.runName !in runs {
      return NothingToSync;
    }
    var run := runs[r.status.runName];
    if run.cluster != r.status.clusterName || !run.managed || r.runKey != key(run.cluster, run.name) {
      return ReadFailed;
    }
    var conditionType, phase := LatestCondition(run.conditions);
    var summary, action := "", "";
    if run.refs.None? {
      return ReadFailed;
    }
    if |run.refs.value| > 0 {
      var last := run.refs.value[|run.refs.value| - 1];
      if last.None? || last.value == "" {
        return ReadFailed;
      }
      if resultBroken || last.value !in results || results[last.value].runName != run.name {
        return ReadFailed;
      }
      if run.uid != "" {
        var owned := IsOwned(results[last.value], run.uid);
        if !owned {
          return ReadFailed;
        }
      }
      summary := ExtractResultSummary(results[last.value]);
      action := ActionOf(results[last.value]);
    }
    read := RunRead.RunRead(Observation(conditionType, phase, summary, action));
  }

  // ---------------------------------------------------------------- event routing

  datatype Stored = Stored(name: string, record: Record)

  /** The server's answer to a list by the run-key label. */
  function WithKey(records: seq<Stored>, digest: string): seq<Stored> {
    if records == [] then []
    else (if records[0].record.runKey == digest then [records[0]] else []) + WithKey(records[1..], digest)
  }

  lemma {:induction false} WithKeySelects(records: seq<Stored>, digest: string, s: Stored)
    ensures s in WithKey(records, digest) <==> s in records && s.record.runKey == digest
  {
    if records != [] {
      WithKeySelects(records[1..], digest, s);
      assert records == [records[0]] + records[1..];
    }
  }

  predicate Routed(s: Stored, run: HubRun) {
    s.record.hubOrigin && s.record.status.clusterName == run.cluster && s.record.status.runName == run.name
  }

  function Matching(listed: seq<Stored>, run: HubRun): seq<string> {
    if listed == [] then []
    else (if Routed(listed[0], run) then [listed[0].name] else []) + Matching(listed[1..], run)
  }

  lemma {:induction false} MatchingSelects(listed: seq<Stored>, run: HubRun, name: string)
    ensures name in Matching(listed, run) <==> exists s :: s in listed && s.name == name && Routed(s, run)
  {
    if listed != [] {
      MatchingSelects(listed[1..], run, name);
      assert listed == [listed[0]] + listed[1..];
      if name in Matching(listed[1..], run) {
        var s :| s in listed[1..] && s.name == name && Routed(s, run);
        assert s in listed;
      }
    }
  }

  /** The reconcile requests for an event of a run. `here` says that the run is in the
      namespace of the runs. */
  function Requests(run: HubRun, here: bool, records: seq<Stored>, key: Digest): seq<string> {
    if here && run.managed && run.cluster != "" then Matching(WithKey(records, key(run.cluster, run.name)), run) else []
  }

  /** Nothing is requested when the list fails. */
  method MapHubRunToRecords(run: HubRun, here: bool, records: seq<Stored>, key: Digest, listBroken: bool)
    returns (requests: seq<string>)
    ensures requests == if listBroken then [] else Requests(run, here, records, key)
  {
    requests := [];
    if !here || !run.managed || run.cluster == "" {
      return;
    }
    if listBroken {
      return;
    }
    var listed := WithKey(records, key(run.cluster, run.name));
    var i := 0;
    while i < |listed|
      invariant 0 <= i <= |listed|
      invariant requests + Matching(listed[i..], run) == Matching(listed, run)
    {
      assert listed[i..][1..] == listed[i + 1..];
      if Routed(listed[i], run) {
        requests := requests + [listed[i].name];
      }
      i := i + 1;
    }
  }

  /** A record that a sync would accept for this very run. */
  ghost predicate SyncedFrom(s: Stored, run: HubRun, key: Digest) {
    && s.record.hubOrigin && s.record.status.runName != "" && s.record.status.clusterName != ""
    && s.record.status.runName == run.name && SyncAccepts(s.record, run, key)
  }

  lemma RoutedIsSynced(s: Stored, run: HubRun, key: Digest)
    requires run.name != ""
    ensures SyncedFrom(s, run, key) <==>
      run.managed && run.cluster != "" && s.record.runKey == key(run.cluster, run.name) && Routed(s, run)
  {
  }

  /** Routing by the hashed label finds exactly the records that a scan of all records
      would find: those whose sync accepts the run. Collisions of the hash do not matter. */
  lemma RoutingIsFullScan(run: HubRun, records: seq<Stored>, key: Digest, name: string)
    requires run.name != ""
    ensures name in Requests(run, true, records, key) <==>
      exists s :: s in records && s.name == name && SyncedFrom(s, run, key)
    ensures Requests(run, false, records, key) == []
  {
    var digest := key(run.cluster, run.name);
    MatchingSelects(WithKey(records, digest), run, name);
    forall s: Stored
      ensures SyncedFrom(s, run, key) <==>
        run.managed && run.cluster != "" && s.record.runKey == digest && Routed(s, run)
      ensures s in WithKey(records, digest) <==> s in records && s.record.runKey == digest
    {
      RoutedIsSynced(s, run, key);
      WithKeySelects(records, digest, s);
    }
  }

  /** An event of a result is routed through the run that the result names, unless the
      read of that run or the list fails. */
  method MapHubResultToRecords(result: AnalysisResult, here: bool, runs: map<string, HubRun>, records: seq<Stored>,
                               key: Digest, runBroken: bool, listBroken: bool)
    returns (requests: seq<string>)
    requires forall n :: n in runs ==> runs[n].name == n
    ensures forall n :: n in requests <==>
      && !runBroken && !listBroken
      && here && result.runName != "" && result.runName in runs
      && exists s :: s in records && s.name == n && SyncedFrom(s, runs[result.runName], key)
  {
    requests := [];
    if !here || result.runName == "" || runBroken || result.runName !in runs {
      return;
    }
    requests := MapHubRunToRecords(runs[result.runName], true, records, key, listBroken);
    forall n
      ensures n in Requests(runs[result.runName], true, records, key) <==>
        exists s :: s in records && s.name == n && SyncedFrom(s, runs[result.runName], key)
    {
      RoutingIsFullScan(runs[result.runName], records, key, n);
    }
  }

  /** A result that the sync of a record reads is routed to that record. */
  lemma ResultReachesItsRecord(s: Stored, runs: map<string, HubRun>, results: map<string, AnalysisResult>,
                               key: Digest)
    requires forall n :: n in runs ==> runs[n].name == n
    requires s.record.hubOrigin && s.record.status.runName != "" && s.record.status.clusterName != ""
    requires s.record.status.runName in runs
    requires SyncAccepts(s.record, runs[s.record.status.runName], key)
    requires ResultUsable(runs[s.record.status.runName], results) && runs[s.record.status.runName].refs.value != []
    ensures var result := results[LastRef(runs[s.record.status.runName]).value];
      result.runName != "" && result.runName in runs && SyncedFrom(s, runs[result.runName], key)
  {
  }

  /** Records made by Begin carry the name of their run, so a run has at most one. */
  ghost predicate NamedByRun(records: seq<Stored>) {
    && (forall i, j :: 0 <= i < j < |records| ==> records[i].name != records[j].name)
    && (forall i :: 0 <= i < |records| && records[i].record.hubOrigin && records[i].record.status.runName != "" ==>
         records[i].name == records[i].record.status.runName)
  }

  lemma AtMostOneRecord(records: seq<Stored>, run: HubRun, key: Digest, s: Stored, t: Stored)
    requires NamedByRun(records) && s in records && t in records
    requires SyncedFrom(s, run, key) && SyncedFrom(t, run, key)
    ensures s == t
  {
    var i :| 0 <= i < |records| && records[i] == s;
    var j :| 0 <= j < |records| && records[j] == t;
    assert records[i].name == run.name == records[j].name;
  }
}
