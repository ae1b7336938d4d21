/** Status sync of a run record from its hub run (internal/controller/hubrunstatus.go). */
module HubRunStatus {
  import opened Options
  import opened RunStatus

  /** What one sync has read from the hub run and its latest analysis result. */
  datatype Observation = Observation(conditionType: string, phase: string, summary: string, action: string)

  /** resultActionRequired lets only these three values through. */
  predicate LegalAction(action: string) {
    action == "" || action == "True" || action == "False"
  }

  /** The condition, the action and the summary after a sync, before any alert is queued. */
  function Observe(s: Status, o: Observation): Status {
    var c := if s.condition.Some? then s.condition.value else EMPTY_CONDITION;
    var c1 := if o.conditionType != "" then c.(conditionType := o.conditionType, phase := o.phase) else c;
    var c2 := if o.summary != "" then c1.(summary := o.summary) else c1;
    var action := if o.conditionType == "" then s.action
                  else if o.conditionType != "Analyzed" then "False"
                  else o.action;
    s.(condition := Some(c2), action := action)
  }

  /** Queues the notification of an action change, if the change deserves one. */
  function QueueActionAlert(s: Status, oldAction: string, clock: Time): Status {
    var now := FloorSecond(clock);
    if oldAction == s.action then s
    else if s.action == "True" then
      s.(alertStartsAt := Some(now), lastSent := None,
         queue := s.queue + [Notification(true, now, None, s.Summary())])
    else if oldAction == "True" then
      var start := if s.alertStartsAt.Some? then s.alertStartsAt.value else now;
      var end := if now > start then now else start + SECOND;
      s.(alertStartsAt := None, lastSent := None,
         queue := s.queue + [Notification(false, start, Some(end), s.Summary())])
    else s
  }

  /** The status that one successful sync stores. */
  function SyncStatus(s: Status, o: Observation, clock: Time): Status {
    if Observe(s, o) == s then s else QueueActionAlert(Observe(s, o), s.action, clock)
  }

  /** What a sync makes of the condition and the action, field by field: what the run says
      replaces what is stored, what it leaves empty does not, and no type but "Analyzed"
      lets the result decide about the action. */
  lemma SyncedCondition(s: Status, o: Observation, clock: Time)
    ensures var t := SyncStatus(s, o, clock);
      var before := if s.condition.Some? then s.condition.value else RunCondition("", "", "");
      && t.runName == s.runName && t.clusterName == s.clusterName
      && t.condition.Some?
      && t.condition.value.conditionType == (if o.conditionType != "" then o.conditionType else before.conditionType)
      && t.condition.value.phase == (if o.conditionType != "" then o.phase else before.phase)
      && t.condition.value.summary == (if o.summary != "" then o.summary else before.summary)
      && t.action == (if o.conditionType == "" then s.action
                      else if o.conditionType == "Analyzed" then o.action else "False")
  {
  }

  /** What a sync queues, and when that is said to have started and ended: a firing starts
      now; a resolution closes the firing that is on record and ends now, or one second
      after its start if that is not over yet. Both carry the summary as it is by then. */
  lemma SyncedQueue(s: Status, o: Observation, clock: Time)
    ensures var t, now := SyncStatus(s, o, clock), FloorSecond(clock);
      if s.action != "True" && t.action == "True" then
        && t.alertStartsAt == Some(now) && t.lastSent == None
        && |t.queue| == |s.queue| + 1 && s.queue <= t.queue
        && var firing := t.queue[|s.queue|];
        && firing.firing && firing.startsAt == now && firing.endsAt == None
        && firing.summary == t.condition.value.summary
      else if s.action == "True" && t.action != "True" then
        && t.alertStartsAt == None && t.lastSent == None
        && |t.queue| == |s.queue| + 1 && s.queue <= t.queue
        && var resolution := t.queue[|s.queue|];
        && !resolution.firing && resolution.summary == t.condition.value.summary
        && resolution.startsAt == (if s.alertStartsAt.Some? then s.alertStartsAt.value else now)
        && resolution.endsAt ==
             Some(if resolution.startsAt < now then now else resolution.startsAt + 1_000_000_000)
      else SameAlertFields(s, t.(action := s.action))
  {
  }

  /** A record without a condition type has no action; any type but "Analyzed" means "False". */
  ghost predicate ActionFollowsType(s: Status) {
    && LegalAction(s.action)
    && (s.condition.None? || s.condition.value.conditionType == "" ==> s.action == "")
    && (s.condition.Some? && s.condition.value.conditionType !in {"", "Analyzed"} ==> s.action == "False")
  }

  /** The alert fields are consistent with each other and with the action. */
  ghost predicate AlertFieldsConsistent(s: Status) {
    // Firings and resolutions alternate; a resolution closes the firing before it.
    && (forall i :: 0 <= i < |s.queue| && !s.queue[i].firing ==>
         s.queue[i].endsAt.Some? && s.queue[i].endsAt.value > s.queue[i].startsAt)
    && (forall i :: 0 <= i < |s.queue| && s.queue[i].firing ==> s.queue[i].endsAt == None)
    && (forall i :: 0 < i < |s.queue| ==> s.queue[i].firing != s.queue[i - 1].firing)
    && (forall i :: 0 < i < |s.queue| && !s.queue[i].firing ==> s.queue[i].startsAt == s.queue[i - 1].startsAt)
    // The last entry says what the action is.
    && (s.queue != [] ==> (s.queue[|s.queue| - 1].firing <==> s.action == "True"))
    && (s.queue != [] && s.queue[|s.queue| - 1].firing ==>
         s.alertStartsAt == Some(s.queue[|s.queue| - 1].startsAt))
    && (s.lastSent.Some? ==> s.alertStartsAt.Some?)
    && (s.alertStartsAt.Some? ==> s.action == "True")
    && (s.action == "True" && s.alertStartsAt.None? ==> s.queue == [])
    // Once a firing period has nothing left to deliver, its delivery time is known.
    && (s.queue == [] && s.alertStartsAt.Some? ==> s.lastSent.Some?)
  }

  lemma SyncKeepsActionFollowsType(s: Status, o: Observation, clock: Time)
    requires ActionFollowsType(s) && LegalAction(o.action)
    ensures ActionFollowsType(SyncStatus(s, o, clock))
  {
  }

  lemma SyncKeepsAlertFields(s: Status, o: Observation, clock: Time)
    requires AlertFieldsConsistent(s)
    ensures AlertFieldsConsistent(SyncStatus(s, o, clock))
  {
    var t := Observe(s, o);
    if t != s && s.action != t.action {
      if t.action == "True" { FiringQueued(s, t, clock); }
      else if s.action == "True" { ResolutionQueued(s, t, clock); }
    }
  }

  lemma FiringQueued(s: Status, t: Status, clock: Time)
    requires AlertFieldsConsistent(s) && SameAlertFields(s, t.(action := s.action))
    requires s.action != "True" && t.action == "True"
    ensures AlertFieldsConsistent(QueueActionAlert(t, s.action, clock))
  {
  }

  lemma ResolutionQueued(s: Status, t: Status, clock: Time)
    requires AlertFieldsConsistent(s) && SameAlertFields(s, t.(action := s.action))
    requires s.action == "True" && t.action != "True"
    ensures AlertFieldsConsistent(QueueActionAlert(t, s.action, clock))
  {
  }

  /** A repeated sync of the same run and result changes and queues nothing. */
  lemma SyncIdempotent(s: Status, o: Observation, first: Time, again: Time)
    ensures SyncStatus(SyncStatus(s, o, first), o, again) == SyncStatus(s, o, first)
  {
  }

  /** A sync only ever appends to the queue, at most one notification, and exactly
      when the action enters or leaves "True". */
  lemma SyncAppends(s: Status, o: Observation, clock: Time)
    ensures var t := SyncStatus(s, o, clock);
      && s.queue <= t.queue
      && |t.queue| == |s.queue| + (if (s.action == "True") != (t.action == "True") then 1 else 0)
  {
  }
}
