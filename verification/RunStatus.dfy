/** The stored state of one run record: the part of TelcoHealthCheckRun.status
    that the status sync, the creation protocol and the alert delivery share. */
module RunStatus {
  import opened Options

  /** Instants are nanoseconds. The API server keeps whole seconds only. */
  type Time = int

  const SECOND: int := 1_000_000_000
  const MINUTE: int := 60 * SECOND

  /** Attempts made by retry.RetryOnConflict with retry.DefaultRetry. */
  const RETRIES: nat := 5

  /** How a write to the API server ends: `AnswerLost` takes effect all the same. */
  datatype Call = Works | Fails | AnswerLost

  /** What its writer makes of a write under optimistic lock. Only a conflict is retried. */
  datatype Verdict = Stored | Error | Conflict

  /** What is left of an instant once it has been stored. */
  function FloorSecond(t: Time): (r: Time)
    ensures r <= t < r + SECOND && r % 1_000_000_000 == 0
  {
    t / SECOND * SECOND
  }

  function Max(x: int, y: int): int {
    if x < y then y else x
  }

  /** One action-required transition waiting for delivery. */
  datatype Notification = Notification(
    firing: bool,
    startsAt: Time,
    endsAt: Option<Time>,
    summary: string)

  /** The latest condition of the hub run and the conclusion of its analysis. */
  datatype RunCondition = RunCondition(conditionType: string, phase: string, summary: string)

  datatype Status = Status(
    runName: string,
    clusterName: string,
    condition: Option<RunCondition>,
    action: string,
    queue: seq<Notification>,
    alertStartsAt: Option<Time>,
    lastSent: Option<Time>)
  {
    function Summary(): string {
      if condition.Some? then condition.value.summary else ""
    }
  }

  const EMPTY_CONDITION := RunCondition("", "", "")

  /** Sets the phase only, creating the condition when it is absent. */
  function WithPhase(s: Status, phase: string): Status {
    s.(condition := Some((if s.condition.Some? then s.condition.value else EMPTY_CONDITION).(phase := phase)))
  }

  /** The fields that only the alert reconciler writes. */
  ghost predicate SameAlertFields(s: Status, t: Status) {
    && s.action == t.action
    && s.queue == t.queue
    && s.alertStartsAt == t.alertStartsAt
    && s.lastSent == t.lastSent
  }
}
