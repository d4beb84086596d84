/** internal/controller/status.go: the Ready condition every declaration carries, and which
    platform errors are final. */
module Status {

  // ---- Errors ----

  /** Connect error codes. */
  datatype Code =
    | Canceled | Unknown | InvalidArgument | DeadlineExceeded | NotFound | AlreadyExists
    | PermissionDenied | ResourceExhausted | FailedPrecondition | Aborted | OutOfRange
    | Unimplemented | Internal | Unavailable | DataLoss | Unauthenticated

  /** Whether the platform refused the declaration itself. A denial is not final: the controller's
      own grant converges after start-up. */
  predicate Permanent(code: Code) {
    match code
    case InvalidArgument => true
    case AlreadyExists => true
    case _ => false
  }

  /** How one external call ends. A call may take effect and still report an error; a refusal
      never takes effect. */
  datatype Reply = Accepted | Failed(code: Code, landed: bool) {
    predicate Refused() { Failed? && Permanent(code) }
    predicate Transient() { Failed? && !Permanent(code) }
    predicate TookEffect() { Accepted? || (landed && !Permanent(code)) }
  }

  /** What a pass asks of the work queue: the short retry or the long resync. */
  datatype Retry = Requeue | Done

  /** The reasons a Ready condition can carry. */
  datatype Reason = Reconciled | Pending | Rejected | CredentialMissing

  /** What a declaration's Ready condition says, if it has one. */
  datatype Verdict = Unset | Set(reason: Reason)

  /** What a pass returned: nothing, a scheduled next pass, or an error for the queue to back off on. */
  datatype Outcome = Nothing | Again(retry: Retry) | Errored

  /** What the store answers a version-checked write. */
  datatype WriteResult = Written | Conflict | Error

  /** A conflict asks for the short retry; another store error goes to the queue. */
  function AfterWrite(result: WriteResult, intended: Outcome): Outcome {
    match result
    case Written => intended
    case Conflict => Again(Requeue)
    case Error => Errored
  }

  // ---- Conditions ----

  datatype Condition = Condition(kind: string, value: bool, reason: Reason, message: string,
                                 observed: int, since: int)

  const READY := "Ready"
  const MESSAGE_LIMIT := 32768

  function Truncate(value: string, limit: nat): string {
    if |value| <= limit then value else value[..limit]
  }

  /** One call of setReady, setPending or setFailed, with the clock it read. */
  datatype Report = Report(reason: Reason, message: string, generation: int, now: int) {
    predicate Value() { reason.Reconciled? }
  }

  /** The condition list after a report: the first Ready condition is replaced where it stands, or
      one is appended. */
  function Put(conditions: seq<Condition>, report: Report): seq<Condition> {
    if conditions == [] then [Fresh(report, report.now)]
    else if conditions[0].kind == READY then
      [Fresh(report, if conditions[0].value == report.Value() then conditions[0].since else report.now)]
      + conditions[1..]
    else [conditions[0]] + Put(conditions[1..], report)
  }

  function Fresh(report: Report, since: int): Condition {
    Condition(READY, report.Value(), report.reason, Truncate(report.message, MESSAGE_LIMIT),
              report.generation, since)
  }

  /** The status block shared by all kinds, updated in place. */
  class ObjectStatus {
    var conditions: seq<Condition>
    var observedGeneration: int

    constructor ()
      ensures conditions == [] && observedGeneration == 0
    {
      conditions, observedGeneration := [], 0;
    }

    method SetReady(generation: int, now: int)
      modifies this
      ensures observedGeneration == generation
      ensures conditions == Put(old(conditions),
                  Report(Reconciled, "Reconciled against the platform API", generation, now))
    {
      SetCondition(generation, true, Reconciled, "Reconciled against the platform API", now);
    }

    method SetPending(generation: int, message: string, now: int)
      modifies this
      ensures observedGeneration == generation
      ensures conditions == Put(old(conditions), Report(Pending, message, generation, now))
    {
      SetCondition(generation, false, Pending, message, now);
    }

    method SetFailed(generation: int, reason: Reason, message: string, now: int)
      requires reason.Rejected? || reason.CredentialMissing?
      modifies this
      ensures observedGeneration == generation
      ensures conditions == Put(old(conditions), Report(reason, message, generation, now))
    {
      SetCondition(generation, false, reason, message, now);
    }

    method SetCondition(generation: int, value: bool, reason: Reason, message: string, now: int)
      requires value <==> reason.Reconciled?
      modifies this
      ensures observedGeneration == generation
      ensures conditions == Put(old(conditions), Report(reason, message, generation, now))
    {
      ghost var report := Report(reason, message, generation, now);
      observedGeneration := generation;
      var condition := Condition(READY, value, reason, Truncate(message, MESSAGE_LIMIT), generation, now);
      for i := 0 to |conditions|
        invariant conditions == old(conditions)
        invariant forall j :: 0 <= j < i ==> conditions[j].kind != READY
        invariant condition == Fresh(report, now)
      {
        if conditions[i].kind != condition.kind {
          continue;
        }
        if conditions[i].value == condition.value {
          condition := condition.(since := conditions[i].since);
        }
        PutReplaces(conditions, report, i);
        conditions := conditions[i := condition];
        return;
      }
      PutAppends(conditions, report);
      conditions := conditions + [condition];
    }
  }

  lemma {:induction false} PutReplaces(conditions: seq<Condition>, report: Report, i: nat)
    requires i < |conditions| && conditions[i].kind == READY
    requires forall j :: 0 <= j < i ==> conditions[j].kind != READY
    ensures Put(conditions, report) ==
            conditions[i := Fresh(report, if conditions[i].value == report.Value() then conditions[i].since
                else report.now)]
  {
    if i > 0 {
      PutReplaces(conditions[1..], report, i - 1);
    }
  }

  lemma {:induction false} PutAppends(conditions: seq<Condition>, report: Report)
    requires forall j :: 0 <= j < |conditions| ==> conditions[j].kind != READY
    ensures Put(conditions, report) == conditions + [Fresh(report, report.now)]
  {
    if conditions != [] {
      PutAppends(conditions[1..], report);
      assert conditions == [conditions[0]] + conditions[1..];
    }
  }

  // ---- Whole histories of reports ----

  /** The conditions after a history of reports, oldest first. */
  function Replay(conditions: seq<Condition>, reports: seq<Report>): seq<Condition> {
    if reports == [] then conditions
    else Put(Replay(conditions, reports[..|reports| - 1]), reports[|reports| - 1])
  }

  function Others(conditions: seq<Condition>): seq<Condition> {
    if conditions == [] then []
    else (if conditions[0].kind == READY then [] else [conditions[0]]) + Others(conditions[1..])
  }

  function Readies(conditions: seq<Condition>): seq<Condition> {
    if conditions == [] then []
    else (if conditions[0].kind == READY then [conditions[0]] else []) + Readies(conditions[1..])
  }

  /** Where the longest suffix of reports with the last report's value begins. */
  function Turn(reports: seq<Report>): (i: nat)
    requires reports != []
    ensures i < |reports|
    ensures forall j :: i <= j < |reports| ==> reports[j].Value() == reports[|reports| - 1].Value()
    ensures i > 0 ==> reports[i - 1].Value() != reports[|reports| - 1].Value()
  {
    var n := |reports|;
    if n == 1 || reports[n - 2].Value() != reports[n - 1].Value() then n - 1 else Turn(reports[..n - 1])
  }

  lemma {:induction false} PutKeepsOthers(conditions: seq<Condition>, report: Report)
    requires |Readies(conditions)| <= 1
    ensures Others(Put(conditions, report)) == Others(conditions)
    ensures Readies(Put(conditions, report)) ==
            [Fresh(report, if Readies(conditions) != [] && Readies(conditions)[0].value == report.Value()
                           then Readies(conditions)[0].since else report.now)]
  {
    if conditions != [] {
      if conditions[0].kind == READY {
        assert Readies(conditions) == [conditions[0]] + Readies(conditions[1..]);
        assert Put(conditions, report)[1..] == conditions[1..];
      } else {
        PutKeepsOthers(conditions[1..], report);
        assert Put(conditions, report)[1..] == Put(conditions[1..], report);
      }
    }
  }

  /** LastTransitionTime as history. After any non-empty history of reports on a list with no Ready
      condition there is exactly one, it carries the last report, it dates from the first report of
      the longest suffix with that value, and every other condition kept its value and place. */
  lemma {:induction false} TransitionTimeIsHistory(conditions: seq<Condition>, reports: seq<Report>)
    requires Readies(conditions) == [] && reports != []
    ensures Readies(Replay(conditions, reports)) ==
            [Fresh(reports[|reports| - 1], reports[Turn(reports)].now)]
    ensures Others(Replay(conditions, reports)) == Others(conditions)
  {
    var n := |reports|;
    var before := reports[..n - 1];
    if n == 1 {
      PutKeepsOthers(conditions, reports[0]);
    } else {
      TransitionTimeIsHistory(conditions, before);
      PutKeepsOthers(Replay(conditions, before), reports[n - 1]);
      assert before[Turn(before)] == reports[Turn(before)];
    }
  }

  /** What a reader of the condition may rely on, whatever was reported: it is true exactly when the
      reason is Reconciled, it carries the last report with its message cut at 32768, and under a clock
      that never goes back it is not dated in the future. */
  lemma ReadyConditionIsSound(conditions: seq<Condition>, reports: seq<Report>, now: int)
    requires Readies(conditions) == [] && reports != []
    requires forall i :: 0 <= i < |reports| ==> reports[i].now <= now
    ensures |Readies(Replay(conditions, reports))| == 1
    ensures var ready := Readies(Replay(conditions, reports))[0];
            && ready.kind == "Ready" && (ready.value <==> ready.reason.Reconciled?) && ready.since <= now
            && ready.reason == reports[|reports| - 1].reason && ready.observed == reports[|reports| - 1].generation
            && var text := reports[|reports| - 1].message;
               ready.message == if |text| <= 32768 then text else text[..32768]
  {
    TransitionTimeIsHistory(conditions, reports);
  }
}
