/** One recorded act of the execution history, and what makes it recordable. */
module Record {
  import opened Decimal
  import opened Ordering

  datatype Author = NoAuthor | Orchestrator | Harness | Verification

  datatype Kind =
    | KindPlanned | KindWithdrawn | KindAdmitted | KindDenied
    | KindLaunched | KindUncertain | KindUnmonitored | KindSuspended | KindCancelRequested | KindTerminated
    | KindContested
    | KindRecoveryDeclared | KindRecoveryClosed | KindActions | KindActionsUncertain | KindRestored
    | KindStopped | KindEscalated | KindException
    | KindInterlocutorSwitched | KindInterlocutorHandoff | KindInterlocutorAborted
    | KindSeatRestored | KindRevised | KindQARound | KindInvalidRevision
    | KindActivityStarted | KindActivityFinished | KindMaintenanceStarted | KindMaintenanceFinished
    | KindResult
    | KindInputs | KindExecution | KindPrepared | KindChild | KindDelivery
    | KindLane | KindLaneStopped | KindPrompt | KindExecutionEnded | KindLease

  datatype NodeKind = NoNodeKind | Delegated | Direct | Maintenance

  datatype Outcome = NoOutcome | Completed | Failed | Backtracked | Interrupted

  datatype ResultStatus = NoStatus | Verified | Rejected | Blocked | Impossible | Unverified

  /** The deterministic budgets a user exception may widen; NoBound stands for
      every name that is not one of them. */
  datatype Bound =
    | NoBound | BoundConcurrency | BoundUnplanned | BoundContests
    | BoundRecovery | BoundRecoveryActions | BoundRecoveryAttempts | BoundQARounds

  datatype Cause =
    | NoCause | CauseNone | CauseUncaptured
    | CauseBound(bound: Bound)
    | CauseRepetition | CauseWithdrawn | CauseNoFailure
    | CauseIncomplete | CauseOverlap
    | CauseInterlocutorRole | CauseInterlocutorHeld | CauseInterlocutorOrigin | CauseInterlocutorHolder

  datatype Classification = NoClassification | Tactical | Strategic

  datatype Role = NoRole | Collector | Verifier

  datatype QARound = QARound(objective: string, units: seq<string>)

  datatype Entry = Entry(
    author: Author, kind: Kind,
    session: string, unit: string, attempt: string, activity: string,
    nodeKind: NodeKind, dispatch: string, agent: string,
    cause: Cause, journalRef: string, outcome: Outcome,
    objective: string, bound: Bound, allowance: int,
    result: string, scope: seq<string>, actions: int, attempts: int,
    evidence: string, status: ResultStatus, revision: Option<nat>,
    planVersion: string, qaRound: Option<QARound>,
    contract: string, prerequisites: seq<string>,
    baseVersion: string, classification: Classification, reason: string,
    caller: string, child: string, createdAt: int,
    resultIds: seq<int>, none: bool,
    cycle: string, role: Role, phase: string, owner: string, model: string)

  /** The zero entry every record starts from. */
  const Blank: Entry := Entry(
    NoAuthor, KindDenied, "", "", "", "", NoNodeKind, "", "", NoCause, "", NoOutcome,
    "", NoBound, 0, "", [], 0, 0, "", NoStatus, None, "", None, "", [], "", NoClassification, "",
    "", "", 0, [], false, "", NoRole, "", "", "")

  /** The attempt identity of a unit's first attempt: "1" in decimal. */
  const FirstAttempt: string := Print(1)

  function AuthorOf(k: Kind): Author {
    match k
    case KindInputs | KindSeatRestored | KindPlanned | KindWithdrawn | KindCancelRequested | KindContested
       | KindRecoveryDeclared | KindStopped | KindEscalated | KindInterlocutorSwitched | KindInterlocutorHandoff
       | KindRevised | KindQARound | KindInvalidRevision | KindActivityStarted | KindActivityFinished => Orchestrator
    case KindResult => Verification
    case _ => Harness
  }

  predicate ExecutionKind(k: Kind) {
    k.KindInputs? || k.KindExecution? || k.KindPrepared? || k.KindChild? || k.KindDelivery?
    || k.KindLane? || k.KindLaneStopped? || k.KindPrompt? || k.KindExecutionEnded? || k.KindLease?
  }

  predicate ActivityStart(k: Kind) {
    k.KindActivityStarted? || k.KindMaintenanceStarted?
  }

  predicate ActivityFinish(k: Kind) {
    k.KindActivityFinished? || k.KindMaintenanceFinished?
  }

  /** The activity class an entry records, None for a work-unit entry. A lost
      capture is an activity's only when it names one. */
  function ActivityOf(e: Entry): Option<NodeKind> {
    match e.kind
    case KindActivityStarted | KindActivityFinished => Some(Direct)
    case KindMaintenanceStarted | KindMaintenanceFinished => Some(Maintenance)
    case KindUnmonitored => if e.activity != "" && e.nodeKind == Direct then Some(Direct) else None
    case _ => None
  }

  /** White space only, as strings.TrimSpace sees the Latin-1 range. */
  predicate BlankText(s: string) {
    forall i | 0 <= i < |s| :: var c := s[i] as int; 9 <= c <= 13 || c == 32 || c == 0x85 || c == 0xA0
  }

  predicate RoundShape(r: QARound) {
    && !BlankText(r.objective) && r.units != []
    && (forall i | 0 <= i < |r.units| :: !BlankText(r.units[i]))
    && Distinct(r.units)
  }

  predicate ValidExecution(e: Entry) {
    if e.kind.KindLease? then e.author == Harness && e.owner != "" && e.createdAt > 0
    else
      && e.session != ""
      && if e.kind.KindInputs? then e.author == Orchestrator && e.unit != "" && (e.resultIds != []) != e.none
         else e.author == Harness && e.dispatch != "" && e.attempt != "" && e.unit != ""
  }

  predicate ValidIdentity(e: Entry) {
    && (e.author == AuthorOf(e.kind) || (e.kind.KindResult? && e.author == Harness))
    && e.session != ""
    && (match ActivityOf(e)
        case Some(nodeKind) => e.activity != "" && e.unit == "" && e.attempt == "" && e.nodeKind == nodeKind
        case None => e.unit != "" && e.attempt != "" && e.activity == "" && (e.nodeKind == NoNodeKind || e.nodeKind == Delegated))
    && e.cause != NoCause
  }

  predicate ValidOutcome(e: Entry) {
    && (e.kind.KindTerminated? || e.kind.KindRecoveryClosed? || ActivityFinish(e.kind)) == (e.outcome != NoOutcome)
    && (ActivityFinish(e.kind) ==> e.outcome != Backtracked)
  }

  predicate ValidFields(e: Entry) {
    && (e.qaRound.Some? ==> e.kind.KindQARound?)
    && (e.status != NoStatus || e.revision.Some? ==> e.kind.KindResult?)
    && match e.kind
       case KindResult =>
         e.status != NoStatus
         && (e.status == Verified || e.status == Rejected ==> e.revision.Some? && !BlankText(e.evidence))
       case KindQARound => e.planVersion != "" && e.qaRound.Some? && RoundShape(e.qaRound.value)
       case KindRecoveryDeclared | KindRecoveryClosed | KindActions | KindActionsUncertain | KindRestored => e.objective != ""
       case KindException => e.bound != NoBound && e.allowance > 0
       case KindRevised => e.baseVersion != "" && e.planVersion != "" && e.classification != NoClassification
       case KindInvalidRevision => e.reason != ""
       case KindSeatRestored => e.agent != "" && e.model != "" && e.reason != ""
       case _ => true
  }

  /** What AppendBatch demands of every entry before any is recorded. */
  predicate Valid(e: Entry) {
    if ExecutionKind(e.kind) then ValidExecution(e)
    else ValidIdentity(e) && ValidOutcome(e) && ValidFields(e)
  }

  predicate AllValid(batch: seq<Entry>) {
    forall i | 0 <= i < |batch| :: Valid(batch[i])
  }

  // ---- Reference text ----

  const JournalPrefix: string := "journal/"

  /** The bus position a reference names; -1 precedes every recorded action. */
  function RefSeq(ref: string): int {
    var digits := if |ref| >= |JournalPrefix| && ref[..|JournalPrefix|] == JournalPrefix then ref[|JournalPrefix|..] else ref;
    match Parse(digits)
    case Some(n) => if ref == "" then -1 else n
    case None => -1
  }

  function JournalPosition(position: int): string {
    if position < 0 then "" else JournalPrefix + Print(position)
  }

  /** A cursor recorded as a reference is read back unchanged by replay. */
  lemma PositionRoundTrip(position: int)
    requires position >= -1
    ensures RefSeq(JournalPosition(position)) == position
  {
    if position >= 0 {
      var ref := JournalPosition(position);
      assert ref[..|JournalPrefix|] == JournalPrefix;
      assert ref[|JournalPrefix|..] == Print(position);
      ParsePrint(position);
    }
  }

  function AttemptKey(unit: string, attempt: string): string {
    unit + "/" + attempt
  }

  predicate IsDecimal(attempt: string) {
    forall i | 0 <= i < |attempt| :: IsDigit(attempt[i])
  }

  /** Numbered attempts make the joined key unambiguous even when a unit name
      holds slashes. */
  lemma AttemptKeyInjective(u1: string, a1: string, u2: string, a2: string)
    requires IsDecimal(a1) && IsDecimal(a2)
    requires AttemptKey(u1, a1) == AttemptKey(u2, a2)
    ensures u1 == u2 && a1 == a2
  {
    var key := AttemptKey(u1, a1);
    assert |key| == |u1| + 1 + |a1| == |u2| + 1 + |a2|;
    assert !IsDigit(key[|u1|]) && !IsDigit(key[|u2|]);
    assert forall i | |u1| < i < |key| :: key[i] == a1[i - |u1| - 1] && IsDigit(key[i]);
    assert forall i | |u2| < i < |key| :: key[i] == a2[i - |u2| - 1] && IsDigit(key[i]);
    assert |u1| == |u2|;
    assert key[..|u1|] == u1 && key[..|u2|] == u2;
    assert key[|u1| + 1..] == a1 && key[|u2| + 1..] == a2;
  }

  // ---- Allowance scope ----

  datatype AllowanceKey = AllowanceKey(bound: Bound, objective: string)

  function BoundText(b: Bound): string {
    match b
    case NoBound => ""
    case BoundConcurrency => "ceiling/concurrent-specialists"
    case BoundUnplanned => "budget/unplanned-units"
    case BoundContests => "budget/contests"
    case BoundRecovery => "budget/recovery-failures"
    case BoundRecoveryActions => "budget/recovery-actions"
    case BoundRecoveryAttempts => "budget/recovery-attempts"
    case BoundQARounds => "budget/qa-strengthening-rounds"
  }

  function AllowanceText(key: AllowanceKey): string {
    if key.objective == "" then BoundText(key.bound) else BoundText(key.bound) + "/" + key.objective
  }

  lemma BoundsDiffer(b1: Bound, b2: Bound) returns (i: nat)
    requires b1 != b2 && b1 != NoBound && b2 != NoBound
    ensures i < |BoundText(b1)| && i < |BoundText(b2)| && BoundText(b1)[i] != BoundText(b2)[i]
  {
    if b1 == BoundConcurrency || b2 == BoundConcurrency {
      i := 0;
    } else if BoundText(b1)[7] != BoundText(b2)[7] {
      i := 7;
    } else {
      assert BoundText(b1)[7] == 'r';
      if b1 == BoundRecovery || b2 == BoundRecovery {
        i := 16;
      } else {
        i := 17;
      }
    }
  }

  /** An exception never authorizes unrelated work: two scopes share one key
      only when bound and objective both agree. */
  lemma AllowanceTextInjective(k1: AllowanceKey, k2: AllowanceKey)
    requires k1.bound != NoBound && k2.bound != NoBound
    requires AllowanceText(k1) == AllowanceText(k2)
    ensures k1 == k2
  {
    hide BoundText;
    var t1, t2 := AllowanceText(k1), AllowanceText(k2);
    var n1, n2 := |BoundText(k1.bound)|, |BoundText(k2.bound)|;
    assert t1[..n1] == BoundText(k1.bound) && t2[..n2] == BoundText(k2.bound);
    assert forall i | 0 <= i < n1 && i < n2 :: t1[i] == BoundText(k1.bound)[i] && t2[i] == BoundText(k2.bound)[i];
    if k1.bound != k2.bound {
      var i := BoundsDiffer(k1.bound, k2.bound);
      assert false;
    } else if k1.objective != "" || k2.objective != "" {
      assert |t1| == |t2|;
      assert t1[n1 + 1..] == k1.objective && t2[n2 + 1..] == k2.objective;
    }
  }
}
