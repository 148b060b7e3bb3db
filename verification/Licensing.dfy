/** What every recorded entry is known to satisfy against the state it was
    decided in, and the shape that state always has. Every run of commands
    records only licensed entries, so an invariant kept by licensed entries
    holds in every reachable state. */
module Licensing {
  import opened Decimal
  import opened Record
  import opened Replay
  import opened Protocol

  // ---- Shape ----

  predicate AttemptShape(attempt: string) {
    attempt == Print(AttemptNumber(attempt)) && AttemptNumber(attempt) >= 1
  }

  /** Flight is set exactly while in flight, an outcome exactly once settled,
      and planned or withdrawn work was committed and never admitted. */
  predicate UnitShape(k: UnitKey, u: Unit) {
    && u.session == k.session != "" && u.name == k.unit != ""
    && u.state != NoState
    && (u.state == StateInFlight <==> u.flight != NoFlight)
    && (u.state == StateSettled <==> u.outcome != NoOutcome)
    && (u.state == StatePlanned || u.state == StateWithdrawn ==> u.committed && u.attempt == FirstAttempt)
    && AttemptShape(u.attempt)
  }

  predicate RecoveryShape(r: Recovery) {
    && (r.open ==> !r.backtracked && !r.restored)
    && (r.Unresolved() ==> r.attempted.Some? && r.unit != "")
    && r.failures >= 0
  }

  predicate BudgetShape(b: Budgets) {
    && "" !in b.qaRounds && "" !in b.recoveries
    && forall o | o in b.recoveries :: RecoveryShape(b.recoveries[o])
  }

  /** An execution is kept under its dispatch and names its attempt. */
  predicate ExecutionShape(id: string, d: Execution) {
    d.dispatch == id != "" && d.root != "" && d.unit != "" && d.attempt != ""
  }

  ghost predicate Shape(p: Projection) {
    && (forall k | k in p.units :: UnitShape(k, p.units[k]))
    && (forall id | id in p.executions :: ExecutionShape(id, p.executions[id]))
    && (forall s | s in p.sessions :: s != "" && BudgetShape(p.sessions[s]))
  }

  // ---- License ----

  ghost predicate AdmissionLicense(policy: Policy, p: Projection, e: Entry) {
    var b := p.Budgets(e.session);
    && e.attempt == NextAttempt(p, e.session, e.unit)
    && e.objective == Scope(b, e.unit)
    && Refusal(policy, p, Request(e.session, e.unit, e.agent, e.dispatch), e.objective, QARoundFor(b, e.unit)).None?
  }

  predicate TerminationLicense(p: Projection, e: Entry) {
    var u := p.Unit(e.session, e.unit);
    && e.attempt == CurrentAttempt(p, e.session, e.unit)
    && (e.outcome == Completed ==> !u.cancelRequested && u.flight != FlightUncertain)
  }

  ghost predicate RoundLicense(b: Budgets, e: Entry) {
    && e.qaRound.Some? && e.planVersion !in b.qaRounds
    && forall v, w | w in e.qaRound.value.units :: !b.InRound(v, w)
  }

  predicate RecoveryLicense(policy: Policy, b: Budgets, e: Entry) {
    && !b.Recovery(e.objective).open
    && RecoveryRefusal(policy, b, RecoveryDeclaration(e.objective, e.result, e.scope, e.actions, e.attempts)).None?
  }

  predicate ContestLicense(policy: Policy, b: Budgets) {
    |b.contests| < policy.contests + b.Allowed(BoundContests, "")
  }

  predicate PreparationLicense(p: Projection, e: Entry) {
    var u := p.Unit(e.session, e.unit);
    && u.state == StateInFlight && u.dispatch == e.dispatch && u.attempt == e.attempt
    && e.dispatch !in p.executions && e.child == "" && e.cycle == ""
  }

  predicate ChildLicense(p: Projection, e: Entry) {
    && e.dispatch in p.executions && Names(p.executions[e.dispatch], e) && !p.executions[e.dispatch].settled
    && p.executions[e.dispatch].child == "" && e.child != ""
    && !ChildTaken(p, e.dispatch, e.child)
  }

  predicate LaneLicense(p: Projection, e: Entry) {
    && e.cycle != "" && e.role != NoRole && e.child != "" && e.dispatch == e.cycle + "/" + RoleText(e.role)
    && !LaneBlocked(p, e.cycle, e.role, e.child)
  }

  ghost predicate Licensed(policy: Policy, p: Projection, e: Entry) {
    var b := p.Budgets(e.session);
    match e.kind
    case KindAdmitted => AdmissionLicense(policy, p, e)
    case KindPlanned | KindWithdrawn => e.attempt == FirstAttempt
    case KindLaunched | KindUncertain | KindSuspended | KindCancelRequested =>
      e.attempt == CurrentAttempt(p, e.session, e.unit)
    case KindUnmonitored => ActivityOf(e).None? ==> e.attempt == CurrentAttempt(p, e.session, e.unit)
    case KindTerminated => TerminationLicense(p, e)
    case KindContested => ContestLicense(policy, b)
    case KindQARound => RoundLicense(b, e)
    case KindRecoveryDeclared => RecoveryLicense(policy, b, e)
    case KindRecoveryClosed => b.Recovery(e.objective).open
    case KindActions => b.Recovery(e.objective).open && e.actions > 0
    case KindActionsUncertain => b.Recovery(e.objective).open
    case KindRestored => b.Recovery(e.objective).backtracked && !b.Recovery(e.objective).open
    case KindException => !ExceptionRefused(b, e.bound, e.objective)
    case KindInterlocutorSwitched => b.holder == ""
    case KindInterlocutorHandoff | KindInterlocutorAborted => e.unit == b.holder
    case KindExecution => PreparationLicense(p, e)
    case KindChild => ChildLicense(p, e)
    case KindLane => LaneLicense(p, e)
    case KindPrepared | KindDelivery | KindPrompt | KindLaneStopped | KindExecutionEnded => e.dispatch in p.executions
    case _ => true
  }

  /** Every entry of the history was recordable and licensed where it was
      appended. */
  ghost predicate LicensedHistory(policy: Policy, history: seq<Entry>) {
    forall i | 0 <= i < |history| :: Valid(history[i]) && Licensed(policy, Project(history[..i]), history[i])
  }

  // ---- Where each kind lands ----

  predicate LifecycleKind(e: Entry) {
    match e.kind
    case KindAdmitted | KindPlanned | KindWithdrawn | KindTerminated | KindLaunched | KindUncertain
       | KindSuspended | KindCancelRequested | KindResult => true
    case KindUnmonitored => ActivityOf(e).None?
    case _ => false
  }

  predicate BudgetKind(k: Kind) {
    match k
    case KindQARound | KindDenied | KindContested | KindException | KindStopped | KindEscalated
       | KindRecoveryDeclared | KindActions | KindActionsUncertain | KindRestored | KindRecoveryClosed
       | KindInterlocutorSwitched | KindInterlocutorHandoff | KindInterlocutorAborted
       | KindRevised | KindInvalidRevision | KindSeatRestored => true
    case _ => false
  }

  /** Each entry belongs to exactly one lane of replay. */
  lemma Lanes(e: Entry)
    ensures ExecutionKind(e.kind) || BudgetKind(e.kind) || ActivityOf(e).Some? || LifecycleKind(e)
    ensures ExecutionKind(e.kind) ==> !BudgetKind(e.kind) && ActivityOf(e).None? && !LifecycleKind(e)
    ensures BudgetKind(e.kind) ==> ActivityOf(e).None? && !LifecycleKind(e)
    ensures LifecycleKind(e) ==> ActivityOf(e).None?
  {
  }

  lemma FoldBudget(p: Projection, e: Entry)
    requires BudgetKind(e.kind)
    ensures Budgeted(p.Budgets(e.session), e).Some?
    ensures Fold(p, e) == p.(sessions := p.sessions[e.session := Budgeted(p.Budgets(e.session), e).value])
  {
  }

  lemma FoldExec(p: Projection, e: Entry)
    requires ExecutionKind(e.kind)
    ensures Fold(p, e) == FoldExecution(p, e)
    ensures Fold(p, e).units == p.units && Fold(p, e).sessions == p.sessions && Fold(p, e).activities == p.activities
  {
    hide FoldExecution, FoldWork, FoldActivity;
    ExecFrame(p, e);
  }

  lemma ExecFrame(p: Projection, e: Entry)
    ensures FoldExecution(p, e).units == p.units && FoldExecution(p, e).sessions == p.sessions
    ensures FoldExecution(p, e).activities == p.activities
  {
    hide LinkedExecution, ExecutionOf, InputsOf;
    if e.kind.KindLease? {
    } else if e.kind.KindInputs? {
    } else {
    }
  }

  lemma FoldAct(p: Projection, e: Entry)
    requires !ExecutionKind(e.kind) && ActivityOf(e).Some?
    ensures Fold(p, e) == p.(activities := Fold(p, e).activities)
  {
    hide FoldActivity, FoldExecution, FoldWork;
    assert !e.kind.KindTerminated?;
    assert Fold(p, e) == FoldActivity(p, e, ActivityOf(e).value);
    ActivityFrame(p, e, ActivityOf(e).value);
  }

  lemma ActivityFrame(p: Projection, e: Entry, nodeKind: NodeKind)
    ensures FoldActivity(p, e, nodeKind) == p.(activities := FoldActivity(p, e, nodeKind).activities)
  {
    assert p.(activities := p.activities) == p;
    if ActivityStart(e.kind) {
    } else if e.activity in p.activities {
    }
  }

  lemma FoldLife(p: Projection, e: Entry)
    requires LifecycleKind(e)
    ensures Fold(p, e) == FoldLifecycle(p, e)
  {
    hide Fold, FoldUnit, FoldLifecycle, MovedExecutions;
    var x := MovedExecutions(p, e);
    var q := p.(executions := x);
    WorkLane(p, e);
    var versioned := if e.kind.KindPlanned? then p.Budgets(e.session).(planVersion := e.planVersion) else p.Budgets(e.session);
    NotBudgeted(versioned, e);
    assert FoldWork(q, e) == FoldUnit(q.(sessions := q.sessions[e.session := versioned]), e);
    UnitLane(p, e, x, versioned);
  }

  lemma UnitLane(p: Projection, e: Entry, x: map<string, Execution>, versioned: Budgets)
    requires LifecycleKind(e) && x == MovedExecutions(p, e)
    requires versioned == if e.kind.KindPlanned? then p.Budgets(e.session).(planVersion := e.planVersion) else p.Budgets(e.session)
    ensures FoldUnit(p.(executions := x, sessions := p.sessions[e.session := versioned]), e) == FoldLifecycle(p, e)
  {
    hide NextUnit, AdmittedBudgets, MovedExecutions, Prevails;
    var r := p.(executions := x, sessions := p.sessions[e.session := versioned]);
    assert r.Unit(e.session, e.unit) == p.Unit(e.session, e.unit) && r.Known(e.session, e.unit) == p.Known(e.session, e.unit);
    assert r.Budgets(e.session) == versioned;
    if !Accepts(p.Unit(e.session, e.unit), p.Known(e.session, e.unit), e.kind) {
      assert FoldUnit(r, e) == r;
    } else if e.kind.KindResult? {
    } else if e.kind.KindAdmitted? {
      var b := AdmittedBudgets(versioned, p.Known(e.session, e.unit), e);
      assert r.sessions[e.session := b] == p.sessions[e.session := b];
    } else {
      assert FoldUnit(r, e).sessions == r.sessions;
    }
  }

  lemma WorkLane(p: Projection, e: Entry)
    requires LifecycleKind(e)
    ensures Fold(p, e) == FoldWork(p.(executions := MovedExecutions(p, e)), e)
  {
    hide FoldWork, FoldExecution, FoldActivity, SettleExecutions;
    assert p.(executions := p.executions) == p;
  }

  lemma NotBudgeted(b: Budgets, e: Entry)
    requires LifecycleKind(e)
    ensures Budgeted(b, e).None?
  {
  }

  /** Where a lifecycle entry leaves the units. */
  function MovedUnits(p: Projection, e: Entry): map<UnitKey, Unit> {
    var key := UnitKey(e.session, e.unit);
    var u := p.Unit(e.session, e.unit);
    if !Accepts(u, p.Known(e.session, e.unit), e.kind) then p.units
    else if e.kind.KindResult? then
      if e.attempt == u.attempt && Prevails(u.assurance, e) then p.units[key := u.(assurance := Some(AssuranceOf(e)))] else p.units
    else p.units[key := NextUnit(u, e)]
  }

  /** Where a lifecycle entry leaves its session's accounting. */
  ghost function MovedSession(p: Projection, e: Entry): Budgets {
    var b := p.Budgets(e.session);
    var known := p.Known(e.session, e.unit);
    if e.kind.KindPlanned? then b.(planVersion := e.planVersion)
    else if e.kind.KindAdmitted? && Accepts(p.Unit(e.session, e.unit), known, e.kind) then AdmittedBudgets(b, known, e)
    else b
  }

  function MovedExecutions(p: Projection, e: Entry): map<string, Execution> {
    if e.kind.KindTerminated? then SettleExecutions(p.executions, e) else p.executions
  }

  /** Replay of a lifecycle entry: the attempt's executions settle with its
      termination, the session is opened, and the unit moves if it accepts. */
  ghost function FoldLifecycle(p: Projection, e: Entry): Projection {
    p.(executions := MovedExecutions(p, e), units := MovedUnits(p, e),
       sessions := p.sessions[e.session := MovedSession(p, e)])
  }

  lemma OtherUnitsStay(p: Projection, e: Entry, session: string, unit: string)
    requires e.session != session || e.unit != unit
    ensures FoldLifecycle(p, e).Known(session, unit) == p.Known(session, unit)
    ensures FoldLifecycle(p, e).Unit(session, unit) == p.Unit(session, unit)
  {
    hide MovedSession, MovedExecutions, NextUnit;
  }
}
