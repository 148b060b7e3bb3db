/** Attempts are numbered 1, 2, 3, … by admissions alone, and a recovery spends
    one attempt for each admission in its scope since it was declared. */
module Attempts {
  import opened Decimal
  import opened Record
  import opened Replay
  import opened Protocol
  import opened Licensing
  import opened Runs
  import opened Slots
  import opened Budgeting
  import opened Lifecycle

  predicate AdmissionOf(e: Entry, session: string, unit: string) {
    e.kind.KindAdmitted? && e.session == session && e.unit == unit
  }

  /** The attempt identities a history admitted a unit under, in order. */
  function Admissions(history: seq<Entry>, session: string, unit: string): seq<string> {
    if history == [] then []
    else
      var n := |history| - 1;
      Admissions(history[..n], session, unit) + if AdmissionOf(history[n], session, unit) then [history[n].attempt] else []
  }

  /** No maintenance lane was recorded under the unit's name. */
  predicate NoLane(history: seq<Entry>, session: string, unit: string) {
    forall i | 0 <= i < |history| :: !(history[i].kind.KindLane? && history[i].session == session && history[i].unit == unit)
  }

  /** Executions recorded for a unit exist only once the unit does. */
  predicate ExecutionsKnown(p: Projection, session: string, unit: string) {
    forall id | id in ExecutionsFor(p, session, unit) :: p.Known(session, unit)
  }

  /** What a unit shows of the admissions behind it. */
  predicate Numbered(p: Projection, admissions: seq<string>, session: string, unit: string) {
    && (forall i | 0 <= i < |admissions| :: admissions[i] == Print(i + 1))
    && (if p.Known(session, unit) && Admitted(p.Unit(session, unit))
        then admissions != [] && p.Unit(session, unit).attempt == Print(|admissions|)
        else admissions == [])
  }

  lemma NextIsNumbered(p: Projection, admissions: seq<string>, session: string, unit: string)
    requires Shape(p) && Numbered(p, admissions, session, unit) && ExecutionsKnown(p, session, unit)
    requires p.Unit(session, unit).state != StateInFlight && p.Unit(session, unit).state != StateWithdrawn
    ensures NextAttempt(p, session, unit) == Print(|admissions| + 1)
  {
    if p.Known(session, unit) {
      assert UnitShape(UnitKey(session, unit), p.Unit(session, unit));
      ParsePrint(|admissions|);
    } else {
      assert ExecutionsFor(p, session, unit) == {};
      assert HighestAttempt(p, session, unit) == 0;
    }
  }

  lemma ExecutionsStayKnown(policy: Policy, p: Projection, e: Entry, session: string, unit: string)
    requires Shape(p) && Valid(e) && Licensed(policy, p, e) && ExecutionsKnown(p, session, unit)
    requires !(e.kind.KindLane? && e.session == session && e.unit == unit)
    ensures ExecutionsKnown(Fold(p, e), session, unit)
  {
    hide Fold, Licensed, Valid, Shape, Evolves, Budgeted, MovedUnits, MovedSession, ExecutionKind, BudgetKind, LifecycleKind, ActivityOf, FoldExecution;
    var q, key := Fold(p, e), UnitKey(session, unit);
    if key in p.units { EntryEvolves(policy, p, e, key); }
    forall id | id in ExecutionsFor(q, session, unit) ensures q.Known(session, unit) {
      Lanes(e);
      if LifecycleKind(e) {
        FoldLife(p, e);
        assert id in ExecutionsFor(p, session, unit);
      } else if BudgetKind(e.kind) {
        FoldBudget(p, e);
        assert id in ExecutionsFor(p, session, unit);
      } else if ExecutionKind(e.kind) {
        FoldExec(p, e);
        ExecutionNames(policy, p, e, id);
        if id in p.executions { assert id in ExecutionsFor(p, session, unit); }
      } else {
        FoldAct(p, e);
        assert id in ExecutionsFor(p, session, unit);
      }
    }
  }

  /** An execution's unit never changes, and a new ordinary one names a unit in
      flight. */
  lemma ExecutionNames(policy: Policy, p: Projection, e: Entry, id: string)
    requires Shape(p) && ExecutionKind(e.kind) && Licensed(policy, p, e) && id in FoldExecution(p, e).executions
    ensures id in p.executions ==>
      && FoldExecution(p, e).executions[id].root == p.executions[id].root
      && FoldExecution(p, e).executions[id].unit == p.executions[id].unit
    ensures id !in p.executions ==>
      && FoldExecution(p, e).executions[id].root == e.session && FoldExecution(p, e).executions[id].unit == e.unit
      && (e.kind.KindLane? || p.Known(e.session, e.unit))
  {
    hide Licensed, LinkedExecution, UnitShape, BudgetShape;
    if !e.kind.KindLease? && !e.kind.KindInputs? && id == e.dispatch {
      if id in p.executions { assert ExecutionShape(id, p.executions[id]); }
      LinkedNames(ExecutionOf(p, id), InputsOf(p, e.session, e.unit), e);
      if id !in p.executions { NewExecution(policy, p, e); }
    }
  }

  lemma LinkedNames(d: Execution, inputs: seq<int>, e: Entry)
    ensures var l := LinkedExecution(d, inputs, e);
            if (e.kind.KindExecution? || e.kind.KindLane?) && d.dispatch == "" then l.root == e.session && l.unit == e.unit
            else l.root == d.root && l.unit == d.unit
  {
  }

  lemma NewExecution(policy: Policy, p: Projection, e: Entry)
    requires ExecutionKind(e.kind) && Licensed(policy, p, e) && e.dispatch !in p.executions
    requires !e.kind.KindLease? && !e.kind.KindInputs?
    ensures e.kind.KindLane? || (e.kind.KindExecution? && p.Known(e.session, e.unit))
  {
  }

  lemma NumberedKept(policy: Policy, p: Projection, e: Entry, admissions: seq<string>, session: string, unit: string)
    requires Shape(p) && Valid(e) && Licensed(policy, p, e)
    requires Numbered(p, admissions, session, unit) && ExecutionsKnown(p, session, unit)
    ensures Numbered(Fold(p, e), admissions + if AdmissionOf(e, session, unit) then [e.attempt] else [], session, unit)
  {
    hide Fold, Valid, Licensed, ExecutionsKnown, Shape, Numbered;
    var q := Fold(p, e);
    assert admissions + [] == admissions;
    Lanes(e);
    if LifecycleKind(e) {
      FoldLife(p, e);
      if e.session == session && e.unit == unit {
        MoveNumbered(policy, p, e, admissions);
      } else {
        OtherUnitsStay(p, e, session, unit);
        SameNumbered(p, q, admissions, session, unit);
      }
    } else {
      if BudgetKind(e.kind) {
        FoldBudget(p, e);
      } else if ExecutionKind(e.kind) {
        FoldExec(p, e);
      } else {
        FoldAct(p, e);
      }
      SameNumbered(p, q, admissions, session, unit);
    }
  }

  lemma SameNumbered(p: Projection, q: Projection, admissions: seq<string>, session: string, unit: string)
    requires Numbered(p, admissions, session, unit)
    requires p.Known(session, unit) == q.Known(session, unit) && p.Unit(session, unit) == q.Unit(session, unit)
    ensures Numbered(q, admissions, session, unit)
  {
  }

  lemma MoveNumbered(policy: Policy, p: Projection, e: Entry, admissions: seq<string>)
    requires Shape(p) && LifecycleKind(e) && Licensed(policy, p, e)
    requires Numbered(p, admissions, e.session, e.unit) && ExecutionsKnown(p, e.session, e.unit)
    ensures Numbered(FoldLifecycle(p, e), admissions + if e.kind.KindAdmitted? then [e.attempt] else [], e.session, e.unit)
  {
    hide ExecutionsKnown, MovedSession, MovedExecutions, Licensed, MovedUnits, Shape, LifecycleKind, NextAttempt, Accepts, Print;
    MovedUnit(policy, p, e);
    if e.kind.KindAdmitted? {
      AdmissionAccepted(policy, p, e);
      AdmissionNotWithdrawn(policy, p, e);
      NextIsNumbered(p, admissions, e.session, e.unit);
    } else {
      assert admissions + [] == admissions;
    }
  }

  /** Only an admission changes whether and under which attempt a unit is
      admitted. */
  lemma MovedUnit(policy: Policy, p: Projection, e: Entry)
    requires Shape(p) && LifecycleKind(e) && Licensed(policy, p, e)
    ensures var key := UnitKey(e.session, e.unit);
            var u, was := p.Unit(e.session, e.unit), p.Known(e.session, e.unit) && Admitted(p.Unit(e.session, e.unit));
            var now := key in MovedUnits(p, e) && Admitted(MovedUnits(p, e)[key]);
            if e.kind.KindAdmitted? then now && MovedUnits(p, e)[key].attempt == e.attempt
            else now == was && (now ==> MovedUnits(p, e)[key].attempt == u.attempt)
  {
    var u := p.Unit(e.session, e.unit);
    if p.Known(e.session, e.unit) { assert UnitShape(UnitKey(e.session, e.unit), u); }
    if e.kind.KindAdmitted? { AdmissionAccepted(policy, p, e); }
  }

  lemma AdmissionNotWithdrawn(policy: Policy, p: Projection, e: Entry)
    requires e.kind.KindAdmitted? && Licensed(policy, p, e)
    ensures p.Unit(e.session, e.unit).state != StateWithdrawn
    ensures e.attempt == NextAttempt(p, e.session, e.unit)
  {
  }

  lemma {:induction false} LicensedNumbered(policy: Policy, history: seq<Entry>, session: string, unit: string)
    requires LicensedHistory(policy, history) && NoLane(history, session, unit)
    ensures Numbered(Project(history), Admissions(history, session, unit), session, unit)
    ensures ExecutionsKnown(Project(history), session, unit)
  {
    hide Numbered, ExecutionsKnown, Fold, Licensed, Valid, Shape;
    if history != [] {
      var n := |history| - 1;
      LastEntry(policy, history);
      assert NoLane(history[..n], session, unit);
      LicensedNumbered(policy, history[..n], session, unit);
      ExecutionsStayKnown(policy, Project(history[..n]), history[n], session, unit);
      NumberedKept(policy, Project(history[..n]), history[n], Admissions(history[..n], session, unit), session, unit);
    } else {
      NothingNumbered(session, unit);
    }
  }

  lemma NothingNumbered(session: string, unit: string)
    ensures Numbered(Empty, [], session, unit) && ExecutionsKnown(Empty, session, unit)
  {
  }

  /** Over every run, a unit whose name no maintenance lane shares is admitted
      under attempts 1, 2, 3, … without a gap: a denial spends none, and the
      identity stored as text reads back as the number it was. */
  lemma AttemptsAreConsecutive(policy: Policy, commands: seq<Command>, session: string, unit: string)
    requires NoLane(Execute(policy, commands), session, unit)
    ensures var admissions := Admissions(Execute(policy, commands), session, unit);
            && (forall i | 0 <= i < |admissions| :: admissions[i] == Print(i + 1) && AttemptNumber(admissions[i]) == i + 1)
            && (admissions != [] ==> Admitted(Reached(policy, commands).Unit(session, unit)))
            && (Admitted(Reached(policy, commands).Unit(session, unit)) ==>
                  AttemptNumber(Reached(policy, commands).Unit(session, unit).attempt) == |admissions|)
  {
    var h := Execute(policy, commands);
    RunIsLicensed(policy, commands);
    LicensedNumbered(policy, h, session, unit);
    var admissions := Admissions(h, session, unit);
    forall i | 0 <= i < |admissions| ensures AttemptNumber(admissions[i]) == i + 1 { ParsePrint(i + 1); }
    ParsePrint(|admissions|);
  }

  // ---- Recovery attempts ----

  /** Admissions recorded in a recovery's scope since it was last declared. */
  function ScopedAdmissions(history: seq<Entry>, session: string, objective: string): nat {
    if history == [] then 0
    else
      var n := |history| - 1;
      var e := history[n];
      if e.session == session && e.objective == objective && e.kind.KindRecoveryDeclared? then 0
      else ScopedAdmissions(history[..n], session, objective)
           + if e.session == session && e.objective == objective && e.kind.KindAdmitted? then 1 else 0
  }

  /** A spent attempt was admitted: its unit is, and at no earlier attempt. */
  predicate SpentBy(p: Projection, session: string, key: string, unit: string, n: int) {
    && n >= 1 && key == AttemptKey(unit, Print(n))
    && p.Known(session, unit) && Admitted(p.Unit(session, unit)) && n <= AttemptNumber(p.Unit(session, unit).attempt)
  }

  ghost predicate Spent(p: Projection, session: string, key: string) {
    exists unit, n :: SpentBy(p, session, key, unit, n)
  }

  ghost predicate Accounted(p: Projection, spent: nat, session: string, objective: string) {
    var r := p.Budgets(session).Recovery(objective);
    r.attempted.Some? ==> |r.attempted.value| == spent && forall key | key in r.attempted.value :: Spent(p, session, key)
  }

  lemma SpentStays(policy: Policy, p: Projection, e: Entry, session: string, key: string)
    requires Shape(p) && Licensed(policy, p, e) && Spent(p, session, key)
    ensures Spent(Fold(p, e), session, key)
  {
    hide Fold, Licensed, Shape;
    var unit, n :| SpentBy(p, session, key, unit, n);
    EntryEvolves(policy, p, e, UnitKey(session, unit));
    assert SpentBy(Fold(p, e), session, key, unit, n);
  }

  lemma PrintIsDecimal(n: int)
    requires n >= 0
    ensures IsDecimal(Print(n))
  {
  }

  /** An admission opens an attempt no recovery has counted yet. */
  lemma AdmissionIsFresh(policy: Policy, p: Projection, e: Entry)
    requires Shape(p) && e.kind.KindAdmitted? && Licensed(policy, p, e)
    ensures !Spent(p, e.session, AttemptKey(e.unit, e.attempt))
    ensures exists n :: n >= 1 && e.attempt == Print(n)
  {
    hide Licensed, Shape, Print, IsDecimal, AttemptKey;
    AdmissionAccepted(policy, p, e);
    AdmissionNotWithdrawn(policy, p, e);
    NextAttemptShape(p, e.session, e.unit);
    var m := AttemptNumber(e.attempt);
    forall unit, n | SpentBy(p, e.session, AttemptKey(e.unit, e.attempt), unit, n) ensures false {
      PrintIsDecimal(n);
      PrintIsDecimal(m);
      AttemptKeyInjective(e.unit, e.attempt, unit, Print(n));
      PrintInjective(m, n);
      NextIsLater(p, e.session, e.unit);
    }
  }

  lemma NextIsLater(p: Projection, session: string, unit: string)
    requires Shape(p) && p.Known(session, unit) && p.Unit(session, unit).state == StateSettled
    ensures AttemptNumber(NextAttempt(p, session, unit)) > AttemptNumber(p.Unit(session, unit).attempt)
  {
    var u := p.Unit(session, unit);
    assert UnitShape(UnitKey(session, unit), u);
    ParsePrint(AttemptNumber(u.attempt));
    ParsePrint(AttemptNumber(u.attempt) + 1);
  }

  lemma AdmittedIsSpent(policy: Policy, p: Projection, e: Entry)
    requires Shape(p) && Valid(e) && e.kind.KindAdmitted? && Licensed(policy, p, e)
    ensures Spent(Fold(p, e), e.session, AttemptKey(e.unit, e.attempt))
  {
    hide Fold, Licensed, Shape, Valid, MovedSession, MovedExecutions, MovedUnits, Print, AttemptKey, NextUnit, Spent;
    AdmissionAccepted(policy, p, e);
    AdmissionIsFresh(policy, p, e);
    FoldLife(p, e);
    AdmittedUnits(p, e);
    AdmittedAttempt(p.Unit(e.session, e.unit), e);
    var n :| n >= 1 && e.attempt == Print(n);
    ParsePrint(n);
    SpentWitness(Fold(p, e), e.session, AttemptKey(e.unit, e.attempt), e.unit, n);
  }

  lemma SpentWitness(p: Projection, session: string, key: string, unit: string, n: int)
    requires SpentBy(p, session, key, unit, n)
    ensures Spent(p, session, key)
  {
  }

  lemma AdmittedAttempt(u: Unit, e: Entry)
    requires e.kind.KindAdmitted?
    ensures NextUnit(u, e).attempt == e.attempt && Admitted(NextUnit(u, e))
  {
  }

  function SpentAfter(spent: nat, e: Entry, session: string, objective: string): nat {
    if e.session == session && e.objective == objective && e.kind.KindRecoveryDeclared? then 0
    else spent + if e.session == session && e.objective == objective && e.kind.KindAdmitted? then 1 else 0
  }

  lemma AccountedKept(policy: Policy, p: Projection, e: Entry, spent: nat, session: string, objective: string)
    requires Shape(p) && Valid(e) && Licensed(policy, p, e) && Accounted(p, spent, session, objective)
    requires objective != ""
    ensures Accounted(Fold(p, e), SpentAfter(spent, e, session, objective), session, objective)
  {
    hide Fold, Valid, Licensed, Spent;
    var q := Fold(p, e);
    var r := p.Budgets(session).Recovery(objective);
    RecoveryAfter(policy, p, e, session, objective);
    if r.attempted.Some? {
      forall key | key in r.attempted.value ensures Spent(q, session, key) { SpentStays(policy, p, e, session, key); }
    }
    if e.session == session && e.objective == objective && e.kind.KindAdmitted? && r.attempted.Some? {
      AdmissionIsFresh(policy, p, e);
      AdmittedIsSpent(policy, p, e);
      InsertCount(r.attempted.value, AttemptKey(e.unit, e.attempt));
    }
  }

  /** What one entry does to the attempts a recovery has counted. */
  lemma RecoveryAfter(policy: Policy, p: Projection, e: Entry, session: string, objective: string)
    requires Shape(p) && Valid(e) && Licensed(policy, p, e) && objective != ""
    ensures var r, s := p.Budgets(session).Recovery(objective), Fold(p, e).Budgets(session).Recovery(objective);
            if e.session == session && e.objective == objective && e.kind.KindRecoveryDeclared? then s.attempted == Some({})
            else if e.session == session && e.objective == objective && e.kind.KindAdmitted? && r.attempted.Some?
            then s.attempted == Some(r.attempted.value + {AttemptKey(e.unit, e.attempt)})
            else s.attempted == r.attempted
  {
    hide Fold, Valid, Licensed, Shape;
    Lanes(e);
    if LifecycleKind(e) {
      FoldLife(p, e);
      if e.session == session { MovedRecovery(policy, p, e, objective); }
    } else if BudgetKind(e.kind) {
      FoldBudget(p, e);
      if e.session == session { BudgetedRecovery(p.Budgets(session), e, objective); }
    } else if ExecutionKind(e.kind) {
      FoldExec(p, e);
    } else {
      FoldAct(p, e);
    }
  }

  lemma BudgetedRecovery(b: Budgets, e: Entry, objective: string)
    requires BudgetKind(e.kind)
    ensures Budgeted(b, e).Some?
    ensures Budgeted(b, e).value.Recovery(objective).attempted
         == if e.objective == objective && e.kind.KindRecoveryDeclared? then Some({}) else b.Recovery(objective).attempted
  {
  }

  lemma MovedRecovery(policy: Policy, p: Projection, e: Entry, objective: string)
    requires Shape(p) && LifecycleKind(e) && Licensed(policy, p, e) && objective != ""
    ensures var r, s := p.Budgets(e.session).Recovery(objective), MovedSession(p, e).Recovery(objective);
            s.attempted == if e.objective == objective && e.kind.KindAdmitted? && r.attempted.Some?
                           then Some(r.attempted.value + {AttemptKey(e.unit, e.attempt)}) else r.attempted
  {
    hide AdmittedBudgets;
    if e.kind.KindAdmitted? {
      AdmissionAccepted(policy, p, e);
      ShapeOfSession(p, e.session);
      AdmittedKeeps(p.Budgets(e.session), p.Known(e.session, e.unit), e);
    }
  }

  lemma {:induction false} LicensedAccounted(policy: Policy, history: seq<Entry>, session: string, objective: string)
    requires LicensedHistory(policy, history) && objective != ""
    ensures Accounted(Project(history), ScopedAdmissions(history, session, objective), session, objective)
  {
    hide Fold, Licensed, Valid, Shape, Accounted;
    if history != [] {
      var n := |history| - 1;
      LastEntry(policy, history);
      LicensedAccounted(policy, history[..n], session, objective);
      AccountedKept(policy, Project(history[..n]), history[n], ScopedAdmissions(history[..n], session, objective), session, objective);
    } else {
      NothingAccounted(session, objective);
    }
  }

  lemma NothingAccounted(session: string, objective: string)
    ensures Accounted(Empty, 0, session, objective)
  {
  }

  /** Over every run, a declared recovery has spent exactly one attempt for each
      admission recorded in its scope since its declaration, and never more
      than it declared plus what the user granted. */
  lemma AttemptsEqualScopedAdmissions(policy: Policy, commands: seq<Command>, session: string, objective: string)
    requires policy.Positive() && objective != ""
    ensures var r := Reached(policy, commands).Budgets(session).Recovery(objective);
            r.attempted.Some? ==>
              && |r.attempted.value| == ScopedAdmissions(Execute(policy, commands), session, objective)
              && |r.attempted.value| <= r.attempts + Reached(policy, commands).Budgets(session).Allowed(BoundRecoveryAttempts, objective)
  {
    RunIsLicensed(policy, commands);
    LicensedAccounted(policy, Execute(policy, commands), session, objective);
    BudgetsNeverExceeded(policy, commands, session, objective);
  }
}
