/** Concurrency safety and lifecycle: which entries move a unit, and that the
    slots in flight never exceed the ceiling a session may lift. */
module Slots {
  import opened Record
  import opened Replay
  import opened Protocol
  import opened Licensing
  import opened Runs

  // ---- Only admissions take slots ----

  /** The decision to admit is always accepted by replay, and takes exactly the
      one slot it names. */
  lemma AdmissionTakesOneSlot(policy: Policy, p: Projection, e: Entry)
    requires Shape(p) && Valid(e) && e.kind.KindAdmitted? && Licensed(policy, p, e)
    ensures UnitKey(e.session, e.unit) !in InFlightUnits(p)
    ensures InFlightUnits(Fold(p, e)) == InFlightUnits(p) + {UnitKey(e.session, e.unit)}
    ensures InFlight(Fold(p, e)) == InFlight(p) + 1
  {
    hide Fold, Licensed, Valid, Shape, MovedSession, MovedExecutions, MovedUnits, NextUnit, InFlightUnits;
    AdmissionAccepted(policy, p, e);
    FoldLife(p, e);
    AdmittedUnits(p, e);
    SlotTaken(p, Fold(p, e), UnitKey(e.session, e.unit), NextUnit(p.Unit(e.session, e.unit), e));
  }

  lemma SlotTaken(p: Projection, q: Projection, key: UnitKey, u: Unit)
    requires q.units == p.units[key := u] && u.state == StateInFlight
    requires key in p.units ==> p.units[key].state != StateInFlight
    ensures key !in InFlightUnits(p) && InFlightUnits(q) == InFlightUnits(p) + {key}
  {
  }

  lemma AdmittedUnits(p: Projection, e: Entry)
    requires e.kind.KindAdmitted? && Accepts(p.Unit(e.session, e.unit), p.Known(e.session, e.unit), e.kind)
    ensures MovedUnits(p, e) == p.units[UnitKey(e.session, e.unit) := NextUnit(p.Unit(e.session, e.unit), e)]
    ensures NextUnit(p.Unit(e.session, e.unit), e).state == StateInFlight
  {
    hide Prevails;
  }

  lemma AdmissionAccepted(policy: Policy, p: Projection, e: Entry)
    requires Shape(p) && e.kind.KindAdmitted? && Licensed(policy, p, e)
    ensures Accepts(p.Unit(e.session, e.unit), p.Known(e.session, e.unit), e.kind)
    ensures p.Unit(e.session, e.unit).state != StateInFlight
  {
    assert p.Known(e.session, e.unit) ==> UnitShape(UnitKey(e.session, e.unit), p.Unit(e.session, e.unit));
  }

  /** No other entry takes a slot. */
  lemma OthersTakeNoSlot(p: Projection, e: Entry)
    requires !e.kind.KindAdmitted?
    ensures InFlightUnits(Fold(p, e)) <= InFlightUnits(p)
  {
    hide Fold;
    Lanes(e);
    if LifecycleKind(e) {
      FoldLife(p, e);
    } else if BudgetKind(e.kind) {
      FoldBudget(p, e);
    } else if ExecutionKind(e.kind) {
      FoldExec(p, e);
    } else {
      FoldAct(p, e);
    }
  }

  lemma SubsetCount<T>(a: set<T>, b: set<T>)
    requires a <= b
    ensures |a| <= |b|
  {
    assert b == a + (b - a);
  }

  // ---- Allowances only grow ----

  lemma AllowanceGrows(p: Projection, e: Entry, session: string, bound: Bound, objective: string)
    requires Valid(e)
    ensures p.Budgets(session).Allowed(bound, objective) <= Fold(p, e).Budgets(session).Allowed(bound, objective)
  {
    hide Fold, Valid, Budgeted, MovedSession, MovedUnits, MovedExecutions, ExecutionKind, BudgetKind, LifecycleKind, ActivityOf, FoldExecution;
    Lanes(e);
    if LifecycleKind(e) {
      FoldLife(p, e);
      MoveKeepsAllowance(p, e);
    } else if BudgetKind(e.kind) {
      FoldBudget(p, e);
      GrantGrows(p.Budgets(e.session), e);
      assert Budgeted(p.Budgets(e.session), e).value.Allowed(bound, objective) >= p.Budgets(e.session).Allowed(bound, objective);
    } else if ExecutionKind(e.kind) {
      FoldExec(p, e);
    } else {
      FoldAct(p, e);
    }
  }

  lemma MoveKeepsAllowance(p: Projection, e: Entry)
    ensures MovedSession(p, e).allowance == p.Budgets(e.session).allowance
  {
    hide Accepts, ScopeOf, RoundOf;
  }

  lemma GrantGrows(b: Budgets, e: Entry)
    requires BudgetKind(e.kind) && Valid(e)
    ensures forall bound, objective :: Budgeted(b, e).value.Allowed(bound, objective) >= b.Allowed(bound, objective)
  {
    hide Valid, Budgeted;
    if e.kind.KindException? {
      GrantIsPositive(e);
      ExceptionGrants(b, e);
    } else {
      OthersGrantNothing(b, e);
    }
  }

  lemma GrantIsPositive(e: Entry)
    requires e.kind.KindException? && Valid(e)
    ensures e.allowance > 0
  {
  }

  lemma ExceptionGrants(b: Budgets, e: Entry)
    requires e.kind.KindException?
    ensures Budgeted(b, e).Some?
    ensures Budgeted(b, e).value.allowance
         == b.allowance[AllowanceKey(e.bound, e.objective) := b.Allowed(e.bound, e.objective) + e.allowance]
  {
    hide ExceptedRecovery;
  }

  lemma OthersGrantNothing(b: Budgets, e: Entry)
    requires BudgetKind(e.kind) && !e.kind.KindException?
    ensures Budgeted(b, e).Some? && Budgeted(b, e).value.allowance == b.allowance
  {
    hide ClosedRecovery, DeclaredRecovery, RefSeq, AttemptKey;
  }

  // ---- The ceiling ----

  predicate LiftsTo(policy: Policy, p: Projection, session: string) {
    InFlight(p) <= policy.specialists + p.Budgets(session).Allowed(BoundConcurrency, "")
  }

  /** The slots held across all sessions fit the ceiling some session may reach. */
  ghost predicate WithinCeiling(policy: Policy, p: Projection) {
    InFlight(p) == 0 || exists session :: LiftsTo(policy, p, session)
  }

  lemma CeilingKept(policy: Policy, p: Projection, e: Entry)
    requires Shape(p) && WithinCeiling(policy, p) && Valid(e) && Licensed(policy, p, e)
    ensures WithinCeiling(policy, Fold(p, e))
  {
    hide Fold, Licensed, Valid, Shape;
    var q := Fold(p, e);
    if e.kind.KindAdmitted? {
      AdmissionTakesOneSlot(policy, p, e);
      SlotWasFree(policy, p, e);
      AllowanceGrows(p, e, e.session, BoundConcurrency, "");
      assert LiftsTo(policy, q, e.session);
    } else {
      OthersTakeNoSlot(p, e);
      SubsetCount(InFlightUnits(q), InFlightUnits(p));
      if InFlight(p) > 0 {
        var session :| LiftsTo(policy, p, session);
        AllowanceGrows(p, e, session, BoundConcurrency, "");
        assert LiftsTo(policy, q, session);
      }
    }
  }

  lemma SlotWasFree(policy: Policy, p: Projection, e: Entry)
    requires e.kind.KindAdmitted? && Licensed(policy, p, e)
    ensures InFlight(p) < policy.specialists + p.Budgets(e.session).Allowed(BoundConcurrency, "")
  {
    hide NextAttempt, ScopeOf, RoundOf, InFlight;
  }

  lemma {:induction false} LicensedCeiling(policy: Policy, history: seq<Entry>)
    requires LicensedHistory(policy, history)
    ensures WithinCeiling(policy, Project(history))
  {
    hide Fold, Licensed, Valid, Shape;
    if history != [] {
      var n := |history| - 1;
      LastEntry(policy, history);
      LicensedCeiling(policy, history[..n]);
      CeilingKept(policy, Project(history[..n]), history[n]);
    } else {
      assert InFlightUnits(Empty) == {};
    }
  }

  /** In every state a run reaches, across all sessions, the admitted units fit
      the specialist ceiling plus the concurrency allowance of one session. */
  lemma ConcurrencySafety(policy: Policy, commands: seq<Command>)
    ensures InFlight(Reached(policy, commands)) == 0
            || exists session :: InFlight(Reached(policy, commands))
                 <= policy.specialists + Reached(policy, commands).Budgets(session).Allowed(BoundConcurrency, "")
  {
    hide Execute, Project, LicensedHistory;
    RunIsLicensed(policy, commands);
    LicensedCeiling(policy, Execute(policy, commands));
    var p := Reached(policy, commands);
    if InFlight(p) > 0 {
      var session :| LiftsTo(policy, p, session);
    }
  }
}
