/** How one unit may change over any stretch of a run, and how uncovered work is
    counted. */
module Lifecycle {
  import opened Decimal
  import opened Record
  import opened Replay
  import opened Protocol
  import opened Licensing
  import opened Runs
  import opened Slots
  import opened Budgeting

  // ---- One unit over time ----

  predicate Admitted(u: Unit) {
    u.state == StateInFlight || u.state == StateSettled
  }

  /** Withdrawn is absorbing, planned is never re-entered, coverage is fixed at
      first sight, contract and prerequisites from the first admission on, and
      attempts only advance. */
  predicate Evolves(u: Unit, v: Unit) {
    && (u.state == StateWithdrawn ==> v == u)
    && (u.state != StatePlanned ==> v.state != StatePlanned)
    && v.committed == u.committed
    && (Admitted(u) ==> Admitted(v) && v.contract == u.contract && v.prerequisites == u.prerequisites)
    && AttemptNumber(u.attempt) <= AttemptNumber(v.attempt)
  }

  lemma MoveEvolves(policy: Policy, p: Projection, e: Entry)
    requires Shape(p) && LifecycleKind(e) && !e.kind.KindResult? && Licensed(policy, p, e)
    requires p.Known(e.session, e.unit) && Accepts(p.Unit(e.session, e.unit), true, e.kind)
    ensures Evolves(p.Unit(e.session, e.unit), NextUnit(p.Unit(e.session, e.unit), e))
  {
    var u := p.Unit(e.session, e.unit);
    assert UnitShape(UnitKey(e.session, e.unit), u);
    if e.kind.KindAdmitted? {
      ParsePrint(AttemptNumber(u.attempt));
      PrintedAttempt(AttemptNumber(u.attempt) + 1);
    }
  }

  lemma EntryEvolves(policy: Policy, p: Projection, e: Entry, k: UnitKey)
    requires Shape(p) && Licensed(policy, p, e) && k in p.units
    ensures k in Fold(p, e).units && Evolves(p.units[k], Fold(p, e).units[k])
  {
    hide Fold, Licensed, Evolves, Accepts, NextUnit, Shape, Budgeted, MovedSession, MovedUnits, MovedExecutions,
         ExecutionKind, BudgetKind, LifecycleKind, ActivityOf, FoldExecution;
    assert Evolves(p.units[k], p.units[k]) by { StaysEvolves(p.units[k]); }
    Lanes(e);
    if LifecycleKind(e) {
      FoldLife(p, e);
      if k == UnitKey(e.session, e.unit) { OwnEvolves(policy, p, e); } else { OtherUnitStays(p, e, k); }
    } else if BudgetKind(e.kind) {
      FoldBudget(p, e);
    } else if ExecutionKind(e.kind) {
      FoldExec(p, e);
    } else {
      FoldAct(p, e);
    }
  }

  lemma OtherUnitStays(p: Projection, e: Entry, k: UnitKey)
    requires k != UnitKey(e.session, e.unit) && k in p.units
    ensures k in MovedUnits(p, e) && MovedUnits(p, e)[k] == p.units[k]
  {
    hide Accepts, NextUnit, Prevails;
  }

  lemma StaysEvolves(u: Unit)
    ensures Evolves(u, u)
  {
  }

  lemma OwnEvolves(policy: Policy, p: Projection, e: Entry)
    requires Shape(p) && LifecycleKind(e) && Licensed(policy, p, e) && p.Known(e.session, e.unit)
    ensures UnitKey(e.session, e.unit) in MovedUnits(p, e)
    ensures Evolves(p.Unit(e.session, e.unit), MovedUnits(p, e)[UnitKey(e.session, e.unit)])
  {
    hide Licensed, NextUnit;
    if Accepts(p.Unit(e.session, e.unit), true, e.kind) && !e.kind.KindResult? { MoveEvolves(policy, p, e); }
  }

  lemma {:induction false} LicensedEvolves(policy: Policy, history: seq<Entry>, n: nat, k: UnitKey)
    requires LicensedHistory(policy, history) && n <= |history| && k in Project(history[..n]).units
    ensures k in Project(history).units && Evolves(Project(history[..n]).units[k], Project(history).units[k])
    decreases |history|
  {
    hide Project, Evolves, Licensed, LicensedHistory, Shape;
    var m := |history| - 1;
    if n <= m {
      LastEntry(policy, history);
      var p, q, r := Project(history[..n]), Project(history[..m]), Project(history);
      assert history[..m][..n] == history[..n];
      LicensedEvolves(policy, history[..m], n, k);
      EntryEvolves(policy, q, history[m], k);
      EvolvesOn(p.units[k], q.units[k], r.units[k]);
    } else {
      assert history[..n] == history;
      StaysEvolves(Project(history).units[k]);
    }
  }

  lemma EvolvesOn(u: Unit, v: Unit, w: Unit)
    requires Evolves(u, v) && Evolves(v, w)
    ensures Evolves(u, w)
  {
  }

  lemma {:induction false} ExecuteExtends(policy: Policy, commands: seq<Command>, more: seq<Command>)
    ensures |Execute(policy, commands)| <= |Execute(policy, commands + more)|
    ensures Execute(policy, commands + more)[..|Execute(policy, commands)|] == Execute(policy, commands)
  {
    hide Effect;
    if more == [] {
      assert commands + more == commands;
    } else {
      var n := |more| - 1;
      ExecuteExtends(policy, commands, more[..n]);
      assert (commands + more)[..|commands + more| - 1] == commands + more[..n];
    }
  }

  /** Over any stretch of any run, a unit once known stays known and only
      evolves. */
  lemma LifecycleOverRuns(policy: Policy, commands: seq<Command>, more: seq<Command>, session: string, unit: string)
    requires Reached(policy, commands).Known(session, unit)
    ensures Reached(policy, commands + more).Known(session, unit)
    ensures Evolves(Reached(policy, commands).Unit(session, unit), Reached(policy, commands + more).Unit(session, unit))
  {
    var h, h' := Execute(policy, commands), Execute(policy, commands + more);
    ExecuteExtends(policy, commands, more);
    RunIsLicensed(policy, commands + more);
    LicensedEvolves(policy, h', |h|, UnitKey(session, unit));
  }

  // ---- Uncovered work is counted once per unit, and never given back ----

  function UncoveredUnits(p: Projection, session: string): set<UnitKey> {
    set k | k in p.units && k.session == session && !p.units[k].committed
  }

  ghost predicate Conserved(p: Projection) {
    forall s :: p.Budgets(s).unplanned == |UncoveredUnits(p, s)|
  }

  lemma ConservedKept(policy: Policy, p: Projection, e: Entry)
    requires Shape(p) && Conserved(p) && Valid(e) && Licensed(policy, p, e)
    ensures Conserved(Fold(p, e))
  {
    hide Fold, Valid, Licensed, UncoveredUnits, Shape;
    forall s ensures Fold(p, e).Budgets(s).unplanned == |UncoveredUnits(Fold(p, e), s)| {
      assert p.Budgets(s).unplanned == |UncoveredUnits(p, s)|;
      SessionConserves(policy, p, e, s);
    }
  }

  lemma SessionConserves(policy: Policy, p: Projection, e: Entry, s: string)
    requires Shape(p) && Valid(e) && Licensed(policy, p, e)
    requires p.Budgets(s).unplanned == |UncoveredUnits(p, s)|
    ensures Fold(p, e).Budgets(s).unplanned == |UncoveredUnits(Fold(p, e), s)|
  {
    hide Fold, Valid, Licensed, Shape;
    Lanes(e);
    if LifecycleKind(e) {
      FoldLife(p, e);
      MoveConserves(policy, p, e, s);
    } else if BudgetKind(e.kind) {
      FoldBudget(p, e);
      AccountingKeepsUnplanned(p.Budgets(e.session), e);
    } else if ExecutionKind(e.kind) {
      FoldExec(p, e);
    } else {
      FoldAct(p, e);
    }
  }

  lemma AccountingKeepsUnplanned(b: Budgets, e: Entry)
    requires BudgetKind(e.kind)
    ensures Budgeted(b, e).Some? && Budgeted(b, e).value.unplanned == b.unplanned
  {
  }

  lemma MoveConserves(policy: Policy, p: Projection, e: Entry, s: string)
    requires Shape(p) && LifecycleKind(e) && Licensed(policy, p, e)
    requires p.Budgets(s).unplanned == |UncoveredUnits(p, s)|
    ensures FoldLifecycle(p, e).Budgets(s).unplanned == |UncoveredUnits(FoldLifecycle(p, e), s)|
  {
    hide Licensed, MovedUnits, MovedSession, Shape, UncoveredUnits, MovedExecutions;
    var q := FoldLifecycle(p, e);
    MovedCoverage(policy, p, e);
    MovedCount(policy, p, e);
    CoverageDelta(p, q, e, s);
  }

  lemma CoverageDelta(p: Projection, q: Projection, e: Entry, s: string)
    requires var key := UnitKey(e.session, e.unit);
             && (forall k | k in p.units :: k in q.units && q.units[k].committed == p.units[k].committed)
             && (forall k | k in q.units && k !in p.units :: k == key)
             && (key !in p.units && key in q.units ==> q.units[key].committed == !e.kind.KindAdmitted?)
             && (e.kind.KindAdmitted? ==> key in q.units)
    ensures |UncoveredUnits(q, s)|
         == |UncoveredUnits(p, s)| + if e.session == s && e.kind.KindAdmitted? && !p.Known(e.session, e.unit) then 1 else 0
  {
    var key := UnitKey(e.session, e.unit);
    if e.session == s && e.kind.KindAdmitted? && !p.Known(e.session, e.unit) {
      assert UncoveredUnits(q, s) == UncoveredUnits(p, s) + {key};
      InsertCount(UncoveredUnits(p, s), key);
    } else {
      assert UncoveredUnits(q, s) == UncoveredUnits(p, s);
    }
  }

  /** Only the admission of a unit never seen before adds uncovered work. */
  lemma MovedCoverage(policy: Policy, p: Projection, e: Entry)
    requires Shape(p) && LifecycleKind(e) && Licensed(policy, p, e)
    ensures var units, key := MovedUnits(p, e), UnitKey(e.session, e.unit);
            && (forall k | k in p.units :: k in units && units[k].committed == p.units[k].committed)
            && (forall k | k in units && k !in p.units :: k == key)
            && (key !in p.units && key in units ==> units[key].committed == !e.kind.KindAdmitted?)
            && (e.kind.KindAdmitted? ==> key in units)
  {
    hide Licensed;
    if e.kind.KindAdmitted? { AdmissionAccepted(policy, p, e); }
    if p.Known(e.session, e.unit) { OwnEvolves(policy, p, e); }
  }

  lemma MovedCount(policy: Policy, p: Projection, e: Entry)
    requires Shape(p) && LifecycleKind(e) && Licensed(policy, p, e)
    ensures MovedSession(p, e).unplanned
         == p.Budgets(e.session).unplanned + if e.kind.KindAdmitted? && !p.Known(e.session, e.unit) then 1 else 0
  {
    if e.kind.KindAdmitted? {
      AdmissionAccepted(policy, p, e);
      ShapeOfSession(p, e.session);
      AdmittedKeeps(p.Budgets(e.session), p.Known(e.session, e.unit), e);
    }
  }

  lemma {:induction false} LicensedConserves(policy: Policy, history: seq<Entry>)
    requires LicensedHistory(policy, history)
    ensures Conserved(Project(history))
  {
    if history != [] {
      LastEntry(policy, history);
      var n := |history| - 1;
      LicensedConserves(policy, history[..n]);
      ConservedKept(policy, Project(history[..n]), history[n]);
    } else {
      forall s ensures Empty.Budgets(s).unplanned == |UncoveredUnits(Empty, s)| { assert UncoveredUnits(Empty, s) == {}; }
    }
  }

  /** The uncovered count is the number of units no commitment declared, it never
      goes down over a run, and it stays inside the policy bound plus what the
      user granted. */
  lemma UncoveredWorkConserved(policy: Policy, commands: seq<Command>, more: seq<Command>, session: string)
    requires policy.Positive()
    ensures var p, q := Reached(policy, commands), Reached(policy, commands + more);
            && p.Budgets(session).unplanned == |UncoveredUnits(p, session)|
            && UncoveredUnits(p, session) <= UncoveredUnits(q, session)
            && p.Budgets(session).unplanned <= q.Budgets(session).unplanned
            && q.Budgets(session).unplanned <= policy.unplannedUnits + q.Budgets(session).Allowed(BoundUnplanned, "")
  {
    hide Reached;
    var p, q := Reached(policy, commands), Reached(policy, commands + more);
    RunConserves(policy, commands);
    RunConserves(policy, commands + more);
    forall k | k in UncoveredUnits(p, session) ensures k in UncoveredUnits(q, session) {
      LifecycleOverRuns(policy, commands, more, k.session, k.unit);
      assert UnitKey(k.session, k.unit) == k;
    }
    SubsetCount(UncoveredUnits(p, session), UncoveredUnits(q, session));
    BudgetsNeverExceeded(policy, commands + more, session, "");
  }

  lemma RunConserves(policy: Policy, commands: seq<Command>)
    ensures Conserved(Reached(policy, commands))
  {
    RunIsLicensed(policy, commands);
    LicensedConserves(policy, Execute(policy, commands));
  }
}
