/** Every session's consumption stays inside its ceilings plus the allowance
    recorded for it, and declared scopes and rounds never overlap. */
module Budgeting {
  import opened Decimal
  import opened Record
  import opened Replay
  import opened Protocol
  import opened Licensing
  import opened Runs
  import opened Slots

  // ---- What always holds of a session ----

  /** At most one unresolved recovery governs a unit. */
  ghost predicate ScopesDisjoint(b: Budgets) {
    forall o1, o2, w | b.InScope(o1, w) && b.InScope(o2, w) :: o1 == o2
  }

  /** At most one round holds a unit. */
  ghost predicate RoundsDisjoint(b: Budgets) {
    forall v1, v2, w | b.InRound(v1, w) && b.InRound(v2, w) :: v1 == v2
  }

  /** The scopes and rounds of a session are disjoint and its accounting is in
      shape. */
  ghost predicate Sound(b: Budgets) {
    BudgetShape(b) && ScopesDisjoint(b) && RoundsDisjoint(b)
  }

  predicate RecoveryBounded(policy: Policy, b: Budgets, o: string) {
    var r := b.Recovery(o);
    var ceiling := policy.recoveryFailures + b.Allowed(BoundRecovery, o);
    && r.failures <= ceiling
    && (r.open ==> r.failures < ceiling)
    && (r.attempted.Some? ==> |r.attempted.value| <= r.attempts + b.Allowed(BoundRecoveryAttempts, o))
    && r.attempts >= 0
  }

  predicate RoundsBounded(policy: Policy, b: Budgets, objective: string) {
    StrengtheningUsed(b, objective) <= policy.maxAttempts + b.Allowed(BoundQARounds, objective)
  }

  predicate CountsBounded(policy: Policy, b: Budgets) {
    && |b.contests| <= policy.contests + b.Allowed(BoundContests, "")
    && b.unplanned <= policy.unplannedUnits + b.Allowed(BoundUnplanned, "")
  }

  ghost predicate AllowancesGranted(b: Budgets) {
    forall key | key in b.allowance :: b.allowance[key] >= 0
  }

  ghost predicate SessionSafe(policy: Policy, b: Budgets) {
    && ScopesDisjoint(b) && RoundsDisjoint(b) && AllowancesGranted(b) && CountsBounded(policy, b)
    && (forall o :: RecoveryBounded(policy, b, o))
    && (forall o :: RoundsBounded(policy, b, o))
  }

  // ---- Accounting entries ----

  ghost predicate BudgetLicense(policy: Policy, b: Budgets, e: Entry) {
    && BudgetShape(b) && BudgetKind(e.kind) && Valid(e)
    && match e.kind
       case KindContested => ContestLicense(policy, b)
       case KindQARound => RoundLicense(b, e)
       case KindRecoveryDeclared => RecoveryLicense(policy, b, e)
       case KindRecoveryClosed | KindActions | KindActionsUncertain => b.Recovery(e.objective).open
       case KindRestored => b.Recovery(e.objective).backtracked && !b.Recovery(e.objective).open
       case KindException => !ExceptionRefused(b, e.bound, e.objective)
       case _ => true
  }

  lemma ScopesStayDisjoint(policy: Policy, b: Budgets, e: Entry)
    requires BudgetLicense(policy, b, e) && ScopesDisjoint(b)
    ensures ScopesDisjoint(Budgeted(b, e).value)
  {
    var c := Budgeted(b, e).value;
    if e.kind.KindRecoveryDeclared? {
      forall o, w | w in e.scope ensures !b.InScope(o, w) {
        var i :| 0 <= i < |e.scope| && e.scope[i] == w;
        assert !ScopeTaken(b, e.scope);
        assert !(o in b.recoveries && b.InScope(o, e.scope[i]));
      }
      forall o1, o2, w | c.InScope(o1, w) && c.InScope(o2, w) ensures o1 == o2 {
        if o1 != e.objective { assert b.InScope(o1, w); }
        if o2 != e.objective { assert b.InScope(o2, w); }
      }
    } else {
      forall o, w | c.InScope(o, w) ensures b.InScope(o, w) { ScopeNotNew(policy, b, e, o, w); }
    }
  }

  /** Closing, accounting, abandoning, lifting and restoring never bring a new
      unit under a recovery. */
  lemma ScopeNotNew(policy: Policy, b: Budgets, e: Entry, o: string, w: string)
    requires BudgetLicense(policy, b, e) && !e.kind.KindRecoveryDeclared?
    requires Budgeted(b, e).value.InScope(o, w)
    ensures b.InScope(o, w)
  {
  }

  lemma RoundsStayDisjoint(policy: Policy, b: Budgets, e: Entry)
    requires BudgetLicense(policy, b, e) && RoundsDisjoint(b)
    ensures RoundsDisjoint(Budgeted(b, e).value)
  {
    var c := Budgeted(b, e).value;
    if e.kind.KindQARound? {
      forall v1, v2, w | c.InRound(v1, w) && c.InRound(v2, w) ensures v1 == v2 {
        if v1 != e.planVersion { assert b.InRound(v1, w); }
        if v2 != e.planVersion { assert b.InRound(v2, w); }
      }
    } else {
      assert c.qaRounds == b.qaRounds;
      assert forall v, w :: c.InRound(v, w) == b.InRound(v, w);
    }
  }

  lemma RecoveriesStayBounded(policy: Policy, b: Budgets, e: Entry, o: string)
    requires policy.Positive() && BudgetLicense(policy, b, e) && AllowancesGranted(b)
    requires RecoveryBounded(policy, b, o)
    ensures RecoveryBounded(policy, Budgeted(b, e).value, o)
  {
    var c := Budgeted(b, e).value;
    GrantGrows(b, e);
    assert c.Allowed(BoundRecovery, o) >= b.Allowed(BoundRecovery, o) >= 0;
    assert c.Allowed(BoundRecoveryAttempts, o) >= b.Allowed(BoundRecoveryAttempts, o) >= 0;
    if o == e.objective {
      assert RecoveryShape(b.Recovery(o));
      RecoveryStep(policy, b, e);
    } else {
      assert c.Recovery(o) == b.Recovery(o);
    }
  }

  /** One accounting entry's effect on the recovery it names. */
  lemma RecoveryStep(policy: Policy, b: Budgets, e: Entry)
    requires policy.Positive() && BudgetLicense(policy, b, e) && RecoveryBounded(policy, b, e.objective)
    requires RecoveryShape(b.Recovery(e.objective))
    requires b.Allowed(BoundRecovery, e.objective) >= 0
    ensures var r, s := b.Recovery(e.objective), Budgeted(b, e).value.Recovery(e.objective);
            var ceiling := policy.recoveryFailures + b.Allowed(BoundRecovery, e.objective);
            && s.failures <= ceiling && (s.open ==> s.failures < ceiling)
            && s.attempts >= 0
            && ((s.attempted == r.attempted && s.attempts == r.attempts) || s.attempted == Some({}))
  {
    hide RefSeq, AttemptKey, ScopeTaken, Valid;
    if e.kind.KindException? {
    } else if e.kind.KindRecoveryDeclared? {
    } else if e.kind.KindRecoveryClosed? {
    } else {
    }
  }

  lemma RoundsStayBounded(policy: Policy, b: Budgets, e: Entry, o: string)
    requires BudgetLicense(policy, b, e) && RoundsBounded(policy, b, o)
    ensures RoundsBounded(policy, Budgeted(b, e).value, o)
  {
    GrantGrows(b, e);
    var c := Budgeted(b, e).value;
    assert StartedRounds(c, o) == StartedRounds(b, o);
  }

  lemma CountsStayBounded(policy: Policy, b: Budgets, e: Entry)
    requires BudgetLicense(policy, b, e) && CountsBounded(policy, b)
    ensures CountsBounded(policy, Budgeted(b, e).value)
  {
    GrantGrows(b, e);
    var c := Budgeted(b, e).value;
    assert c.unplanned == b.unplanned;
    if e.kind.KindContested? {
      InsertCount(b.contests, AttemptKey(e.unit, e.attempt));
    } else {
      assert c.contests == b.contests;
    }
  }

  lemma InsertCount<T>(s: set<T>, x: T)
    ensures |s + {x}| <= |s| + 1
    ensures x !in s ==> |s + {x}| == |s| + 1
  {
    if x in s { assert s + {x} == s; }
  }

  lemma GrantsStay(policy: Policy, b: Budgets, e: Entry)
    requires BudgetLicense(policy, b, e) && AllowancesGranted(b)
    ensures AllowancesGranted(Budgeted(b, e).value)
  {
    if e.kind.KindException? {
      assert b.Allowed(e.bound, e.objective) >= 0;
    } else {
      assert Budgeted(b, e).value.allowance == b.allowance;
    }
  }

  lemma CarriesAccounting(policy: Policy, b: Budgets, e: Entry)
    requires BudgetLicense(policy, b, e)
    ensures Budgeted(b, e).Some?
  {
  }

  lemma BudgetedSafe(policy: Policy, b: Budgets, e: Entry)
    requires policy.Positive() && BudgetLicense(policy, b, e) && SessionSafe(policy, b)
    ensures SessionSafe(policy, Budgeted(b, e).value)
  {
    hide BudgetLicense, Budgeted, ScopesDisjoint, RoundsDisjoint, AllowancesGranted, CountsBounded, RecoveryBounded, RoundsBounded;
    CarriesAccounting(policy, b, e);
    ScopesStayDisjoint(policy, b, e);
    RoundsStayDisjoint(policy, b, e);
    CountsStayBounded(policy, b, e);
    GrantsStay(policy, b, e);
    forall o ensures RecoveryBounded(policy, Budgeted(b, e).value, o) { RecoveriesStayBounded(policy, b, e, o); }
    forall o ensures RoundsBounded(policy, Budgeted(b, e).value, o) { RoundsStayBounded(policy, b, e, o); }
  }

  // ---- Admissions ----

  /** What an admission spends, given the decision that let it through. */
  ghost predicate Admissible(policy: Policy, b: Budgets, known: bool, e: Entry) {
    var version, r := QARoundFor(b, e.unit), b.Recovery(e.objective);
    && e.objective == Scope(b, e.unit)
    && (!known ==> b.unplanned < policy.unplannedUnits + b.Allowed(BoundUnplanned, ""))
    && (version != "" && version in b.qaRounds && !b.qaRounds[version].started ==>
          StrengtheningUsed(b, b.qaRounds[version].round.objective)
            < policy.maxAttempts + b.Allowed(BoundQARounds, b.qaRounds[version].round.objective))
    && (e.objective != "" && r.attempted.Some? ==>
          |r.attempted.value| < r.attempts + b.Allowed(BoundRecoveryAttempts, e.objective))
  }

  lemma LicenseAdmits(policy: Policy, p: Projection, e: Entry)
    requires e.kind.KindAdmitted? && Licensed(policy, p, e)
    ensures Admissible(policy, p.Budgets(e.session), p.Known(e.session, e.unit), e)
  {
  }

  lemma RoundStartedSafe(policy: Policy, b: Budgets, unit: string, o: string)
    requires RoundsBounded(policy, b, o)
    requires var version := QARoundFor(b, unit);
             version != "" && version in b.qaRounds && !b.qaRounds[version].started ==>
               StrengtheningUsed(b, b.qaRounds[version].round.objective)
                 < policy.maxAttempts + b.Allowed(BoundQARounds, b.qaRounds[version].round.objective)
    ensures RoundsBounded(policy, RoundStarted(b, unit), o)
  {
    var version := QARoundFor(b, unit);
    if version != "" && version in b.qaRounds && b.qaRounds[version].round.objective == o {
      assert StartedRounds(RoundStarted(b, unit), o) == StartedRounds(b, o) + {version};
      if b.qaRounds[version].started {
        assert StartedRounds(b, o) + {version} == StartedRounds(b, o);
      } else {
        InsertCount(StartedRounds(b, o), version);
      }
    } else {
      assert StartedRounds(RoundStarted(b, unit), o) == StartedRounds(b, o);
    }
  }

  /** Everything but the started round and the spent attempt is as it was. */
  lemma AdmittedKeeps(b: Budgets, known: bool, e: Entry)
    requires BudgetShape(b) && e.objective == Scope(b, e.unit)
    ensures var c := AdmittedBudgets(b, known, e);
            && c.allowance == b.allowance && c.contests == b.contests && c.holder == b.holder
            && c.unplanned == (if known then b.unplanned else b.unplanned + 1)
            && c.qaRounds == RoundStarted(b, e.unit).qaRounds
            && c.recoveries == AttemptSpent(b, e).recoveries
  {
    var d := if known then b else b.(unplanned := b.unplanned + 1);
    assert RoundStarted(d, e.unit).qaRounds == RoundStarted(b, e.unit).qaRounds;
    assert RoundStarted(d, e.unit).recoveries == b.recoveries;
  }

  lemma SpentKeepsScopes(b: Budgets, e: Entry)
    requires BudgetShape(b) && e.objective == Scope(b, e.unit)
    ensures forall o, w :: Governs(AttemptSpent(b, e).recoveries, o, w) == Governs(b.recoveries, o, w)
    ensures forall o | o != e.objective || o == "" :: AttemptSpent(b, e).Recovery(o) == b.Recovery(o)
  {
    if e.objective != "" { assert Governs(b.recoveries, e.objective, e.unit); }
  }

  lemma StartedKeepsRounds(b: Budgets, unit: string)
    ensures forall v, w :: HoldsUnit(RoundStarted(b, unit).qaRounds, v, w) == HoldsUnit(b.qaRounds, v, w)
  {
  }

  lemma AdmittedSafe(policy: Policy, b: Budgets, known: bool, e: Entry)
    requires BudgetShape(b) && SessionSafe(policy, b) && Admissible(policy, b, known, e)
    ensures SessionSafe(policy, AdmittedBudgets(b, known, e))
  {
    hide AdmittedBudgets, RoundStarted, AttemptSpent;
    var c := AdmittedBudgets(b, known, e);
    AdmittedKeeps(b, known, e);
    SpentKeepsScopes(b, e);
    StartedKeepsRounds(b, e.unit);
    assert ScopesDisjoint(c) by { assert forall o, w :: c.InScope(o, w) == b.InScope(o, w); }
    assert RoundsDisjoint(c) by { assert forall v, w :: c.InRound(v, w) == b.InRound(v, w); }
    forall o ensures RecoveryBounded(policy, c, o) { SpentBounded(policy, b, known, e, o); }
    forall o ensures RoundsBounded(policy, c, o) {
      RoundStartedSafe(policy, b, e.unit, o);
      assert StartedRounds(c, o) == StartedRounds(RoundStarted(b, e.unit), o);
      RoundKeepsAllowance(b, e.unit);
    }
  }

  lemma SpentBounded(policy: Policy, b: Budgets, known: bool, e: Entry, o: string)
    requires BudgetShape(b) && SessionSafe(policy, b) && Admissible(policy, b, known, e)
    ensures RecoveryBounded(policy, AdmittedBudgets(b, known, e), o)
  {
    hide AdmittedBudgets;
    var c := AdmittedBudgets(b, known, e);
    AdmittedKeeps(b, known, e);
    SpentKeepsScopes(b, e);
    assert RecoveryBounded(policy, b, o);
    assert c.Recovery(o) == AttemptSpent(b, e).Recovery(o);
    if o == e.objective && o != "" && b.Recovery(o).attempted.Some? {
      InsertCount(b.Recovery(o).attempted.value, AttemptKey(e.unit, e.attempt));
    }
  }

  lemma RoundKeepsAllowance(b: Budgets, unit: string)
    ensures RoundStarted(b, unit).allowance == b.allowance
  {
  }

  // ---- Every session, every state ----

  ghost predicate AllSafe(policy: Policy, p: Projection) {
    forall s | s in p.sessions :: SessionSafe(policy, p.sessions[s])
  }

  lemma FreshSessionSafe(policy: Policy)
    requires policy.Positive()
    ensures SessionSafe(policy, NoBudgets)
  {
    forall o ensures RoundsBounded(policy, NoBudgets, o) { assert StartedRounds(NoBudgets, o) == {}; }
  }

  lemma SafeKept(policy: Policy, p: Projection, e: Entry)
    requires policy.Positive() && Shape(p) && AllSafe(policy, p) && Valid(e) && Licensed(policy, p, e)
    ensures AllSafe(policy, Fold(p, e))
  {
    hide Fold, SessionSafe, Valid, BudgetShape, Licensed, BudgetLicense, Shape, Budgeted, MovedSession, MovedUnits, MovedExecutions,
         ExecutionKind, BudgetKind, LifecycleKind, ActivityOf, FoldExecution;
    assert BudgetShape(p.Budgets(e.session)) by { ShapeOfSession(p, e.session); }
    var b := p.Budgets(e.session);
    FreshSessionSafe(policy);
    assert SessionSafe(policy, b) && BudgetShape(b);
    Lanes(e);
    if LifecycleKind(e) {
      FoldLife(p, e);
      MovedSessionSafe(policy, p, e);
    } else if BudgetKind(e.kind) {
      FoldBudget(p, e);
      LicenseForBudget(policy, p, e);
      BudgetedSafe(policy, b, e);
    } else if ExecutionKind(e.kind) {
      FoldExec(p, e);
    } else {
      FoldAct(p, e);
    }
  }

  lemma ShapeOfSession(p: Projection, session: string)
    requires Shape(p)
    ensures BudgetShape(p.Budgets(session))
  {
  }

  lemma LicenseForBudget(policy: Policy, p: Projection, e: Entry)
    requires Shape(p) && BudgetKind(e.kind) && Valid(e) && Licensed(policy, p, e)
    ensures BudgetLicense(policy, p.Budgets(e.session), e)
  {
    hide Valid;
    assert BudgetShape(p.Budgets(e.session));
  }

  lemma MovedSessionSafe(policy: Policy, p: Projection, e: Entry)
    requires Shape(p) && LifecycleKind(e) && Licensed(policy, p, e)
    requires SessionSafe(policy, p.Budgets(e.session)) && BudgetShape(p.Budgets(e.session))
    ensures SessionSafe(policy, MovedSession(p, e))
  {
    var b := p.Budgets(e.session);
    if e.kind.KindPlanned? {
      SafeIgnoresVersion(policy, b, e.planVersion);
    } else if e.kind.KindAdmitted? {
      LicenseAdmits(policy, p, e);
      AdmittedSafe(policy, b, p.Known(e.session, e.unit), e);
    }
  }

  lemma SafeIgnoresVersion(policy: Policy, b: Budgets, version: string)
    requires SessionSafe(policy, b)
    ensures SessionSafe(policy, b.(planVersion := version))
  {
    var c := b.(planVersion := version);
    assert forall o, w :: c.InScope(o, w) == b.InScope(o, w);
    assert forall v, w :: c.InRound(v, w) == b.InRound(v, w);
    forall o ensures RecoveryBounded(policy, c, o) { assert RecoveryBounded(policy, b, o); }
    forall o ensures RoundsBounded(policy, c, o) {
      assert RoundsBounded(policy, b, o);
      assert StartedRounds(c, o) == StartedRounds(b, o);
    }
  }

  lemma {:induction false} LicensedSafe(policy: Policy, history: seq<Entry>)
    requires policy.Positive() && LicensedHistory(policy, history)
    ensures AllSafe(policy, Project(history))
  {
    if history != [] {
      var n := |history| - 1;
      LicensedPrefix(policy, history, n);
      LicensedSafe(policy, history[..n]);
      LicensedShape(policy, history[..n]);
      SafeKept(policy, Project(history[..n]), history[n]);
    }
  }

  lemma RunSafe(policy: Policy, commands: seq<Command>, session: string)
    requires policy.Positive()
    ensures SessionSafe(policy, Reached(policy, commands).Budgets(session))
  {
    RunIsLicensed(policy, commands);
    LicensedSafe(policy, Execute(policy, commands));
    FreshSessionSafe(policy);
  }

  // ---- What a maintainer reads ----

  lemma ChoiceIsForced(b: Budgets, unit: string)
    requires ScopesDisjoint(b) && RoundsDisjoint(b)
    ensures forall o | b.InScope(o, unit) :: Scope(b, unit) == o
    ensures forall v | b.InRound(v, unit) :: QARoundFor(b, unit) == v
  {
    forall o | b.InScope(o, unit) ensures Scope(b, unit) == o { assert b.InScope(Scope(b, unit), unit); }
    forall v | b.InRound(v, unit) ensures QARoundFor(b, unit) == v { assert b.InRound(QARoundFor(b, unit), unit); }
  }

  /** In every reachable state at most one unresolved recovery and at most one
      QA round hold a unit, so the ones replay and admission find do not depend
      on map order. */
  lemma OneMatchPerUnit(policy: Policy, commands: seq<Command>, session: string, unit: string)
    requires policy.Positive()
    ensures var b := Reached(policy, commands).Budgets(session);
            && ScopesDisjoint(b) && RoundsDisjoint(b)
            && (forall o | b.InScope(o, unit) :: Scope(b, unit) == o)
            && (forall v | b.InRound(v, unit) :: QARoundFor(b, unit) == v)
  {
    hide Reached, Scope, QARoundFor;
    RunSafe(policy, commands, session);
    ChoiceIsForced(Reached(policy, commands).Budgets(session), unit);
  }

  /** Every ceiling of a session holds over every run: attempts and failure
      streaks of each recovery, started rounds of each objective, contests and
      uncovered units. */
  lemma BudgetsNeverExceeded(policy: Policy, commands: seq<Command>, session: string, objective: string)
    requires policy.Positive()
    ensures var b := Reached(policy, commands).Budgets(session);
            var r := b.Recovery(objective);
            && (r.attempted.Some? ==> |r.attempted.value| <= r.attempts + b.Allowed(BoundRecoveryAttempts, objective))
            && r.failures <= policy.recoveryFailures + b.Allowed(BoundRecovery, objective)
            && (r.open ==> r.failures < policy.recoveryFailures + b.Allowed(BoundRecovery, objective))
            && StrengtheningUsed(b, objective) <= policy.maxAttempts + b.Allowed(BoundQARounds, objective)
            && |b.contests| <= policy.contests + b.Allowed(BoundContests, "")
            && b.unplanned <= policy.unplannedUnits + b.Allowed(BoundUnplanned, "")
  {
    RunSafe(policy, commands, session);
    var b := Reached(policy, commands).Budgets(session);
    assert RecoveryBounded(policy, b, objective) && RoundsBounded(policy, b, objective);
  }
}
