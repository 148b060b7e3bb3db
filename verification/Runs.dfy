/** Every run of commands records a licensed history, and every state it passes
    through has the shape replay relies on. */
module Runs {
  import opened Decimal
  import opened Record
  import opened Replay
  import opened PlanGraph
  import opened Protocol
  import opened Licensing

  // ---- Shape is kept by licensed entries ----

  lemma PrintedAttempt(n: int)
    requires n >= 1
    ensures AttemptShape(Print(n)) && AttemptNumber(Print(n)) == n
  {
    ParsePrint(n);
  }

  lemma AttemptNotEmpty(attempt: string)
    requires AttemptShape(attempt)
    ensures attempt != ""
  {
  }

  lemma NextAttemptShape(p: Projection, session: string, unit: string)
    requires Shape(p)
    ensures AttemptShape(NextAttempt(p, session, unit))
  {
    PrintedAttempt(1);
    if p.Known(session, unit) {
      var u := p.Unit(session, unit);
      assert UnitShape(UnitKey(session, unit), u);
      ParsePrint(AttemptNumber(u.attempt));
      PrintedAttempt(AttemptNumber(u.attempt) + 1);
    } else {
      PrintedAttempt(HighestAttempt(p, session, unit) + 1);
    }
  }

  lemma BudgetedShape(policy: Policy, b: Budgets, e: Entry)
    requires BudgetShape(b) && BudgetKind(e.kind) && Valid(e)
    requires e.kind.KindQARound? ==> e.qaRound.Some?
    requires e.kind.KindRecoveryDeclared? ==> RecoveryLicense(policy, b, e)
    requires e.kind.KindActions? || e.kind.KindActionsUncertain? || e.kind.KindRecoveryClosed? ==> b.Recovery(e.objective).open
    requires e.kind.KindRestored? ==> b.Recovery(e.objective).backtracked && !b.Recovery(e.objective).open
    ensures BudgetShape(Budgeted(b, e).value)
  {
    hide RefSeq, AttemptKey, ScopeTaken;
    assert RecoveryShape(b.Recovery(e.objective));
    if e.kind.KindException? {
    } else if e.kind.KindRecoveryDeclared? || e.kind.KindRecoveryClosed? {
    } else {
    }
  }

  lemma AdmittedShape(b: Budgets, known: bool, e: Entry)
    requires BudgetShape(b) && e.objective == Scope(b, e.unit)
    ensures BudgetShape(AdmittedBudgets(b, known, e))
  {
    var c := if known then b else b.(unplanned := b.unplanned + 1);
    var d := RoundStarted(c, e.unit);
    assert d.recoveries == b.recoveries && d.qaRounds.Keys == b.qaRounds.Keys;
    if e.objective != "" {
      assert b.InScope(e.objective, e.unit);
      assert RecoveryShape(b.recoveries[e.objective]);
    }
  }

  lemma LifecycleUnitShape(policy: Policy, p: Projection, e: Entry)
    requires Shape(p) && Valid(e) && LifecycleKind(e) && !e.kind.KindResult? && Licensed(policy, p, e)
    requires Accepts(p.Unit(e.session, e.unit), p.Known(e.session, e.unit), e.kind)
    ensures UnitShape(UnitKey(e.session, e.unit), NextUnit(p.Unit(e.session, e.unit), e))
  {
    var u := p.Unit(e.session, e.unit);
    assert p.Known(e.session, e.unit) ==> UnitShape(UnitKey(e.session, e.unit), u);
    assert e.session != "" && e.unit != "";
    PrintedAttempt(1);
    if e.kind.KindAdmitted? { NextAttemptShape(p, e.session, e.unit); }
  }

  lemma LifecycleShape(policy: Policy, p: Projection, e: Entry)
    requires Shape(p) && Valid(e) && LifecycleKind(e) && Licensed(policy, p, e)
    ensures Shape(FoldLifecycle(p, e))
  {
    hide Licensed, MovedUnits, MovedSession, SettleExecutions, BudgetShape, UnitShape;
    var q := FoldLifecycle(p, e);
    SessionShape(policy, p, e);
    MovedUnitShape(policy, p, e);
    MovedExecutionShape(p, e);
    forall s | s in q.sessions ensures BudgetShape(q.sessions[s]) {
      if s != e.session { assert q.sessions[s] == p.sessions[s]; }
    }
  }

  lemma MovedUnitShape(policy: Policy, p: Projection, e: Entry)
    requires Shape(p) && Valid(e) && LifecycleKind(e) && Licensed(policy, p, e)
    ensures forall k | k in MovedUnits(p, e) :: UnitShape(k, MovedUnits(p, e)[k])
  {
    hide Licensed, NextUnit;
    var u, known := p.Unit(e.session, e.unit), p.Known(e.session, e.unit);
    if Accepts(u, known, e.kind) && !e.kind.KindResult? {
      LifecycleUnitShape(policy, p, e);
    }
  }

  lemma MovedExecutionShape(p: Projection, e: Entry)
    requires Shape(p)
    ensures forall id | id in MovedExecutions(p, e) :: ExecutionShape(id, MovedExecutions(p, e)[id])
  {
  }

  lemma SessionShape(policy: Policy, p: Projection, e: Entry)
    requires Shape(p) && LifecycleKind(e) && Licensed(policy, p, e)
    ensures BudgetShape(MovedSession(p, e))
  {
    hide AdmittedBudgets;
    var b := p.Budgets(e.session);
    assert BudgetShape(b);
    if e.kind.KindAdmitted? { AdmittedShape(b, p.Known(e.session, e.unit), e); }
  }

  lemma ShapeKept(policy: Policy, p: Projection, e: Entry)
    requires Shape(p) && Valid(e) && Licensed(policy, p, e)
    ensures Shape(Fold(p, e))
  {
    Lanes(e);
    if LifecycleKind(e) {
      FoldLife(p, e);
      LifecycleShape(policy, p, e);
    } else if BudgetKind(e.kind) {
      FoldBudget(p, e);
      assert BudgetShape(p.Budgets(e.session));
      BudgetedShape(policy, p.Budgets(e.session), e);
    } else if ExecutionKind(e.kind) {
      LinkedShape(policy, p, e);
    } else {
      FoldAct(p, e);
    }
  }

  lemma LinkedShape(policy: Policy, p: Projection, e: Entry)
    requires Shape(p) && Valid(e) && ExecutionKind(e.kind) && Licensed(policy, p, e)
    ensures Shape(Fold(p, e))
  {
    hide Licensed, LinkedExecution, BudgetShape, UnitShape;
    FoldExec(p, e);
    if !e.kind.KindLease? && !e.kind.KindInputs? {
      LinkedDispatch(policy, p, e);
    }
  }

  lemma LinkedDispatch(policy: Policy, p: Projection, e: Entry)
    requires Shape(p) && Valid(e) && ExecutionKind(e.kind) && Licensed(policy, p, e)
    requires !e.kind.KindLease? && !e.kind.KindInputs?
    ensures ExecutionShape(e.dispatch, LinkedExecution(ExecutionOf(p, e.dispatch), InputsOf(p, e.session, e.unit), e))
  {
  }

  lemma {:induction false} LicensedShape(policy: Policy, history: seq<Entry>)
    requires LicensedHistory(policy, history)
    ensures Shape(Project(history))
  {
    if history != [] {
      var n := |history| - 1;
      LicensedPrefix(policy, history, n);
      LicensedShape(policy, history[..n]);
      ShapeKept(policy, Project(history[..n]), history[n]);
    }
  }

  /** The last entry of a licensed history, against the state before it. */
  lemma LastEntry(policy: Policy, history: seq<Entry>)
    requires LicensedHistory(policy, history) && history != []
    ensures var n := |history| - 1;
            && LicensedHistory(policy, history[..n]) && Shape(Project(history[..n]))
            && Valid(history[n]) && Licensed(policy, Project(history[..n]), history[n])
            && Project(history) == Fold(Project(history[..n]), history[n])
  {
    hide Fold, Licensed, Valid, Shape;
    var n := |history| - 1;
    LicensedPrefix(policy, history, n);
    LicensedShape(policy, history[..n]);
  }

  lemma LicensedPrefix(policy: Policy, history: seq<Entry>, n: nat)
    requires LicensedHistory(policy, history) && n <= |history|
    ensures LicensedHistory(policy, history[..n])
  {
    forall i | 0 <= i < n
      ensures Valid(history[..n][i]) && Licensed(policy, Project(history[..n][..i]), history[..n][i])
    {
      assert history[..n][..i] == history[..i];
    }
  }

  /** Every entry of a licensed history, against the state before it. */
  lemma PrefixStep(policy: Policy, history: seq<Entry>, n: nat)
    requires LicensedHistory(policy, history) && n < |history|
    ensures var p := Project(history[..n]);
            && Shape(p) && Valid(history[n]) && Licensed(policy, p, history[n])
            && Project(history[..n + 1]) == Fold(p, history[n])
  {
    hide Fold, Licensed, Valid, Shape;
    LicensedPrefix(policy, history, n + 1);
    LastEntry(policy, history[..n + 1]);
    assert history[..n + 1][..n] == history[..n];
  }

  // ---- Commands record licensed batches ----

  /** Licensed whatever the state: entries that follow the first of a batch. */
  predicate Free(e: Entry) {
    match e.kind
    case KindPlanned | KindWithdrawn => e.attempt == FirstAttempt
    case KindResult | KindSeatRestored | KindRevised => true
    case _ => false
  }

  ghost predicate BatchLicensed(policy: Policy, p: Projection, batch: seq<Entry>) {
    && (batch != [] ==> Licensed(policy, p, batch[0]))
    && forall i | 0 < i < |batch| :: Free(batch[i])
  }

  lemma AdmitLicensed(policy: Policy, p: Projection, ref: string, r: Request)
    ensures Licensed(policy, p, Decide(policy, p, ref, r))
  {
    var e := Decide(policy, p, ref, r);
    if e.kind.KindAdmitted? {
      assert Request(e.session, e.unit, e.agent, e.dispatch) == r;
    }
  }

  lemma TerminateLicensed(policy: Policy, p: Projection, ref: string, session: string, unit: string, nonStart: bool)
    ensures BatchLicensed(policy, p, TerminateEntries(p, ref, session, unit, nonStart))
  {
  }

  lemma RecordLicensed(policy: Policy, p: Projection, ref: string, session: string, unit: string, kind: Kind)
    requires Shape(p)
    requires NoteKind(kind) || kind.KindLaunched? || (kind.KindWithdrawn? && p.Unit(session, unit).state == StatePlanned)
    ensures Licensed(policy, p, RecordEntry(p, ref, session, unit, kind))
  {
    if kind.KindWithdrawn? { assert UnitShape(UnitKey(session, unit), p.Unit(session, unit)); }
  }

  lemma LaunchLicensed(policy: Policy, p: Projection, ref: string, session: string, unit: string)
    requires Shape(p)
    ensures BatchLicensed(policy, p, LaunchEntries(p, ref, session, unit))
  {
    hide Licensed, Shape, RecordEntry;
    RecordLicensed(policy, p, ref, session, unit, KindLaunched);
  }

  lemma DeclareLicensed(policy: Policy, p: Projection, ref: string, c: PlanChange)
    requires Shape(p)
    ensures BatchLicensed(policy, p, DeclareEntries(p, ref, c))
  {
    hide PlanFaultOf, RoundRefused, RevisionFault, RevisionEntries, CurrentPlan, Licensed;
    var current := CurrentPlan(p, c.session);
    if !RoundRefused(p, c, c.units) { PlannedBatch(policy, p, ref, c, c.units); }
    var resulting := Revised(current, c.units, c.withdrawals);
    if RevisionFault(p, c).None? {
      RoundPassed(p, c);
      RevisionBatch(policy, p, ref, c, resulting);
    } else {
      assert Licensed(policy, p, InvalidRevisionEntry(ref, c.session, c.base, c.version, RevisionFault(p, c).value)) by {
        InvalidLicensed(policy, p, ref, c, RevisionFault(p, c).value);
      }
    }
  }

  lemma InvalidLicensed(policy: Policy, p: Projection, ref: string, c: PlanChange, fault: PlanFault)
    ensures Licensed(policy, p, InvalidRevisionEntry(ref, c.session, c.base, c.version, fault))
  {
  }

  lemma RoundPassed(p: Projection, c: PlanChange)
    requires RevisionFault(p, c).None?
    ensures !RoundRefused(p, c, Revised(CurrentPlan(p, c.session), c.units, c.withdrawals))
  {
  }

  lemma PlannedBatch(policy: Policy, p: Projection, ref: string, c: PlanChange, plan: seq<PlanUnit>)
    requires Shape(p) && !RoundRefused(p, c, plan)
    ensures BatchLicensed(policy, p, RoundEntries(ref, c.session, c.version, c.round) + PlannedEntries(ref, c.session, c.version, c.units))
  {
    if c.round.Some? { RoundLicensed(policy, p, ref, c, plan); }
  }

  lemma RevisionBatch(policy: Policy, p: Projection, ref: string, c: PlanChange, plan: seq<PlanUnit>)
    requires Shape(p) && !RoundRefused(p, c, plan)
    ensures BatchLicensed(policy, p, RevisionEntries(p, ref, c))
  {
    hide ClassificationOf, CurrentPlan, Revised;
    if c.round.Some? { RoundLicensed(policy, p, ref, c, plan); }
  }

  lemma RoundLicensed(policy: Policy, p: Projection, ref: string, c: PlanChange, plan: seq<PlanUnit>)
    requires Shape(p) && c.round.Some? && RoundAccepted(p, c.session, c.version, plan, c.round.value)
    ensures RoundLicense(p.Budgets(c.session), RoundEntries(ref, c.session, c.version, c.round)[0])
  {
    var b, r := p.Budgets(c.session), c.round.value;
    assert BudgetShape(b);
    forall v, w | w in r.units ensures !b.InRound(v, w) {
      var i :| 0 <= i < |r.units| && r.units[i] == w;
      assert QARoundFor(b, r.units[i]) == "";
      assert !b.InRound("", w);
    }
  }

  lemma RecoveryLicensed(policy: Policy, p: Projection, c: Command)
    requires c.DeclareRecovery? || c.CloseRecovery? || c.ObserveActions? || c.Backtrack? || c.ConfirmRestored?
    ensures BatchLicensed(policy, p, Proposed(policy, [], p, c))
  {
    hide Refusal, NextAttempt, RefSeq, JournalPosition, ScopeActions, Exhausted, AnyInFlight;
    if c.DeclareRecovery? {
    } else if c.CloseRecovery? || c.ConfirmRestored? {
    } else {
    }
  }

  lemma PrepareLicensed(policy: Policy, p: Projection, r: Request, caller: string, owner: string, now: int, model: string, seat: Option<Seat>)
    ensures BatchLicensed(policy, p, PreparationEntries(p, r, caller, owner, now, model, seat))
  {
    hide Refusal, Fold, Valid;
  }

  lemma MarkLicensed(policy: Policy, p: Projection, d: Execution, kind: Kind, phase: string, ids: seq<int>)
    requires MarkKind(kind) && StillRuns(p, d)
    ensures Licensed(policy, p, ExecutionFactEntry(d, kind, "", phase, ids))
  {
  }

  lemma AttachLicensed(policy: Policy, p: Projection, dispatch: string, child: string, agent: string)
    requires Shape(p)
    ensures BatchLicensed(policy, p, AttachEntries(p, dispatch, child, agent))
  {
  }

  lemma LaneLicensed(policy: Policy, p: Projection, root: string, cycle: string, role: Role, child: string, owner: string, now: int)
    ensures BatchLicensed(policy, p, LaneEntries(p, root, cycle, role, child, owner, now))
  {
    hide NextAttempt, LaneBlocked, LaneUnit, RoleText;
  }

  lemma InterlocutorLicensed(policy: Policy, history: seq<Entry>, p: Projection, c: Command)
    requires c.Switch? || c.Handoff? || c.Abort?
    ensures BatchLicensed(policy, p, Proposed(policy, history, p, c))
  {
    hide Refusal, NextAttempt, AttemptKey;
    if c.Switch? {
    } else if c.Handoff? {
    } else {
    }
  }

  lemma ContestLicensed(policy: Policy, b: Budgets, failed: bool, p: Projection, ref: string, session: string, unit: string, attempt: string)
    requires b == p.Budgets(session)
    ensures BatchLicensed(policy, p, ContestEntries(policy, b, failed, ref, session, unit, attempt))
  {
  }

  lemma ActivityLicensed(policy: Policy, p: Projection, e: Entry)
    requires ActivityOf(e).Some?
    ensures Licensed(policy, p, e)
  {
    hide Refusal, NextAttempt;
  }

  lemma ExceptLicensed(policy: Policy, p: Projection, c: Command)
    requires c.Except? && !ExceptionRefused(p.Budgets(c.session), c.bound, c.objective)
    ensures Licensed(policy, p, ExceptionEntry(c.ref, c.event, c.session, c.bound, c.objective, c.allowance))
  {
    hide Refusal, NextAttempt, ExceptionRefused;
  }

  lemma FreelyLicensed(policy: Policy, history: seq<Entry>, p: Projection, c: Command)
    requires c.RecordResult? || c.DeclareInputs? || c.RenewLease?
    ensures BatchLicensed(policy, p, Proposed(policy, history, p, c))
  {
    hide Refusal, NextAttempt;
  }

  lemma SessionLicensed(policy: Policy, history: seq<Entry>, p: Projection, c: Command)
    requires c.Except? || c.RecordResult? || c.RecordActivity? || c.DeclareInputs? || c.RenewLease?
    ensures BatchLicensed(policy, p, Proposed(policy, history, p, c))
  {
    hide Licensed, ActivityOf, ExceptionRefused;
    if c.RecordActivity? {
      if ActivityOf(c.entry).Some? { ActivityLicensed(policy, p, c.entry); }
    } else if c.Except? {
      if !ExceptionRefused(p.Budgets(c.session), c.bound, c.objective) { ExceptLicensed(policy, p, c); }
    } else {
      FreelyLicensed(policy, history, p, c);
    }
  }

  lemma ProposedLicensed(policy: Policy, history: seq<Entry>, p: Projection, c: Command)
    requires Shape(p)
    ensures BatchLicensed(policy, p, Proposed(policy, history, p, c))
  {
    hide Licensed, Decide, TerminateEntries, RecordEntry, DeclareEntries, AttachEntries, LaneEntries, PreparationEntries, StillRuns, ContestEntries,
         LaunchEntries, ExceptionRefused, ExceptionEntry, RecoveryRefusal, RecoveryEntry, ClosureEntry, AccountEntries, BacktrackEntries,
         RestoredEntries, SwitchEntry, HandoffEntry, AbortEntry, ExecutionFactEntry, Shape;
    match c
    case Admit(ref, r) => AdmitLicensed(policy, p, ref, r);
    case Finish(ref, session, unit) => TerminateLicensed(policy, p, ref, session, unit, false);
    case Launch(ref, session, unit) => LaunchLicensed(policy, p, ref, session, unit);
    case Reconcile(ref, session, unit, running) =>
      RecordLicensed(policy, p, ref, session, unit, KindLaunched);
      TerminateLicensed(policy, p, ref, session, unit, true);
    case Note(ref, session, unit, kind) => if NoteKind(kind) { RecordLicensed(policy, p, ref, session, unit, kind); }
    case Withdraw(ref, session, unit) =>
      if p.Unit(session, unit).state == StatePlanned { RecordLicensed(policy, p, ref, session, unit, KindWithdrawn); }
    case Declare(ref, change) => DeclareLicensed(policy, p, ref, change);
    case DeclareRecovery(_, _, _, _) => RecoveryLicensed(policy, p, c);
    case CloseRecovery(_, _, _, _, _, _) => RecoveryLicensed(policy, p, c);
    case ObserveActions(_, _, _) => RecoveryLicensed(policy, p, c);
    case Backtrack(_, _, _) => RecoveryLicensed(policy, p, c);
    case ConfirmRestored(_, _, _, _) => RecoveryLicensed(policy, p, c);
    case Prepare(r, caller, owner, now, model, seat) => PrepareLicensed(policy, p, r, caller, owner, now, model, seat);
    case MarkExecution(d, kind, phase, ids) =>
      if MarkKind(kind) && StillRuns(p, d) { MarkLicensed(policy, p, d, kind, phase, ids); }
    case AttachChild(dispatch, child, agent) => AttachLicensed(policy, p, dispatch, child, agent);
    case AttachLane(root, cycle, role, child, owner, now) => LaneLicensed(policy, p, root, cycle, role, child, owner, now);
    case Contest(ref, session, unit, attempt) =>
      ContestLicensed(policy, p.Budgets(session), TerminalFailure(history, session, unit, attempt), p, ref, session, unit, attempt);
    case Switch(_, _, _, _, _) => InterlocutorLicensed(policy, history, p, c);
    case Handoff(_, _, _, _) => InterlocutorLicensed(policy, history, p, c);
    case Abort(_, _, _, _) => InterlocutorLicensed(policy, history, p, c);
    case _ => SessionLicensed(policy, history, p, c);
  }

  lemma LicensedExtends(policy: Policy, history: seq<Entry>, batch: seq<Entry>)
    requires LicensedHistory(policy, history) && AllValid(batch)
    requires BatchLicensed(policy, Project(history), batch)
    ensures LicensedHistory(policy, history + batch)
  {
    var longer := history + batch;
    forall i | 0 <= i < |longer|
      ensures Valid(longer[i]) && Licensed(policy, Project(longer[..i]), longer[i])
    {
      if i < |history| {
        assert longer[..i] == history[..i];
      } else if i == |history| {
        assert longer[..i] == history && longer[i] == batch[0];
      } else {
        assert longer[i] == batch[i - |history|] && Free(longer[i]);
      }
    }
  }

  /** Every run records a licensed history. */
  lemma {:induction false} RunIsLicensed(policy: Policy, commands: seq<Command>)
    ensures LicensedHistory(policy, Execute(policy, commands))
  {
    if commands != [] {
      var n := |commands| - 1;
      var history := Execute(policy, commands[..n]);
      RunIsLicensed(policy, commands[..n]);
      LicensedShape(policy, history);
      ProposedLicensed(policy, history, Project(history), commands[n]);
      LicensedExtends(policy, history, Effect(policy, history, commands[n]));
    }
  }

  /** Flight, outcome, attempt identity and bookkeeping keys are coherent in
      every state a run reaches. */
  lemma RunShape(policy: Policy, commands: seq<Command>)
    ensures Shape(Reached(policy, commands))
  {
    RunIsLicensed(policy, commands);
    LicensedShape(policy, Execute(policy, commands));
  }
}
