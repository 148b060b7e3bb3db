/** What each operation's batch does to the projection, and when it can be
    recorded at all. */
module Effects {
  import opened Decimal
  import opened Record
  import opened Replay
  import opened PlanGraph
  import opened Protocol
  import opened Licensing
  import opened Runs
  import opened Revision

  ghost predicate OnlyUnit(p: Projection, q: Projection, session: string, unit: string) {
    forall k | k != UnitKey(session, unit) :: (k in q.units <==> k in p.units) && (k in p.units ==> q.units[k] == p.units[k])
  }

  lemma OneEntry(history: seq<Entry>, e: Entry)
    ensures Project(history + [e]) == Fold(Project(history), e)
  {
    hide Fold;
    assert (history + [e])[..|history + [e]| - 1] == history;
  }

  // ---- Lifecycle facts ----

  /** The unit left by a termination: settled if it ran, else as it was, evaluated or
      not. */
  ghost predicate Ended(u: Unit, v: Unit, outcome: Outcome) {
    && v.dispatch == u.dispatch
    && (if u.state == StateInFlight then v.state == StateSettled && v.outcome == outcome else v == u.(assurance := v.assurance))
  }

  lemma TerminatedEffect(p: Projection, t: Entry)
    requires t.kind.KindTerminated?
    ensures var q := Fold(p, t);
            && OnlyUnit(p, q, t.session, t.unit) && q.executions == SettleExecutions(p.executions, t)
            && Ended(p.Unit(t.session, t.unit), q.Unit(t.session, t.unit), t.outcome)
  {
    hide Fold, MovedSession, SettleExecutions;
    FoldLife(p, t);
  }

  /** A result of the current attempt of known work replaces the assurance it
      prevails over. */
  predicate ResultTakes(u: Unit, e: Entry) {
    && (u.state == StateInFlight || u.state == StateSettled)
    && e.attempt == u.attempt && Prevails(u.assurance, e)
  }

  lemma ResultEffect(p: Projection, e: Entry)
    requires e.kind.KindResult?
    ensures var q := Fold(p, e); var u := p.Unit(e.session, e.unit);
            && OnlyUnit(p, q, e.session, e.unit) && q.executions == p.executions
            && q.Unit(e.session, e.unit) == if ResultTakes(u, e) then u.(assurance := Some(AssuranceOf(e))) else u
  {
    hide Fold, MovedSession, Prevails;
    FoldLife(p, e);
  }

  lemma FinishEffect(history: seq<Entry>, ref: string, session: string, unit: string, nonStart: bool)
    ensures var p := Project(history); var batch := TerminateEntries(p, ref, session, unit, nonStart); var q := Project(history + batch);
            && OnlyUnit(p, q, session, unit) && batch != [] && q.executions == SettleExecutions(p.executions, batch[0])
            && Ended(p.Unit(session, unit), q.Unit(session, unit), batch[0].outcome)
  {
    hide Fold, Project, SettleExecutions, Ended;
    var p := Project(history);
    var batch := TerminateEntries(p, ref, session, unit, nonStart);
    BatchParts(p, ref, session, unit, nonStart);
    OneEntry(history, batch[0]);
    TerminatedEffect(p, batch[0]);
    if |batch| == 2 {
      OneEntry(history + [batch[0]], batch[1]);
      assert history + batch == history + [batch[0]] + [batch[1]];
      ResultEffect(Project(history + [batch[0]]), batch[1]);
      EndedStays(p.Unit(session, unit), Project(history + [batch[0]]).Unit(session, unit), Project(history + batch).Unit(session, unit), batch[0].outcome);
    } else {
      assert batch == [batch[0]];
    }
  }

  lemma EndedStays(u: Unit, v: Unit, w: Unit, outcome: Outcome)
    requires Ended(u, v, outcome) && w == v.(assurance := w.assurance)
    ensures Ended(u, w, outcome)
  {
  }

  lemma BatchParts(p: Projection, ref: string, session: string, unit: string, nonStart: bool)
    ensures var batch := TerminateEntries(p, ref, session, unit, nonStart); var u := p.Unit(session, unit);
            && 1 <= |batch| <= 2 && batch[0].kind.KindTerminated? && batch[0].session == session && batch[0].unit == unit
            && batch[0].attempt == CurrentAttempt(p, session, unit)
            && (nonStart || u.cancelRequested || u.flight == FlightUncertain ==> batch[0].outcome != Completed)
            && (|batch| == 2 ==> batch[1].kind.KindResult? && batch[1].session == session && batch[1].unit == unit)
  {
  }

  function TerminatedAs(session: string, unit: string, attempt: string, ref: string, outcome: Outcome, objective: string): Entry {
    Blank.(author := Harness, kind := KindTerminated, session := session, unit := unit, attempt := attempt,
           cause := CauseUncaptured, journalRef := ref, outcome := outcome, objective := objective)
  }

  lemma TerminatedValid(session: string, unit: string, attempt: string, ref: string, outcome: Outcome, objective: string)
    requires session != "" && unit != "" && attempt != "" && outcome != NoOutcome
    ensures Valid(TerminatedAs(session, unit, attempt, ref, outcome, objective))
  {
  }

  lemma DeliveryValid(session: string, unit: string, attempt: string, ref: string, outcome: Outcome, objective: string)
    requires session != "" && unit != "" && attempt != ""
    ensures Valid(TerminatedAs(session, unit, attempt, ref, outcome, objective).(kind := KindResult, outcome := NoOutcome, objective := "", status := Unverified))
  {
  }

  /** Ending work in flight is always recordable. */
  lemma FinishRecordable(p: Projection, ref: string, session: string, unit: string, nonStart: bool)
    requires Shape(p) && p.Unit(session, unit).state == StateInFlight
    ensures AllValid(TerminateEntries(p, ref, session, unit, nonStart))
  {
    hide ScopeOf, Valid, CurrentAttempt;
    var u := p.Unit(session, unit);
    var objective := Scope(p.Budgets(session), unit);
    var outcome := TerminationOutcome(u, p.Budgets(session).Recovery(objective), nonStart);
    NamedInFlight(p, session, unit);
    TerminatedValid(session, unit, CurrentAttempt(p, session, unit), ref, outcome, objective);
    DeliveryValid(session, unit, CurrentAttempt(p, session, unit), ref, outcome, objective);
  }

  lemma NamedInFlight(p: Projection, session: string, unit: string)
    requires Shape(p) && p.Unit(session, unit).state == StateInFlight
    ensures session != "" && unit != "" && CurrentAttempt(p, session, unit) != ""
  {
    assert UnitShape(UnitKey(session, unit), p.Unit(session, unit));
    AttemptNotEmpty(p.Unit(session, unit).attempt);
  }

  lemma InFlightAttempt(p: Projection, session: string, unit: string)
    requires Shape(p) && p.Unit(session, unit).state == StateInFlight
    ensures CurrentAttempt(p, session, unit) == p.Unit(session, unit).attempt
  {
    assert UnitShape(UnitKey(session, unit), p.Unit(session, unit));
    AttemptNotEmpty(p.Unit(session, unit).attempt);
  }

  lemma WithdrawnEffect(p: Projection, ref: string, session: string, unit: string)
    requires Shape(p) && p.Unit(session, unit).state == StatePlanned
    ensures var e := RecordEntry(p, ref, session, unit, KindWithdrawn); var q := Fold(p, e);
            Valid(e) && OnlyUnit(p, q, session, unit) && q.executions == p.executions && q.Unit(session, unit).state == StateWithdrawn
  {
    hide Fold, MovedSession, Valid, CurrentAttempt, Shape, Print;
    NamedPlanned(p, session, unit);
    WithdrawalValid(session, unit, CurrentAttempt(p, session, unit), ref);
    FoldLife(p, RecordEntry(p, ref, session, unit, KindWithdrawn));
  }

  lemma NamedPlanned(p: Projection, session: string, unit: string)
    requires Shape(p) && p.Unit(session, unit).state == StatePlanned
    ensures session != "" && unit != "" && CurrentAttempt(p, session, unit) != ""
  {
    assert UnitShape(UnitKey(session, unit), p.Unit(session, unit));
    AttemptNotEmpty(p.Unit(session, unit).attempt);
  }

  lemma WithdrawalValid(session: string, unit: string, attempt: string, ref: string)
    requires session != "" && unit != "" && attempt != ""
    ensures Valid(Blank.(author := Orchestrator, kind := KindWithdrawn, session := session, unit := unit, attempt := attempt,
                         cause := CauseUncaptured, journalRef := ref))
  {
  }

  // ---- Session accounting ----

  lemma ExceptionValid(ref: string, event: string, session: string, bound: Bound, objective: string, allowance: int)
    ensures Valid(ExceptionEntry(ref, event, session, bound, objective, allowance)) <==> session != "" && bound != NoBound && allowance > 0
  {
    hide Print;
    assert bound != NoBound ==> BoundText(bound) != "";
    AttemptNamed();
  }

  lemma AttemptNamed()
    ensures FirstAttempt != ""
  {
  }

  lemma RecoveryRecorded(policy: Policy, p: Projection, ref: string, event: string, session: string, d: RecoveryDeclaration)
    ensures var refusal := RecoveryRefusal(policy, p.Budgets(session), d);
            var e := RecoveryEntry(ref, event, session, d, refusal);
            && (Valid(e) <==> session != "" && event != "")
            && (refusal.Some? ==> e.kind.KindDenied? && e.cause == refusal.value)
  {
    hide ScopeTaken;
  }

  lemma ClosureRecorded(p: Projection, ref: string, event: string, session: string, objective: string, evidence: string, demonstrated: bool)
    requires Shape(p) && p.Budgets(session).Recovery(objective).open
    ensures Valid(ClosureEntry(ref, event, session, objective, evidence, demonstrated)) <==> event != ""
  {
    assert BudgetShape(p.Budgets(session));
  }

  lemma RestorationRecorded(p: Projection, ref: string, session: string, objective: string, evidence: string)
    requires Shape(p) && RestoredEntries(p, ref, session, objective, evidence) != []
    ensures Valid(RestoredEntries(p, ref, session, objective, evidence)[0])
    ensures |RestoredEntries(p, ref, session, objective, evidence)| == 1
  {
    hide AnyInFlight;
    assert BudgetShape(p.Budgets(session));
    assert RecoveryShape(p.Budgets(session).Recovery(objective));
  }

  /** A distinct contest of a recorded failure is admitted while the allowance
      lasts. */
  predicate ContestAdmitted(policy: Policy, b: Budgets, failed: bool, unit: string, attempt: string) {
    AttemptKey(unit, attempt) in b.contests || (failed && |b.contests| < policy.contests + b.Allowed(BoundContests, ""))
  }

  lemma ContestEffect(policy: Policy, p: Projection, failed: bool, ref: string, session: string, unit: string, attempt: string)
    ensures var b := p.Budgets(session); var batch := ContestEntries(policy, b, failed, ref, session, unit, attempt);
            && |batch| <= 1
            && (batch == [] <==> unit == "" || session == "" || AttemptKey(unit, attempt) in b.contests)
            && (batch != [] ==>
                 && (Valid(batch[0]) <==> attempt != "")
                 && (batch[0].kind.KindContested? <==> ContestAdmitted(policy, b, failed, unit, attempt))
                 && (batch[0].kind.KindContested? || batch[0].kind.KindDenied?)
                 && batch[0].session == session && batch[0].unit == unit && batch[0].attempt == attempt)
  {
    hide AttemptKey, Valid;
    var batch := ContestEntries(policy, p.Budgets(session), failed, ref, session, unit, attempt);
    if batch != [] {
      ContestValid(ref, session, unit, attempt, batch[0].kind, batch[0].cause);
    }
  }

  lemma ContestValid(ref: string, session: string, unit: string, attempt: string, kind: Kind, cause: Cause)
    requires kind.KindContested? || kind.KindDenied?
    requires session != "" && unit != "" && cause != NoCause
    ensures var e := Blank.(author := AuthorOf(kind), kind := kind, session := session, unit := unit, attempt := attempt,
                            cause := cause, journalRef := ref);
            Valid(e) <==> attempt != ""
  {
  }

  // ---- Interlocutor ----

  lemma SwitchEffect(p: Projection, ref: string, root: string, child: string, agent: string, eligible: bool)
    ensures var b := p.Budgets(root); var e := SwitchEntry(b, ref, root, child, agent, eligible); var c := Fold(p, e).Budgets(root);
            && (Valid(e) <==> root != "" && child != "")
            && (e.kind.KindDenied? <==> !eligible || b.holder != "")
            && c == if e.kind.KindDenied? then b else b.(holder := child, holderAgent := agent)
  {
    hide Fold, Valid, Print;
    TurnValid(SwitchEntry(p.Budgets(root), ref, root, child, agent, eligible));
    TurnFolds(p, SwitchEntry(p.Budgets(root), ref, root, child, agent, eligible));
  }

  lemma HandoffEffect(p: Projection, ref: string, root: string, caller: string, result: string)
    requires Shape(p)
    ensures var b := p.Budgets(root); var e := HandoffEntry(b, ref, root, caller, result); var c := Fold(p, e).Budgets(root);
            && (Valid(e) && !e.kind.KindDenied? <==> caller != "" && caller == b.holder)
            && c == if e.kind.KindDenied? then b else b.(holder := "", holderAgent := "")
  {
    hide Fold, Valid, Shape, Print;
    HeldRootNamed(p, root);
    TurnValid(HandoffEntry(p.Budgets(root), ref, root, caller, result));
    TurnFolds(p, HandoffEntry(p.Budgets(root), ref, root, caller, result));
  }

  lemma HeldRootNamed(p: Projection, root: string)
    requires Shape(p)
    ensures p.Budgets(root).holder != "" ==> root != ""
  {
  }

  lemma TurnFolds(p: Projection, e: Entry)
    requires e.kind.KindInterlocutorSwitched? || e.kind.KindInterlocutorHandoff? || e.kind.KindInterlocutorAborted? || e.kind.KindDenied?
    ensures var b, c := p.Budgets(e.session), Fold(p, e).Budgets(e.session);
            match e.kind
            case KindDenied => c == b
            case KindInterlocutorSwitched => c == b.(holder := e.unit, holderAgent := e.agent)
            case _ => c == b.(holder := "", holderAgent := "")
  {
    hide Fold;
    FoldBudget(p, e);
  }

  lemma TurnValid(e: Entry)
    requires e.kind.KindInterlocutorSwitched? || e.kind.KindInterlocutorHandoff? || e.kind.KindInterlocutorAborted? || e.kind.KindDenied?
    requires e == Blank.(author := AuthorOf(e.kind), kind := e.kind, session := e.session, unit := e.unit, attempt := FirstAttempt,
                         agent := e.agent, result := e.result, cause := e.cause, journalRef := e.journalRef)
    requires e.cause != NoCause
    ensures Valid(e) <==> e.session != "" && e.unit != ""
  {
  }

  lemma AbortEffect(p: Projection, ref: string, root: string, child: string, origin: Origin)
    requires Shape(p)
    ensures var b := p.Budgets(root); var e := AbortEntry(b, ref, root, child, origin); var c := Fold(p, e).Budgets(root);
            && (Valid(e) && !e.kind.KindDenied? <==> !origin.OtherOrigin? && b.holder != "" && (child == "" || child == b.holder))
            && c == if e.kind.KindDenied? then b else b.(holder := "", holderAgent := "")
  {
    hide Fold, Valid, Shape, Print;
    HeldRootNamed(p, root);
    TurnValid(AbortEntry(p.Budgets(root), ref, root, child, origin));
    TurnFolds(p, AbortEntry(p.Budgets(root), ref, root, child, origin));
  }

  // ---- Plans ----

  /** A first commitment of a fault-free plan, or a revision of the standing
      version that has no fault. */
  ghost predicate DeclarationAccepted(p: Projection, c: PlanChange) {
    && c.session != "" && c.version != ""
    && if p.Budgets(c.session).planVersion == "" then
         && c.base == "" && c.withdrawals == [] && c.units != []
         && PlanFaultOf(c.units, KnownNames(p, c.session)).None? && !RoundRefused(p, c, c.units)
       else c.base != "" && RevisionFault(p, c).None?
  }

  lemma DeclarationEffect(p: Projection, ref: string, c: PlanChange)
    requires Shape(p)
    ensures var batch := DeclareEntries(p, ref, c); var q := FoldAll(p, batch);
            && (DeclarationAccepted(p, c) ==> AllValid(batch) && q.Budgets(c.session).planVersion == c.version)
            && (DeclarationAccepted(p, c) <==> batch != [] && !batch[0].kind.KindInvalidRevision?)
            && (!DeclarationAccepted(p, c) ==> q.units == p.units && forall s :: q.Budgets(s) == p.Budgets(s))
  {
    hide RevisionFault, PlanFaultOf, RoundRefused, Shape, Valid, FoldAll, RevisionEntries, CommitEntries, AllValid;
    if p.Budgets(c.session).planVersion == "" {
      CommitmentEffect(p, ref, c);
      NothingFolds(p);
    } else if DeclarationAccepted(p, c) {
      AcceptedRevisionIsRecordable(p, ref, c);
      RevisionApplies(p, ref, c);
      RevisionHead(p, ref, c);
    } else if c.session != "" && c.base != "" && c.version != "" {
      RefusedRevisionChangesNothing(p, ref, c);
    } else {
      NothingFolds(p);
    }
  }

  lemma NothingFolds(p: Projection)
    ensures FoldAll(p, []) == p
  {
  }

  lemma RevisionHead(p: Projection, ref: string, c: PlanChange)
    ensures RevisionEntries(p, ref, c) != [] && !RevisionEntries(p, ref, c)[0].kind.KindInvalidRevision?
  {
    hide CurrentPlan, Revised, ClassificationOf;
  }

  lemma CommitmentEffect(p: Projection, ref: string, c: PlanChange)
    ensures var batch := CommitEntries(p, ref, c); var q := FoldAll(p, batch);
            var passes := c.session != "" && c.version != "" && c.units != []
                          && PlanFaultOf(c.units, KnownNames(p, c.session)).None? && !RoundRefused(p, c, c.units);
            && (passes ==> AllValid(batch) && q.Budgets(c.session).planVersion == c.version)
            && (passes <==> batch != [])
            && (batch != [] ==> !batch[0].kind.KindInvalidRevision?)
  {
    hide PlanFaultOf, RoundRefused, Valid, Fold, FoldAll, KnownNames;
    var batch := CommitEntries(p, ref, c);
    var round, planned := RoundEntries(ref, c.session, c.version, c.round), PlannedEntries(ref, c.session, c.version, c.units);
    if c.session != "" && c.version != "" && c.units != [] && PlanFaultOf(c.units, KnownNames(p, c.session)).None? && !RoundRefused(p, c, c.units) {
      FoldAllConcat(p, round, planned);
      FoldPlanned(FoldAll(p, round), ref, c.session, c.version, c.units);
      NamedUnits(c.units, KnownNames(p, c.session));
      assert AllValid(round) by { AcceptedRound(p, ref, c, c.units); }
      forall i | 0 <= i < |c.units| ensures Valid(planned[i]) { PlannedRecordable(ref, c, c.units[i]); }
    }
  }

  lemma NamedUnits(units: seq<PlanUnit>, known: set<string>)
    requires PlanFaultOf(units, known).None?
    ensures forall i | 0 <= i < |units| :: units[i].unit != ""
  {
    hide AllResolved, Cyclic, PlanOf;
    IdentityFaultNone(units);
  }

  lemma AcceptedRound(p: Projection, ref: string, c: PlanChange, plan: seq<PlanUnit>)
    requires !RoundRefused(p, c, plan) && c.session != "" && c.version != ""
    ensures AllValid(RoundEntries(ref, c.session, c.version, c.round))
  {
    hide PlanOf;
  }

  // ---- Admissions and lanes ----

  /** A decision about named work is always recordable. */
  lemma DecisionValid(policy: Policy, p: Projection, ref: string, r: Request)
    requires Shape(p) && r.session != "" && r.unit != ""
    ensures Valid(Decide(policy, p, ref, r))
  {
    hide Refusal, Valid, NextAttempt, Shape;
    var e := Decide(policy, p, ref, r);
    NextAttemptShape(p, r.session, r.unit);
    AttemptNotEmpty(e.attempt);
    RefusalNamed(policy, p, r, Scope(p.Budgets(r.session), r.unit), QARoundFor(p.Budgets(r.session), r.unit));
    AdmissionValid(ref, r, e.attempt, e.objective, Refusal(policy, p, r, e.objective, QARoundFor(p.Budgets(r.session), r.unit)));
  }

  lemma RefusalNamed(policy: Policy, p: Projection, r: Request, objective: string, version: string)
    ensures Refusal(policy, p, r, objective, version) != Some(NoCause)
  {
    hide InFlight, StrengtheningUsed;
  }

  lemma AdmissionValid(ref: string, r: Request, attempt: string, objective: string, refusal: Option<Cause>)
    requires r.session != "" && r.unit != "" && attempt != "" && refusal != Some(NoCause)
    ensures Valid(AdmissionEntry(ref, r, attempt, objective, refusal))
  {
  }

  /** Unmonitored or uncertain work is in flight. */
  lemma UncertainInFlight(p: Projection, session: string, unit: string)
    requires Shape(p)
    ensures UncertainFlight(p.Unit(session, unit).flight) ==> p.Unit(session, unit).state == StateInFlight
  {
    if p.Known(session, unit) { assert UnitShape(UnitKey(session, unit), p.Unit(session, unit)); }
  }

  lemma RestoredWhen(p: Projection, ref: string, session: string, objective: string, evidence: string)
    ensures var r := p.Budgets(session).Recovery(objective);
            |RestoredEntries(p, ref, session, objective, evidence)|
            == if r.backtracked && !r.open && !r.restored && !AnyInFlight(p, session, r.scope) then 1 else 0
  {
    hide AnyInFlight;
  }

  lemma LaneRecordable(p: Projection, e: Entry)
    requires Shape(p) && e.kind.KindLane? && e.author == Harness && e.session != "" && e.unit == LaneUnit(e.cycle, e.role)
    requires e.cycle != "" && e.attempt == NextAttempt(p, e.session, e.unit) && e.dispatch == e.cycle + "/" + RoleText(e.role)
    ensures Valid(e)
  {
    hide NextAttempt, Shape;
    NextAttemptShape(p, e.session, e.unit);
    AttemptNotEmpty(e.attempt);
  }

  // ---- Inputs and results ----

  lemma InputsEffect(p: Projection, e: Entry)
    requires e.kind.KindInputs? && e.author == Orchestrator && e.none == (e.resultIds == [])
    ensures Valid(e) <==> e.session != "" && e.unit != ""
    ensures Fold(p, e) == p.(inputs := p.inputs[UnitKey(e.session, e.unit) := e.resultIds])
  {
    hide Fold;
    FoldExec(p, e);
  }
}
