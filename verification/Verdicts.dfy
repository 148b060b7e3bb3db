/** What the admission, termination and lifecycle operations are for, said of the
    state alone: when each goes through and what it then leaves, without the
    functions that decide it. */
module Verdicts {
  import opened Decimal
  import opened Record
  import opened Replay
  import opened Protocol
  import opened Licensing
  import opened Runs
  import opened Slots
  import opened Budgeting
  import opened Effects

  // ---- Admission: when ----

  predicate SlotsFull(policy: Policy, p: Projection, session: string) {
    InFlight(p) >= policy.specialists + p.Budgets(session).Allowed(BoundConcurrency, "")
  }

  predicate UncoveredFull(policy: Policy, b: Budgets) {
    b.unplanned >= policy.unplannedUnits + b.Allowed(BoundUnplanned, "")
  }

  /** A round that has not started, and may not start any more. */
  predicate RoundSpent(policy: Policy, b: Budgets, version: string) {
    && version in b.qaRounds && !b.qaRounds[version].started
    && var objective := b.qaRounds[version].round.objective;
       |StartedRounds(b, objective)| >= policy.maxAttempts + b.Allowed(BoundQARounds, objective)
  }

  predicate AttemptsSpent(b: Budgets, objective: string) {
    var r := b.Recovery(objective);
    (if r.attempted.Some? then |r.attempted.value| else 0) >= r.attempts + b.Allowed(BoundRecoveryAttempts, objective)
  }

  predicate ActionsSpent(b: Budgets, objective: string) {
    b.Recovery(objective).used >= b.Recovery(objective).actions + b.Allowed(BoundRecoveryActions, objective)
  }

  /** An attempt of the unit may start: a slot is free, the unit is new, planned or
      settled, uncovered work, its round and its recovery have room. */
  ghost predicate MayAdmit(policy: Policy, p: Projection, session: string, unit: string) {
    var b := p.Budgets(session);
    && InFlight(p) < policy.specialists + b.Allowed(BoundConcurrency, "")
    && (p.Known(session, unit) ==> p.Unit(session, unit).state == StatePlanned || p.Unit(session, unit).state == StateSettled)
    && (!p.Known(session, unit) ==> b.unplanned < policy.unplannedUnits + b.Allowed(BoundUnplanned, ""))
    && (forall v | b.InRound(v, unit) :: !RoundSpent(policy, b, v))
    && (forall o | b.InScope(o, unit) ::
          b.Recovery(o).open && !b.Recovery(o).unreconciled && !AttemptsSpent(b, o) && !ActionsSpent(b, o))
  }

  /** The cause a denial records: the first check that fails. */
  ghost predicate DeniedFor(policy: Policy, p: Projection, session: string, unit: string, cause: Cause) {
    var b := p.Budgets(session);
    var state := p.Unit(session, unit).state;
    if SlotsFull(policy, p, session) then cause == CauseBound(BoundConcurrency)
    else if state == StateInFlight then cause == CauseRepetition
    else if state == StateWithdrawn then cause == CauseWithdrawn
    else if !p.Known(session, unit) && UncoveredFull(policy, b) then cause == CauseBound(BoundUnplanned)
    else if exists v :: b.InRound(v, unit) && RoundSpent(policy, b, v) then cause == CauseBound(BoundQARounds)
    else if exists o :: b.InScope(o, unit) && !b.Recovery(o).open then cause == CauseBound(BoundRecoveryAttempts)
    else if exists o :: b.InScope(o, unit) && b.Recovery(o).unreconciled then cause == CauseBound(BoundRecoveryActions)
    else if exists o :: b.InScope(o, unit) && AttemptsSpent(b, o) then cause == CauseBound(BoundRecoveryAttempts)
    else (exists o :: b.InScope(o, unit) && ActionsSpent(b, o)) && cause == CauseBound(BoundRecoveryActions)
  }

  lemma Choices(b: Budgets, unit: string)
    requires Sound(b)
    ensures var o := Scope(b, unit);
            (o != "" <==> exists x :: b.InScope(x, unit)) && (o != "" ==> b.InScope(o, unit)) && forall x | b.InScope(x, unit) :: x == o
    ensures var v := QARoundFor(b, unit);
            (v != "" <==> exists x :: b.InRound(x, unit)) && (v != "" ==> b.InRound(v, unit)) && forall x | b.InRound(x, unit) :: x == v
  {
    ChoiceIsForced(b, unit);
    var o, v := Scope(b, unit), QARoundFor(b, unit);
    forall x | b.InScope(x, unit) ensures x == o != "" { assert x in b.recoveries; }
    forall x | b.InRound(x, unit) ensures x == v != "" { assert x in b.qaRounds; }
    if o != "" { assert Governs(b.recoveries, o, unit) && b.InScope(o, unit); }
    if v != "" { assert HoldsUnit(b.qaRounds, v, unit) && b.InRound(v, unit); }
  }

  /** The decision admits exactly what may be admitted, and denies for the first
      reason there is. */
  lemma DecisionMeans(policy: Policy, p: Projection, ref: string, r: Request)
    requires Shape(p) && Sound(p.Budgets(r.session))
    ensures var e := Decide(policy, p, ref, r);
            && (e.kind.KindAdmitted? <==> MayAdmit(policy, p, r.session, r.unit))
            && (e.kind.KindAdmitted? || e.kind.KindDenied?)
            && (e.kind.KindDenied? ==> DeniedFor(policy, p, r.session, r.unit, e.cause))
  {
    hide InFlight, NextAttempt, Shape, Sound, ScopeOf, RoundOf, Scope, QARoundFor;
    var b := p.Budgets(r.session);
    Choices(b, r.unit);
    KnownHasState(p, r.session, r.unit);
  }

  lemma KnownHasState(p: Projection, session: string, unit: string)
    requires Shape(p)
    ensures p.Known(session, unit) <==> p.Unit(session, unit).state != NoState
  {
    if p.Known(session, unit) { assert UnitShape(UnitKey(session, unit), p.Unit(session, unit)); }
  }

  // ---- Admission: what it leaves ----

  /** The attempt an admission opens: one past the last, or past the highest an
      execution of an unknown unit records. */
  ghost predicate OpensAttempt(p: Projection, session: string, unit: string, attempt: string) {
    && attempt == Print(AttemptNumber(attempt))
    && if !p.Known(session, unit) then IsHighest(p, ExecutionsFor(p, session, unit), AttemptNumber(attempt) - 1)
       else if p.Unit(session, unit).state == StateSettled then AttemptNumber(attempt) == AttemptNumber(p.Unit(session, unit).attempt) + 1
       else AttemptNumber(attempt) == 1
  }

  /** The accounting after an admission: uncovered work counted, its round started,
      and its attempt spent by its recovery. */
  ghost predicate AdmissionAccounted(b: Budgets, c: Budgets, known: bool, unit: string, attempt: string) {
    && c == b.(unplanned := c.unplanned, qaRounds := c.qaRounds, recoveries := c.recoveries)
    && c.unplanned == b.unplanned + (if known then 0 else 1)
    && c.qaRounds.Keys == b.qaRounds.Keys && c.recoveries.Keys == b.recoveries.Keys
    && (forall v | v in b.qaRounds ::
          c.qaRounds[v] == if b.InRound(v, unit) then b.qaRounds[v].(started := true) else b.qaRounds[v])
    && (forall o | o in b.recoveries ::
          c.recoveries[o] == if b.InScope(o, unit) && b.recoveries[o].attempted.Some?
                             then b.recoveries[o].(attempted := Some(b.recoveries[o].attempted.value + {AttemptKey(unit, attempt)}))
                             else b.recoveries[o])
  }

  ghost predicate AdmittedAs(p: Projection, q: Projection, r: Request) {
    var u, v := p.Unit(r.session, r.unit), q.Unit(r.session, r.unit);
    && OnlyUnit(p, q, r.session, r.unit) && q.executions == p.executions && q.inputs == p.inputs
    && v.state == StateInFlight && v.flight == FlightPendingLaunch && v.outcome == NoOutcome && v.assurance == None
    && !v.launched && !v.cancelRequested && v.dispatch == r.dispatch && v.agent == r.agent
    && v.committed == u.committed && v.contract == u.contract && v.prerequisites == u.prerequisites
    && OpensAttempt(p, r.session, r.unit, v.attempt)
    && (forall s | s != r.session :: q.Budgets(s) == p.Budgets(s))
    && AdmissionAccounted(p.Budgets(r.session), q.Budgets(r.session), p.Known(r.session, r.unit), r.unit, v.attempt)
  }

  lemma AttemptOpens(p: Projection, session: string, unit: string)
    requires Shape(p)
    ensures OpensAttempt(p, session, unit, NextAttempt(p, session, unit)) || p.Unit(session, unit).state == StateInFlight
  {
    hide IsHighest;
    NextAttemptShape(p, session, unit);
    PrintedAttempt(1);
    if p.Known(session, unit) {
      var u := p.Unit(session, unit);
      assert UnitShape(UnitKey(session, unit), u);
      ParsePrint(AttemptNumber(u.attempt));
      PrintedAttempt(AttemptNumber(u.attempt) + 1);
    } else {
      HighestIsCounted(p, session, unit);
      PrintedAttempt(HighestAttempt(p, session, unit) + 1);
    }
  }

  lemma HighestIsCounted(p: Projection, session: string, unit: string)
    ensures HighestAttempt(p, session, unit) >= 0
  {
  }

  lemma AdmissionCounts(b: Budgets, known: bool, e: Entry)
    requires Sound(b) && e.objective == Scope(b, e.unit)
    ensures AdmissionAccounted(b, AdmittedBudgets(b, known, e), known, e.unit, e.attempt)
  {
    hide ScopeOf, RoundOf, AttemptKey;
    Choices(b, e.unit);
    var c := if known then b else b.(unplanned := b.unplanned + 1);
    assert c.qaRounds == b.qaRounds && c.recoveries == b.recoveries;
    assert QARoundFor(c, e.unit) == QARoundFor(b, e.unit);
  }

  lemma AdmissionLeaves(policy: Policy, p: Projection, ref: string, r: Request)
    requires Shape(p) && Sound(p.Budgets(r.session)) && Decide(policy, p, ref, r).kind.KindAdmitted?
    ensures AdmittedAs(p, Fold(p, Decide(policy, p, ref, r)), r)
  {
    hide Fold, Shape, Sound, Refusal, NextAttempt, AdmittedBudgets, AdmissionAccounted, OpensAttempt, Scope, QARoundFor;
    var e := Decide(policy, p, ref, r);
    AdmitLicensed(policy, p, ref, r);
    AdmissionAccepted(policy, p, e);
    FoldLife(p, e);
    AttemptOpens(p, r.session, r.unit);
    NotInFlight(policy, p, ref, r);
    AdmissionCounts(p.Budgets(r.session), p.Known(r.session, r.unit), e);
  }

  lemma NotInFlight(policy: Policy, p: Projection, ref: string, r: Request)
    requires Decide(policy, p, ref, r).kind.KindAdmitted?
    ensures p.Unit(r.session, r.unit).state != StateInFlight
  {
    hide InFlight, NextAttempt, Scope, QARoundFor;
  }

  // ---- Termination ----

  /** How work in flight ends: backtracked with its abandoned recovery, else
      interrupted when it never ran, was asked to cancel or is uncertain, else
      completed. */
  ghost predicate EndsAs(b: Budgets, u: Unit, unit: string, nonStart: bool, outcome: Outcome) {
    if exists o :: b.InScope(o, unit) && b.Recovery(o).backtracked then outcome == Backtracked
    else if nonStart || u.cancelRequested || u.flight == FlightUncertain then outcome == Interrupted
    else outcome == Completed
  }

  /** Settled with that outcome, its attempt's executions with it; completed work
      that nobody evaluated is delivered unverified. */
  ghost predicate FinishedAs(p: Projection, q: Projection, session: string, unit: string, nonStart: bool) {
    var u, v := p.Unit(session, unit), q.Unit(session, unit);
    && OnlyUnit(p, q, session, unit) && (forall s :: q.Budgets(s) == p.Budgets(s)) && q.inputs == p.inputs
    && EndsAs(p.Budgets(session), u, unit, nonStart, v.outcome)
    && v == u.(state := StateSettled, flight := NoFlight, outcome := v.outcome,
               assurance := if v.outcome == Completed && u.assurance.None? then Some(Assurance(Unverified, None, "", Harness)) else u.assurance)
    && q.executions.Keys == p.executions.Keys
    && forall id | id in p.executions ::
         var d := p.executions[id];
         q.executions[id] == if d.root == session && d.unit == unit && d.attempt == u.attempt then d.(settled := true) else d
  }

  lemma TerminationMeans(p: Projection, ref: string, session: string, unit: string, nonStart: bool)
    requires Sound(p.Budgets(session))
    ensures var batch := TerminateEntries(p, ref, session, unit, nonStart); var u := p.Unit(session, unit);
            && 1 <= |batch| <= 2
            && EndsAs(p.Budgets(session), u, unit, nonStart, batch[0].outcome)
            && (|batch| == 2 <==> batch[0].outcome == Completed && u.assurance.None?)
            && (var t := batch[0];
                t.kind.KindTerminated? && t.session == session && t.unit == unit && t.attempt == CurrentAttempt(p, session, unit)
                && t.nodeKind == NoNodeKind)
            && (|batch| == 2 ==> var t := batch[1];
                t.kind.KindResult? && t.session == session && t.unit == unit && t.attempt == CurrentAttempt(p, session, unit)
                && t.status == Unverified && t.revision == None && t.evidence == "" && t.author == Harness)
  {
    hide ScopeOf, RoundOf, CurrentAttempt, ScopesDisjoint, RoundsDisjoint;
    Choices(p.Budgets(session), unit);
    NoEmptyScope(p.Budgets(session));
  }

  lemma NoEmptyScope(b: Budgets)
    requires BudgetShape(b)
    ensures !b.Recovery("").backtracked
  {
  }

  lemma TerminationLeaves(p: Projection, t: Entry, session: string, unit: string)
    requires Shape(p) && p.Unit(session, unit).state == StateInFlight
    requires t.kind.KindTerminated? && t.session == session && t.unit == unit && t.attempt == p.Unit(session, unit).attempt && t.nodeKind == NoNodeKind
    ensures var q := Fold(p, t); var u := p.Unit(session, unit);
            && OnlyUnit(p, q, session, unit) && (forall s :: q.Budgets(s) == p.Budgets(s)) && q.inputs == p.inputs
            && q.Unit(session, unit) == u.(state := StateSettled, flight := NoFlight, outcome := t.outcome)
            && q.executions == SettleExecutions(p.executions, t)
  {
    hide Fold, Shape, SettleExecutions;
    UnitNames(p, session, unit);
    FoldLife(p, t);
  }

  lemma UnitNames(p: Projection, session: string, unit: string)
    requires Shape(p) && p.Known(session, unit)
    ensures var u := p.Unit(session, unit); u.session == session != "" && u.name == unit != "" && u.attempt != ""
  {
    assert UnitShape(UnitKey(session, unit), p.Unit(session, unit));
    AttemptNotEmpty(p.Unit(session, unit).attempt);
  }

  lemma DeliveryLeaves(p: Projection, e: Entry)
    requires e.kind.KindResult? && e.attempt == p.Unit(e.session, e.unit).attempt
    requires p.Unit(e.session, e.unit).state == StateSettled && p.Unit(e.session, e.unit).assurance.None?
    ensures var q := Fold(p, e);
            && OnlyUnit(p, q, e.session, e.unit) && (forall s :: q.Budgets(s) == p.Budgets(s)) && q.inputs == p.inputs
            && q.executions == p.executions
            && q.Unit(e.session, e.unit) == p.Unit(e.session, e.unit).(assurance := Some(AssuranceOf(e)))
  {
    hide Fold;
    FoldLife(p, e);
  }

  /** A termination is recordable of every named unit. */
  lemma TerminationRecordable(p: Projection, ref: string, session: string, unit: string, nonStart: bool)
    ensures AllValid(TerminateEntries(p, ref, session, unit, nonStart)) <==> session != "" && unit != ""
  {
    hide ScopeOf, Valid, CurrentAttempt;
    var outcome := TerminationOutcome(p.Unit(session, unit), p.Budgets(session).Recovery(Scope(p.Budgets(session), unit)), nonStart);
    var attempt, objective := CurrentAttempt(p, session, unit), Scope(p.Budgets(session), unit);
    BatchParts(p, ref, session, unit, nonStart);
    AttemptPresent(p, session, unit);
    if session != "" && unit != "" {
      TerminatedValid(session, unit, attempt, ref, outcome, objective);
      DeliveryValid(session, unit, attempt, ref, outcome, objective);
    } else {
      assert !Valid(TerminateEntries(p, ref, session, unit, nonStart)[0]) by { Nameless(TerminateEntries(p, ref, session, unit, nonStart)[0]); }
    }
  }

  lemma AttemptPresent(p: Projection, session: string, unit: string)
    ensures CurrentAttempt(p, session, unit) != ""
  {
    AttemptNamed();
  }

  lemma Nameless(e: Entry)
    requires e.kind.KindTerminated? && (e.session == "" || e.unit == "")
    ensures !Valid(e)
  {
  }

  /** Ending work in flight is always recordable, and leaves it finished. */
  lemma TerminationFinishes(history: seq<Entry>, ref: string, session: string, unit: string, nonStart: bool)
    requires var p := Project(history); Shape(p) && Sound(p.Budgets(session)) && p.Unit(session, unit).state == StateInFlight
    ensures var p := Project(history); var batch := TerminateEntries(p, ref, session, unit, nonStart);
            AllValid(batch) && FinishedAs(p, Project(history + batch), session, unit, nonStart)
  {
    hide Fold, Project, Shape, Sound, TerminateEntries, SettleExecutions, EndsAs, FinishedAs, OnlyUnit;
    var p := Project(history);
    var batch := TerminateEntries(p, ref, session, unit, nonStart);
    FinishRecordable(p, ref, session, unit, nonStart);
    TerminationMeans(p, ref, session, unit, nonStart);
    InFlightAttempt(p, session, unit);
    OneEntry(history, batch[0]);
    TerminationLeaves(p, batch[0], session, unit);
    var q := Fold(p, batch[0]);
    if |batch| == 2 {
      OneEntry(history + [batch[0]], batch[1]);
      assert history + batch == history + [batch[0]] + [batch[1]];
      DeliveryLeaves(q, batch[1]);
      Finished(p, q, Fold(q, batch[1]), batch[0], session, unit, nonStart);
    } else {
      assert batch == [batch[0]];
      assert OnlyUnit(q, q, session, unit) by { SelfOnly(q, session, unit); }
      Finished(p, q, q, batch[0], session, unit, nonStart);
    }
  }

  lemma SelfOnly(p: Projection, session: string, unit: string)
    ensures OnlyUnit(p, p, session, unit)
  {
  }

  lemma Finished(p: Projection, q: Projection, r: Projection, t: Entry, session: string, unit: string, nonStart: bool)
    requires t.session == session && t.unit == unit && t.attempt == p.Unit(session, unit).attempt
    requires EndsAs(p.Budgets(session), p.Unit(session, unit), unit, nonStart, t.outcome)
    requires OnlyUnit(p, q, session, unit) && (forall s :: q.Budgets(s) == p.Budgets(s)) && q.inputs == p.inputs
    requires q.executions == SettleExecutions(p.executions, t)
    requires q.Unit(session, unit) == p.Unit(session, unit).(state := StateSettled, flight := NoFlight, outcome := t.outcome)
    requires OnlyUnit(q, r, session, unit) && (forall s :: r.Budgets(s) == q.Budgets(s)) && r.inputs == q.inputs && r.executions == q.executions
    requires r.Unit(session, unit) == if t.outcome == Completed && q.Unit(session, unit).assurance.None?
                                      then q.Unit(session, unit).(assurance := Some(Assurance(Unverified, None, "", Harness)))
                                      else q.Unit(session, unit)
    ensures FinishedAs(p, r, session, unit, nonStart)
  {
    hide EndsAs, SettleExecutions;
    SettledByAttempt(p.executions, t);
  }

  lemma SettledByAttempt(executions: map<string, Execution>, e: Entry)
    ensures var q := SettleExecutions(executions, e);
            && q.Keys == executions.Keys
            && forall id | id in executions :: var d := executions[id];
                 q[id] == if d.root == e.session && d.unit == e.unit && d.attempt == e.attempt then d.(settled := true) else d
  {
  }

  // ---- Facts about work in flight ----

  /** What a recorded fact makes of work in flight. */
  predicate FactMakes(u: Unit, kind: Kind, v: Unit) {
    match kind
    case KindLaunched => v == u.(flight := FlightRunning, launched := true)
    case KindSuspended => v == u.(flight := FlightSuspended)
    case KindCancelRequested => v == u.(flight := FlightCancelling, cancelRequested := true)
    case KindUncertain => v == u.(flight := FlightUncertain)
    case KindUnmonitored => v == u.(flight := FlightUnmonitored)
    case _ => v == u
  }

  /** Only the unit moves, if it is in flight; a stop or an escalation is counted. */
  ghost predicate NotedAs(p: Projection, q: Projection, session: string, unit: string, kind: Kind) {
    var u, v := p.Unit(session, unit), q.Unit(session, unit);
    && OnlyUnit(p, q, session, unit) && q.executions == p.executions && q.inputs == p.inputs
    && (if u.state == StateInFlight then FactMakes(u, kind, v) else v == u)
    && (forall s | s != session :: q.Budgets(s) == p.Budgets(s))
    && var b, c := p.Budgets(session), q.Budgets(session);
       match kind
       case KindStopped => c == b.(stopped := b.stopped + 1)
       case KindEscalated => c == b.(escalated := b.escalated + 1)
       case _ => c == b
  }

  lemma NoteLeaves(p: Projection, ref: string, session: string, unit: string, kind: Kind)
    requires Shape(p) && (NoteKind(kind) || kind.KindLaunched?)
    ensures NotedAs(p, Fold(p, RecordEntry(p, ref, session, unit, kind)), session, unit, kind)
  {
    hide Fold, Shape, RecordEntry, NotedAs;
    if kind.KindStopped? || kind.KindEscalated? { CountLeaves(p, ref, session, unit, kind); } else { MoveLeaves(p, ref, session, unit, kind); }
  }

  /** Work in flight observed running. */
  lemma LaunchLeaves(p: Projection, ref: string, session: string, unit: string)
    requires Shape(p) && p.Unit(session, unit).state == StateInFlight
    ensures var e := RecordEntry(p, ref, session, unit, KindLaunched); Valid(e) && NotedAs(p, Fold(p, e), session, unit, KindLaunched)
  {
    hide Fold, Shape, RecordEntry, NotedAs, Valid;
    NamedInFlight(p, session, unit);
    NoteRecorded(p, ref, session, unit, KindLaunched);
    NoteLeaves(p, ref, session, unit, KindLaunched);
  }

  /** A fact or declaration is recordable of every named unit. */
  lemma NoteRecorded(p: Projection, ref: string, session: string, unit: string, kind: Kind)
    requires NoteKind(kind) || kind.KindLaunched?
    ensures Valid(RecordEntry(p, ref, session, unit, kind)) <==> session != "" && unit != ""
  {
    hide CurrentAttempt;
    AttemptPresent(p, session, unit);
  }

  lemma CountLeaves(p: Projection, ref: string, session: string, unit: string, kind: Kind)
    requires kind.KindStopped? || kind.KindEscalated?
    ensures NotedAs(p, Fold(p, RecordEntry(p, ref, session, unit, kind)), session, unit, kind)
  {
    hide Fold, CurrentAttempt;
    FoldBudget(p, RecordEntry(p, ref, session, unit, kind));
  }

  lemma MoveLeaves(p: Projection, ref: string, session: string, unit: string, kind: Kind)
    requires Shape(p) && (NoteKind(kind) || kind.KindLaunched?) && !kind.KindStopped? && !kind.KindEscalated?
    ensures NotedAs(p, Fold(p, RecordEntry(p, ref, session, unit, kind)), session, unit, kind)
  {
    hide Fold, Shape, CurrentAttempt, NextUnit, Accepts, FlightOf, FactMakes;
    var e := RecordEntry(p, ref, session, unit, kind);
    FoldLife(p, e);
    NotAccepted(p, session, unit, kind);
    if p.Unit(session, unit).state == StateInFlight {
      UnitNames(p, session, unit);
      InFlightAttempt(p, session, unit);
      FactNext(p.Unit(session, unit), e);
    }
  }

  lemma FactNext(u: Unit, e: Entry)
    requires (NoteKind(e.kind) || e.kind.KindLaunched?) && !e.kind.KindStopped? && !e.kind.KindEscalated?
    requires e.session == u.session && e.unit == u.name && e.attempt == u.attempt && e.nodeKind == NoNodeKind && u.state == StateInFlight
    ensures FactMakes(u, e.kind, NextUnit(u, e))
  {
  }

  lemma NotAccepted(p: Projection, session: string, unit: string, kind: Kind)
    requires NoteKind(kind) || kind.KindLaunched?
    ensures Accepts(p.Unit(session, unit), p.Known(session, unit), kind) <==> p.Unit(session, unit).state == StateInFlight
  {
  }

  /** Withdrawn, and nothing else about it or any other unit changed. */
  lemma WithdrawalLeaves(p: Projection, ref: string, session: string, unit: string)
    requires Shape(p) && p.Unit(session, unit).state == StatePlanned
    ensures var e := RecordEntry(p, ref, session, unit, KindWithdrawn); var q := Fold(p, e);
            && Valid(e) && OnlyUnit(p, q, session, unit) && q.executions == p.executions && (forall s :: q.Budgets(s) == p.Budgets(s))
            && q.Unit(session, unit) == p.Unit(session, unit).(state := StateWithdrawn)
  {
    hide Fold, Shape, Valid, CurrentAttempt;
    WithdrawnEffect(p, ref, session, unit);
    UnitNames(p, session, unit);
    PlannedAttempt(p, session, unit);
    FoldLife(p, RecordEntry(p, ref, session, unit, KindWithdrawn));
  }

  lemma PlannedAttempt(p: Projection, session: string, unit: string)
    requires Shape(p) && p.Known(session, unit)
    ensures CurrentAttempt(p, session, unit) == p.Unit(session, unit).attempt
  {
    UnitNames(p, session, unit);
  }
}
