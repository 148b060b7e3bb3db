/** The projection as the runtime holds it: maps updated in place, one recorded
    entry at a time. Each method refines the fold it is named after. */
module ReplayState {
  import opened Decimal
  import opened Record
  import opened Replay
  import opened Protocol
  import opened Licensing
  import opened Budgeting

  /** The rounds are visited in whatever order the map yields. */
  method FindRound(b: Budgets, unit: string) returns (version: string)
    requires "" !in b.qaRounds
    ensures version == "" ==> forall v :: !b.InRound(v, unit)
    ensures version != "" ==> b.InRound(version, unit)
  {
    var unseen := b.qaRounds.Keys;
    while unseen != {}
      invariant unseen <= b.qaRounds.Keys
      invariant forall v | b.InRound(v, unit) :: v in unseen
      decreases |unseen|
    {
      version :| version in unseen;
      if unit in b.qaRounds[version].round.units {
        return;
      }
      unseen := unseen - {version};
    }
    version := "";
  }

  /** Likewise the recoveries. */
  method FindScope(b: Budgets, unit: string) returns (objective: string)
    requires "" !in b.recoveries
    ensures objective == "" ==> forall o :: !b.InScope(o, unit)
    ensures objective != "" ==> b.InScope(objective, unit)
  {
    var unseen := b.recoveries.Keys;
    while unseen != {}
      invariant unseen <= b.recoveries.Keys
      invariant forall o | b.InScope(o, unit) :: o in unseen
      decreases |unseen|
    {
      objective :| objective in unseen;
      var r := b.recoveries[objective];
      if r.Unresolved() && unit in r.scope {
        return;
      }
      unseen := unseen - {objective};
    }
    objective := "";
  }

  /** With disjoint rounds and scopes, what a visit finds is what replay means. */
  lemma FoundIsMeant(b: Budgets, unit: string, objective: string, version: string)
    requires Sound(b)
    ensures (if objective == "" then forall o :: !b.InScope(o, unit) else b.InScope(objective, unit)) ==> objective == Scope(b, unit)
    ensures (if version == "" then forall v :: !b.InRound(v, unit) else b.InRound(version, unit)) ==> version == QARoundFor(b, unit)
  {
    ChoiceIsForced(b, unit);
    assert forall o :: Governs(b.recoveries, o, unit) == b.InScope(o, unit);
    assert forall v :: HoldsUnit(b.qaRounds, v, unit) == b.InRound(v, unit);
  }

  class ProjectionState {
    var inputs: map<UnitKey, seq<int>>
    var executions: map<string, Execution>
    var leases: map<string, int>
    var units: map<UnitKey, Unit>
    var activities: map<string, Activity>
    var sessions: map<string, Budgets>

    function Value(): Projection
      reads this
    {
      Projection(inputs, executions, leases, units, activities, sessions)
    }

    constructor ()
      ensures Value() == Empty
    {
      inputs, executions, leases, units, activities, sessions := map[], map[], map[], map[], map[], map[];
    }

    method Fold(e: Entry)
      requires BudgetShape(Value().Budgets(e.session)) && RoundsDisjoint(Value().Budgets(e.session))
      modifies this
      ensures Value() == Replay.Fold(old(Value()), e)
    {
      hide Budgeted, LinkedExecution, SettleExecutions, NextUnit, Replay.FoldExecution, Replay.FoldActivity, Replay.FoldUnit;
      if ExecutionKind(e.kind) {
        FoldExecution(e);
        return;
      }
      if e.kind.KindTerminated? {
        SettleAttempt(e);
      }
      if ActivityOf(e).Some? {
        FoldActivity(e, ActivityOf(e).value);
        return;
      }
      ghost var q := Value();
      assert q.Budgets(e.session) == old(Value()).Budgets(e.session);
      OpenSession(e.session);
      if e.kind.KindPlanned? {
        sessions := sessions[e.session := sessions[e.session].(planVersion := e.planVersion)];
      }
      ghost var versioned := sessions[e.session];
      assert RoundsDisjoint(versioned) && BudgetShape(versioned) by { VersionKeepsRounds(q.Budgets(e.session), versioned); }
      assert Value() == q.(sessions := q.sessions[e.session := versioned]);
      var accounted := Account(e);
      if !accounted {
        FoldUnit(e);
      }
    }

    /** The session's accounting, created on first sight. */
    method OpenSession(session: string)
      modifies this`sessions
      ensures sessions == old(sessions)[session := old(Value()).Budgets(session)]
    {
      if session !in sessions {
        sessions := sessions[session := NoBudgets];
      }
    }

    method FoldExecution(e: Entry)
      requires ExecutionKind(e.kind)
      modifies this
      ensures Value() == Replay.FoldExecution(old(Value()), e)
    {
      if e.kind.KindLease? {
        var last := if e.owner in leases then leases[e.owner] else 0;
        leases := leases[e.owner := Max(last, e.createdAt)];
        return;
      }
      if e.kind.KindInputs? {
        inputs := inputs[UnitKey(e.session, e.unit) := e.resultIds];
        return;
      }
      var d := ExecutionOf(Value(), e.dispatch);
      match e.kind {
        case KindExecution => d := Recorded(d, e);
        case KindLane => d := Recorded(d, e);
        case KindPrepared => d := d.(ready := true);
        case KindChild => d := d.(child := e.child);
        case KindDelivery =>
          var delivery := Delivered(d.delivery, e.resultIds);
          d := d.(delivery := delivery);
        case KindPrompt => d := d.(prompted := e.phase);
        case KindLaneStopped => d := d.(terminated := true);
        case KindExecutionEnded => d := d.(settled := true);
        case _ =>
      }
      executions := executions[e.dispatch := d];
    }

    /** A dispatch already recorded is never recorded again. */
    method Recorded(d: Execution, e: Entry) returns (next: Execution)
      requires e.kind.KindExecution? || e.kind.KindLane?
      ensures next == LinkedExecution(d, InputsOf(Value(), e.session, e.unit), e)
    {
      if d.dispatch != "" {
        return d;
      }
      next := Execution(e.dispatch, e.session, e.unit, e.attempt, e.agent, e.caller, e.child, e.createdAt,
                        InputsOf(Value(), e.session, e.unit), [], e.cycle, e.role, "", false, false, false, e.model, e.owner);
    }

    static method Delivered(known: seq<int>, ids: seq<int>) returns (delivery: seq<int>)
      ensures delivery == AppendNew(known, ids)
    {
      delivery := known;
      for i := 0 to |ids|
        invariant AppendNew(delivery, ids[i..]) == AppendNew(known, ids)
      {
        assert ids[i..][1..] == ids[i + 1..];
        if ids[i] !in delivery {
          delivery := delivery + [ids[i]];
        }
      }
    }

    method SettleAttempt(e: Entry)
      modifies this`executions
      ensures executions == SettleExecutions(old(executions), e)
    {
      var unseen := executions.Keys;
      while unseen != {}
        invariant unseen <= executions.Keys == old(executions.Keys)
        invariant forall id | id in unseen :: executions[id] == old(executions[id])
        invariant forall id | id in executions && id !in unseen :: executions[id] == SettleExecutions(old(executions), e)[id]
        decreases |unseen|
      {
        var id :| id in unseen;
        unseen := unseen - {id};
        if Names(executions[id], e) {
          executions := executions[id := executions[id].(settled := true)];
        }
      }
    }

    method FoldActivity(e: Entry, nodeKind: NodeKind)
      modifies this`activities
      ensures Value() == Replay.FoldActivity(old(Value()), e, nodeKind)
    {
      var id := e.activity;
      if ActivityStart(e.kind) {
        if id !in activities {
          activities := activities[id := Activity(id, e.session, nodeKind, StateInFlight, FlightRunning, NoOutcome, e.owner)];
        } else if activities[id].state == StateInFlight && e.owner != "" {
          activities := activities[id := activities[id].(owner := e.owner, flight := FlightRunning)];
        }
        return;
      }
      if id !in activities {
        return;
      }
      var a := activities[id];
      if a.session != e.session || a.nodeKind != nodeKind || a.state != StateInFlight {
        return;
      }
      if e.kind.KindUnmonitored? {
        a := a.(flight := FlightUnmonitored);
      } else {
        a := a.(state := StateSettled, flight := NoFlight, outcome := e.outcome);
      }
      activities := activities[id := a];
    }

    /** Session accounting; false for an entry that folds into a unit. */
    method Account(e: Entry) returns (accounted: bool)
      requires e.session in sessions
      modifies this`sessions
      ensures accounted <==> Budgeted(old(sessions[e.session]), e).Some?
      ensures accounted ==> sessions == old(sessions)[e.session := Budgeted(old(sessions[e.session]), e).value]
      ensures !accounted ==> sessions == old(sessions)
    {
      var b := sessions[e.session];
      var r := b.Recovery(e.objective);
      match e.kind {
        case KindQARound =>
          if e.qaRound.Some? { b := b.(qaRounds := b.qaRounds[e.planVersion := Strengthening(e.qaRound.value, false)]); }
        case KindDenied =>
        case KindContested => b := b.(contests := b.contests + {AttemptKey(e.unit, e.attempt)});
        case KindException => b := Grant(b, e);
        case KindStopped => b := b.(stopped := b.stopped + 1);
        case KindEscalated => b := b.(escalated := b.escalated + 1);
        case KindRecoveryDeclared =>
          b := b.(recoveries := b.recoveries[e.objective := DeclaredRecovery(r.failures, e)]);
        case KindActions =>
          r := r.(used := r.used + e.actions, cursor := RefSeq(e.journalRef));
          b := b.(recoveries := b.recoveries[e.objective := r]);
        case KindActionsUncertain =>
          r := r.(unreconciled := true);
          b := b.(recoveries := b.recoveries[e.objective := r]);
        case KindRestored =>
          r := r.(restored := true);
          b := b.(recoveries := b.recoveries[e.objective := r]);
        case KindRecoveryClosed =>
          r := r.(open := false, failures := if e.outcome == Completed then 0 else r.failures + 1);
          if e.outcome == Backtracked { r := r.(backtracked := true, cause := e.cause); }
          b := b.(recoveries := b.recoveries[e.objective := r]);
        case KindInterlocutorSwitched => b := b.(holder := e.unit, holderAgent := e.agent);
        case KindInterlocutorHandoff => b := b.(holder := "", holderAgent := "");
        case KindInterlocutorAborted => b := b.(holder := "", holderAgent := "");
        case KindRevised => b := b.(planVersion := e.planVersion);
        case KindInvalidRevision =>
        case KindSeatRestored =>
        case _ => return false;
      }
      sessions := sessions[e.session := b];
      accounted := true;
    }

    /** The user's exception: allowance beside what was consumed, the enabling
        decision for unestablished consumption, and the lifting of an
        abandonment. */
    static method Grant(b: Budgets, e: Entry) returns (next: Budgets)
      ensures next == Excepted(b, e)
    {
      var key := AllowanceKey(e.bound, e.objective);
      next := b.(allowance := b.allowance[key := b.Allowed(e.bound, e.objective) + e.allowance]);
      if e.bound == BoundRecoveryActions && e.objective != "" {
        var r := next.Recovery(e.objective).(unreconciled := false, cursor := RefSeq(e.journalRef));
        next := next.(recoveries := next.recoveries[e.objective := r]);
      }
      if e.bound == BoundRecoveryActions || e.bound == BoundRecoveryAttempts {
        var r := next.Recovery(e.objective);
        if e.objective != "" && r.backtracked && !r.restored {
          r := r.(open := true, backtracked := false, cause := NoCause);
          if r.failures > 0 { r := r.(failures := r.failures - 1); }
          next := next.(recoveries := next.recoveries[e.objective := r]);
        }
      }
    }

    method FoldUnit(e: Entry)
      requires e.session in sessions && BudgetShape(sessions[e.session]) && RoundsDisjoint(sessions[e.session])
      modifies this
      ensures Value() == Replay.FoldUnit(old(Value()), e)
    {
      hide NextUnit, Prevails;
      var key := UnitKey(e.session, e.unit);
      var u, known := Value().Unit(e.session, e.unit), Value().Known(e.session, e.unit);
      if !Accepts(u, known, e.kind) {
        return;
      }
      if e.kind.KindResult? {
        if e.attempt == u.attempt && Prevails(u.assurance, e) {
          units := units[key := u.(assurance := Some(AssuranceOf(e)))];
        }
        return;
      }
      if e.kind.KindAdmitted? {
        Spend(e, known);
      }
      units := units[key := NextUnit(u, e)];
    }

    /** What an admission spends: an uncovered unit, the start of its round, and
        an attempt of its recovery. */
    method Spend(e: Entry, known: bool)
      requires e.session in sessions && BudgetShape(sessions[e.session]) && RoundsDisjoint(sessions[e.session])
      modifies this`sessions
      ensures sessions == old(sessions)[e.session := AdmittedBudgets(old(sessions[e.session]), known, e)]
    {
      var b := sessions[e.session];
      if !known {
        b := b.(unplanned := b.unplanned + 1);
      }
      var version := FindRound(b, e.unit);
      RoundIsMeant(old(sessions[e.session]), b, e.unit, version);
      if version != "" {
        b := b.(qaRounds := b.qaRounds[version := b.qaRounds[version].(started := true)]);
      }
      if e.objective != "" {
        var r := b.Recovery(e.objective);
        if r.attempted.Some? {
          r := r.(attempted := Some(r.attempted.value + {AttemptKey(e.unit, e.attempt)}));
          b := b.(recoveries := b.recoveries[e.objective := r]);
        }
      }
      sessions := sessions[e.session := b];
    }
  }

  lemma VersionKeepsRounds(b: Budgets, c: Budgets)
    requires BudgetShape(b) && RoundsDisjoint(b) && c == b.(planVersion := c.planVersion)
    ensures BudgetShape(c) && RoundsDisjoint(c)
  {
    assert forall v, w :: c.InRound(v, w) == b.InRound(v, w);
  }

  lemma RoundIsMeant(was: Budgets, b: Budgets, unit: string, version: string)
    requires BudgetShape(was) && RoundsDisjoint(was) && b == was.(unplanned := b.unplanned)
    requires if version == "" then forall v :: !b.InRound(v, unit) else b.InRound(version, unit)
    ensures version == QARoundFor(b, unit)
  {
    var found := QARoundFor(b, unit);
    assert forall v, w :: HoldsUnit(b.qaRounds, v, w) == was.InRound(v, w) == b.InRound(v, w);
    assert (exists v :: HoldsUnit(b.qaRounds, v, unit)) ==> HoldsUnit(b.qaRounds, found, unit);
  }
}
