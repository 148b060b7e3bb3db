/** Executions against units and child sessions: an unsettled delegation always
    is its unit's current attempt, and a child session serves one execution. */
module Linkage {
  import opened Record
  import opened Replay
  import opened Protocol
  import opened Licensing
  import opened Runs
  import opened Slots

  /** An unsettled ordinary execution is the exact attempt and dispatch its unit
      has in flight. */
  predicate Current(p: Projection, d: Execution) {
    !d.settled && d.cycle == "" ==>
      var u := p.Unit(d.root, d.unit);
      u.state == StateInFlight && u.attempt == d.attempt && u.dispatch == d.dispatch
  }

  ghost predicate AllCurrent(p: Projection) {
    forall id | id in p.executions :: Current(p, p.executions[id])
  }

  predicate LaneKey(id: string, d: Execution) {
    d.cycle != "" ==> id == d.cycle + "/" + RoleText(d.role) && d.role != NoRole
  }

  ghost predicate LanesKeyed(p: Projection) {
    forall id | id in p.executions :: LaneKey(id, p.executions[id])
  }

  ghost predicate HoldersUnique(p: Projection) {
    forall i, j, child | i in p.executions && j in p.executions && child != ""
        && Holds(p.executions[i], child) && Holds(p.executions[j], child) :: i == j
  }

  ghost predicate Linked(p: Projection) {
    AllCurrent(p) && LanesKeyed(p) && HoldersUnique(p)
  }

  // ---- Lifecycle entries ----

  lemma MoveCurrent(policy: Policy, p: Projection, e: Entry)
    requires Shape(p) && LifecycleKind(e) && Valid(e) && Licensed(policy, p, e) && AllCurrent(p)
    ensures AllCurrent(FoldLifecycle(p, e))
  {
    hide Valid, Licensed, MovedUnits, MovedSession, LifecycleKind, Shape;
    var q := FoldLifecycle(p, e);
    forall id | id in q.executions ensures Current(q, q.executions[id]) {
      var d := p.executions[id];
      assert Current(p, d);
      assert q.executions[id] == d || (q.executions[id] == d.(settled := true));
      if d.root == e.session && d.unit == e.unit {
        if !d.settled && d.cycle == "" { OwnerMoves(policy, p, e, d); }
      } else {
        OtherUnitsStay(p, e, d.root, d.unit);
      }
    }
  }

  /** While its execution is unsettled, a unit stays in flight under the same
      attempt and dispatch; a termination settles the execution with it. */
  lemma OwnerMoves(policy: Policy, p: Projection, e: Entry, d: Execution)
    requires Shape(p) && LifecycleKind(e) && Licensed(policy, p, e)
    requires d.root == e.session && d.unit == e.unit && !d.settled && d.cycle == "" && Current(p, d)
    ensures e.kind.KindTerminated? ==> Names(d, e)
    ensures !e.kind.KindTerminated? ==> Current(FoldLifecycle(p, e), d)
  {
    hide MovedSession, MovedExecutions;
    var u := p.Unit(e.session, e.unit);
    assert p.Known(e.session, e.unit) && UnitShape(UnitKey(e.session, e.unit), u);
    assert u.attempt != "" by { AttemptNotEmpty(u.attempt); }
    if e.kind.KindAdmitted? { AdmissionAccepted(policy, p, e); }
  }

  lemma MoveHolders(p: Projection, e: Entry)
    requires LanesKeyed(p) && HoldersUnique(p)
    ensures LanesKeyed(FoldLifecycle(p, e)) && HoldersUnique(FoldLifecycle(p, e))
  {
    hide MovedUnits, MovedSession;
    var q := FoldLifecycle(p, e);
    assert forall id | id in q.executions ::
      && id in p.executions && q.executions[id].cycle == p.executions[id].cycle
      && q.executions[id].role == p.executions[id].role && q.executions[id].child == p.executions[id].child
      && (p.executions[id].settled ==> q.executions[id].settled);
    forall id | id in q.executions ensures LaneKey(id, q.executions[id]) { assert LaneKey(id, p.executions[id]); }
    forall i, j, child | i in q.executions && j in q.executions && child != ""
        && Holds(q.executions[i], child) && Holds(q.executions[j], child) ensures i == j
    {
      assert Holds(p.executions[i], child) && Holds(p.executions[j], child);
    }
  }

  // ---- Execution entries ----

  /** The execution already held the child, or nothing else does. */
  ghost predicate ClaimAllowed(p: Projection, id: string, child: string) {
    || (id in p.executions && Holds(p.executions[id], child))
    || forall other | other in p.executions && other != id :: !Holds(p.executions[other], child)
  }

  /** An execution once recorded keeps its identity; only its child may be set,
      and it may settle. */
  lemma LinkedKeeps(d: Execution, inputs: seq<int>, e: Entry)
    requires d.dispatch != ""
    ensures var l := LinkedExecution(d, inputs, e);
            && l.root == d.root && l.unit == d.unit && l.attempt == d.attempt && l.dispatch == d.dispatch
            && l.cycle == d.cycle && l.role == d.role && (d.settled ==> l.settled)
            && l.child == if e.kind.KindChild? then e.child else d.child
  {
  }

  /** What an execution entry may do to the one execution it names. */
  lemma LinkedStep(policy: Policy, p: Projection, e: Entry)
    requires Shape(p) && ExecutionKind(e.kind) && !e.kind.KindLease? && !e.kind.KindInputs? && Licensed(policy, p, e)
    requires AllCurrent(p) && LanesKeyed(p)
    ensures var d := LinkedExecution(ExecutionOf(p, e.dispatch), InputsOf(p, e.session, e.unit), e);
            && Current(p, d) && LaneKey(e.dispatch, d)
            && (forall child | child != "" && Holds(d, child) :: ClaimAllowed(p, e.dispatch, child))
  {
    hide Licensed, ClaimAllowed;
    var id := e.dispatch;
    if id in p.executions {
      hide LinkedExecution;
      var d := p.executions[id];
      assert Current(p, d) && LaneKey(id, d) && d.dispatch == id != "";
      LinkedKeeps(d, InputsOf(p, e.session, e.unit), e);
      HeldClaim(policy, p, e);
    } else {
      FirstRecord(policy, p, e);
    }
  }

  lemma HeldClaim(policy: Policy, p: Projection, e: Entry)
    requires Shape(p) && ExecutionKind(e.kind) && Licensed(policy, p, e) && e.dispatch in p.executions
    ensures forall child | Holds(p.executions[e.dispatch], child) :: ClaimAllowed(p, e.dispatch, child)
    ensures e.kind.KindChild? ==> ClaimAllowed(p, e.dispatch, e.child)
  {
    hide Licensed;
    if e.kind.KindChild? { ChildFree(policy, p, e); }
  }

  lemma FirstRecord(policy: Policy, p: Projection, e: Entry)
    requires Shape(p) && ExecutionKind(e.kind) && !e.kind.KindLease? && !e.kind.KindInputs? && Licensed(policy, p, e)
    requires LanesKeyed(p) && e.dispatch !in p.executions
    ensures var d := LinkedExecution(NoExecution, InputsOf(p, e.session, e.unit), e);
            && Current(p, d) && LaneKey(e.dispatch, d)
            && (forall child | child != "" && Holds(d, child) :: ClaimAllowed(p, e.dispatch, child))
  {
    hide ClaimAllowed, LaneBlocked, ChildTaken, NextAttempt, Refusal, Shape, LanesKeyed, Holds;
    if e.kind.KindLane? { LaneFree(policy, p, e); }
    assert e.kind.KindLane? || e.kind.KindExecution?;
    var d := LinkedExecution(NoExecution, InputsOf(p, e.session, e.unit), e);
    HoldsOnlyItsChild(d);
    if e.kind.KindLane? { AllowFree(p, e.dispatch, e.child); }
  }

  lemma HoldsOnlyItsChild(d: Execution)
    ensures forall child | Holds(d, child) :: child == d.child
  {
  }

  lemma AllowFree(p: Projection, id: string, child: string)
    requires forall other | other in p.executions :: !Holds(p.executions[other], child)
    ensures ClaimAllowed(p, id, child)
  {
  }

  lemma ChildFree(policy: Policy, p: Projection, e: Entry)
    requires Shape(p) && e.kind.KindChild? && Licensed(policy, p, e)
    ensures forall other | other in p.executions && other != e.dispatch :: !Holds(p.executions[other], e.child)
  {
    forall other | other in p.executions && other != e.dispatch ensures !Holds(p.executions[other], e.child) {
      assert !ChildTaken(p, e.dispatch, e.child);
      assert p.executions[other].dispatch == other;
    }
  }

  lemma LaneFree(policy: Policy, p: Projection, e: Entry)
    requires e.kind.KindLane? && Licensed(policy, p, e) && LanesKeyed(p) && e.dispatch !in p.executions
    ensures forall other | other in p.executions :: !Holds(p.executions[other], e.child)
  {
    forall other | other in p.executions ensures !Holds(p.executions[other], e.child) {
      assert !LaneBlocked(p, e.cycle, e.role, e.child);
      assert !LaneConflict(p.executions[other], e.cycle, e.role, e.child);
      assert LaneKey(other, p.executions[other]);
    }
  }

  lemma SameUnits(p: Projection, q: Projection)
    requires q.units == p.units
    ensures forall d: Execution :: Current(q, d) == Current(p, d)
  {
  }

  lemma ExecutionKeepsLinks(policy: Policy, p: Projection, e: Entry)
    requires Shape(p) && ExecutionKind(e.kind) && Licensed(policy, p, e) && Linked(p)
    ensures Linked(FoldExecution(p, e))
  {
    hide Licensed, LinkedExecution, Shape, Holds, LaneKey, Current, ClaimAllowed, ExecutionOf, InputsOf, HoldersUnique;
    var q := FoldExecution(p, e);
    assert forall d: Execution :: Current(q, d) == Current(p, d) by { SameUnits(p, q); }
    if !e.kind.KindLease? && !e.kind.KindInputs? {
      LinkedStep(policy, p, e);
      OneStepLinked(p, q, e.dispatch, LinkedExecution(ExecutionOf(p, e.dispatch), InputsOf(p, e.session, e.unit), e));
    } else {
      SameLinks(p, q);
    }
  }

  lemma OneStepLinked(p: Projection, q: Projection, id: string, d: Execution)
    requires Linked(p) && q == p.(executions := p.executions[id := d])
    requires Current(p, d) && LaneKey(id, d)
    requires forall child | child != "" && Holds(d, child) :: ClaimAllowed(p, id, child)
    ensures Linked(q)
  {
    hide Holds, LaneKey, Current;
    SameUnits(p, q);
    forall i, j, child | i in q.executions && j in q.executions && child != ""
        && Holds(q.executions[i], child) && Holds(q.executions[j], child) ensures i == j
    {
      if i != id && j != id {
        assert q.executions[i] == p.executions[i] && q.executions[j] == p.executions[j];
      }
    }
  }

  lemma LinkedKept(policy: Policy, p: Projection, e: Entry)
    requires Shape(p) && Valid(e) && Licensed(policy, p, e) && Linked(p)
    ensures Linked(Fold(p, e))
  {
    hide Fold, Valid, Licensed, Shape, FoldExecution;
    Lanes(e);
    if LifecycleKind(e) {
      FoldLife(p, e);
      MoveCurrent(policy, p, e);
      MoveHolders(p, e);
    } else if ExecutionKind(e.kind) {
      FoldExec(p, e);
      ExecutionKeepsLinks(policy, p, e);
    } else {
      var q := Fold(p, e);
      if BudgetKind(e.kind) { FoldBudget(p, e); } else { FoldAct(p, e); }
      SameLinks(p, q);
    }
  }

  lemma SameLinks(p: Projection, q: Projection)
    requires Linked(p) && q.units == p.units && q.executions == p.executions
    ensures Linked(q)
  {
    forall id | id in q.executions ensures Current(q, q.executions[id]) { assert Current(p, p.executions[id]); }
  }

  lemma {:induction false} LicensedLinked(policy: Policy, history: seq<Entry>)
    requires LicensedHistory(policy, history)
    ensures Linked(Project(history))
  {
    hide Fold, Licensed, Valid, Shape, Linked;
    if history == [] {
      NothingLinked();
    } else {
      var n := |history| - 1;
      LastEntry(policy, history);
      LicensedLinked(policy, history[..n]);
      LinkedKept(policy, Project(history[..n]), history[n]);
    }
  }

  lemma NothingLinked()
    ensures Linked(Project([]))
  {
  }

  // ---- What a maintainer reads ----

  /** In every reachable state, an unsettled ordinary execution is its unit's
      attempt in flight, and the only such execution of that unit. */
  lemma ExecutionsAreCurrent(policy: Policy, commands: seq<Command>, id: string, other: string)
    requires var x := Reached(policy, commands).executions;
             id in x && other in x && !x[id].settled && !x[other].settled && x[id].cycle == "" && x[other].cycle == ""
    ensures var p := Reached(policy, commands); var d := p.executions[id];
            && p.Unit(d.root, d.unit).state == StateInFlight
            && p.Unit(d.root, d.unit).attempt == d.attempt && p.Unit(d.root, d.unit).dispatch == id
            && (p.executions[other].root == d.root && p.executions[other].unit == d.unit ==> other == id)
  {
    hide Reached;
    var p := Reached(policy, commands);
    RunLinked(policy, commands);
    assert Current(p, p.executions[id]) && Current(p, p.executions[other]);
    assert p.executions[id].dispatch == id && p.executions[other].dispatch == other;
  }

  lemma RunLinked(policy: Policy, commands: seq<Command>)
    ensures Linked(Reached(policy, commands)) && Shape(Reached(policy, commands))
  {
    RunIsLicensed(policy, commands);
    LicensedLinked(policy, Execute(policy, commands));
    RunShape(policy, commands);
  }

  predicate ServesChild(p: Projection, id: string, child: string, agent: string) {
    id in p.executions && !p.executions[id].settled && p.executions[id].child == child
    && (agent == "" || p.executions[id].agent == agent)
  }

  /** No two unsettled executions share a child session, so the execution found
      for a child does not depend on map order. */
  lemma OneExecutionPerChild(policy: Policy, commands: seq<Command>, i: string, j: string, child: string)
    requires child != ""
    requires ServesChild(Reached(policy, commands), i, child, "") && ServesChild(Reached(policy, commands), j, child, "")
    ensures i == j
  {
    hide Reached;
    var p := Reached(policy, commands);
    RunLinked(policy, commands);
    assert Holds(p.executions[i], child) && Holds(p.executions[j], child);
  }
}
