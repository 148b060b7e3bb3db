/** What the operations on executions are for, said of the executions alone. */
module Executions {
  import opened Decimal
  import opened Record
  import opened Replay
  import opened Protocol
  import opened Licensing
  import opened Runs
  import opened Effects
  import opened Verdicts

  /** Nothing but one execution differs, which is as given. */
  predicate ExecutionIs(p: Projection, q: Projection, dispatch: string, d: Execution) {
    q == p.(executions := p.executions[dispatch := d])
  }

  // ---- Preparation ----

  /** The unit runs under this dispatch and agent, which no execution records yet,
      and its inputs are declared. */
  predicate MayPrepare(p: Projection, r: Request, caller: string, owner: string) {
    var u := p.Unit(r.session, r.unit);
    && r.dispatch != "" && caller != "" && r.agent != "" && owner != "" && UnitKey(r.session, r.unit) in p.inputs
    && u.state == StateInFlight && u.dispatch == r.dispatch && u.agent == r.agent && r.dispatch !in p.executions
  }

  predicate SeatFits(seat: Option<Seat>) {
    seat.Some? ==> seat.value.model != "" && seat.value.reason != ""
  }

  /** The execution of the running attempt is recorded with its caller, its owner,
      its model and the inputs declared for it; nothing else has changed. */
  ghost predicate Begun(p: Projection, q: Projection, r: Request, caller: string, owner: string, now: int, model: string) {
    && q.units == p.units && q.inputs == p.inputs && (forall s :: q.Budgets(s) == p.Budgets(s))
    && UnitKey(r.session, r.unit) in p.inputs
    && q.executions == p.executions[r.dispatch :=
         Execution(r.dispatch, r.session, r.unit, p.Unit(r.session, r.unit).attempt, r.agent, caller, "", now,
                   p.inputs[UnitKey(r.session, r.unit)], [], "", NoRole, "", false, false, false, model, owner)]
  }

  lemma PreparationMeans(history: seq<Entry>, r: Request, caller: string, owner: string, now: int, model: string, seat: Option<Seat>)
    requires Shape(Project(history))
    ensures var p := Project(history); var batch := PreparationEntries(p, r, caller, owner, now, model, seat);
            && (batch != [] <==> MayPrepare(p, r, caller, owner))
            && (AllValid(batch) <==> !MayPrepare(p, r, caller, owner) || SeatFits(seat))
            && (batch != [] ==> Begun(p, Project(history + batch), r, caller, owner, now, model))
  {
    hide Fold, Project, Shape, Valid, Begun, SeatFits;
    var p := Project(history);
    var batch := PreparationEntries(p, r, caller, owner, now, model, seat);
    if batch != [] {
      NamedInFlight(p, r.session, r.unit);
      InFlightAttempt(p, r.session, r.unit);
      PreparedValid(batch[0]);
      OneEntry(history, batch[0]);
      PreparedBegins(p, batch[0], r, caller, owner, now, model);
      if seat.Some? {
        SeatValid(batch[1], seat);
        OneEntry(history + [batch[0]], batch[1]);
        assert history + batch == history + [batch[0]] + [batch[1]];
        SeatedBegins(p, Fold(p, batch[0]), batch[1], r, caller, owner, now, model);
      } else {
        assert SeatFits(seat) by { NoSeatFits(seat); }
        assert batch == [batch[0]];
      }
    }
  }

  lemma NoSeatFits(seat: Option<Seat>)
    requires seat.None?
    ensures SeatFits(seat)
  {
  }

  lemma PreparedValid(e: Entry)
    requires e.kind.KindExecution? && e.author == Harness && e.session != "" && e.unit != "" && e.attempt != "" && e.dispatch != ""
    ensures Valid(e)
  {
  }

  lemma SeatValid(e: Entry, seat: Option<Seat>)
    requires seat.Some? && e.session != "" && e.unit != "" && e.attempt != "" && e.agent != ""
    requires e == Blank.(author := Orchestrator, kind := KindSeatRestored, session := e.session, unit := e.unit, attempt := e.attempt,
                         agent := e.agent, model := seat.value.model, reason := seat.value.reason, cause := CauseNone)
    ensures Valid(e) <==> SeatFits(seat)
  {
  }

  lemma PreparedBegins(p: Projection, e: Entry, r: Request, caller: string, owner: string, now: int, model: string)
    requires MayPrepare(p, r, caller, owner)
    requires e == Blank.(author := Harness, kind := KindExecution, session := r.session, unit := r.unit, attempt := p.Unit(r.session, r.unit).attempt,
                         dispatch := r.dispatch, agent := r.agent, caller := caller, createdAt := now, owner := owner, model := model,
                         cause := CauseNone)
    ensures Begun(p, Fold(p, e), r, caller, owner, now, model)
  {
    hide Fold;
    FoldExec(p, e);
  }

  lemma SeatedBegins(p: Projection, q: Projection, e: Entry, r: Request, caller: string, owner: string, now: int, model: string)
    requires Begun(p, q, r, caller, owner, now, model) && e.kind.KindSeatRestored?
    ensures Begun(p, Fold(q, e), r, caller, owner, now, model)
  {
    hide Fold;
    FoldBudget(q, e);
  }

  // ---- Facts ----

  /** What a recorded fact makes of an execution; a delivery adds the results not
      delivered yet, once each. */
  predicate FactMarks(d: Execution, kind: Kind, phase: string, ids: seq<int>, m: Execution) {
    match kind
    case KindPrepared => m == d.(ready := true)
    case KindDelivery =>
      && m == d.(delivery := m.delivery) && d.delivery <= m.delivery
      && (forall id | id in m.delivery :: id in d.delivery || id in ids) && (forall id | id in ids :: id in m.delivery)
      && forall i, j | 0 <= i < j < |m.delivery| && |d.delivery| <= j :: m.delivery[i] != m.delivery[j]
    case KindPrompt => m == d.(prompted := phase)
    case KindLaneStopped => m == d.(terminated := true)
    case KindExecutionEnded => m == d.(settled := true)
    case _ => m == d
  }

  lemma {:induction false} NewAppended(known: seq<int>, ids: seq<int>)
    ensures var all := AppendNew(known, ids);
            && known <= all && (forall id | id in all :: id in known || id in ids) && (forall id | id in ids :: id in all)
            && forall i, j | 0 <= i < j < |all| && |known| <= j :: all[i] != all[j]
    decreases |ids|
  {
    if ids != [] {
      var next := if ids[0] in known then known else known + [ids[0]];
      NewAppended(next, ids[1..]);
      assert ids == [ids[0]] + ids[1..];
      var all := AppendNew(known, ids);
      assert next <= all && ids[0] in next;
      forall i, j | 0 <= i < j < |all| && |known| <= j ensures all[i] != all[j] {
        if j < |next| { assert all[i] == known[i] && all[j] == ids[0]; }
      }
    }
  }

  lemma FactLeaves(p: Projection, d: Execution, kind: Kind, phase: string, ids: seq<int>)
    requires Shape(p) && MarkKind(kind) && d.dispatch in p.executions
    ensures var q := Fold(p, ExecutionFactEntry(d, kind, "", phase, ids));
            && d.dispatch in q.executions && ExecutionIs(p, q, d.dispatch, q.executions[d.dispatch])
            && FactMarks(p.executions[d.dispatch], kind, phase, ids, q.executions[d.dispatch])
  {
    hide Fold, Shape, InputsOf;
    FoldExec(p, ExecutionFactEntry(d, kind, "", phase, ids));
    if kind.KindDelivery? { NewAppended(p.executions[d.dispatch].delivery, ids); }
  }

  /** A fact about a running execution is recordable: it names its attempt. */
  lemma FactRecordable(p: Projection, d: Execution, kind: Kind, child: string, phase: string, ids: seq<int>)
    requires Shape(p) && StillRuns(p, d) && (MarkKind(kind) || kind.KindChild?)
    ensures Valid(ExecutionFactEntry(d, kind, child, phase, ids))
  {
    assert ExecutionShape(d.dispatch, p.executions[d.dispatch]);
  }

  // ---- A child session ----

  /** Another execution than this one still claims the child. */
  predicate ClaimedElsewhere(p: Projection, dispatch: string, child: string) {
    exists id :: id in p.executions && id != dispatch && p.executions[id].child == child
                 && (!p.executions[id].settled || p.executions[id].cycle != "")
  }

  /** A running, prepared execution of the agent serves the child already, or serves
      none, while no other execution claims the child. */
  predicate MayAttach(p: Projection, dispatch: string, child: string, agent: string) {
    && dispatch in p.executions && child != ""
    && var d := p.executions[dispatch];
       && !d.settled && d.agent == agent && (d.ready || d.cycle != "")
       && (d.child == child || (d.child == "" && !ClaimedElsewhere(p, dispatch, child)))
  }

  lemma ClaimMeans(p: Projection, dispatch: string, child: string)
    requires Shape(p)
    ensures ChildTaken(p, dispatch, child) <==> ClaimedElsewhere(p, dispatch, child)
  {
    assert forall id | id in p.executions :: ExecutionShape(id, p.executions[id]);
    if ChildTaken(p, dispatch, child) {
      var id :| id in p.executions && p.executions[id].dispatch != dispatch && Holds(p.executions[id], child);
      assert p.executions[id].child == child;
    }
    if ClaimedElsewhere(p, dispatch, child) {
      var id :| id in p.executions && id != dispatch && p.executions[id].child == child && (!p.executions[id].settled || p.executions[id].cycle != "");
      assert Holds(p.executions[id], child);
    }
  }

  lemma AttachmentMeans(p: Projection, dispatch: string, child: string, agent: string)
    requires Shape(p)
    ensures var batch := AttachEntries(p, dispatch, child, agent);
            && AllValid(batch) && |batch| <= 1
            && (MayAttach(p, dispatch, child, agent) <==>
                  batch != [] || (dispatch in p.executions && child != "" && var d := p.executions[dispatch];
                                  !d.settled && d.agent == agent && (d.ready || d.cycle != "") && d.child == child))
            && (batch != [] ==> p.executions[dispatch].child == ""
                                && ExecutionIs(p, Fold(p, batch[0]), dispatch, p.executions[dispatch].(child := child)))
  {
    hide Fold, Shape, Valid, ClaimedElsewhere, ChildTaken, InputsOf;
    ClaimMeans(p, dispatch, child);
    if dispatch in p.executions {
      KeptUnder(p, dispatch);
      var d := p.executions[dispatch];
      var e := ExecutionFactEntry(d, KindChild, child, "", []);
      if !d.settled { FactRecordable(p, d, KindChild, child, "", []); }
      FoldExec(p, e);
    }
  }

  lemma KeptUnder(p: Projection, dispatch: string)
    requires Shape(p) && dispatch in p.executions
    ensures ExecutionShape(dispatch, p.executions[dispatch])
  {
  }

  // ---- Maintenance lanes ----

  /** Nothing stands against the lane: no execution claims the child for other work,
      and none of the cycle runs in the role or with the child. */
  predicate LaneOpen(p: Projection, cycle: string, role: Role, child: string) {
    forall id | id in p.executions ::
      var d := p.executions[id];
      && (d.child == child && (d.cycle != cycle || d.role != role) ==> d.settled && d.cycle == "")
      && (d.cycle == cycle && (d.role == role || d.child == child) ==> d.settled)
  }

  /** The cycle's lane already runs in the role with the child. */
  predicate LaneRuns(p: Projection, cycle: string, role: Role, child: string) {
    exists id :: id in p.executions && !p.executions[id].settled && p.executions[id].cycle == cycle
                 && p.executions[id].role == role && p.executions[id].child == child
  }

  lemma LaneMeans(p: Projection, cycle: string, role: Role, child: string)
    ensures LaneBlocked(p, cycle, role, child) <==> !LaneOpen(p, cycle, role, child)
    ensures LaneServed(p, cycle, role, child) <==> LaneRuns(p, cycle, role, child)
  {
    forall id | id in p.executions
      ensures LaneConflict(p.executions[id], cycle, role, child) <==>
              !(var d := p.executions[id];
                && (d.child == child && (d.cycle != cycle || d.role != role) ==> d.settled && d.cycle == "")
                && (d.cycle == cycle && (d.role == role || d.child == child) ==> d.settled))
    {
    }
    if LaneBlocked(p, cycle, role, child) {
      var id :| id in p.executions && LaneConflict(p.executions[id], cycle, role, child);
    }
    if LaneServed(p, cycle, role, child) {
      var id :| id in p.executions && Serves(p.executions[id], cycle, role, child);
    }
    if LaneRuns(p, cycle, role, child) {
      var id :| id in p.executions && !p.executions[id].settled && p.executions[id].cycle == cycle
                && p.executions[id].role == role && p.executions[id].child == child;
      assert Serves(p.executions[id], cycle, role, child);
    }
  }

  /** The lane recorded under a new dispatch, as the next attempt of its unit. */
  ghost predicate LaneOpened(p: Projection, q: Projection, root: string, cycle: string, role: Role, child: string, owner: string, now: int) {
    var dispatch := cycle + "/" + (if role == Verifier then "verifier" else "collector");
    var unit := if role == Verifier then cycle + "/verify" else cycle;
    if dispatch in p.executions then q == p
    else
      && dispatch in q.executions
      && var d := q.executions[dispatch];
         && ExecutionIs(p, q, dispatch, Execution(dispatch, root, unit, d.attempt, if role == Verifier then "verify" else "simplify", root, child, now,
                                                  InputsOf(p, root, unit), [], cycle, role, "", false, false, false, "", owner))
         && (p.Unit(root, unit).state != StateInFlight ==> OpensAttempt(p, root, unit, d.attempt))
  }

  lemma LaneLeaves(p: Projection, e: Entry)
    requires Shape(p) && e.kind.KindLane? && e.unit == LaneUnit(e.cycle, e.role) && e.role != NoRole
    requires e.attempt == NextAttempt(p, e.session, e.unit) && e.dispatch == e.cycle + "/" + RoleText(e.role)
    requires e.caller == e.session && e.agent == (if e.role == Verifier then "verify" else "simplify") && e.model == ""
    ensures LaneOpened(p, Fold(p, e), e.session, e.cycle, e.role, e.child, e.owner, e.createdAt)
  {
    hide Fold, NextAttempt, Shape, InputsOf, OpensAttempt;
    FoldExec(p, e);
    AttemptOpens(p, e.session, e.unit);
    if e.dispatch in p.executions {
      KeptUnder(p, e.dispatch);
      assert p.executions[e.dispatch := p.executions[e.dispatch]] == p.executions;
    }
  }
}
