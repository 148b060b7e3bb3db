/** The coordination requests around the protocol: a repeated admission, a
    prepared delegation and its compensation, and an abandoned one. */
module Coordination {
  import opened Decimal
  import opened Record
  import opened Replay
  import opened Protocol
  import opened Licensing
  import opened Runs
  import opened Budgeting
  import opened Linkage
  import opened Effects
  import opened Verdicts
  import opened Executions
  import opened Ledger

  /** A repeated host call: the unit was admitted under this dispatch already. */
  predicate Repeats(u: Unit, dispatch: string) {
    u.state != NoState && u.state != StatePlanned && (dispatch == "" || u.dispatch == dispatch)
  }

  predicate RunsUnder(p: Projection, r: Request) {
    var u := p.Unit(r.session, r.unit);
    u.state == StateInFlight && u.dispatch == r.dispatch
  }

  // ---- Admission ----

  /** Named work that may be admitted, and was not under this dispatch. */
  ghost predicate Admissible(policy: Policy, p: Projection, r: Request) {
    var u := p.Unit(r.session, r.unit);
    && r.unit != "" && r.session != ""
    && (u.state == NoState || u.state == StatePlanned || (r.dispatch != "" && u.dispatch != r.dispatch))
    && MayAdmit(policy, p, r.session, r.unit)
  }

  lemma AdmissibleMeans(policy: Policy, p: Projection, r: Request)
    ensures Admissible(policy, p, r)
            <==> r.unit != "" && r.session != "" && !Repeats(p.Unit(r.session, r.unit), r.dispatch) && MayAdmit(policy, p, r.session, r.unit)
  {
    hide MayAdmit;
  }

  ghost predicate SameWork(p: Projection, q: Projection) {
    q.units == p.units && q.executions == p.executions && q.inputs == p.inputs && forall s :: q.Budgets(s) == p.Budgets(s)
  }

  lemma AdmittedRuns(p: Projection, q: Projection, r: Request)
    requires AdmittedAs(p, q, r)
    ensures OnlyUnit(p, q, r.session, r.unit) && RunsUnder(q, r) && q.Unit(r.session, r.unit).agent == r.agent
    ensures q.executions == p.executions && q.inputs == p.inputs
    ensures OpensAttempt(p, r.session, r.unit, q.Unit(r.session, r.unit).attempt)
  {
    hide OpensAttempt, AdmissionAccounted;
  }

  /** A repeat yields its recorded disposition; another dispatch of the same
      unit is a retry, never a copy of this admission. */
  method AdmitOnce(h: History, ref: string, r: Request) returns (repeated: bool, admitted: bool)
    requires h.Valid()
    modifies h
    ensures h.Valid()
    ensures var u := old(h.Now()).Unit(r.session, r.unit);
            repeated <==> u.state != NoState && u.state != StatePlanned && (r.dispatch == "" || u.dispatch == r.dispatch)
    ensures repeated ==> h.entries == old(h.entries) && !admitted
    ensures !repeated ==> h.commands == old(h.commands) + [Command.Admit(ref, r)]
    ensures admitted <==> Admissible(h.policy, old(h.Now()), r)
    ensures admitted ==> AdmittedAs(old(h.Now()), h.Now(), r) && Repeats(h.Now().Unit(r.session, r.unit), r.dispatch)
    ensures !admitted ==> SameWork(old(h.Now()), h.Now())
  {
    hide Execute, Project, Shape, Sound, Linkage.Linked, MayAdmit, Admissible, AdmittedAs;
    admitted := false;
    var p := h.Project();
    AdmissibleMeans(h.policy, p, r);
    repeated := Repeats(p.Unit(r.session, r.unit), r.dispatch);
    if repeated {
      return;
    }
    admitted := h.Admit(ref, r);
    if admitted { AdmittedRuns(p, h.Now(), r); }
  }

  // ---- Termination ----

  /** Ends whatever the unit has in flight. */
  method EndAttempt(h: History, ref: string, session: string, unit: string)
    requires h.Valid()
    modifies h
    ensures h.Valid() && OnlyUnit(old(h.Now()), h.Now(), session, unit) && h.Now().Unit(session, unit).state != StateInFlight
    ensures old(h.Now()).Unit(session, unit).state == StateInFlight ==> FinishedAs(old(h.Now()), h.Now(), session, unit, false)
  {
    hide Execute, Project, EndsAs;
    var _ := h.Finish(ref, session, unit);
  }

  // ---- Abandoning ----

  /** The unit still has this very execution in flight. In every reachable state
      an ordinary execution that has not settled does. */
  predicate RunsAs(p: Projection, d: Execution) {
    var u := p.Unit(d.root, d.unit);
    u.state == StateInFlight && u.dispatch == d.dispatch && u.attempt == d.attempt
  }

  /** Ends an ordinary delegation the host can no longer prove terminated: its
      attempt never completes, and its slot is released. `released` is whether
      its prepared gates could be cancelled. */
  method Abandon(h: History, ref: string, dispatch: string, released: bool) returns (known: bool)
    requires h.Valid()
    modifies h
    ensures h.Valid()
    ensures known <==> dispatch in old(h.Now()).executions && old(h.Now()).executions[dispatch].cycle == ""
    ensures !known || old(h.Now()).executions[dispatch].settled ==> h.entries == old(h.entries)
    ensures known && !old(h.Now()).executions[dispatch].settled ==>
              if released then AbandonedAs(old(h.Now()), h.Now(), dispatch)
              else CancellingAs(old(h.Now()), h.Now(), dispatch)
  {
    hide Execute, Project, Shape, Linkage.Linked, Sound, AbandonedAs, CancellingAs, NotedAs, FinishedAs;
    var p := h.Project();
    if dispatch !in p.executions || p.executions[dispatch].cycle != "" {
      return false;
    }
    known := true;
    var d := p.executions[dispatch];
    if d.settled {
      return;
    }
    if !RunsAs(p, d) {
      var _ := h.Fact(d, KindExecutionEnded, "", []);
      RunningIsCurrent(p, dispatch);
      assert false;
    }
    RunningIsCurrent(p, dispatch);
    var _ := h.Note(ref, d.root, d.unit, KindCancelRequested);
    ghost var q := h.Now();
    Cancelling(p, q, dispatch);
    if released {
      EndAttempt(h, ref, d.root, d.unit);
      CancelledEnds(p, q, h.Now(), dispatch);
    }
  }

  /** The attempt is still in flight, asked to cancel, and nothing else changed. */
  ghost predicate CancellingAs(p: Projection, q: Projection, dispatch: string)
    requires dispatch in p.executions
  {
    var d := p.executions[dispatch];
    && OnlyUnit(p, q, d.root, d.unit) && q.executions == p.executions && (forall s :: q.Budgets(s) == p.Budgets(s))
    && q.Unit(d.root, d.unit) == p.Unit(d.root, d.unit).(flight := FlightCancelling, cancelRequested := true)
  }

  /** The attempt is settled, backtracked with its recovery or else interrupted, and
      the execution with it. */
  ghost predicate AbandonedAs(p: Projection, q: Projection, dispatch: string)
    requires dispatch in p.executions
  {
    var d := p.executions[dispatch]; var u, b := q.Unit(d.root, d.unit), p.Budgets(d.root);
    && OnlyUnit(p, q, d.root, d.unit) && dispatch in q.executions && q.executions[dispatch] == d.(settled := true)
    && u.state == StateSettled && u.attempt == d.attempt
    && u.outcome == if exists o :: b.InScope(o, d.unit) && b.Recovery(o).backtracked then Backtracked else Interrupted
  }

  lemma Cancelling(p: Projection, q: Projection, dispatch: string)
    requires dispatch in p.executions
    requires var d := p.executions[dispatch]; RunsAs(p, d) && NotedAs(p, q, d.root, d.unit, KindCancelRequested)
    ensures CancellingAs(p, q, dispatch)
  {
  }

  lemma CancelledEnds(p: Projection, q: Projection, r: Projection, dispatch: string)
    requires dispatch in p.executions && CancellingAs(p, q, dispatch)
    requires var d := p.executions[dispatch]; RunsAs(p, d) && FinishedAs(q, r, d.root, d.unit, false)
    ensures AbandonedAs(p, r, dispatch)
  {
    var d := p.executions[dispatch];
    OnlyUnitOn(p, q, r, d.root, d.unit);
  }

  lemma RunningIsCurrent(p: Projection, id: string)
    requires Linkage.Linked(p) && Shape(p) && id in p.executions && !p.executions[id].settled && p.executions[id].cycle == ""
    ensures var d := p.executions[id]; d.dispatch == id && RunsAs(p, d) && d.root != "" && d.unit != ""
  {
    assert Current(p, p.executions[id]) && ExecutionShape(id, p.executions[id]);
  }

  lemma OnlyUnitOn(p: Projection, q: Projection, s: Projection, session: string, unit: string)
    requires OnlyUnit(p, q, session, unit) && OnlyUnit(q, s, session, unit)
    ensures OnlyUnit(p, s, session, unit)
  {
  }

  lemma SameUnitsOnly(p: Projection, q: Projection, session: string, unit: string)
    requires q.units == p.units
    ensures OnlyUnit(p, q, session, unit)
  {
  }

  // ---- Preparing a delegation ----

  datatype Gates = Open | RefusedBefore | RefusedAfter

  datatype Preparation = Refused | Compensated | AlreadyPrepared | Launchable

  /** The request asks for what an earlier one under this dispatch did not. */
  predicate Conflicting(p: Projection, r: Request, caller: string, model: string) {
    && r.dispatch in p.executions
    && var prior := p.executions[r.dispatch];
       || prior.root != r.session || prior.unit != r.unit || prior.caller != caller || prior.agent != r.agent
       || (prior.model != "" && prior.model != model)
  }

  predicate Proper(p: Projection, r: Request, caller: string, owner: string, declared: bool) {
    r.dispatch != "" && caller != "" && r.agent != "" && owner != "" && UnitKey(r.session, r.unit) in p.inputs && declared
  }

  predicate Concluded(p: Projection, r: Request) {
    r.dispatch in p.executions && (p.executions[r.dispatch].ready || p.executions[r.dispatch].settled)
  }

  /** The execution a resumed preparation continues is one of the inputs declared
      now; a new one names its seat whole. */
  predicate Continues(p: Projection, r: Request, seat: Option<Seat>) {
    if r.dispatch in p.executions then UnitKey(r.session, r.unit) in p.inputs && p.executions[r.dispatch].inputs == p.inputs[UnitKey(r.session, r.unit)]
    else SeatFits(seat)
  }

  /** The child asked for is the one served, or there is none and no other execution
      claims it. */
  predicate ChildFits(p: Projection, r: Request, child: string) {
    || child == "" || (r.dispatch in p.executions && p.executions[r.dispatch].child == child)
    || ((r.dispatch in p.executions ==> p.executions[r.dispatch].child == "") && !ClaimedElsewhere(p, r.dispatch, child))
  }

  /** The unit runs under this dispatch and agent already, or may be admitted. */
  ghost predicate MayRun(policy: Policy, p: Projection, r: Request) {
    (RunsUnder(p, r) && p.Unit(r.session, r.unit).agent == r.agent) || Admissible(policy, p, r)
  }

  ghost predicate MayLaunch(policy: Policy, p: Projection, r: Request, caller: string, owner: string, model: string,
                            seat: Option<Seat>, child: string, declared: bool) {
    && Proper(p, r, caller, owner, declared) && !Conflicting(p, r, caller, model) && !Concluded(p, r)
    && Continues(p, r, seat) && MayRun(policy, p, r) && ChildFits(p, r, child)
  }

  /** The unit runs under this dispatch, in the attempt it had or one just opened. Its
      execution, the only one that differs, names what the request asks for, of the
      inputs declared before, and is prepared and linked to the child. */
  ghost predicate LaunchedAs(p: Projection, q: Projection, r: Request, caller: string, owner: string, now: int, model: string, child: string) {
    var u := q.Unit(r.session, r.unit);
    && RunsUnder(q, r) && OnlyUnit(p, q, r.session, r.unit)
    && (if RunsUnder(p, r) then u == p.Unit(r.session, r.unit) else OpensAttempt(p, r.session, r.unit, u.attempt))
    && r.dispatch in q.executions && UnitKey(r.session, r.unit) in p.inputs
    && var d := q.executions[r.dispatch];
       && q.executions == p.executions[r.dispatch := d] && d.inputs == p.inputs[UnitKey(r.session, r.unit)]
       && d == (if r.dispatch in p.executions then p.executions[r.dispatch]
                else Execution(r.dispatch, r.session, r.unit, u.attempt, r.agent, caller, "", now, d.inputs, [], "", NoRole, "", false, false, false, model, owner))
               .(ready := true, child := if child == "" then d.child else child)
       && (child == "" ==> d.child == if r.dispatch in p.executions then p.executions[r.dispatch].child else "")
  }

  /** The same request again finds its preparation concluded. */
  lemma LaunchedRepeats(p: Projection, q: Projection, r: Request, caller: string, owner: string, now: int, model: string, child: string)
    requires LaunchedAs(p, q, r, caller, owner, now, model, child) && !Conflicting(p, r, caller, model)
    ensures !Conflicting(q, r, caller, model) && Concluded(q, r)
  {
  }

  /** Only an attempt this very dispatch holds is ended. */
  method Revert(h: History, ref: string, r: Request) returns (ended: bool)
    requires h.Valid()
    modifies h
    ensures h.Valid() && OnlyUnit(old(h.Now()), h.Now(), r.session, r.unit)
    ensures ended <==> RunsUnder(old(h.Now()), r)
    ensures if ended then FinishedAs(old(h.Now()), h.Now(), r.session, r.unit, false) else h.entries == old(h.entries)
  {
    hide Execute, Project, Shape, Linkage.Linked, Sound, FinishedAs;
    var p := h.Project();
    SameUnitsOnly(p, p, r.session, r.unit);
    ended := RunsUnder(p, r);
    if ended {
      EndAttempt(h, ref, r.session, r.unit);
    }
  }

  /** The execution already recorded under this dispatch is the one the request names. */
  predicate Matches(p: Projection, r: Request) {
    r.dispatch in p.executions ==>
      var d := p.executions[r.dispatch]; d.root == r.session && d.unit == r.unit && d.agent == r.agent && !d.settled
  }

  /** Admitted once, and recorded: a prior execution stands, a new one is begun. */
  ghost predicate RecordedAs(p: Projection, q: Projection, r: Request, caller: string, owner: string, now: int, model: string) {
    && RunsUnder(q, r) && OnlyUnit(p, q, r.session, r.unit)
    && (if RunsUnder(p, r) then q.units == p.units else OpensAttempt(p, r.session, r.unit, q.Unit(r.session, r.unit).attempt))
    && UnitKey(r.session, r.unit) in p.inputs
    && if r.dispatch in p.executions then q.executions == p.executions
       else q.executions == p.executions[r.dispatch :=
              Execution(r.dispatch, r.session, r.unit, q.Unit(r.session, r.unit).attempt, r.agent, caller, "", now,
                        p.inputs[UnitKey(r.session, r.unit)], [], "", NoRole, "", false, false, false, model, owner)]
  }

  /** The admission inside the gates: admit once, and record the execution of
      the admitted attempt if it is not recorded yet. */
  method AdmitAndRecord(h: History, ref: string, r: Request, caller: string, owner: string, now: int, model: string, seat: Option<Seat>)
    returns (ok: bool)
    requires h.Valid() && Proper(h.Now(), r, caller, owner, true) && Matches(h.Now(), r)
    modifies h
    ensures h.Valid() && OnlyUnit(old(h.Now()), h.Now(), r.session, r.unit)
    ensures ok <==> MayRun(h.policy, old(h.Now()), r) && (r.dispatch in old(h.Now()).executions || SeatFits(seat))
    ensures ok ==> RecordedAs(old(h.Now()), h.Now(), r, caller, owner, now, model)
    ensures RunsUnder(h.Now(), r) ==> RunsUnder(old(h.Now()), r) || MayRun(h.policy, old(h.Now()), r)
    ensures RunsUnder(old(h.Now()), r) ==> h.Now().units == old(h.Now()).units
  {
    hide Execute, Project, Shape, Linkage.Linked, Sound, OnlyUnit, MayAdmit, AdmittedAs, Begun, SeatFits, OpensAttempt;
    ghost var p := h.Now();
    AdmissibleMeans(h.policy, p, r);
    SameUnitsOnly(p, p, r.session, r.unit);
    var repeated, admitted := AdmitOnce(h, ref, r);
    SameUnitsOnly(p, p.(executions := h.Now().executions), r.session, r.unit);
    if !repeated && !admitted {
      SameUnitsOnly(p, h.Now(), r.session, r.unit);
      return false;
    }
    var q := h.Project();
    if admitted { AdmittedRuns(p, q, r); } else { SameUnitsOnly(p, q, r.session, r.unit); }
    if !RunsUnder(q, r) || q.Unit(r.session, r.unit).agent != r.agent {
      return false;
    }
    if r.dispatch in q.executions {
      return true;
    }
    ok := h.Prepare(r, caller, owner, now, model, seat);
    ghost var s := h.Now();
    if ok { assert Begun(q, s, r, caller, owner, now, model); BegunUnits(q, s, r, caller, owner, now, model); }
    SameUnitsOnly(q, s, r.session, r.unit);
    OnlyUnitOn(p, q, s, r.session, r.unit);
  }

  lemma BegunUnits(p: Projection, q: Projection, r: Request, caller: string, owner: string, now: int, model: string)
    requires Begun(p, q, r, caller, owner, now, model)
    ensures q.units == p.units && UnitKey(r.session, r.unit) in p.inputs
    ensures q.executions == p.executions[r.dispatch :=
              Execution(r.dispatch, r.session, r.unit, p.Unit(r.session, r.unit).attempt, r.agent, caller, "", now,
                        p.inputs[UnitKey(r.session, r.unit)], [], "", NoRole, "", false, false, false, model, owner)]
  {
  }

  /** The last steps: the execution is marked prepared and linked to its child. */
  method MarkAndAttach(h: History, r: Request, child: string) returns (ok: bool)
    requires h.Valid() && r.dispatch in h.Now().executions && Matches(h.Now(), r)
    modifies h
    ensures h.Valid() && h.Now().units == old(h.Now()).units
    ensures ok <==> ChildFits(old(h.Now()), r, child)
    ensures ok ==> var d := old(h.Now()).executions[r.dispatch];
                   ExecutionIs(old(h.Now()), h.Now(), r.dispatch, d.(ready := true, child := if child == "" then d.child else child))
  {
    hide Execute, Project, Shape, Linkage.Linked, Sound, ClaimedElsewhere;
    ghost var p := h.Now();
    var q := h.Project();
    var d := q.executions[r.dispatch];
    KeptUnder(q, r.dispatch);
    ok := h.Fact(d, KindPrepared, "", []);
    ghost var s := h.Now();
    ClaimsStay(p, s, r.dispatch, child);
    if child == "" {
      return;
    }
    ok := h.AttachChild(r.dispatch, child, r.agent);
  }

  lemma ClaimsStay(p: Projection, q: Projection, dispatch: string, child: string)
    requires dispatch in q.executions && ExecutionIs(p, q, dispatch, q.executions[dispatch])
    ensures ClaimedElsewhere(q, dispatch, child) == ClaimedElsewhere(p, dispatch, child)
  {
    assert forall id | id != dispatch :: (id in q.executions <==> id in p.executions) && (id in p.executions ==> q.executions[id] == p.executions[id]);
  }

  /** One locked preparation. A request at odds with what its dispatch did, or
      not proper, changes nothing; one already concluded is reported as such. Any
      other ends launchable exactly when it may and the gates stay open; if not, no
      slot stays reserved under this dispatch: whatever it had in flight is ended. */
  method PrepareExecution(h: History, ref: string, r: Request, caller: string, owner: string, now: int, model: string,
                          seat: Option<Seat>, child: string, declared: bool, gates: Gates)
    returns (outcome: Preparation)
    requires h.Valid()
    modifies h
    ensures h.Valid() && OnlyUnit(old(h.Now()), h.Now(), r.session, r.unit)
    ensures outcome.AlreadyPrepared? <==> !Conflicting(old(h.Now()), r, caller, model) && Concluded(old(h.Now()), r)
    ensures outcome.Launchable? <==> MayLaunch(h.policy, old(h.Now()), r, caller, owner, model, seat, child, declared) && gates.Open?
    ensures outcome.Launchable? ==> LaunchedAs(old(h.Now()), h.Now(), r, caller, owner, now, model, child)
    ensures Conflicting(old(h.Now()), r, caller, model) || Concluded(old(h.Now()), r) || !Proper(old(h.Now()), r, caller, owner, declared) ==>
              h.entries == old(h.entries)
    ensures gates.RefusedBefore? && r.dispatch !in old(h.Now()).executions && !RunsUnder(old(h.Now()), r) ==> h.entries == old(h.entries)
    ensures outcome.Refused? || outcome.Compensated? ==>
              !RunsUnder(h.Now(), r) || Conflicting(old(h.Now()), r, caller, model) || !Proper(old(h.Now()), r, caller, owner, declared)
    ensures outcome.Compensated? ==> h.Now().Unit(r.session, r.unit).state != StateInFlight
  {
    hide Execute, Project, Shape, Linkage.Linked, Sound, OnlyUnit, MayRun, SeatFits, OpensAttempt, ClaimedElsewhere, EndsAs;
    var p := h.Project();
    SameUnitsOnly(p, p, r.session, r.unit);
    if r.dispatch in p.executions {
      var prior := p.executions[r.dispatch];
      if prior.root != r.session || prior.unit != r.unit || prior.caller != caller || prior.agent != r.agent {
        return Refused;
      }
      if prior.model != "" && prior.model != model {
        return Refused;
      }
      if prior.ready || prior.settled {
        return AlreadyPrepared;
      }
    }
    if r.dispatch == "" || caller == "" || r.agent == "" || owner == "" || UnitKey(r.session, r.unit) !in p.inputs || !declared {
      return Refused;
    }
    if r.dispatch in p.executions && p.executions[r.dispatch].inputs != p.inputs[UnitKey(r.session, r.unit)] {
      EndAttempt(h, ref, r.session, r.unit);
      return Compensated;
    }
    if gates.RefusedBefore? {
      var ended := Revert(h, ref, r);
      return if ended then Compensated else Refused;
    }
    var admitted := AdmitAndRecord(h, ref, r, caller, owner, now, model, seat);
    ghost var q := h.Now();
    if !admitted || gates.RefusedAfter? {
      var ended := Revert(h, ref, r);
      OnlyUnitOn(p, q, h.Now(), r.session, r.unit);
      return if ended then Compensated else Refused;
    }
    RecordedFits(p, q, r, caller, owner, now, model, child);
    var ready := MarkAndAttach(h, r, child);
    ghost var s := h.Now();
    SameUnitsOnly(q, s, r.session, r.unit);
    OnlyUnitOn(p, q, s, r.session, r.unit);
    if !ready {
      EndAttempt(h, ref, r.session, r.unit);
      OnlyUnitOn(p, s, h.Now(), r.session, r.unit);
      return Compensated;
    }
    Launches(p, q, s, r, caller, owner, now, model, child);
    return Launchable;
  }

  /** Recording the execution leaves the child as free as it was. */
  lemma RecordedFits(p: Projection, q: Projection, r: Request, caller: string, owner: string, now: int, model: string, child: string)
    requires RecordedAs(p, q, r, caller, owner, now, model)
    ensures ChildFits(q, r, child) <==> ChildFits(p, r, child)
    ensures r.dispatch in q.executions && (Matches(p, r) ==> Matches(q, r))
  {
    assert forall id | id != r.dispatch :: (id in q.executions <==> id in p.executions) && (id in p.executions ==> q.executions[id] == p.executions[id]);
  }

  lemma Launches(p: Projection, q: Projection, s: Projection, r: Request, caller: string, owner: string, now: int, model: string, child: string)
    requires RecordedAs(p, q, r, caller, owner, now, model) && r.dispatch in q.executions
    requires r.dispatch in p.executions ==> p.executions[r.dispatch].inputs == p.inputs[UnitKey(r.session, r.unit)]
    requires var d := q.executions[r.dispatch];
             ExecutionIs(q, s, r.dispatch, d.(ready := true, child := if child == "" then d.child else child))
    requires OnlyUnit(p, s, r.session, r.unit)
    ensures LaunchedAs(p, s, r, caller, owner, now, model, child)
  {
    hide OnlyUnit, OpensAttempt;
  }
}
