/** Work of the orchestrator and of maintenance that is no work unit. */
module Activities {
  import opened Decimal
  import opened Record
  import opened Replay
  import opened Protocol
  import opened Licensing
  import opened Runs
  import opened Lifecycle

  /** Nothing but one activity differs, which is as given. */
  predicate ActivityIs(p: Projection, q: Projection, id: string, a: Activity) {
    q == p.(activities := p.activities[id := a])
  }

  /** The activity is known, to this session and of this class. */
  predicate Recognized(p: Projection, session: string, id: string, nodeKind: NodeKind) {
    id in p.activities && p.activities[id].session == session && p.activities[id].nodeKind == nodeKind
  }

  function StartEntry(session: string, id: string, nodeKind: NodeKind, owner: string): Entry {
    var kind := if nodeKind == Maintenance then KindMaintenanceStarted else KindActivityStarted;
    Blank.(author := AuthorOf(kind), kind := kind, session := session, activity := id, nodeKind := nodeKind, owner := owner, cause := CauseNone)
  }

  function FinishEntry(session: string, id: string, nodeKind: NodeKind, outcome: Outcome): Entry {
    var kind := if nodeKind == Maintenance then KindMaintenanceFinished else KindActivityFinished;
    Blank.(author := AuthorOf(kind), kind := kind, session := session, activity := id, nodeKind := nodeKind, cause := CauseNone, outcome := outcome)
  }

  function LostEntry(session: string, id: string): Entry {
    Blank.(author := Harness, kind := KindUnmonitored, session := session, activity := id, nodeKind := Direct, cause := CauseNone)
  }

  lemma StartLeaves(p: Projection, session: string, id: string, nodeKind: NodeKind, owner: string)
    requires session != "" && id != "" && (nodeKind == Direct || nodeKind == Maintenance)
    ensures var e := StartEntry(session, id, nodeKind, owner); var q := Fold(p, e);
            && Valid(e) && ActivityOf(e) == Some(nodeKind)
            && (id !in p.activities ==> ActivityIs(p, q, id, Activity(id, session, nodeKind, StateInFlight, FlightRunning, NoOutcome, owner)))
            && (id in p.activities && p.activities[id].state == StateInFlight && owner != "" ==>
                  ActivityIs(p, q, id, p.activities[id].(owner := owner, flight := FlightRunning)))
  {
    hide Fold;
    NotSettling(StartEntry(session, id, nodeKind, owner));
  }

  lemma FinishLeaves(p: Projection, session: string, id: string, nodeKind: NodeKind, outcome: Outcome)
    requires session != "" && id != "" && (nodeKind == Direct || nodeKind == Maintenance)
    requires Recognized(p, session, id, nodeKind) && p.activities[id].state == StateInFlight
    ensures var e := FinishEntry(session, id, nodeKind, outcome);
            && ActivityOf(e) == Some(nodeKind) && (Valid(e) <==> outcome != NoOutcome && outcome != Backtracked)
            && ActivityIs(p, Fold(p, e), id, p.activities[id].(state := StateSettled, flight := NoFlight, outcome := outcome))
  {
  }

  lemma LossLeaves(p: Projection, session: string, id: string)
    requires session != "" && id != "" && Recognized(p, session, id, Direct) && p.activities[id].state == StateInFlight
    ensures var e := LostEntry(session, id);
            && Valid(e) && ActivityOf(e) == Some(Direct)
            && ActivityIs(p, Fold(p, e), id, p.activities[id].(flight := FlightUnmonitored))
  {
    hide Fold;
    NotSettling(LostEntry(session, id));
  }

  // ---- Over every run ----

  /** Either still in flight, of the same session and class, or settled for good. */
  predicate ActivityEvolves(a: Activity, b: Activity) {
    && b.id == a.id && b.session == a.session && b.nodeKind == a.nodeKind
    && (a.state == StateSettled ==> b == a) && (a.state == StateInFlight ==> b.state == StateInFlight || b.state == StateSettled)
  }

  predicate ActivityShape(p: Projection) {
    forall id | id in p.activities :: p.activities[id].state == StateInFlight || p.activities[id].state == StateSettled
  }

  lemma ActivityStep(p: Projection, e: Entry)
    requires ActivityShape(p)
    ensures var q := Fold(p, e);
            ActivityShape(q) && forall id | id in p.activities :: id in q.activities && ActivityEvolves(p.activities[id], q.activities[id])
  {
    hide Fold, FoldExecution, MovedUnits, MovedSession, MovedExecutions, Budgeted, ExecutionKind, BudgetKind, LifecycleKind, ActivityOf;
    Lanes(e);
    if LifecycleKind(e) {
      FoldLife(p, e);
    } else if BudgetKind(e.kind) {
      FoldBudget(p, e);
    } else if ExecutionKind(e.kind) {
      FoldExec(p, e);
    } else {
      ActivityFolds(p, e, ActivityOf(e).value);
      NotSettling(e);
    }
  }

  lemma NotSettling(e: Entry)
    requires !ExecutionKind(e.kind) && ActivityOf(e).Some?
    ensures forall p :: Fold(p, e) == FoldActivity(p, e, ActivityOf(e).value)
  {
  }

  lemma ActivityFolds(p: Projection, e: Entry, nodeKind: NodeKind)
    requires ActivityShape(p)
    ensures var q := FoldActivity(p, e, nodeKind);
            ActivityShape(q) && forall id | id in p.activities :: id in q.activities && ActivityEvolves(p.activities[id], q.activities[id])
  {
    hide FoldActivity, ActivityEvolves;
    OthersStand(p, e, nodeKind);
    OwnActivity(p, e, nodeKind);
    forall id | id in p.activities && id != e.activity ensures ActivityEvolves(p.activities[id], p.activities[id]) { StandsEvolve(p.activities[id]); }
  }

  lemma StandsEvolve(a: Activity)
    ensures ActivityEvolves(a, a)
  {
  }

  lemma OthersStand(p: Projection, e: Entry, nodeKind: NodeKind)
    ensures var q := FoldActivity(p, e, nodeKind);
            forall id | id != e.activity :: (id in q.activities <==> id in p.activities) && (id in p.activities ==> q.activities[id] == p.activities[id])
  {
    hide ActivityStart;
    if e.activity !in p.activities {
    } else if ActivityStart(e.kind) {
    } else {
    }
  }

  lemma OwnActivity(p: Projection, e: Entry, nodeKind: NodeKind)
    ensures var q, id := FoldActivity(p, e, nodeKind), e.activity;
            && (id in p.activities ==> id in q.activities && ActivityEvolves(p.activities[id], q.activities[id]))
            && (id in q.activities && id !in p.activities ==> q.activities[id].state == StateInFlight)
  {
  }

  lemma {:induction false} ActivitiesEvolve(history: seq<Entry>, n: nat)
    requires n <= |history|
    ensures ActivityShape(Project(history))
    ensures var p, q := Project(history[..n]), Project(history);
            forall id | id in p.activities :: id in q.activities && ActivityEvolves(p.activities[id], q.activities[id])
    decreases |history|
  {
    hide Fold;
    if history != [] {
      var m := |history| - 1;
      ActivitiesEvolve(history[..m], if n < m then n else m);
      ActivityStep(Project(history[..m]), history[m]);
      if n <= m { assert history[..m][..n] == history[..n]; }
    }
    if n == |history| { assert history[..n] == history; }
  }

  /** A settled activity never changes again, and none changes session or class:
      losing its capture neither settles nor fails it. */
  lemma SettledActivityStays(policy: Policy, commands: seq<Command>, more: seq<Command>, id: string)
    requires id in Reached(policy, commands).activities
    ensures var q := Reached(policy, commands + more);
            id in q.activities && ActivityEvolves(Reached(policy, commands).activities[id], q.activities[id])
  {
    hide Project;
    ExecuteExtends(policy, commands, more);
    ActivitiesEvolve(Execute(policy, commands + more), |Execute(policy, commands)|);
  }

  // ---- Leases ----

  lemma LeaseLeaves(p: Projection, owner: string, now: int)
    ensures var e := Blank.(author := Harness, kind := KindLease, owner := owner, createdAt := now, cause := CauseNone);
            var last := if owner in p.leases then p.leases[owner] else 0;
            && (Valid(e) <==> owner != "" && now > 0)
            && Fold(p, e) == p.(leases := p.leases[owner := if now > last then now else last])
  {
  }
}
