/** The derived execution state: what replaying recorded entries in order says
    about units, executions, activities and each session's budgets. */
module Replay {
  import opened Decimal
  import opened Record

  datatype State = NoState | StatePlanned | StateInFlight | StateSettled | StateWithdrawn

  datatype Flight =
    | NoFlight | FlightPendingLaunch | FlightRunning | FlightSuspended
    | FlightCancelling | FlightUncertain | FlightUnmonitored

  datatype Assurance = Assurance(status: ResultStatus, revision: Option<nat>, evidence: string, author: Author)

  datatype UnitKey = UnitKey(session: string, unit: string)

  datatype Unit = Unit(
    session: string, name: string, nodeKind: NodeKind, attempt: string, dispatch: string, agent: string,
    state: State, flight: Flight, outcome: Outcome, assurance: Option<Assurance>,
    launched: bool, cancelRequested: bool, committed: bool, contract: string, prerequisites: seq<string>)

  const NoUnit: Unit :=
    Unit("", "", NoNodeKind, "", "", "", NoState, NoFlight, NoOutcome, None, false, false, false, "", [])

  datatype Activity = Activity(id: string, session: string, nodeKind: NodeKind, state: State, flight: Flight, outcome: Outcome, owner: string)

  datatype Execution = Execution(
    dispatch: string, root: string, unit: string, attempt: string, agent: string, caller: string, child: string,
    admittedAt: int, inputs: seq<int>, delivery: seq<int>, cycle: string, role: Role, prompted: string,
    ready: bool, terminated: bool, settled: bool, model: string, owner: string)

  const NoExecution: Execution :=
    Execution("", "", "", "", "", "", "", 0, [], [], "", NoRole, "", false, false, false, "", "")

  /** One objective's bounded-recovery accounting. `attempted` is None until a
      declaration opens the budget. */
  datatype Recovery = Recovery(
    open: bool, failures: int, unit: string, result: string, scope: seq<string>,
    actions: int, attempts: int, used: int, attempted: Option<set<string>>, cursor: int,
    unreconciled: bool, backtracked: bool, restored: bool, cause: Cause)
  {
    /** Still governing its declared scope: open, or abandoned and not restored. */
    predicate Unresolved() {
      open || (backtracked && !restored)
    }
  }

  const NoRecovery: Recovery :=
    Recovery(false, 0, "", "", [], 0, 0, 0, None, 0, false, false, false, NoCause)

  datatype Strengthening = Strengthening(round: QARound, started: bool)

  datatype Budgets = Budgets(
    qaRounds: map<string, Strengthening>, unplanned: int, contests: set<string>,
    recoveries: map<string, Recovery>, allowance: map<AllowanceKey, int>,
    stopped: int, escalated: int, planVersion: string,
    holder: string, holderAgent: string)
  {
    function Recovery(objective: string): Recovery {
      if objective in recoveries then recoveries[objective] else NoRecovery
    }

    function Allowed(bound: Bound, objective: string): int {
      var key := AllowanceKey(bound, objective);
      if key in allowance then allowance[key] else 0
    }

    predicate InRound(version: string, unit: string) {
      HoldsUnit(qaRounds, version, unit)
    }

    predicate InScope(objective: string, unit: string) {
      Governs(recoveries, objective, unit)
    }
  }

  const NoBudgets: Budgets := Budgets(map[], 0, {}, map[], map[], 0, 0, "", "", "")

  datatype Projection = Projection(
    inputs: map<UnitKey, seq<int>>, executions: map<string, Execution>, leases: map<string, int>,
    units: map<UnitKey, Unit>, activities: map<string, Activity>, sessions: map<string, Budgets>)
  {
    predicate Known(session: string, unit: string) {
      UnitKey(session, unit) in units
    }

    function Unit(session: string, unit: string): Unit {
      var key := UnitKey(session, unit);
      if key in units then units[key] else NoUnit
    }

    function Budgets(session: string): Budgets {
      if session in sessions then sessions[session] else NoBudgets
    }
  }

  const Empty: Projection := Projection(map[], map[], map[], map[], map[], map[])

  // ---- Reads whose map order the runtime leaves open ----

  predicate HoldsUnit(rounds: map<string, Strengthening>, version: string, unit: string) {
    version in rounds && unit in rounds[version].round.units
  }

  ghost function RoundOf(rounds: map<string, Strengthening>, unit: string): string {
    if exists v :: HoldsUnit(rounds, v, unit) then var v :| HoldsUnit(rounds, v, unit); v else ""
  }

  /** The version of some round that holds the unit, "" when none does. Any
      match may be the one; over every run there is only one. */
  ghost function QARoundFor(b: Budgets, unit: string): string {
    RoundOf(b.qaRounds, unit)
  }

  predicate Governs(recoveries: map<string, Recovery>, objective: string, unit: string) {
    objective in recoveries && recoveries[objective].Unresolved() && unit in recoveries[objective].scope
  }

  ghost function ScopeOf(recoveries: map<string, Recovery>, unit: string): string {
    if exists o :: Governs(recoveries, o, unit) then var o :| Governs(recoveries, o, unit); o else ""
  }

  /** The objective of some unresolved recovery whose scope holds the unit, ""
      when none does. */
  ghost function Scope(b: Budgets, unit: string): string {
    ScopeOf(b.recoveries, unit)
  }

  function StartedRounds(b: Budgets, objective: string): set<string> {
    set v | v in b.qaRounds && b.qaRounds[v].round.objective == objective && b.qaRounds[v].started
  }

  function StrengtheningUsed(b: Budgets, objective: string): nat {
    |StartedRounds(b, objective)|
  }

  function InFlightUnits(p: Projection): set<UnitKey> {
    set k | k in p.units && p.units[k].state == StateInFlight
  }

  function InFlight(p: Projection): nat {
    |InFlightUnits(p)|
  }

  // ---- Fold ----

  function FlightOf(k: Kind): Flight {
    match k
    case KindAdmitted => FlightPendingLaunch
    case KindLaunched => FlightRunning
    case KindSuspended => FlightSuspended
    case KindCancelRequested => FlightCancelling
    case KindUncertain => FlightUncertain
    case KindUnmonitored => FlightUnmonitored
    case _ => NoFlight
  }

  /** Whether an incoming result replaces the current assurance. */
  predicate Prevails(a: Option<Assurance>, e: Entry) {
    a.None? || a.value.revision.None? || (e.revision.Some? && e.revision.value >= a.value.revision.value)
  }

  function AssuranceOf(e: Entry): Assurance {
    Assurance(e.status, e.revision, e.evidence, e.author)
  }

  /** Whether the kind applies to a unit in this state. */
  predicate Accepts(u: Unit, known: bool, k: Kind) {
    match k
    case KindPlanned => !known || u.state == StatePlanned
    case KindWithdrawn => u.state == StatePlanned
    case KindResult => known && (u.state == StateInFlight || u.state == StateSettled)
    case KindAdmitted => !known || u.state == StatePlanned || u.state == StateSettled
    case _ => u.state == StateInFlight
  }

  function AppendNew(known: seq<int>, ids: seq<int>): seq<int>
    decreases |ids|
  {
    if ids == [] then known
    else AppendNew(if ids[0] in known then known else known + [ids[0]], ids[1..])
  }

  function LinkedExecution(d: Execution, inputs: seq<int>, e: Entry): Execution {
    match e.kind
    case KindExecution | KindLane =>
      if d.dispatch != "" then d
      else Execution(e.dispatch, e.session, e.unit, e.attempt, e.agent, e.caller, e.child, e.createdAt,
                     inputs, [], e.cycle, e.role, "", false, false, false, e.model, e.owner)
    case KindPrepared => d.(ready := true)
    case KindChild => d.(child := e.child)
    case KindDelivery => d.(delivery := AppendNew(d.delivery, e.resultIds))
    case KindPrompt => d.(prompted := e.phase)
    case KindLaneStopped => d.(terminated := true)
    case KindExecutionEnded => d.(settled := true)
    case _ => d
  }

  function InputsOf(p: Projection, session: string, unit: string): seq<int> {
    var key := UnitKey(session, unit);
    if key in p.inputs then p.inputs[key] else []
  }

  function ExecutionOf(p: Projection, dispatch: string): Execution {
    if dispatch in p.executions then p.executions[dispatch] else NoExecution
  }

  function FoldExecution(p: Projection, e: Entry): Projection {
    if e.kind.KindLease? then
      var last := if e.owner in p.leases then p.leases[e.owner] else 0;
      p.(leases := p.leases[e.owner := if last < e.createdAt then e.createdAt else last])
    else if e.kind.KindInputs? then p.(inputs := p.inputs[UnitKey(e.session, e.unit) := e.resultIds])
    else
      var d := LinkedExecution(ExecutionOf(p, e.dispatch), InputsOf(p, e.session, e.unit), e);
      p.(executions := p.executions[e.dispatch := d])
  }

  predicate Names(d: Execution, e: Entry) {
    d.root == e.session && d.unit == e.unit && d.attempt == e.attempt
  }

  /** A termination settles every execution of the attempt it names. */
  function SettleExecutions(executions: map<string, Execution>, e: Entry): map<string, Execution> {
    map id | id in executions :: if Names(executions[id], e) then executions[id].(settled := true) else executions[id]
  }

  function FoldActivity(p: Projection, e: Entry, nodeKind: NodeKind): Projection {
    var id := e.activity;
    if ActivityStart(e.kind) then
      if id !in p.activities then
        p.(activities := p.activities[id := Activity(id, e.session, nodeKind, StateInFlight, FlightRunning, NoOutcome, e.owner)])
      else if p.activities[id].state == StateInFlight && e.owner != "" then
        p.(activities := p.activities[id := p.activities[id].(owner := e.owner, flight := FlightRunning)])
      else p
    else if id !in p.activities then p
    else
      var a := p.activities[id];
      if a.session != e.session || a.nodeKind != nodeKind || a.state != StateInFlight then p
      else if e.kind.KindUnmonitored? then p.(activities := p.activities[id := a.(flight := FlightUnmonitored)])
      else p.(activities := p.activities[id := a.(state := StateSettled, flight := NoFlight, outcome := e.outcome)])
  }

  /** An exception's effect on the recovery it names: reconciling unestablished
      consumption, and lifting an abandonment. */
  function ExceptedRecovery(r: Recovery, e: Entry): Recovery {
    var reconciled := if e.bound == BoundRecoveryActions then r.(unreconciled := false, cursor := RefSeq(e.journalRef)) else r;
    if r.backtracked && !r.restored then
      reconciled.(open := true, backtracked := false, cause := NoCause,
                  failures := if r.failures > 0 then r.failures - 1 else r.failures)
    else reconciled
  }

  function Excepted(b: Budgets, e: Entry): Budgets {
    var granted := b.(allowance := b.allowance[AllowanceKey(e.bound, e.objective) := b.Allowed(e.bound, e.objective) + e.allowance]);
    var r := b.Recovery(e.objective);
    if e.objective != "" && (e.bound == BoundRecoveryActions
                             || (e.bound == BoundRecoveryAttempts && r.backtracked && !r.restored)) then
      granted.(recoveries := b.recoveries[e.objective := ExceptedRecovery(r, e)])
    else granted
  }

  function ClosedRecovery(r: Recovery, e: Entry): Recovery {
    var c := r.(open := false, failures := if e.outcome == Completed then 0 else r.failures + 1);
    if e.outcome == Backtracked then c.(backtracked := true, cause := e.cause) else c
  }

  function DeclaredRecovery(failures: int, e: Entry): Recovery {
    Recovery(true, failures, e.unit, e.result, e.scope, e.actions, e.attempts, 0, Some({}), RefSeq(e.journalRef),
             false, false, false, NoCause)
  }

  /** The kinds that carry session accounting rather than a work state; None for
      the kinds that fold into a unit. */
  function Budgeted(b: Budgets, e: Entry): Option<Budgets> {
    var r := b.Recovery(e.objective);
    match e.kind
    case KindQARound =>
      if e.qaRound.Some? then Some(b.(qaRounds := b.qaRounds[e.planVersion := Strengthening(e.qaRound.value, false)])) else Some(b)
    case KindDenied => Some(b)
    case KindContested => Some(b.(contests := b.contests + {AttemptKey(e.unit, e.attempt)}))
    case KindException => Some(Excepted(b, e))
    case KindStopped => Some(b.(stopped := b.stopped + 1))
    case KindEscalated => Some(b.(escalated := b.escalated + 1))
    case KindRecoveryDeclared => Some(b.(recoveries := b.recoveries[e.objective := DeclaredRecovery(r.failures, e)]))
    case KindActions =>
      Some(b.(recoveries := b.recoveries[e.objective := r.(used := r.used + e.actions, cursor := RefSeq(e.journalRef))]))
    case KindActionsUncertain => Some(b.(recoveries := b.recoveries[e.objective := r.(unreconciled := true)]))
    case KindRestored => Some(b.(recoveries := b.recoveries[e.objective := r.(restored := true)]))
    case KindRecoveryClosed => Some(b.(recoveries := b.recoveries[e.objective := ClosedRecovery(r, e)]))
    case KindInterlocutorSwitched => Some(b.(holder := e.unit, holderAgent := e.agent))
    case KindInterlocutorHandoff => Some(b.(holder := "", holderAgent := ""))
    case KindInterlocutorAborted => Some(b.(holder := "", holderAgent := ""))
    case KindRevised => Some(b.(planVersion := e.planVersion))
    case KindInvalidRevision => Some(b)
    case KindSeatRestored => Some(b)
    case _ => None
  }

  /** The first admission of a round's member starts the round. */
  ghost function RoundStarted(b: Budgets, unit: string): Budgets {
    var version := QARoundFor(b, unit);
    if version != "" && version in b.qaRounds then b.(qaRounds := b.qaRounds[version := b.qaRounds[version].(started := true)]) else b
  }

  function AttemptSpent(b: Budgets, e: Entry): Budgets {
    var r := b.Recovery(e.objective);
    if e.objective != "" && r.attempted.Some? then
      b.(recoveries := b.recoveries[e.objective := r.(attempted := Some(r.attempted.value + {AttemptKey(e.unit, e.attempt)}))])
    else b
  }

  ghost function AdmittedBudgets(b: Budgets, known: bool, e: Entry): Budgets {
    AttemptSpent(RoundStarted(if known then b else b.(unplanned := b.unplanned + 1), e.unit), e)
  }

  /** A unit after an accepted lifecycle entry. */
  function NextUnit(u: Unit, e: Entry): Unit {
    var v := u.(session := e.session, name := e.unit, attempt := e.attempt,
                nodeKind := if u.nodeKind == NoNodeKind && e.nodeKind == Delegated then Delegated else u.nodeKind);
    match e.kind
    case KindAdmitted =>
      v.(state := StateInFlight, flight := FlightPendingLaunch, outcome := NoOutcome, launched := false,
         dispatch := e.dispatch, agent := e.agent, cancelRequested := false, assurance := None)
    case KindPlanned =>
      v.(state := StatePlanned, committed := true, contract := e.contract, prerequisites := e.prerequisites)
    case KindWithdrawn => v.(state := StateWithdrawn)
    case KindTerminated => v.(state := StateSettled, flight := NoFlight, outcome := e.outcome)
    case _ =>
      v.(state := StateInFlight, flight := FlightOf(e.kind),
         launched := u.launched || e.kind.KindLaunched?,
         cancelRequested := u.cancelRequested || e.kind.KindCancelRequested?)
  }

  ghost function FoldUnit(p: Projection, e: Entry): Projection {
    var key := UnitKey(e.session, e.unit);
    var u := p.Unit(e.session, e.unit);
    var known := p.Known(e.session, e.unit);
    if !Accepts(u, known, e.kind) then p
    else if e.kind.KindResult? then
      if e.attempt == u.attempt && Prevails(u.assurance, e) then
        p.(units := p.units[key := u.(assurance := Some(AssuranceOf(e)))])
      else p
    else
      var sessions := if e.kind.KindAdmitted? then p.sessions[e.session := AdmittedBudgets(p.Budgets(e.session), known, e)] else p.sessions;
      p.(units := p.units[key := NextUnit(u, e)], sessions := sessions)
  }

  /** Work-unit entries: session accounting, or a unit's lifecycle. */
  ghost function FoldWork(p: Projection, e: Entry): Projection {
    var b := p.Budgets(e.session);
    var versioned := if e.kind.KindPlanned? then b.(planVersion := e.planVersion) else b;
    match Budgeted(versioned, e)
    case Some(next) => p.(sessions := p.sessions[e.session := next])
    case None => FoldUnit(p.(sessions := p.sessions[e.session := versioned]), e)
  }

  ghost function Fold(p: Projection, e: Entry): Projection {
    if ExecutionKind(e.kind) then FoldExecution(p, e)
    else
      var q := if e.kind.KindTerminated? then p.(executions := SettleExecutions(p.executions, e)) else p;
      match ActivityOf(e)
      case Some(nodeKind) => FoldActivity(q, e, nodeKind)
      case None => FoldWork(q, e)
  }

  /** Replay of a batch from a state. */
  ghost function FoldAll(p: Projection, entries: seq<Entry>): Projection {
    if entries == [] then p else Fold(FoldAll(p, entries[..|entries| - 1]), entries[|entries| - 1])
  }

  /** The projection of a recorded prefix. */
  ghost function Project(entries: seq<Entry>): Projection {
    FoldAll(Empty, entries)
  }

  lemma {:induction false} FoldAllConcat(p: Projection, a: seq<Entry>, b: seq<Entry>)
    ensures FoldAll(p, a + b) == FoldAll(FoldAll(p, a), b)
  {
    if b == [] {
      assert a + b == a;
    } else {
      var n := |b| - 1;
      FoldAllConcat(p, a, b[..n]);
      assert (a + b)[..|a + b| - 1] == a + b[..n];
    }
  }
}
