/** The dispatch protocol: each command reads the replayed state, decides, and
    appends one indivisible batch of entries, or nothing. */
module Protocol {
  import opened Decimal
  import opened Ordering
  import opened Record
  import opened Replay
  import opened PlanGraph

  /** The admission policy's positive ceilings and budgets. */
  datatype Policy = Policy(
    specialists: int, unplannedUnits: int, contests: int, recoveryFailures: int, maxActions: int, maxAttempts: int)
  {
    predicate Positive() {
      specialists > 0 && unplannedUnits > 0 && contests > 0 && recoveryFailures > 0 && maxActions > 0 && maxAttempts > 0
    }
  }

  datatype Request = Request(session: string, unit: string, agent: string, dispatch: string)

  datatype RecoveryDeclaration = RecoveryDeclaration(objective: string, result: string, scope: seq<string>, actions: int, attempts: int)

  /** One recorded tool execution on the bus. */
  datatype JournalEntry = JournalEntry(position: int, session: string, unit: string, call: string)

  datatype Seat = Seat(model: string, reason: string)

  // ---- Admission ----

  function Max(a: int, b: int): int { if a < b then b else a }

  /** The decimal value of an attempt identity, 0 when it is not decimal. */
  function AttemptNumber(attempt: string): int {
    match Parse(attempt)
    case Some(n) => n
    case None => 0
  }

  /** The dispatches recorded for a unit of a root. */
  function ExecutionsFor(p: Projection, root: string, unit: string): set<string> {
    set id | id in p.executions && p.executions[id].root == root && p.executions[id].unit == unit
  }

  ghost predicate IsHighest(p: Projection, ids: set<string>, n: int) {
    && n >= 0 && (forall id | id in ids && id in p.executions :: AttemptNumber(p.executions[id].attempt) <= n)
    && (n == 0 || exists id :: id in ids && id in p.executions && AttemptNumber(p.executions[id].attempt) == n)
  }

  lemma {:induction false} HighestExists(p: Projection, ids: set<string>)
    ensures exists n :: IsHighest(p, ids, n)
    decreases ids
  {
    if ids == {} {
      assert IsHighest(p, ids, 0);
    } else {
      var id :| id in ids;
      HighestExists(p, ids - {id});
      var m :| IsHighest(p, ids - {id}, m);
      var n := if id in p.executions then Max(m, AttemptNumber(p.executions[id].attempt)) else m;
      assert IsHighest(p, ids, n);
    }
  }

  /** The highest attempt recorded by a unit's executions, 0 with none. */
  ghost function HighestAttempt(p: Projection, root: string, unit: string): (n: int)
    ensures IsHighest(p, ExecutionsFor(p, root, unit), n)
  {
    HighestExists(p, ExecutionsFor(p, root, unit));
    var n :| IsHighest(p, ExecutionsFor(p, root, unit), n);
    n
  }

  /** The attempt an admission would open. */
  ghost function NextAttempt(p: Projection, root: string, unit: string): string {
    if p.Known(root, unit) then
      var u := p.Unit(root, unit);
      if u.state != StateSettled then FirstAttempt
      else match Parse(u.attempt)
        case Some(n) => Print(n + 1)
        case None => FirstAttempt
    else Print(HighestAttempt(p, root, unit) + 1)
  }

  /** The attempt a lifecycle fact belongs to. */
  function CurrentAttempt(p: Projection, session: string, unit: string): string {
    var u := p.Unit(session, unit);
    if u.attempt != "" then u.attempt else FirstAttempt
  }

  /** Why an admission is refused, None when it goes through. `objective` and
      `version` name the recovery scope and the QA round found for the unit. */
  function Refusal(policy: Policy, p: Projection, r: Request, objective: string, version: string): Option<Cause> {
    var b := p.Budgets(r.session);
    var known := p.Known(r.session, r.unit);
    var state := p.Unit(r.session, r.unit).state;
    var recovery := b.Recovery(objective);
    var round := if version in b.qaRounds then b.qaRounds[version] else Strengthening(QARound("", []), false);
    var spent := if recovery.attempted.Some? then |recovery.attempted.value| else 0;
    if InFlight(p) >= policy.specialists + b.Allowed(BoundConcurrency, "") then Some(CauseBound(BoundConcurrency))
    else if known && state == StateInFlight then Some(CauseRepetition)
    else if known && state == StateWithdrawn then Some(CauseWithdrawn)
    else if !known && b.unplanned >= policy.unplannedUnits + b.Allowed(BoundUnplanned, "") then Some(CauseBound(BoundUnplanned))
    else if version != "" && !round.started
            && StrengtheningUsed(b, round.round.objective) >= policy.maxAttempts + b.Allowed(BoundQARounds, round.round.objective)
    then Some(CauseBound(BoundQARounds))
    else if objective != "" && !recovery.open then Some(CauseBound(BoundRecoveryAttempts))
    else if objective != "" && recovery.unreconciled then Some(CauseBound(BoundRecoveryActions))
    else if objective != "" && spent >= recovery.attempts + b.Allowed(BoundRecoveryAttempts, objective)
    then Some(CauseBound(BoundRecoveryAttempts))
    else if objective != "" && recovery.used >= recovery.actions + b.Allowed(BoundRecoveryActions, objective)
    then Some(CauseBound(BoundRecoveryActions))
    else None
  }

  function AdmissionEntry(ref: string, r: Request, attempt: string, objective: string, refusal: Option<Cause>): Entry {
    Blank.(author := Harness, kind := if refusal.Some? then KindDenied else KindAdmitted,
           session := r.session, unit := r.unit, nodeKind := Delegated, attempt := attempt,
           dispatch := r.dispatch, agent := r.agent, objective := objective, journalRef := ref,
           cause := if refusal.Some? then refusal.value else CauseUncaptured)
  }

  /** The admission decision over one projection: the entry to record. */
  ghost function Decide(policy: Policy, p: Projection, ref: string, r: Request): Entry {
    var b := p.Budgets(r.session);
    var objective, version := Scope(b, r.unit), QARoundFor(b, r.unit);
    AdmissionEntry(ref, r, NextAttempt(p, r.session, r.unit), objective, Refusal(policy, p, r, objective, version))
  }

  // ---- Lifecycle facts ----

  function RecordEntry(p: Projection, ref: string, session: string, unit: string, kind: Kind): Entry {
    Blank.(author := AuthorOf(kind), kind := kind, session := session, unit := unit,
           attempt := CurrentAttempt(p, session, unit), cause := CauseUncaptured, journalRef := ref)
  }

  predicate UncertainFlight(f: Flight) {
    f == FlightUncertain || f == FlightUnmonitored
  }

  /** The outcome an effective termination establishes; `recovery` is the one
      whose scope holds the unit. */
  function TerminationOutcome(u: Unit, recovery: Recovery, nonStart: bool): Outcome {
    if recovery.backtracked then Backtracked
    else if nonStart || u.cancelRequested || u.flight == FlightUncertain then Interrupted
    else Completed
  }

  /** The batch a termination records: a completed finish with no evaluated
      result is recorded as unverified delivery in the same batch. */
  function Termination(p: Projection, ref: string, session: string, unit: string, nonStart: bool, objective: string): seq<Entry> {
    var u := p.Unit(session, unit);
    var outcome := TerminationOutcome(u, p.Budgets(session).Recovery(objective), nonStart);
    var terminated := Blank.(author := Harness, kind := KindTerminated, session := session, unit := unit,
                             attempt := CurrentAttempt(p, session, unit), cause := CauseUncaptured, journalRef := ref,
                             outcome := outcome, objective := objective);
    if outcome != Completed || u.assurance.Some? then [terminated]
    else [terminated, terminated.(kind := KindResult, outcome := NoOutcome, objective := "", status := Unverified)]
  }

  // ---- User exceptions ----

  predicate ExceptionRefused(b: Budgets, bound: Bound, objective: string) {
    var r := b.Recovery(objective);
    || (objective == "" && (bound == BoundRecovery || bound == BoundRecoveryActions || bound == BoundRecoveryAttempts || bound == BoundQARounds))
    || ((bound == BoundRecoveryActions || bound == BoundRecoveryAttempts)
        && r.backtracked && !r.restored && CauseBound(bound) != r.cause)
  }

  function ExceptionEntry(ref: string, event: string, session: string, bound: Bound, objective: string, allowance: int): Entry {
    var subject := if event != "" then event else if objective != "" then objective else BoundText(bound);
    Blank.(author := Harness, kind := KindException, session := session, unit := subject, attempt := FirstAttempt,
           cause := CauseUncaptured, journalRef := ref, bound := bound, objective := objective, allowance := allowance)
  }

  // ---- Plans ----

  function StandingNames(p: Projection, session: string): set<string> {
    set k | k in p.units && k.session == session && Standing(p.units[k]) :: k.unit
  }

  /** A unit a commitment declared that is still planned or admitted. */
  predicate Standing(u: Unit) {
    u.contract != "" && (u.state == StatePlanned || u.state == StateInFlight)
  }

  function KnownNames(p: Projection, session: string): set<string> {
    set k | k in p.units && k.session == session :: k.unit
  }

  function PlanUnitOf(p: Projection, session: string, name: string): PlanUnit {
    var u := p.Unit(session, name);
    PlanUnit(name, u.contract, u.prerequisites)
  }

  /** The plan left standing, in name order. */
  function CurrentPlan(p: Projection, session: string): seq<PlanUnit> {
    var names := SortedSeq(StandingNames(p, session));
    seq(|names|, i requires 0 <= i < |names| => PlanUnitOf(p, session, names[i]))
  }

  predicate WithdrawalsPlanned(p: Projection, session: string, withdrawals: seq<string>) {
    forall i | 0 <= i < |withdrawals| :: p.Unit(session, withdrawals[i]).state == StatePlanned
  }

  predicate AdmittedUnchanged(p: Projection, session: string, adds: seq<PlanUnit>) {
    forall i | 0 <= i < |adds| ::
      var existing := p.Unit(session, adds[i].unit);
      !p.Known(session, adds[i].unit) || existing.state == StatePlanned
      || (existing.contract == adds[i].contract && existing.prerequisites == adds[i].prerequisites)
  }

  predicate AddedPrerequisitesSettled(p: Projection, session: string, resulting: seq<PlanUnit>, adds: seq<PlanUnit>) {
    forall i, j | 0 <= i < |adds| && 0 <= j < |adds[i].prerequisites| ::
      adds[i].prerequisites[j] in PlanOf(resulting) || p.Unit(session, adds[i].prerequisites[j]).state == StateSettled
  }

  predicate AddedAndWithdrawnTogether(adds: seq<PlanUnit>, withdrawals: seq<string>) {
    exists i :: 0 <= i < |adds| && adds[i].unit in withdrawals
  }

  function ClassificationOf(current: seq<PlanUnit>, resulting: seq<PlanUnit>): Classification {
    if exists i :: 0 <= i < |resulting| && resulting[i].unit in PlanOf(current)
                   && PlanOf(current)[resulting[i].unit].prerequisites != resulting[i].prerequisites
    then Strategic else Tactical
  }

  /** A round's members are new authoring units of the plan, in no other round. */
  ghost predicate RoundAccepted(p: Projection, session: string, version: string, plan: seq<PlanUnit>, r: QARound) {
    var b := p.Budgets(session);
    && RoundShape(r) && version !in b.qaRounds
    && forall i | 0 <= i < |r.units| ::
         && r.units[i] in PlanOf(plan)
         && (p.Known(session, r.units[i]) ==> p.Unit(session, r.units[i]).state == StatePlanned)
         && QARoundFor(b, r.units[i]) == ""
  }

  function RoundEntries(ref: string, session: string, version: string, round: Option<QARound>): seq<Entry> {
    if round.None? then []
    else [Blank.(author := Orchestrator, kind := KindQARound, session := session, unit := session, attempt := FirstAttempt,
                 cause := CauseNone, journalRef := ref, planVersion := version, qaRound := round)]
  }

  function PlannedEntry(ref: string, session: string, version: string, u: PlanUnit): Entry {
    Blank.(author := Orchestrator, kind := KindPlanned, session := session, unit := u.unit, nodeKind := Delegated,
           attempt := FirstAttempt, cause := CauseNone, journalRef := ref, planVersion := version,
           contract := u.contract, prerequisites := u.prerequisites)
  }

  function PlannedEntries(ref: string, session: string, version: string, units: seq<PlanUnit>): seq<Entry> {
    seq(|units|, i requires 0 <= i < |units| => PlannedEntry(ref, session, version, units[i]))
  }

  function WithdrawnEntries(ref: string, session: string, withdrawals: seq<string>): seq<Entry> {
    seq(|withdrawals|, i requires 0 <= i < |withdrawals| =>
      Blank.(author := Orchestrator, kind := KindWithdrawn, session := session, unit := withdrawals[i],
             attempt := FirstAttempt, cause := CauseUncaptured, journalRef := ref))
  }

  function RevisedEntry(ref: string, session: string, base: string, version: string, shape: Classification): Entry {
    Blank.(author := Orchestrator, kind := KindRevised, session := session, unit := session, attempt := FirstAttempt,
           cause := CauseNone, journalRef := ref, baseVersion := base, planVersion := version, classification := shape)
  }

  function InvalidRevisionEntry(ref: string, session: string, base: string, version: string, fault: PlanFault): Entry {
    Blank.(author := Orchestrator, kind := KindInvalidRevision, session := session, unit := session, attempt := FirstAttempt,
           cause := CauseUncaptured, journalRef := ref, baseVersion := base, planVersion := version, reason := FaultText(fault))
  }

  function FaultText(fault: PlanFault): string {
    match fault
    case MissingIdentity => "identity"
    case DuplicateIdentity => "duplicate"
    case UnknownPrerequisite => "prerequisite"
    case PrerequisiteCycle => "cycle"
    case StaleBase => "stale"
    case AddedAndWithdrawn => "both"
    case NotPlanned => "planned"
    case AlreadyAdmitted => "admitted"
    case UnsettledPrerequisite => "unsettled"
    case QARoundRefused => "round"
  }

  datatype PlanChange = PlanChange(session: string, version: string, base: string,
                                   units: seq<PlanUnit>, withdrawals: seq<string>, round: Option<QARound>)

  ghost predicate RoundRefused(p: Projection, c: PlanChange, plan: seq<PlanUnit>) {
    c.round.Some? && !RoundAccepted(p, c.session, c.version, plan, c.round.value)
  }

  /** A first commitment: refused without a record, or applied whole. */
  ghost function CommitEntries(p: Projection, ref: string, c: PlanChange): seq<Entry> {
    if c.session == "" || c.version == "" || c.units == [] then []
    else if PlanFaultOf(c.units, KnownNames(p, c.session)).Some? then []
    else if RoundRefused(p, c, c.units) then []
    else RoundEntries(ref, c.session, c.version, c.round) + PlannedEntries(ref, c.session, c.version, c.units)
  }

  /** Why a revision is refused, in the order its checks run. */
  ghost function RevisionFault(p: Projection, c: PlanChange): Option<PlanFault> {
    var resulting := Revised(CurrentPlan(p, c.session), c.units, c.withdrawals);
    if p.Budgets(c.session).planVersion != c.base then Some(StaleBase)
    else if AddedAndWithdrawnTogether(c.units, c.withdrawals) then Some(AddedAndWithdrawn)
    else if PlanFaultOf(resulting, KnownNames(p, c.session)).Some? then PlanFaultOf(resulting, KnownNames(p, c.session))
    else if !WithdrawalsPlanned(p, c.session, c.withdrawals) then Some(NotPlanned)
    else if !AdmittedUnchanged(p, c.session, c.units) then Some(AlreadyAdmitted)
    else if !AddedPrerequisitesSettled(p, c.session, resulting, c.units) then Some(UnsettledPrerequisite)
    else if RoundRefused(p, c, resulting) then Some(QARoundRefused)
    else None
  }

  ghost function RevisionEntries(p: Projection, ref: string, c: PlanChange): seq<Entry> {
    var current := CurrentPlan(p, c.session);
    var shape := ClassificationOf(current, Revised(current, c.units, c.withdrawals));
    RoundEntries(ref, c.session, c.version, c.round)
    + [RevisedEntry(ref, c.session, c.base, c.version, shape)]
    + PlannedEntries(ref, c.session, c.version, c.units)
    + WithdrawnEntries(ref, c.session, c.withdrawals)
  }

  ghost function ReviseEntries(p: Projection, ref: string, c: PlanChange): seq<Entry> {
    if c.session == "" || c.base == "" || c.version == "" then []
    else match RevisionFault(p, c)
      case Some(fault) => [InvalidRevisionEntry(ref, c.session, c.base, c.version, fault)]
      case None => RevisionEntries(p, ref, c)
  }

  /** The one plan declaration: the first commits, a later one revises the
      version it names. */
  ghost function DeclareEntries(p: Projection, ref: string, c: PlanChange): seq<Entry> {
    if p.Budgets(c.session).planVersion == "" then
      if c.base != "" || c.withdrawals != [] then [] else CommitEntries(p, ref, c)
    else if c.base == "" then []
    else ReviseEntries(p, ref, c)
  }

  // ---- Bounded recovery ----

  /** Whether some unit of a declared scope already belongs to an unresolved
      recovery. */
  predicate ScopeTaken(b: Budgets, scope: seq<string>) {
    exists o :: o in b.recoveries && exists i :: 0 <= i < |scope| && b.InScope(o, scope[i])
  }

  function RecoveryRefusal(policy: Policy, b: Budgets, d: RecoveryDeclaration): Option<Cause> {
    if d.objective == "" || d.result == "" || d.scope == [] || d.actions <= 0 || d.attempts <= 0 then Some(CauseIncomplete)
    else if d.actions > policy.maxActions then Some(CauseBound(BoundRecoveryActions))
    else if d.attempts > policy.maxAttempts then Some(CauseBound(BoundRecoveryAttempts))
    else if ScopeTaken(b, d.scope) then Some(CauseOverlap)
    else if b.Recovery(d.objective).failures >= policy.recoveryFailures + b.Allowed(BoundRecovery, d.objective)
    then Some(CauseBound(BoundRecovery))
    else None
  }

  function RecoveryEntry(ref: string, event: string, session: string, d: RecoveryDeclaration, refusal: Option<Cause>): Entry {
    Blank.(author := if refusal.Some? then Harness else Orchestrator,
           kind := if refusal.Some? then KindDenied else KindRecoveryDeclared,
           session := session, unit := event, attempt := FirstAttempt,
           cause := if refusal.Some? then refusal.value else CauseUncaptured,
           journalRef := ref, objective := d.objective, result := d.result, scope := d.scope,
           actions := d.actions, attempts := d.attempts)
  }

  function ClosureEntry(ref: string, event: string, session: string, objective: string, evidence: string, demonstrated: bool): Entry {
    Blank.(author := Harness, kind := KindRecoveryClosed, session := session, unit := event, attempt := FirstAttempt,
           cause := CauseUncaptured, journalRef := ref, objective := objective, evidence := evidence,
           outcome := if demonstrated then Completed else Failed)
  }

  function Head(journal: seq<JournalEntry>): int {
    if journal == [] then -1 else journal[|journal| - 1].position
  }

  predicate Counts(e: JournalEntry, session: string, r: Recovery) {
    e.position > r.cursor && e.call != "" && e.session == session && e.unit in r.scope
  }

  /** The tool executions past the established cursor in the recovery's scope. */
  function ScopeActions(journal: seq<JournalEntry>, session: string, r: Recovery): nat {
    |set i | 0 <= i < |journal| && Counts(journal[i], session, r) :: journal[i].session + "/" + journal[i].call|
  }

  function ActionsEntry(session: string, objective: string, r: Recovery, kind: Kind, actions: int, head: int): Entry {
    Blank.(author := Harness, kind := kind, session := session, unit := r.unit, attempt := FirstAttempt,
           cause := CauseUncaptured, journalRef := JournalPosition(head), objective := objective, actions := actions)
  }

  /** What one accounting of an open, reconciled recovery observes. */
  function AccountEntries(session: string, objective: string, r: Recovery, journal: seq<JournalEntry>): seq<Entry> {
    if !r.open || r.unreconciled then []
    else if Head(journal) < r.cursor then [ActionsEntry(session, objective, r, KindActionsUncertain, 0, Head(journal))]
    else
      var n := ScopeActions(journal, session, r);
      if n > 0 then [ActionsEntry(session, objective, r, KindActions, n, Head(journal))] else []
  }

  predicate AnyInFlight(p: Projection, session: string, scope: seq<string>) {
    exists i :: 0 <= i < |scope| && p.Unit(session, scope[i]).state == StateInFlight
  }

  /** The spent budget that abandons a recovery, None while it may go on. */
  function Exhausted(p: Projection, session: string, objective: string, r: Recovery): Option<Bound> {
    var b := p.Budgets(session);
    var spent := if r.attempted.Some? then |r.attempted.value| else 0;
    if r.used >= r.actions + b.Allowed(BoundRecoveryActions, objective) then Some(BoundRecoveryActions)
    else if spent >= r.attempts + b.Allowed(BoundRecoveryAttempts, objective) && !AnyInFlight(p, session, r.scope)
    then Some(BoundRecoveryAttempts)
    else None
  }

  function BacktrackEntries(p: Projection, session: string, objective: string, r: Recovery, head: int): seq<Entry> {
    if !r.open || r.unreconciled then []
    else match Exhausted(p, session, objective, r)
      case None => []
      case Some(bound) =>
        [Blank.(author := Harness, kind := KindRecoveryClosed, session := session, unit := r.unit, attempt := FirstAttempt,
                cause := CauseBound(bound), journalRef := JournalPosition(head), objective := objective,
                outcome := Backtracked, scope := r.scope)]
  }

  // ---- Contests ----

  predicate TerminalFailure(history: seq<Entry>, session: string, unit: string, attempt: string) {
    exists i :: 0 <= i < |history| && FailedEntry(history[i], session, unit, attempt)
  }

  predicate FailedEntry(e: Entry, session: string, unit: string, attempt: string) {
    e.kind.KindTerminated? && e.session == session && e.unit == unit && e.attempt == attempt && e.outcome != Completed
  }

  function ContestEntries(policy: Policy, b: Budgets, failed: bool, ref: string, session: string, unit: string, attempt: string): seq<Entry> {
    if unit == "" || session == "" || AttemptKey(unit, attempt) in b.contests then []
    else
      var entry := Blank.(author := Orchestrator, kind := KindContested, session := session, unit := unit, attempt := attempt,
                          cause := CauseUncaptured, journalRef := ref);
      if !failed then [entry.(author := Harness, kind := KindDenied, cause := CauseNoFailure)]
      else if |b.contests| >= policy.contests + b.Allowed(BoundContests, "") then
        [entry.(author := Harness, kind := KindDenied, cause := CauseBound(BoundContests))]
      else [entry]
  }

  // ---- Interlocutor ----

  function SwitchEntry(b: Budgets, ref: string, root: string, child: string, agent: string, eligible: bool): Entry {
    var entry := Blank.(author := Orchestrator, kind := KindInterlocutorSwitched, session := root, unit := child,
                        attempt := FirstAttempt, agent := agent, cause := CauseUncaptured, journalRef := ref);
    if !eligible then entry.(author := Harness, kind := KindDenied, cause := CauseInterlocutorRole)
    else if b.holder != "" then entry.(author := Harness, kind := KindDenied, cause := CauseInterlocutorHeld)
    else entry
  }

  function HandoffEntry(b: Budgets, ref: string, root: string, caller: string, result: string): Entry {
    var entry := Blank.(author := Orchestrator, kind := KindInterlocutorHandoff, session := root, unit := caller,
                        attempt := FirstAttempt, result := result, cause := CauseUncaptured, journalRef := ref);
    if caller != b.holder then entry.(author := Harness, kind := KindDenied, cause := CauseInterlocutorHolder) else entry
  }

  datatype Origin = UserOrigin | HarnessOrigin | OtherOrigin

  function AbortEntry(b: Budgets, ref: string, root: string, child: string, origin: Origin): Entry {
    var target := if child == "" then b.holder else child;
    var entry := Blank.(author := Harness, kind := KindInterlocutorAborted, session := root, unit := target,
                        attempt := FirstAttempt, result := "Aborted", cause := CauseUncaptured, journalRef := ref);
    if origin.OtherOrigin? then entry.(kind := KindDenied, cause := CauseInterlocutorOrigin)
    else if b.holder == "" || b.holder != target then entry.(kind := KindDenied, cause := CauseInterlocutorHolder)
    else entry
  }

  // ---- Executions ----

  function ExecutionFactEntry(d: Execution, kind: Kind, child: string, phase: string, ids: seq<int>): Entry {
    Blank.(author := Harness, kind := kind, session := d.root, unit := d.unit, attempt := d.attempt,
           dispatch := d.dispatch, child := child, phase := phase, resultIds := ids, cause := CauseNone)
  }

  /** A fact about an execution is recorded only while that exact execution runs. */
  predicate StillRuns(p: Projection, d: Execution) {
    && d.dispatch in p.executions
    && var current := p.executions[d.dispatch];
       current.root == d.root && current.unit == d.unit && current.attempt == d.attempt && !current.settled
  }

  /** An execution still claiming the child session it is attached to. */
  predicate Holds(d: Execution, child: string) {
    d.child == child && (!d.settled || d.cycle != "")
  }

  predicate ChildTaken(p: Projection, dispatch: string, child: string) {
    exists id :: id in p.executions && p.executions[id].dispatch != dispatch && Holds(p.executions[id], child)
  }

  function AttachEntries(p: Projection, dispatch: string, child: string, agent: string): seq<Entry> {
    var d := ExecutionOf(p, dispatch);
    if dispatch !in p.executions || d.settled || d.agent != agent || child == "" then []
    else if !d.ready && d.cycle == "" then []
    else if d.child != "" || ChildTaken(p, dispatch, child) || !StillRuns(p, d) then []
    else [ExecutionFactEntry(d, KindChild, child, "", [])]
  }

  function RoleText(r: Role): string {
    match r
    case Collector => "collector"
    case Verifier => "verifier"
    case NoRole => ""
  }

  function LaneUnit(cycle: string, role: Role): string {
    if role == Verifier then cycle + "/verify" else cycle
  }

  /** Whether some execution stands against attaching a lane: the child is
      claimed elsewhere, or the lane is already attached. */
  predicate LaneBlocked(p: Projection, cycle: string, role: Role, child: string) {
    exists id :: id in p.executions && LaneConflict(p.executions[id], cycle, role, child)
  }

  predicate LaneConflict(d: Execution, cycle: string, role: Role, child: string) {
    || (Holds(d, child) && (d.cycle != cycle || d.role != role))
    || (!d.settled && d.cycle == cycle && (d.role == role || d.child == child))
  }

  predicate Serves(d: Execution, cycle: string, role: Role, child: string) {
    !d.settled && d.cycle == cycle && d.role == role && d.child == child
  }

  predicate LaneServed(p: Projection, cycle: string, role: Role, child: string) {
    exists id :: id in p.executions && Serves(p.executions[id], cycle, role, child)
  }

  ghost function LaneEntries(p: Projection, root: string, cycle: string, role: Role, child: string, owner: string, now: int): seq<Entry> {
    if cycle == "" || root == "" || child == "" || role == NoRole || LaneBlocked(p, cycle, role, child) then []
    else
      var unit := LaneUnit(cycle, role);
      [Blank.(author := Harness, kind := KindLane, session := root, unit := unit, attempt := NextAttempt(p, root, unit),
              dispatch := cycle + "/" + RoleText(role), agent := if role == Verifier then "verify" else "simplify",
              caller := root, child := child, cycle := cycle, role := role, owner := owner, createdAt := now, cause := CauseNone)]
  }

  /** The record of a prepared delegation, made only for the unit this exact
      dispatch and agent hold in flight, with the seat restoration it declares. */
  function PreparationEntries(p: Projection, r: Request, caller: string, owner: string, now: int, model: string, seat: Option<Seat>): seq<Entry> {
    var u := p.Unit(r.session, r.unit);
    if r.dispatch == "" || caller == "" || r.agent == "" || owner == "" || UnitKey(r.session, r.unit) !in p.inputs then []
    else if u.state != StateInFlight || u.dispatch != r.dispatch || u.agent != r.agent || r.dispatch in p.executions then []
    else
      [Blank.(author := Harness, kind := KindExecution, session := r.session, unit := r.unit, attempt := u.attempt,
              dispatch := r.dispatch, agent := r.agent, caller := caller, createdAt := now, owner := owner, model := model,
              cause := CauseNone)]
      + match seat
        case None => []
        case Some(s) =>
          [Blank.(author := Orchestrator, kind := KindSeatRestored, session := r.session, unit := r.unit, attempt := u.attempt,
                  agent := r.agent, model := s.model, reason := s.reason, cause := CauseNone)]
  }

  // ---- Commands ----

  datatype Command =
    | Admit(ref: string, request: Request)
    | Finish(ref: string, session: string, unit: string)
    | Launch(ref: string, session: string, unit: string)
    | Reconcile(ref: string, session: string, unit: string, running: bool)
    | Note(ref: string, session: string, unit: string, kind: Kind)
    | Withdraw(ref: string, session: string, unit: string)
    | Except(ref: string, event: string, session: string, bound: Bound, objective: string, allowance: int)
    | Declare(ref: string, change: PlanChange)
    | DeclareRecovery(ref: string, event: string, session: string, declaration: RecoveryDeclaration)
    | CloseRecovery(ref: string, event: string, session: string, objective: string, evidence: string, demonstrated: bool)
    | ObserveActions(session: string, objective: string, journal: seq<JournalEntry>)
    | Backtrack(session: string, objective: string, head: int)
    | ConfirmRestored(ref: string, session: string, objective: string, evidence: string)
    | Contest(ref: string, session: string, unit: string, attempt: string)
    | Switch(ref: string, root: string, child: string, agent: string, eligible: bool)
    | Handoff(ref: string, root: string, caller: string, result: string)
    | Abort(ref: string, root: string, child: string, origin: Origin)
    | RecordResult(entry: Entry)
    | DeclareInputs(session: string, unit: string, ids: seq<int>)
    | Prepare(request: Request, caller: string, owner: string, now: int, model: string, seat: Option<Seat>)
    | MarkExecution(execution: Execution, kind: Kind, phase: string, ids: seq<int>)
    | AttachChild(dispatch: string, child: string, agent: string)
    | AttachLane(root: string, cycle: string, role: Role, child: string, owner: string, now: int)
    | RenewLease(owner: string, now: int)
    | RecordActivity(entry: Entry)

  /** Lifecycle facts and declarations that consume no budget. */
  predicate NoteKind(k: Kind) {
    k.KindUncertain? || k.KindUnmonitored? || k.KindSuspended? || k.KindCancelRequested? || k.KindStopped? || k.KindEscalated?
  }

  predicate MarkKind(k: Kind) {
    k.KindPrepared? || k.KindDelivery? || k.KindPrompt? || k.KindLaneStopped? || k.KindExecutionEnded?
  }

  ghost function TerminateEntries(p: Projection, ref: string, session: string, unit: string, nonStart: bool): seq<Entry> {
    Termination(p, ref, session, unit, nonStart, Scope(p.Budgets(session), unit))
  }

  function LaunchEntries(p: Projection, ref: string, session: string, unit: string): seq<Entry> {
    var u := p.Unit(session, unit);
    if u.state != StateInFlight || u.launched || UncertainFlight(u.flight) then []
    else [RecordEntry(p, ref, session, unit, KindLaunched)]
  }

  ghost function ReconcileEntries(p: Projection, ref: string, session: string, unit: string, running: bool): seq<Entry> {
    var u := p.Unit(session, unit);
    if !UncertainFlight(u.flight) || (!running && u.state != StateInFlight) then []
    else if running then [RecordEntry(p, ref, session, unit, KindLaunched)]
    else TerminateEntries(p, ref, session, unit, true)
  }

  function RestoredEntries(p: Projection, ref: string, session: string, objective: string, evidence: string): seq<Entry> {
    var r := p.Budgets(session).Recovery(objective);
    if r.open || r.restored || !r.backtracked || AnyInFlight(p, session, r.scope) then []
    else [Blank.(author := Harness, kind := KindRestored, session := session, unit := r.unit, attempt := FirstAttempt,
                 cause := CauseUncaptured, journalRef := ref, objective := objective, scope := r.scope, evidence := evidence)]
  }

  /** The batch a command asks to append. */
  ghost function Proposed(policy: Policy, history: seq<Entry>, p: Projection, c: Command): seq<Entry> {
    match c
    case Admit(ref, r) => if r.unit == "" || r.session == "" then [] else [Decide(policy, p, ref, r)]
    case Finish(ref, session, unit) => TerminateEntries(p, ref, session, unit, false)
    case Launch(ref, session, unit) => LaunchEntries(p, ref, session, unit)
    case Reconcile(ref, session, unit, running) => ReconcileEntries(p, ref, session, unit, running)
    case Note(ref, session, unit, kind) => if NoteKind(kind) then [RecordEntry(p, ref, session, unit, kind)] else []
    case Withdraw(ref, session, unit) =>
      if p.Unit(session, unit).state == StatePlanned then [RecordEntry(p, ref, session, unit, KindWithdrawn)] else []
    case Except(ref, event, session, bound, objective, allowance) =>
      if ExceptionRefused(p.Budgets(session), bound, objective) then []
      else [ExceptionEntry(ref, event, session, bound, objective, allowance)]
    case Declare(ref, change) => DeclareEntries(p, ref, change)
    case DeclareRecovery(ref, event, session, d) =>
      if p.Budgets(session).Recovery(d.objective).open then []
      else [RecoveryEntry(ref, event, session, d, RecoveryRefusal(policy, p.Budgets(session), d))]
    case CloseRecovery(ref, event, session, objective, evidence, demonstrated) =>
      if !p.Budgets(session).Recovery(objective).open || (demonstrated && evidence == "") then []
      else [ClosureEntry(ref, event, session, objective, evidence, demonstrated)]
    case ObserveActions(session, objective, journal) =>
      AccountEntries(session, objective, p.Budgets(session).Recovery(objective), journal)
    case Backtrack(session, objective, head) =>
      BacktrackEntries(p, session, objective, p.Budgets(session).Recovery(objective), head)
    case ConfirmRestored(ref, session, objective, evidence) => RestoredEntries(p, ref, session, objective, evidence)
    case Contest(ref, session, unit, attempt) =>
      ContestEntries(policy, p.Budgets(session), TerminalFailure(history, session, unit, attempt), ref, session, unit, attempt)
    case Switch(ref, root, child, agent, eligible) => [SwitchEntry(p.Budgets(root), ref, root, child, agent, eligible)]
    case Handoff(ref, root, caller, result) => [HandoffEntry(p.Budgets(root), ref, root, caller, result)]
    case Abort(ref, root, child, origin) => [AbortEntry(p.Budgets(root), ref, root, child, origin)]
    case RecordResult(e) => if e.kind.KindResult? then [e] else []
    case DeclareInputs(session, unit, ids) =>
      [Blank.(author := Orchestrator, kind := KindInputs, session := session, unit := unit, resultIds := ids, none := ids == [], cause := CauseNone)]
    case Prepare(r, caller, owner, now, model, seat) => PreparationEntries(p, r, caller, owner, now, model, seat)
    case MarkExecution(d, kind, phase, ids) =>
      if MarkKind(kind) && StillRuns(p, d) then [ExecutionFactEntry(d, kind, "", phase, ids)] else []
    case AttachChild(dispatch, child, agent) => AttachEntries(p, dispatch, child, agent)
    case AttachLane(root, cycle, role, child, owner, now) => LaneEntries(p, root, cycle, role, child, owner, now)
    case RenewLease(owner, now) => [Blank.(author := Harness, kind := KindLease, owner := owner, createdAt := now, cause := CauseNone)]
    case RecordActivity(e) => if ActivityOf(e).Some? then [e] else []
  }

  /** What a command appends: the whole batch when every entry is recordable,
      otherwise nothing. */
  ghost function Effect(policy: Policy, history: seq<Entry>, c: Command): seq<Entry> {
    var batch := Proposed(policy, history, Project(history), c);
    if AllValid(batch) then batch else []
  }

  /** The history a run of commands records, from an empty store. */
  ghost function Execute(policy: Policy, commands: seq<Command>): seq<Entry> {
    if commands == [] then []
    else
      var n := |commands| - 1;
      var history := Execute(policy, commands[..n]);
      history + Effect(policy, history, commands[n])
  }

  ghost function Reached(policy: Policy, commands: seq<Command>): Projection {
    Project(Execute(policy, commands))
  }
}
