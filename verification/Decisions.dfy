/** The decisions of the dispatch protocol as the runtime computes them: loops
    over maps in no particular order, each proved against its meaning. */
module Decisions {
  import opened Decimal
  import opened Record
  import opened Replay
  import opened PlanGraph
  import opened Protocol
  import opened Licensing
  import opened Budgeting
  import opened ReplayState
  import opened Revision
  import opened Linkage
  import opened Verdicts

  lemma HighestIsUnique(p: Projection, ids: set<string>, m: int, n: int)
    requires IsHighest(p, ids, m) && IsHighest(p, ids, n)
    ensures m == n
  {
  }

  lemma HighestStep(p: Projection, seen: set<string>, id: string, n: int)
    requires id in p.executions && IsHighest(p, seen, n)
    ensures IsHighest(p, seen + {id}, Max(n, AttemptNumber(p.executions[id].attempt)))
  {
    hide AttemptNumber;
  }

  lemma NoneIsHighest(p: Projection)
    ensures IsHighest(p, {}, 0)
  {
  }

  /** Visiting one more name of a map grows what was counted by that name
      alone. */
  lemma VisitOne<T>(own: set<T>, unseen: set<T>, x: T)
    requires x in unseen
    ensures own - (unseen - {x}) == if x in own then (own - unseen) + {x} else own - unseen
    ensures |own - (unseen - {x})| == |own - unseen| + if x in own then 1 else 0
  {
    assert own - (unseen - {x}) == if x in own then (own - unseen) + {x} else own - unseen;
  }

  lemma NothingVisited<T>(own: set<T>, all: set<T>)
    requires own <= all
    ensures own - all == {}
  {
  }

  lemma AllVisited<T>(own: set<T>)
    ensures own - {} == own
  {
  }

  /** The highest attempt among a unit's executions, whatever order they come in. */
  method HighestRecorded(p: Projection, root: string, unit: string) returns (n: int)
    ensures n == HighestAttempt(p, root, unit)
  {
    hide IsHighest, AttemptNumber;
    n := 0;
    var unseen := p.executions.Keys;
    ghost var own := ExecutionsFor(p, root, unit);
    NothingVisited(own, unseen);
    NoneIsHighest(p);
    while unseen != {}
      invariant unseen <= p.executions.Keys
      invariant IsHighest(p, own - unseen, n)
      decreases |unseen|
    {
      var id :| id in unseen;
      var d := p.executions[id];
      VisitOne(own, unseen, id);
      if d.root == root && d.unit == unit {
        HighestStep(p, own - unseen, id, n);
        n := Max(n, AttemptNumber(d.attempt));
      }
      unseen := unseen - {id};
    }
    AllVisited(own);
    HighestIsUnique(p, own, n, HighestAttempt(p, root, unit));
  }

  /** The attempt an admission opens. */
  method IssueAttempt(p: Projection, root: string, unit: string) returns (attempt: string)
    ensures attempt == NextAttempt(p, root, unit)
  {
    hide HighestAttempt, Parse, Print;
    if p.Known(root, unit) {
      var u := p.Unit(root, unit);
      if u.state != StateSettled {
        return FirstAttempt;
      }
      match Parse(u.attempt) {
        case Some(n) => return Print(n + 1);
        case None => return FirstAttempt;
      }
    }
    var n := HighestRecorded(p, root, unit);
    attempt := Print(n + 1);
  }

  /** The units admitted and not yet ended, counted one by one. */
  method CountInFlight(p: Projection) returns (n: nat)
    ensures n == InFlight(p)
  {
    n := 0;
    var unseen := p.units.Keys;
    ghost var own := InFlightUnits(p);
    NothingVisited(own, unseen);
    while unseen != {}
      invariant unseen <= p.units.Keys
      invariant n == |own - unseen|
      decreases |unseen|
    {
      var k :| k in unseen;
      VisitOne(own, unseen, k);
      if p.units[k].state == StateInFlight {
        n := n + 1;
      }
      unseen := unseen - {k};
    }
    AllVisited(own);
  }

  method DecideAdmission(policy: Policy, p: Projection, ref: string, r: Request) returns (entry: Entry)
    requires Sound(p.Budgets(r.session))
    ensures entry == Decide(policy, p, ref, r)
    ensures Shape(p) ==> && (entry.kind.KindAdmitted? <==> MayAdmit(policy, p, r.session, r.unit))
                         && (entry.kind.KindDenied? <==> !entry.kind.KindAdmitted?)
                         && (entry.kind.KindDenied? ==> DeniedFor(policy, p, r.session, r.unit, entry.cause))
  {
    hide Refusal, NextAttempt, MayAdmit, DeniedFor;
    if Shape(p) { DecisionMeans(policy, p, ref, r); }
    var b := p.Budgets(r.session);
    var attempt := IssueAttempt(p, r.session, r.unit);
    var objective := FindScope(b, r.unit);
    var version := FindRound(b, r.unit);
    FoundIsMeant(b, r.unit, objective, version);
    var refusal := Refuse(policy, p, r, objective, version);
    entry := AdmissionEntry(ref, r, attempt, objective, refusal);
  }

  /** The checks in the order they run; the first that fails is the cause. */
  method Refuse(policy: Policy, p: Projection, r: Request, objective: string, version: string) returns (refusal: Option<Cause>)
    ensures refusal == Refusal(policy, p, r, objective, version)
  {
    var b := p.Budgets(r.session);
    var known, u := p.Known(r.session, r.unit), p.Unit(r.session, r.unit);
    var recovery := b.Recovery(objective);
    var held := CountInFlight(p);
    if held >= policy.specialists + b.Allowed(BoundConcurrency, "") {
      return Some(CauseBound(BoundConcurrency));
    }
    if known && u.state == StateInFlight {
      return Some(CauseRepetition);
    }
    if known && u.state == StateWithdrawn {
      return Some(CauseWithdrawn);
    }
    if !known && b.unplanned >= policy.unplannedUnits + b.Allowed(BoundUnplanned, "") {
      return Some(CauseBound(BoundUnplanned));
    }
    if version != "" {
      var round := if version in b.qaRounds then b.qaRounds[version] else Strengthening(QARound("", []), false);
      var ceiling := policy.maxAttempts + b.Allowed(BoundQARounds, round.round.objective);
      if !round.started && StrengtheningUsed(b, round.round.objective) >= ceiling {
        return Some(CauseBound(BoundQARounds));
      }
    }
    if objective == "" {
      return None;
    }
    if !recovery.open {
      return Some(CauseBound(BoundRecoveryAttempts));
    }
    if recovery.unreconciled {
      return Some(CauseBound(BoundRecoveryActions));
    }
    var spent := if recovery.attempted.Some? then |recovery.attempted.value| else 0;
    if spent >= recovery.attempts + b.Allowed(BoundRecoveryAttempts, objective) {
      return Some(CauseBound(BoundRecoveryAttempts));
    }
    if recovery.used >= recovery.actions + b.Allowed(BoundRecoveryActions, objective) {
      return Some(CauseBound(BoundRecoveryActions));
    }
    return None;
  }

  method DecideTermination(p: Projection, ref: string, session: string, unit: string, nonStart: bool) returns (batch: seq<Entry>)
    requires Sound(p.Budgets(session))
    ensures batch == TerminateEntries(p, ref, session, unit, nonStart)
  {
    hide Termination;
    var b := p.Budgets(session);
    var objective := FindScope(b, unit);
    var version := FindRound(b, unit);
    FoundIsMeant(b, unit, objective, version);
    batch := Termination(p, ref, session, unit, nonStart, objective);
  }

  // ---- Plan declarations ----

  method RoundPasses(p: Projection, session: string, version: string, plan: seq<PlanUnit>, r: QARound) returns (ok: bool)
    requires Sound(p.Budgets(session))
    ensures ok <==> RoundAccepted(p, session, version, plan, r)
  {
    hide BlankText, Sound, PlanOf;
    var b := p.Budgets(session);
    if BlankText(r.objective) || r.units == [] || version in b.qaRounds {
      return false;
    }
    for i := 0 to |r.units|
      invariant forall k | 0 <= k < i :: !BlankText(r.units[k])
      invariant forall j, k | 0 <= j < k < i :: r.units[j] != r.units[k]
      invariant forall k | 0 <= k < i ::
        && r.units[k] in PlanOf(plan)
        && (p.Known(session, r.units[k]) ==> p.Unit(session, r.units[k]).state == StatePlanned)
        && QARoundFor(b, r.units[k]) == ""
    {
      var id := r.units[i];
      if BlankText(id) || id in r.units[..i] {
        return false;
      }
      if id !in PlanOf(plan) || (p.Known(session, id) && p.Unit(session, id).state != StatePlanned) {
        return false;
      }
      var prior := PriorRound(b, id);
      if prior != "" {
        return false;
      }
    }
    return true;
  }

  method PriorRound(b: Budgets, unit: string) returns (version: string)
    requires Sound(b)
    ensures version == QARoundFor(b, unit)
  {
    version := FindRound(b, unit);
    var objective := FindScope(b, unit);
    FoundIsMeant(b, unit, objective, version);
  }

  method RoundFails(p: Projection, c: PlanChange, plan: seq<PlanUnit>) returns (refused: bool)
    requires Sound(p.Budgets(c.session))
    ensures refused <==> RoundRefused(p, c, plan)
  {
    hide RoundAccepted;
    if c.round.None? {
      return false;
    }
    var ok := RoundPasses(p, c.session, c.version, plan, c.round.value);
    return !ok;
  }

  method CheckRevision(p: Projection, c: PlanChange, resulting: seq<PlanUnit>) returns (fault: Option<PlanFault>)
    requires Sound(p.Budgets(c.session))
    requires resulting == Revised(CurrentPlan(p, c.session), c.units, c.withdrawals)
    ensures fault == RevisionFault(p, c)
  {
    hide RoundRefused, PlanFaultOf, Revised, CurrentPlan, WithdrawalsPlanned, AdmittedUnchanged, AddedPrerequisitesSettled,
         AddedAndWithdrawnTogether;
    if p.Budgets(c.session).planVersion != c.base {
      return Some(StaleBase);
    }
    if AddedAndWithdrawnTogether(c.units, c.withdrawals) {
      return Some(AddedAndWithdrawn);
    }
    var invalid := ValidPlan(resulting, KnownNames(p, c.session));
    if invalid.Some? {
      return invalid;
    }
    if !WithdrawalsPlanned(p, c.session, c.withdrawals) {
      return Some(NotPlanned);
    }
    if !AdmittedUnchanged(p, c.session, c.units) {
      return Some(AlreadyAdmitted);
    }
    if !AddedPrerequisitesSettled(p, c.session, resulting, c.units) {
      return Some(UnsettledPrerequisite);
    }
    var refused := RoundFails(p, c, resulting);
    return if refused then Some(QARoundRefused) else None;
  }

  method DecideCommitment(p: Projection, ref: string, c: PlanChange) returns (batch: seq<Entry>)
    requires Sound(p.Budgets(c.session))
    ensures batch == CommitEntries(p, ref, c)
  {
    hide RoundRefused, PlanFaultOf, RoundEntries, PlannedEntry;
    if c.session == "" || c.version == "" || c.units == [] {
      return [];
    }
    var fault := ValidPlan(c.units, KnownNames(p, c.session));
    if fault.Some? {
      return [];
    }
    var refused := RoundFails(p, c, c.units);
    if refused {
      return [];
    }
    batch := RoundEntries(ref, c.session, c.version, c.round);
    ghost var head := batch;
    for i := 0 to |c.units|
      invariant batch == head + PlannedEntries(ref, c.session, c.version, c.units[..i])
    {
      batch := batch + [PlannedEntry(ref, c.session, c.version, c.units[i])];
    }
    assert c.units[..|c.units|] == c.units;
  }

  method DecideRevision(p: Projection, ref: string, c: PlanChange) returns (batch: seq<Entry>)
    requires Sound(p.Budgets(c.session))
    ensures batch == ReviseEntries(p, ref, c)
  {
    hide RevisionFault, CurrentPlan, Revised, ClassificationOf, RoundEntries, RevisedEntry, PlannedEntries, WithdrawnEntries, InvalidRevisionEntry;
    if c.session == "" || c.base == "" || c.version == "" {
      return [];
    }
    var current := CurrentPlan(p, c.session);
    CurrentPlanOf(p, c.session);
    var resulting := ReviseUnits(current, c.units, c.withdrawals);
    var fault := CheckRevision(p, c, resulting);
    if fault.Some? {
      return [InvalidRevisionEntry(ref, c.session, c.base, c.version, fault.value)];
    }
    batch := RoundEntries(ref, c.session, c.version, c.round);
    batch := batch + [RevisedEntry(ref, c.session, c.base, c.version, ClassificationOf(current, resulting))];
    batch := batch + PlannedEntries(ref, c.session, c.version, c.units);
    batch := batch + WithdrawnEntries(ref, c.session, c.withdrawals);
  }

  method DecideDeclaration(p: Projection, ref: string, c: PlanChange) returns (batch: seq<Entry>)
    requires Sound(p.Budgets(c.session))
    ensures batch == DeclareEntries(p, ref, c)
  {
    hide CommitEntries, ReviseEntries;
    if p.Budgets(c.session).planVersion == "" {
      if c.base != "" || c.withdrawals != [] {
        return [];
      }
      batch := DecideCommitment(p, ref, c);
      return;
    }
    if c.base == "" {
      return [];
    }
    batch := DecideRevision(p, ref, c);
  }

  // ---- Executions ----

  /** Whether another execution still claims the child. */
  method ChildClaimed(p: Projection, dispatch: string, child: string) returns (taken: bool)
    ensures taken <==> ChildTaken(p, dispatch, child)
  {
    var unseen := p.executions.Keys;
    while unseen != {}
      invariant unseen <= p.executions.Keys
      invariant forall id | id in p.executions && id !in unseen :: p.executions[id].dispatch == dispatch || !Holds(p.executions[id], child)
      decreases |unseen|
    {
      var id :| id in unseen;
      var holder := p.executions[id];
      if holder.child == child && holder.dispatch != dispatch && (!holder.settled || holder.cycle != "") {
        return true;
      }
      unseen := unseen - {id};
    }
    return false;
  }

  /** What stands against a lane is known from any one conflict: when executions
      are linked, the one that serves it is the only one. */
  lemma LaneAnswer(p: Projection, id: string, cycle: string, role: Role, child: string)
    requires id in p.executions
    ensures var d := p.executions[id];
            && (LaneConflict(d, cycle, role, child) <==>
                  || (d.child == child && (d.cycle != cycle || d.role != role) && (!d.settled || d.cycle != ""))
                  || (!d.settled && d.cycle == cycle && (d.role == role || d.child == child)))
            && (Serves(d, cycle, role, child) ==> LaneServed(p, cycle, role, child) && LaneConflict(d, cycle, role, child))
            && (Linkage.Linked(p) && cycle != "" && child != "" && LaneConflict(d, cycle, role, child) && !Serves(d, cycle, role, child)
                ==> !LaneServed(p, cycle, role, child))
  {
    var d := p.executions[id];
    if Linkage.Linked(p) && cycle != "" && child != "" && LaneConflict(d, cycle, role, child) && LaneServed(p, cycle, role, child) {
      var other :| other in p.executions && Serves(p.executions[other], cycle, role, child);
      OnlyLaneConflict(p, other, id, cycle, role, child);
    }
  }

  lemma FreeLane(p: Projection, cycle: string, role: Role, child: string)
    ensures !LaneBlocked(p, cycle, role, child) ==> !LaneServed(p, cycle, role, child)
  {
    if LaneServed(p, cycle, role, child) {
      var id :| id in p.executions && Serves(p.executions[id], cycle, role, child);
      assert LaneConflict(p.executions[id], cycle, role, child);
    }
  }

  lemma OnlyLaneConflict(p: Projection, id: string, other: string, cycle: string, role: Role, child: string)
    requires Linkage.Linked(p) && cycle != "" && child != "" && id in p.executions && other in p.executions
    requires Serves(p.executions[id], cycle, role, child) && LaneConflict(p.executions[other], cycle, role, child)
    ensures other == id
  {
    assert Holds(p.executions[id], child);
    assert LaneKey(id, p.executions[id]) && LaneKey(other, p.executions[other]);
  }

  /** Walks the executions in any order; `attached` when the walk stops at the
      very lane asked for. */
  method LaneStands(p: Projection, cycle: string, role: Role, child: string) returns (blocked: bool, attached: bool)
    ensures blocked <==> LaneBlocked(p, cycle, role, child)
    ensures attached ==> blocked && LaneServed(p, cycle, role, child)
    ensures Linkage.Linked(p) && cycle != "" && child != "" ==> (attached <==> LaneServed(p, cycle, role, child))
  {
    hide Linkage.Linked, LaneConflict;
    attached := false;
    var unseen := p.executions.Keys;
    while unseen != {}
      invariant unseen <= p.executions.Keys
      invariant !attached
      invariant forall id | id in p.executions && id !in unseen :: !LaneConflict(p.executions[id], cycle, role, child)
      decreases |unseen|
    {
      var id :| id in unseen;
      var d := p.executions[id];
      unseen := unseen - {id};
      LaneAnswer(p, id, cycle, role, child);
      if d.child == child && (d.cycle != cycle || d.role != role) && (!d.settled || d.cycle != "") {
        return true, false;
      }
      if d.settled || d.cycle != cycle {
        continue;
      }
      if d.role == role {
        return true, d.child == child;
      }
      if d.child == child {
        return true, false;
      }
    }
    FreeLane(p, cycle, role, child);
    return false, false;
  }

  method DecideAttachment(p: Projection, dispatch: string, child: string, agent: string) returns (batch: seq<Entry>)
    ensures batch == AttachEntries(p, dispatch, child, agent)
  {
    hide ExecutionFactEntry, ChildTaken;
    var d := ExecutionOf(p, dispatch);
    if dispatch !in p.executions || d.settled || d.agent != agent || child == "" {
      return [];
    }
    if !d.ready && d.cycle == "" {
      return [];
    }
    if d.child != "" {
      return [];
    }
    var taken := ChildClaimed(p, dispatch, child);
    if taken || !StillRuns(p, d) {
      return [];
    }
    batch := [ExecutionFactEntry(d, KindChild, child, "", [])];
  }

  // ---- Interlocutor: the entry is built first and overwritten on denial ----

  method DecideSwitch(b: Budgets, ref: string, root: string, child: string, agent: string, eligible: bool) returns (entry: Entry)
    ensures entry == SwitchEntry(b, ref, root, child, agent, eligible)
  {
    entry := Blank.(author := Orchestrator, kind := KindInterlocutorSwitched, session := root, unit := child,
                    attempt := FirstAttempt, agent := agent, cause := CauseUncaptured, journalRef := ref);
    if !eligible {
      entry := entry.(author := Harness, kind := KindDenied, cause := CauseInterlocutorRole);
    } else if b.holder != "" {
      entry := entry.(author := Harness, kind := KindDenied, cause := CauseInterlocutorHeld);
    }
  }

  method DecideHandoff(b: Budgets, ref: string, root: string, caller: string, result: string) returns (entry: Entry)
    ensures entry == HandoffEntry(b, ref, root, caller, result)
  {
    entry := Blank.(author := Orchestrator, kind := KindInterlocutorHandoff, session := root, unit := caller,
                    attempt := FirstAttempt, result := result, cause := CauseUncaptured, journalRef := ref);
    if caller != b.holder {
      entry := entry.(author := Harness, kind := KindDenied, cause := CauseInterlocutorHolder);
    }
  }

  method DecideAbort(b: Budgets, ref: string, root: string, child: string, origin: Origin) returns (entry: Entry)
    ensures entry == AbortEntry(b, ref, root, child, origin)
  {
    var target := if child == "" then b.holder else child;
    entry := Blank.(author := Harness, kind := KindInterlocutorAborted, session := root, unit := target,
                    attempt := FirstAttempt, result := "Aborted", cause := CauseUncaptured, journalRef := ref);
    if origin.OtherOrigin? {
      entry := entry.(kind := KindDenied, cause := CauseInterlocutorOrigin);
    } else if b.holder == "" || b.holder != target {
      entry := entry.(kind := KindDenied, cause := CauseInterlocutorHolder);
    }
  }
}
