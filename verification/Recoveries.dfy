/** What recoveries, user exceptions and contests are for, said of the accounting
    alone: when each is accepted and the record it then leaves. */
module Recoveries {
  import opened Decimal
  import opened Record
  import opened Replay
  import opened Protocol
  import opened Licensing
  import opened Runs
  import opened Effects
  import opened Verdicts
  import opened Accounting

  /** Nothing but one session's accounting differs. */
  ghost predicate OnlyAccounting(p: Projection, q: Projection, session: string) {
    && q.units == p.units && q.executions == p.executions && q.inputs == p.inputs
    && forall s | s != session :: q.Budgets(s) == p.Budgets(s)
  }

  lemma AccountingFolds(p: Projection, e: Entry)
    requires BudgetKind(e.kind)
    ensures OnlyAccounting(p, Fold(p, e), e.session)
    ensures Budgeted(p.Budgets(e.session), e) == Some(Fold(p, e).Budgets(e.session))
  {
    hide Fold;
    FoldBudget(p, e);
  }

  lemma AccountingSame(p: Projection, session: string)
    ensures OnlyAccounting(p, p, session)
  {
  }

  /** A refusal is recorded and nothing else changes. */
  lemma DenialLeaves(p: Projection, e: Entry)
    requires e.kind.KindDenied?
    ensures var q := Fold(p, e); q.units == p.units && q.executions == p.executions && q.inputs == p.inputs
                                 && forall s :: q.Budgets(s) == p.Budgets(s)
  {
    hide Fold;
    FoldBudget(p, e);
  }

  // ---- Exceptions ----

  predicate RecoveryBound(bound: Bound) {
    bound == BoundRecoveryActions || bound == BoundRecoveryAttempts
  }

  /** An abandonment waiting for its restoration. */
  predicate Abandoned(r: Recovery) {
    r.backtracked && !r.restored
  }

  /** An exception widens a bound that needs no objective, or names one; on an
      abandoned recovery, the bound it was abandoned for. */
  predicate MayExcept(b: Budgets, bound: Bound, objective: string, allowance: int) {
    && bound != NoBound && allowance > 0
    && (bound == BoundConcurrency || bound == BoundUnplanned || bound == BoundContests || objective != "")
    && (RecoveryBound(bound) && Abandoned(b.Recovery(objective)) ==> b.Recovery(objective).cause == CauseBound(bound))
  }

  /** The recovery an exception leaves: an abandonment is lifted and its failure
      taken back; consumption that was not established is, from the named position. */
  ghost predicate LiftedAs(r: Recovery, s: Recovery, bound: Bound, ref: string) {
    && s == r.(open := s.open, backtracked := s.backtracked, cause := s.cause, failures := s.failures,
               unreconciled := s.unreconciled, cursor := s.cursor)
    && (if Abandoned(r)
        then s.open && !s.backtracked && s.cause == NoCause && s.failures == (if r.failures > 0 then r.failures - 1 else r.failures)
        else s.open == r.open && s.backtracked == r.backtracked && s.cause == r.cause && s.failures == r.failures)
    && (if bound == BoundRecoveryActions then !s.unreconciled && s.cursor == RefSeq(ref)
        else s.unreconciled == r.unreconciled && s.cursor == r.cursor)
  }

  ghost predicate GrantedAs(b: Budgets, c: Budgets, bound: Bound, objective: string, allowance: int, ref: string) {
    var r, s := b.Recovery(objective), c.Recovery(objective);
    && c == b.(allowance := c.allowance, recoveries := c.recoveries)
    && c.allowance == b.allowance[AllowanceKey(bound, objective) := b.Allowed(bound, objective) + allowance]
    && (forall o | o != objective :: c.Recovery(o) == b.Recovery(o))
    && (if bound == BoundRecoveryActions || (bound == BoundRecoveryAttempts && Abandoned(r)) then LiftedAs(r, s, bound, ref) else s == r)
  }

  ghost predicate ExceptedAs(p: Projection, q: Projection, session: string, bound: Bound, objective: string, allowance: int, ref: string) {
    OnlyAccounting(p, q, session) && GrantedAs(p.Budgets(session), q.Budgets(session), bound, objective, allowance, ref)
  }

  lemma ExceptionMeans(b: Budgets, bound: Bound, objective: string, allowance: int)
    ensures bound != NoBound && allowance > 0 && !ExceptionRefused(b, bound, objective) <==> MayExcept(b, bound, objective, allowance)
  {
  }

  lemma ExceptionLeaves(p: Projection, ref: string, event: string, session: string, bound: Bound, objective: string, allowance: int)
    requires MayExcept(p.Budgets(session), bound, objective, allowance)
    ensures ExceptedAs(p, Fold(p, ExceptionEntry(ref, event, session, bound, objective, allowance)), session, bound, objective, allowance, ref)
  {
    hide Fold, OnlyAccounting, Excepted, GrantedAs, MayExcept;
    var e := ExceptionEntry(ref, event, session, bound, objective, allowance);
    AccountingFolds(p, e);
    Grants(p.Budgets(session), e);
  }

  lemma Grants(b: Budgets, e: Entry)
    requires MayExcept(b, e.bound, e.objective, e.allowance)
    ensures GrantedAs(b, Excepted(b, e), e.bound, e.objective, e.allowance, e.journalRef)
  {
    hide RefSeq;
  }

  /** A recovery that an accounting abandoned is reopened by an exception on the
      bound that was spent, actions ahead of attempts, and by no other. */
  lemma SpentBoundIsLiftable(p: Projection, session: string, objective: string, s: Recovery, journal: seq<JournalEntry>,
                             c: Budgets, bound: Bound, allowance: int)
    requires Shape(p) && objective != "" && allowance > 0 && RecoveryBound(bound)
    requires p.Budgets(session).Recovery(objective).open
    requires AccountedAs(p, session, objective, s, journal) && !s.open && c.Recovery(objective) == s
    ensures var b := p.Budgets(session); var r := b.Recovery(objective);
            MayExcept(c, bound, objective, allowance)
            <==> bound == if r.used + |FreshCalls(journal, session, r)| >= r.actions + b.Allowed(BoundRecoveryActions, objective)
                          then BoundRecoveryActions else BoundRecoveryAttempts
  {
    hide FreshCalls, ScopeIdle;
    assert BudgetShape(p.Budgets(session));
    assert RecoveryShape(p.Budgets(session).Recovery(objective));
  }

  // ---- Recoveries ----

  predicate Complete(d: RecoveryDeclaration) {
    d.objective != "" && d.result != "" && d.scope != [] && d.actions > 0 && d.attempts > 0
  }

  ghost predicate Claimed(b: Budgets, scope: seq<string>) {
    exists o, unit :: unit in scope && b.InScope(o, unit)
  }

  predicate FailuresSpent(policy: Policy, b: Budgets, objective: string) {
    b.Recovery(objective).failures >= policy.recoveryFailures + b.Allowed(BoundRecovery, objective)
  }

  /** Complete, within the policy's budgets, over units no unresolved recovery
      holds, for an objective that has not failed too often. */
  ghost predicate MayDeclare(policy: Policy, b: Budgets, d: RecoveryDeclaration) {
    && Complete(d) && d.actions <= policy.maxActions && d.attempts <= policy.maxAttempts
    && !Claimed(b, d.scope) && !FailuresSpent(policy, b, d.objective)
  }

  ghost predicate DeclarationDeniedFor(policy: Policy, b: Budgets, d: RecoveryDeclaration, cause: Cause) {
    if !Complete(d) then cause == CauseIncomplete
    else if d.actions > policy.maxActions then cause == CauseBound(BoundRecoveryActions)
    else if d.attempts > policy.maxAttempts then cause == CauseBound(BoundRecoveryAttempts)
    else if Claimed(b, d.scope) then cause == CauseOverlap
    else FailuresSpent(policy, b, d.objective) && cause == CauseBound(BoundRecovery)
  }

  lemma RecoveryMeans(policy: Policy, b: Budgets, d: RecoveryDeclaration)
    ensures RecoveryRefusal(policy, b, d).None? <==> MayDeclare(policy, b, d)
    ensures RecoveryRefusal(policy, b, d).Some? ==> DeclarationDeniedFor(policy, b, d, RecoveryRefusal(policy, b, d).value)
  {
    if ScopeTaken(b, d.scope) {
      var o :| o in b.recoveries && exists i :: 0 <= i < |d.scope| && b.InScope(o, d.scope[i]);
      var i :| 0 <= i < |d.scope| && b.InScope(o, d.scope[i]);
      assert d.scope[i] in d.scope && b.InScope(o, d.scope[i]);
    }
    if Claimed(b, d.scope) {
      var o, unit :| unit in d.scope && b.InScope(o, unit);
      var i :| 0 <= i < |d.scope| && d.scope[i] == unit;
      assert o in b.recoveries && b.InScope(o, d.scope[i]);
    }
  }

  /** One recovery's record is as given; the others are as they were. */
  ghost predicate RecoveryIs(p: Projection, q: Projection, session: string, objective: string, s: Recovery) {
    && OnlyAccounting(p, q, session)
    && q.Budgets(session) == p.Budgets(session).(recoveries := p.Budgets(session).recoveries[objective := s])
  }

  /** A declared recovery opens with nothing consumed, counting from the position
      it names; earlier failures of the objective still count. */
  function Opened(failures: int, event: string, d: RecoveryDeclaration, ref: string): Recovery {
    Recovery(true, failures, event, d.result, d.scope, d.actions, d.attempts, 0, Some({}), RefSeq(ref), false, false, false, NoCause)
  }

  lemma RecoveryLeaves(p: Projection, ref: string, event: string, session: string, d: RecoveryDeclaration, refusal: Option<Cause>)
    ensures var q := Fold(p, RecoveryEntry(ref, event, session, d, refusal));
            && (refusal.None? ==> RecoveryIs(p, q, session, d.objective, Opened(p.Budgets(session).Recovery(d.objective).failures, event, d, ref)))
            && (refusal.Some? ==> q.units == p.units && forall s :: q.Budgets(s) == p.Budgets(s))
  {
    hide Fold, RefSeq, OnlyAccounting;
    var e := RecoveryEntry(ref, event, session, d, refusal);
    AccountingFolds(p, e);
    if refusal.Some? { DenialLeaves(p, e); }
  }

  lemma ClosureLeaves(p: Projection, ref: string, event: string, session: string, objective: string, evidence: string, demonstrated: bool)
    requires Shape(p)
    ensures var q := Fold(p, ClosureEntry(ref, event, session, objective, evidence, demonstrated));
            var r := p.Budgets(session).Recovery(objective);
            RecoveryIs(p, q, session, objective, r.(open := false, failures := if demonstrated then 0 else r.failures + 1))
  {
    hide Fold, OnlyAccounting;
    AccountingFolds(p, ClosureEntry(ref, event, session, objective, evidence, demonstrated));
  }

  lemma RestorationLeaves(p: Projection, ref: string, session: string, objective: string, evidence: string)
    requires RestoredEntries(p, ref, session, objective, evidence) != []
    ensures var q := Fold(p, RestoredEntries(p, ref, session, objective, evidence)[0]);
            RecoveryIs(p, q, session, objective, p.Budgets(session).Recovery(objective).(restored := true))
  {
    hide Fold, OnlyAccounting, AnyInFlight;
    AccountingFolds(p, RestoredEntries(p, ref, session, objective, evidence)[0]);
  }

  // ---- Contests ----

  /** An attempt contested already, or one that ended in a recorded failure while
      the allowance lasts. */
  predicate MayContest(policy: Policy, history: seq<Entry>, b: Budgets, session: string, unit: string, attempt: string) {
    || AttemptKey(unit, attempt) in b.contests
    || (&& |b.contests| < policy.contests + b.Allowed(BoundContests, "")
        && exists i :: 0 <= i < |history| && history[i].kind.KindTerminated? && history[i].session == session
                       && history[i].unit == unit && history[i].attempt == attempt && history[i].outcome != Completed)
  }

  lemma ContestMeans(policy: Policy, history: seq<Entry>, b: Budgets, session: string, unit: string, attempt: string)
    ensures ContestAdmitted(policy, b, TerminalFailure(history, session, unit, attempt), unit, attempt)
            <==> MayContest(policy, history, b, session, unit, attempt)
  {
    if exists i :: 0 <= i < |history| && history[i].kind.KindTerminated? && history[i].session == session
                   && history[i].unit == unit && history[i].attempt == attempt && history[i].outcome != Completed {
      var i :| 0 <= i < |history| && history[i].kind.KindTerminated? && history[i].session == session
               && history[i].unit == unit && history[i].attempt == attempt && history[i].outcome != Completed;
      assert FailedEntry(history[i], session, unit, attempt);
    }
  }

  lemma ContestLeaves(p: Projection, e: Entry)
    requires e.kind.KindContested? || e.kind.KindDenied?
    ensures var q := Fold(p, e); var b := p.Budgets(e.session);
            && OnlyAccounting(p, q, e.session)
            && q.Budgets(e.session) == b.(contests := b.contests + if e.kind.KindContested? then {AttemptKey(e.unit, e.attempt)} else {})
  {
    hide Fold, OnlyAccounting, AttemptKey;
    AccountingFolds(p, e);
    assert e.kind.KindDenied? ==> p.Budgets(e.session).contests + {} == p.Budgets(e.session).contests;
  }
}
