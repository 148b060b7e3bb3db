/** Attributing bus actions to open recoveries, and abandoning the exhausted. */
module Accounting {
  import opened Record
  import opened Replay
  import opened Protocol
  import opened Licensing

  /** Bus positions start at 0 and only grow. */
  predicate Journal(journal: seq<JournalEntry>) {
    && (forall i | 0 <= i < |journal| :: journal[i].position >= 0)
    && (forall i, j | 0 <= i < j < |journal| :: journal[i].position < journal[j].position)
  }

  /** Nothing is left to observe of a recovery, nor to abandon it for. */
  predicate Settled(p: Projection, journal: seq<JournalEntry>, session: string, objective: string) {
    var r := p.Budgets(session).Recovery(objective);
    && AccountEntries(session, objective, r, journal) == []
    && BacktrackEntries(p, session, objective, r, Head(journal)) == []
  }

  /** A recovery after its observed actions are recorded. */
  function Observed(r: Recovery, session: string, journal: seq<JournalEntry>): Recovery {
    if !r.open || r.unreconciled then r
    else if Head(journal) < r.cursor then r.(unreconciled := true)
    else if ScopeActions(journal, session, r) > 0 then r.(used := r.used + ScopeActions(journal, session, r), cursor := Head(journal))
    else r
  }

  lemma HeadBounds(journal: seq<JournalEntry>)
    requires Journal(journal)
    ensures Head(journal) >= -1
    ensures forall i | 0 <= i < |journal| :: journal[i].position <= Head(journal)
  {
  }

  // ---- What an accounting means ----

  /** The distinct calls the bus shows past the cursor, by units of the scope. */
  function FreshCalls(journal: seq<JournalEntry>, session: string, r: Recovery): set<string> {
    set i | 0 <= i < |journal| && journal[i].position > r.cursor && journal[i].session == session
            && journal[i].call != "" && journal[i].unit in r.scope :: journal[i].call
  }

  /** No unit of the scope is still working. */
  predicate ScopeIdle(p: Projection, session: string, scope: seq<string>) {
    forall unit | unit in scope :: p.Unit(session, unit).state != StateInFlight
  }

  /** A recovery before and after an accounting: the fresh calls are consumed, or
      the consumption is no longer established when the bus ends before the cursor;
      a recovery whose actions are spent, or whose attempts are while its scope is
      idle, is abandoned for that bound. */
  ghost predicate AccountedAs(p: Projection, session: string, objective: string, s: Recovery, journal: seq<JournalEntry>) {
    var b := p.Budgets(session);
    var r := b.Recovery(objective);
    var head := if journal == [] then -1 else journal[|journal| - 1].position;
    if !r.open || r.unreconciled then s == r
    else if head < r.cursor then s == r.(unreconciled := true)
    else
      var calls := FreshCalls(journal, session, r);
      var seen := r.(used := r.used + |calls|, cursor := if calls != {} then head else r.cursor);
      var attempted := if r.attempted.Some? then |r.attempted.value| else 0;
      if seen.used >= r.actions + b.Allowed(BoundRecoveryActions, objective) then AbandonedFor(seen, s, BoundRecoveryActions)
      else if attempted >= r.attempts + b.Allowed(BoundRecoveryAttempts, objective) && ScopeIdle(p, session, r.scope)
      then AbandonedFor(seen, s, BoundRecoveryAttempts)
      else s == seen
  }

  /** Closed by force: the failure counts, and the spent bound is its cause. */
  predicate AbandonedFor(r: Recovery, s: Recovery, bound: Bound) {
    s == r.(open := false, backtracked := true, failures := r.failures + 1, cause := CauseBound(bound))
  }

  /** Calls are counted under a key that also names the session. */
  lemma CallsCounted(journal: seq<JournalEntry>, session: string, r: Recovery)
    ensures ScopeActions(journal, session, r) == |FreshCalls(journal, session, r)|
  {
    var keys := set i | 0 <= i < |journal| && Counts(journal[i], session, r) :: journal[i].session + "/" + journal[i].call;
    var calls := FreshCalls(journal, session, r);
    forall key | key in keys ensures key in set c | c in calls :: session + "/" + c {
      var i :| 0 <= i < |journal| && Counts(journal[i], session, r) && journal[i].session + "/" + journal[i].call == key;
      assert journal[i].call in calls;
    }
    forall c | c in calls ensures session + "/" + c in keys {
      var i :| 0 <= i < |journal| && journal[i].position > r.cursor && journal[i].session == session
               && journal[i].call != "" && journal[i].unit in r.scope && journal[i].call == c;
      assert Counts(journal[i], session, r);
    }
    assert keys == set c | c in calls :: session + "/" + c;
    PrefixedAlike(session + "/", calls);
  }

  lemma {:induction false} PrefixedAlike(prefix: string, names: set<string>)
    ensures |set c | c in names :: prefix + c| == |names|
    decreases names
  {
    var prefixed := set c | c in names :: prefix + c;
    if names != {} {
      var x :| x in names;
      var rest := set c | c in names - {x} :: prefix + c;
      PrefixedAlike(prefix, names - {x});
      forall c | c in names && prefix + c == prefix + x ensures c == x {
        assert (prefix + c)[|prefix|..] == c && (prefix + x)[|prefix|..] == x;
      }
      assert prefixed == rest + {prefix + x} && prefix + x !in rest;
    }
  }

  lemma IdleScope(p: Projection, session: string, scope: seq<string>)
    ensures ScopeIdle(p, session, scope) <==> !AnyInFlight(p, session, scope)
  {
    if !ScopeIdle(p, session, scope) {
      var unit :| unit in scope && p.Unit(session, unit).state == StateInFlight;
      var i :| 0 <= i < |scope| && scope[i] == unit;
    }
  }

  /** Once counted through the head, the same journal counts nothing more. */
  lemma ObservedOnce(r: Recovery, session: string, objective: string, journal: seq<JournalEntry>)
    requires Journal(journal)
    ensures AccountEntries(session, objective, Observed(r, session, journal), journal) == []
         || Observed(r, session, journal) == r.(unreconciled := true)
    ensures AccountEntries(session, objective, Observed(r, session, journal), journal) == []
  {
    var s := Observed(r, session, journal);
    HeadBounds(journal);
    if s.open && !s.unreconciled && s != r {
      assert forall i | 0 <= i < |journal| :: !Counts(journal[i], session, s);
      assert ScopeActions(journal, session, s) == 0 by {
        assert (set i | 0 <= i < |journal| && Counts(journal[i], session, s) :: journal[i].session + "/" + journal[i].call) == {};
      }
    }
  }

  /** Nothing but the one recovery's record differs. */
  ghost predicate OnlyRecovery(p: Projection, q: Projection, session: string, objective: string) {
    && q.units == p.units
    && (forall s | s != session :: q.Budgets(s) == p.Budgets(s))
    && (forall o | o != objective :: q.Budgets(session).Recovery(o) == p.Budgets(session).Recovery(o))
    && q.Budgets(session).allowance == p.Budgets(session).allowance
    && q.sessions.Keys == p.sessions.Keys + {session}
    && q.Budgets(session).recoveries.Keys == p.Budgets(session).recoveries.Keys + {objective}
  }

  lemma FoldOne(p: Projection, e: Entry)
    ensures FoldAll(p, [e]) == Fold(p, e)
  {
    assert [e][..0] == [];
  }

  lemma ObserveFolds(p: Projection, session: string, objective: string, journal: seq<JournalEntry>)
    requires Journal(journal)
    requires session in p.sessions && objective in p.sessions[session].recoveries
    ensures var r := p.Budgets(session).Recovery(objective);
            var q := FoldAll(p, AccountEntries(session, objective, r, journal));
            OnlyRecovery(p, q, session, objective) && q.Budgets(session).Recovery(objective) == Observed(r, session, journal)
  {
    hide Fold, ScopeActions, OnlyRecovery, JournalPosition, RefSeq, Head;
    var r := p.Budgets(session).Recovery(objective);
    var batch := AccountEntries(session, objective, r, journal);
    HeadBounds(journal);
    if batch != [] {
      var e := batch[0];
      FoldOne(p, e);
      PositionRoundTrip(Head(journal));
      ActionsFold(p, e);
    } else {
      SelfOnly(p, session, objective);
    }
  }

  lemma SelfOnly(p: Projection, session: string, objective: string)
    requires session in p.sessions && objective in p.sessions[session].recoveries
    ensures OnlyRecovery(p, p, session, objective)
  {
  }

  lemma ActionsFold(p: Projection, e: Entry)
    requires e.kind.KindActions? || e.kind.KindActionsUncertain?
    requires e.session in p.sessions && e.objective in p.sessions[e.session].recoveries
    ensures OnlyRecovery(p, Fold(p, e), e.session, e.objective)
    ensures var r := p.Budgets(e.session).Recovery(e.objective);
            Fold(p, e).Budgets(e.session).Recovery(e.objective)
              == if e.kind.KindActions? then r.(used := r.used + e.actions, cursor := RefSeq(e.journalRef)) else r.(unreconciled := true)
  {
    hide Fold, RefSeq;
    FoldBudget(p, e);
  }

  lemma BacktrackFolds(p: Projection, session: string, objective: string, head: int)
    requires session in p.sessions && objective in p.sessions[session].recoveries
    ensures var r := p.Budgets(session).Recovery(objective);
            var batch := BacktrackEntries(p, session, objective, r, head);
            var q := FoldAll(p, batch);
            && OnlyRecovery(p, q, session, objective)
            && (batch == [] ==> q == p)
            && (batch != [] ==> Exhausted(p, session, objective, r).Some?
                                && AbandonedFor(r, q.Budgets(session).Recovery(objective), Exhausted(p, session, objective, r).value))
  {
    hide Fold;
    var r := p.Budgets(session).Recovery(objective);
    var batch := BacktrackEntries(p, session, objective, r, head);
    if batch != [] {
      FoldOne(p, batch[0]);
      FoldBudget(p, batch[0]);
    }
  }

  /** One accounting of one recovery: observe, then abandon if exhausted. */
  ghost function AfterAccount(p: Projection, session: string, objective: string, journal: seq<JournalEntry>): Projection {
    var q := FoldAll(p, AccountEntries(session, objective, p.Budgets(session).Recovery(objective), journal));
    FoldAll(q, BacktrackEntries(q, session, objective, q.Budgets(session).Recovery(objective), Head(journal)))
  }

  lemma AccountSettles(p: Projection, session: string, objective: string, journal: seq<JournalEntry>)
    requires Journal(journal)
    requires session in p.sessions && objective in p.sessions[session].recoveries
    ensures var q := AfterAccount(p, session, objective, journal);
            && Settled(q, journal, session, objective) && OnlyRecovery(p, q, session, objective)
            && AccountedAs(p, session, objective, q.Budgets(session).Recovery(objective), journal)
  {
    hide FoldAll, Exhausted, AccountEntries, AccountedAs, OnlyRecovery;
    var r := p.Budgets(session).Recovery(objective);
    var q1 := FoldAll(p, AccountEntries(session, objective, r, journal));
    ObserveFolds(p, session, objective, journal);
    ObservedOnce(r, session, objective, journal);
    assert Declared(p, session, objective);
    OnlyKeepsDeclared(p, q1, session, objective);
    assert Declared(q1, session, objective);
    BacktrackFolds(q1, session, objective, Head(journal));
    var q := AfterAccount(p, session, objective, journal);
    ClosedIsSettled(session, objective, q.Budgets(session).Recovery(objective), journal);
    OnlyOn(p, q1, q, session, objective);
    AccountingMeans(p, q1, q.Budgets(session).Recovery(objective), session, objective, journal);
  }

  lemma OnlyOn(p: Projection, q: Projection, r: Projection, session: string, objective: string)
    requires OnlyRecovery(p, q, session, objective) && OnlyRecovery(q, r, session, objective)
    ensures OnlyRecovery(p, r, session, objective)
  {
  }

  /** Observed, then abandoned where a bound is spent. */
  lemma AccountingMeans(p: Projection, q: Projection, s: Recovery, session: string, objective: string, journal: seq<JournalEntry>)
    requires OnlyRecovery(p, q, session, objective)
    requires q.Budgets(session).Recovery(objective) == Observed(p.Budgets(session).Recovery(objective), session, journal)
    requires var r := q.Budgets(session).Recovery(objective);
             if BacktrackEntries(q, session, objective, r, Head(journal)) == [] then s == r
             else Exhausted(q, session, objective, r).Some? && AbandonedFor(r, s, Exhausted(q, session, objective, r).value)
    ensures AccountedAs(p, session, objective, s, journal)
  {
    hide ScopeActions, FreshCalls, AnyInFlight, ScopeIdle, JournalPosition;
    var r := p.Budgets(session).Recovery(objective);
    CallsCounted(journal, session, r);
    IdleScope(q, session, r.scope);
    SameIdle(p, q, session, r.scope);
  }

  lemma SameIdle(p: Projection, q: Projection, session: string, scope: seq<string>)
    requires q.units == p.units
    ensures ScopeIdle(q, session, scope) == ScopeIdle(p, session, scope)
  {
  }

  lemma ClosedIsSettled(session: string, objective: string, r: Recovery, journal: seq<JournalEntry>)
    ensures !r.open ==> AccountEntries(session, objective, r, journal) == []
  {
  }

  /** A settled recovery that stays open and reconciled has actions left, and
      attempts left or work of its scope still in flight. */
  lemma SettledMeansLeft(p: Projection, journal: seq<JournalEntry>, session: string, objective: string)
    requires Settled(p, journal, session, objective)
    ensures var b := p.Budgets(session); var r := b.Recovery(objective);
            r.open && !r.unreconciled ==>
              && r.used < r.actions + b.Allowed(BoundRecoveryActions, objective)
              && ((r.attempted.None? && 0 < r.attempts + b.Allowed(BoundRecoveryAttempts, objective))
                  || (r.attempted.Some? && |r.attempted.value| < r.attempts + b.Allowed(BoundRecoveryAttempts, objective))
                  || AnyInFlight(p, session, r.scope))
  {
  }

  /** Accounting one recovery disturbs no other. */
  lemma SettledKept(p: Projection, q: Projection, journal: seq<JournalEntry>,
                    session: string, objective: string, s: string, o: string)
    requires OnlyRecovery(p, q, session, objective) && (s != session || o != objective)
    requires Settled(p, journal, s, o)
    ensures Settled(q, journal, s, o)
  {
    SameRecovery(p, q, session, objective, s, o);
    var r := p.Budgets(s).Recovery(o);
    assert Exhausted(q, s, o, r) == Exhausted(p, s, o, r) by {
      assert AnyInFlight(q, s, r.scope) == AnyInFlight(p, s, r.scope);
    }
  }

  lemma SameRecovery(p: Projection, q: Projection, session: string, objective: string, s: string, o: string)
    requires OnlyRecovery(p, q, session, objective) && (s != session || o != objective)
    ensures q.Budgets(s).Recovery(o) == p.Budgets(s).Recovery(o)
    ensures q.Budgets(s).allowance == p.Budgets(s).allowance
    ensures forall k | k in p.units :: k in q.units && q.units[k] == p.units[k]
  {
  }

  // ---- The entries an accounting asks for are recordable ----

  lemma AccountRecordable(p: Projection, session: string, objective: string, journal: seq<JournalEntry>)
    requires Shape(p) && session in p.sessions && objective in p.sessions[session].recoveries
    ensures AllValid(AccountEntries(session, objective, p.Budgets(session).Recovery(objective), journal))
  {
    hide Exhausted, ScopeActions, Shape, Valid, Head, BudgetShape;
    KnownRecovery(p, session, objective);
    var r := p.Budgets(session).Recovery(objective);
    if r.open {
      forall kind: Kind, actions: int, head: int | kind.KindActions? || kind.KindActionsUncertain?
        ensures Valid(ActionsEntry(session, objective, r, kind, actions, head))
      {
        ActionsRecordable(session, objective, r, kind, actions, head);
      }
    }
  }

  lemma AbandonRecordable(p: Projection, session: string, objective: string, head: int)
    requires Shape(p) && session in p.sessions && objective in p.sessions[session].recoveries
    ensures AllValid(BacktrackEntries(p, session, objective, p.Budgets(session).Recovery(objective), head))
  {
    hide Exhausted, Shape, Valid, BudgetShape;
    KnownRecovery(p, session, objective);
    var r := p.Budgets(session).Recovery(objective);
    if r.open { BacktrackRecordable(p, session, objective, r, head); }
  }

  lemma KnownRecovery(p: Projection, session: string, objective: string)
    requires Shape(p) && session in p.sessions && objective in p.sessions[session].recoveries
    ensures session != "" && objective != ""
    ensures p.Budgets(session).Recovery(objective).open ==> p.Budgets(session).Recovery(objective).unit != ""
  {
    assert RecoveryShape(p.sessions[session].recoveries[objective]);
  }

  lemma ActionsRecordable(session: string, objective: string, r: Recovery, kind: Kind, actions: int, head: int)
    requires session != "" && objective != "" && r.unit != "" && (kind.KindActions? || kind.KindActionsUncertain?)
    ensures Valid(ActionsEntry(session, objective, r, kind, actions, head))
  {
    hide JournalPosition;
  }

  lemma BacktrackRecordable(p: Projection, session: string, objective: string, r: Recovery, head: int)
    requires session != "" && objective != "" && r.unit != ""
    ensures AllValid(BacktrackEntries(p, session, objective, r, head))
  {
    hide JournalPosition, Exhausted;
  }

  // ---- One pass over every recovery ----

  predicate Declared(p: Projection, session: string, objective: string) {
    session in p.sessions && objective in p.sessions[session].recoveries
  }

  ghost predicate AllSettled(p: Projection, journal: seq<JournalEntry>) {
    forall s, o | Declared(p, s, o) :: Settled(p, journal, s, o)
  }

  /** How far a pass has come from the projection it was read against: the
      recoveries done are settled, the others are as they were read. */
  ghost predicate Accounted(p: Projection, q: Projection, journal: seq<JournalEntry>, done: set<(string, string)>) {
    && q.units == p.units
    && (forall s :: q.Budgets(s).allowance == p.Budgets(s).allowance)
    && (forall s, o :: Declared(q, s, o) == Declared(p, s, o))
    && (forall s, o | (s, o) in done :: Settled(q, journal, s, o) && AccountedAs(p, s, o, q.Budgets(s).Recovery(o), journal))
    && (forall s, o | (s, o) !in done :: q.Budgets(s).Recovery(o) == p.Budgets(s).Recovery(o))
  }

  lemma OnlyKeepsDeclared(p: Projection, q: Projection, session: string, objective: string)
    requires OnlyRecovery(p, q, session, objective) && Declared(p, session, objective)
    ensures forall s, o :: Declared(q, s, o) == Declared(p, s, o)
    ensures forall s :: q.Budgets(s).allowance == p.Budgets(s).allowance
  {
    forall s, o ensures Declared(q, s, o) == Declared(p, s, o) {
      if s in p.sessions { assert q.Budgets(s) == q.sessions[s] && p.Budgets(s) == p.sessions[s]; }
    }
  }

  lemma AccountedNext(p: Projection, q: Projection, q': Projection, journal: seq<JournalEntry>, done: set<(string, string)>,
                      session: string, objective: string)
    requires Accounted(p, q, journal, done) && Declared(q, session, objective)
    requires OnlyRecovery(q, q', session, objective) && Settled(q', journal, session, objective)
    requires (session, objective) !in done && AccountedAs(q, session, objective, q'.Budgets(session).Recovery(objective), journal)
    ensures Accounted(p, q', journal, done + {(session, objective)})
  {
    hide Settled, OnlyRecovery, Declared, AccountedAs;
    AccountedAlike(p, q, session, objective, q'.Budgets(session).Recovery(objective), journal);
    OnlyKeepsDeclared(q, q', session, objective);
    OnlyUnits(q, q', session, objective);
    forall s, o | (s, o) in done && (s != session || o != objective) ensures Settled(q', journal, s, o) {
      SettledKept(q, q', journal, session, objective, s, o);
    }
    forall s, o | s != session || o != objective ensures q'.Budgets(s).Recovery(o) == q.Budgets(s).Recovery(o) {
      SameRecovery(q, q', session, objective, s, o);
    }
  }

  lemma OnlyUnits(p: Projection, q: Projection, session: string, objective: string)
    requires OnlyRecovery(p, q, session, objective)
    ensures q.units == p.units
  {
  }

  lemma AccountedAlike(p: Projection, q: Projection, session: string, objective: string, s: Recovery, journal: seq<JournalEntry>)
    requires ReadAs(p, q, session, objective) && AccountedAs(q, session, objective, s, journal)
    ensures AccountedAs(p, session, objective, s, journal)
  {
    hide ScopeIdle, FreshCalls;
    SameIdle(p, q, session, p.Budgets(session).Recovery(objective).scope);
  }

  lemma PassStarts(p: Projection, journal: seq<JournalEntry>)
    ensures Accounted(p, p, journal, {})
  {
  }

  lemma NotYet(p: Projection, q: Projection, journal: seq<JournalEntry>, done: set<(string, string)>, session: string, objective: string)
    requires Accounted(p, q, journal, done) && (session, objective) !in done && Declared(p, session, objective)
    ensures Declared(q, session, objective) && ReadAs(p, q, session, objective)
  {
    hide Settled, Declared;
  }

  lemma NothingToAccount(p: Projection, session: string, objective: string, journal: seq<JournalEntry>)
    requires var r := p.Budgets(session).Recovery(objective); !r.open || r.unreconciled
    ensures Settled(p, journal, session, objective)
  {
  }

  lemma NothingAccounted(p: Projection, session: string, objective: string, journal: seq<JournalEntry>)
    requires var r := p.Budgets(session).Recovery(objective); !r.open || r.unreconciled
    ensures AccountedAs(p, session, objective, p.Budgets(session).Recovery(objective), journal)
  {
  }

  lemma EntryNamesUnit(session: string, objective: string, r: Recovery, s: Recovery, kind: Kind, actions: int, head: int)
    requires r.unit == s.unit
    ensures ActionsEntry(session, objective, r, kind, actions, head) == ActionsEntry(session, objective, s, kind, actions, head)
  {
  }

  /** What concerns this recovery is as it was read. */
  predicate ReadAs(p: Projection, q: Projection, session: string, objective: string) {
    && q.units == p.units && q.Budgets(session).allowance == p.Budgets(session).allowance
    && q.Budgets(session).Recovery(objective) == p.Budgets(session).Recovery(objective)
  }

  predicate Accounts(c: Command, journal: seq<JournalEntry>) {
    (c.ObserveActions? && c.journal == journal) || (c.Backtrack? && c.head == Head(journal))
  }

  /** A longer run whose further commands only account for this journal. */
  predicate OnlyAccounts(commands: seq<Command>, more: seq<Command>, journal: seq<JournalEntry>) {
    |commands| <= |more| && more[..|commands|] == commands && forall i | |commands| <= i < |more| :: Accounts(more[i], journal)
  }

  lemma NoneFurther(commands: seq<Command>, journal: seq<JournalEntry>)
    ensures OnlyAccounts(commands, commands, journal)
  {
  }

  lemma AccountsOn(a: seq<Command>, b: seq<Command>, c: seq<Command>, journal: seq<JournalEntry>)
    requires OnlyAccounts(a, b, journal) && OnlyAccounts(b, c, journal)
    ensures OnlyAccounts(a, c, journal)
  {
    assert c[..|a|] == c[..|b|][..|a|];
    forall i | |a| <= i < |c| ensures Accounts(c[i], journal) {
      if i < |b| { assert c[..|b|][i] == b[i]; }
    }
  }

  lemma AllAccounted(p: Projection, q: Projection, journal: seq<JournalEntry>, done: set<(string, string)>)
    requires Accounted(p, q, journal, done)
    requires forall s, o | Declared(p, s, o) :: (s, o) in done
    ensures AllSettled(q, journal)
    ensures forall s, o | Declared(p, s, o) :: AccountedAs(p, s, o, q.Budgets(s).Recovery(o), journal)
  {
    hide Settled, Declared, AccountedAs;
  }

  /** The abandonment is decided on what was read before the observation: only
      the cursor differs, and it plays no part. */
  lemma StaleBacktrack(p: Projection, q: Projection, session: string, objective: string, r: Recovery, head: int)
    requires q.units == p.units && q.Budgets(session).allowance == p.Budgets(session).allowance
    requires r == q.Budgets(session).Recovery(objective).(cursor := r.cursor)
    ensures BacktrackEntries(p, session, objective, r, head)
         == BacktrackEntries(q, session, objective, q.Budgets(session).Recovery(objective), head)
  {
    var s := q.Budgets(session).Recovery(objective);
    assert AnyInFlight(p, session, r.scope) == AnyInFlight(q, session, s.scope);
    assert Exhausted(p, session, objective, r) == Exhausted(q, session, objective, s);
  }

  /** The distinct calls counted, one journal entry at a time. */
  method CountActions(journal: seq<JournalEntry>, session: string, r: Recovery) returns (n: nat)
    ensures n == ScopeActions(journal, session, r) == |FreshCalls(journal, session, r)|
  {
    CallsCounted(journal, session, r);
    var calls: set<string> := {};
    for i := 0 to |journal|
      invariant calls == set k | 0 <= k < i && Counts(journal[k], session, r) :: journal[k].session + "/" + journal[k].call
    {
      if Counts(journal[i], session, r) {
        calls := calls + {journal[i].session + "/" + journal[i].call};
      }
    }
    n := |calls|;
  }
}
