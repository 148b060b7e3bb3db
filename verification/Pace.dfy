/** The pace of maintenance: counters over cursor windows, a bounded count of
    deferrals, and at most one cycle in flight. */
module Pace {
  import opened Decimal
  import opened Record

  datatype Operation = Create | Patch | Delete | Other

  /** One entry of the workspace journal. */
  datatype Mutation = Mutation(position: int, session: string, cycle: string, failed: bool, changed: bool, operation: Operation)

  /** Recorded ordinary work that changed a file, of this session or of none. */
  predicate Effective(e: Mutation, session: string) {
    e.cycle == "" && !e.failed && e.changed && (e.session == "" || e.session == session) && e.operation != Other
  }

  /** Effective mutations with from < position <= to. */
  function Mutations(journal: seq<Mutation>, session: string, from: int, to: int): nat {
    if journal == [] then 0
    else
      var n := |journal| - 1;
      Mutations(journal[..n], session, from, to)
      + if from < journal[n].position <= to && Effective(journal[n], session) then 1 else 0
  }

  /** Admissions of the session with from < position <= to. */
  function Admissions(history: seq<Entry>, session: string, from: int, to: int): nat {
    if history == [] then 0
    else
      var n := |history| - 1;
      Admissions(history[..n], session, from, to)
      + if from < n <= to && history[n].kind.KindAdmitted? && history[n].session == session then 1 else 0
  }

  /** The entries those counts are of. */
  function Changes(journal: seq<Mutation>, session: string, from: int, to: int): set<int> {
    set i | 0 <= i < |journal| && from < journal[i].position <= to
            && journal[i].operation in {Create, Patch, Delete} && journal[i].changed && !journal[i].failed
            && journal[i].cycle == "" && (journal[i].session == session || journal[i].session == "")
  }

  function Started(history: seq<Entry>, session: string, from: int, to: int): set<int> {
    set i | 0 <= i < |history| && from < i <= to && history[i].kind == KindAdmitted && history[i].session == session
  }

  lemma {:induction false} MutationsAre(journal: seq<Mutation>, session: string, from: int, to: int)
    ensures Mutations(journal, session, from, to) == |Changes(journal, session, from, to)|
  {
    if journal != [] {
      var n := |journal| - 1;
      MutationsAre(journal[..n], session, from, to);
      assert Changes(journal[..n], session, from, to) == Changes(journal, session, from, to) - {n};
    }
  }

  lemma {:induction false} AdmissionsAre(history: seq<Entry>, session: string, from: int, to: int)
    ensures Admissions(history, session, from, to) == |Started(history, session, from, to)|
  {
    if history != [] {
      var n := |history| - 1;
      AdmissionsAre(history[..n], session, from, to);
      StartedNext(history, session, from, to);
    }
  }

  lemma StartedNext(history: seq<Entry>, session: string, from: int, to: int)
    requires history != []
    ensures var n := |history| - 1; var before := Started(history[..n], session, from, to);
            && n !in before
            && Started(history, session, from, to)
               == before + if from < n <= to && history[n].kind == KindAdmitted && history[n].session == session then {n} else {}
  {
    var n := |history| - 1;
    assert forall i | 0 <= i < n :: history[..n][i] == history[i];
  }

  function Head(journal: seq<Mutation>): int {
    if journal == [] then -1
    else
      var before := Head(journal[..|journal| - 1]);
      if before < journal[|journal| - 1].position then journal[|journal| - 1].position else before
  }

  /** The journal only grows, past everything it held. */
  predicate Extends(was: seq<Mutation>, now: seq<Mutation>) {
    |was| <= |now| && now[..|was|] == was && forall i | |was| <= i < |now| :: now[i].position > Head(was)
  }

  predicate Grows(was: seq<Entry>, now: seq<Entry>) {
    |was| <= |now| && now[..|was|] == was
  }

  // ---- Windows add up ----

  lemma {:induction false} MutationsSplit(journal: seq<Mutation>, session: string, a: int, b: int, c: int)
    requires a <= b <= c
    ensures Mutations(journal, session, a, c) == Mutations(journal, session, a, b) + Mutations(journal, session, b, c)
  {
    if journal != [] { MutationsSplit(journal[..|journal| - 1], session, a, b, c); }
  }

  lemma {:induction false} AdmissionsSplit(history: seq<Entry>, session: string, a: int, b: int, c: int)
    requires a <= b <= c
    ensures Admissions(history, session, a, c) == Admissions(history, session, a, b) + Admissions(history, session, b, c)
  {
    if history != [] { AdmissionsSplit(history[..|history| - 1], session, a, b, c); }
  }

  lemma {:induction false} HeadBounds(journal: seq<Mutation>)
    ensures Head(journal) >= -1
    ensures forall i | 0 <= i < |journal| :: journal[i].position <= Head(journal)
  {
    if journal != [] {
      var n := |journal| - 1;
      HeadBounds(journal[..n]);
      assert forall i | 0 <= i < n :: journal[i] == journal[..n][i];
    }
  }

  /** What was counted up to a cursor stays as counted while the journal grows. */
  lemma {:induction false} MutationsStay(was: seq<Mutation>, now: seq<Mutation>, session: string, from: int, to: int)
    requires Extends(was, now) && to <= Head(was)
    ensures Mutations(now, session, from, to) == Mutations(was, session, from, to)
    decreases |now|
  {
    if |now| > |was| {
      var n := |now| - 1;
      assert now[..n][..|was|] == was;
      assert Extends(was, now[..n]) by { assert forall i | |was| <= i < n :: now[..n][i] == now[i]; }
      MutationsStay(was, now[..n], session, from, to);
    } else {
      assert now == was;
    }
  }

  lemma {:induction false} AdmissionsStay(was: seq<Entry>, now: seq<Entry>, session: string, from: int, to: int)
    requires Grows(was, now) && to < |was|
    ensures Admissions(now, session, from, to) == Admissions(was, session, from, to)
    decreases |now|
  {
    if |now| > |was| {
      var n := |now| - 1;
      assert now[..n][..|was|] == was;
      AdmissionsStay(was, now[..n], session, from, to);
    } else {
      assert now == was;
    }
  }

  lemma HeadGrows(was: seq<Mutation>, now: seq<Mutation>)
    requires Extends(was, now)
    ensures Head(was) <= Head(now)
    decreases |now|
  {
    if |now| > |was| {
      var n := |now| - 1;
      assert now[..n][..|was|] == was;
      assert Extends(was, now[..n]) by { assert forall i | |was| <= i < n :: now[..n][i] == now[i]; }
      HeadGrows(was, now[..n]);
    } else {
      assert now == was;
    }
  }

  // ---- Decisions ----

  datatype TriggerPolicy = TriggerPolicy(unitsPerCycle: int, mutationsPerCycle: int, maxDeferrals: int)
  {
    predicate Positive() {
      unitsPerCycle > 0 && mutationsPerCycle > 0 && maxDeferrals > 0
    }
  }

  datatype Outcome = Idle | Run | Skip | Abort

  datatype TriggerInput = TriggerInput(units: int, mutations: int, requested: bool, inFlight: bool, deferrals: int)

  predicate Due(t: TriggerInput, p: TriggerPolicy) {
    t.requested || t.units * p.mutationsPerCycle + t.mutations * p.unitsPerCycle >= p.unitsPerCycle * p.mutationsPerCycle
  }

  function Decide(t: TriggerInput, p: TriggerPolicy): Outcome {
    if !Due(t, p) then Idle
    else if t.deferrals >= p.maxDeferrals then Abort
    else if t.inFlight then Skip
    else if t.mutations == 0 then Skip
    else Run
  }

  /** What the pace answers: nothing while nothing is asked for and the shares of the
      work done sum to less than one; no more once the deferrals have run out; not now
      while a cycle runs or there is nothing to collect; else to run a cycle. */
  predicate Answers(outcome: Outcome, units: int, mutations: int, requested: bool, inFlight: bool, deferrals: int, p: TriggerPolicy)
    requires p.Positive()
  {
    var shares := units as real / p.unitsPerCycle as real + mutations as real / p.mutationsPerCycle as real;
    outcome == if !requested && shares < 1.0 then Idle
               else if deferrals >= p.maxDeferrals then Abort
               else if inFlight || mutations == 0 then Skip
               else Run
  }

  lemma DecideAnswers(units: int, mutations: int, requested: bool, inFlight: bool, deferrals: int, p: TriggerPolicy)
    requires p.Positive()
    ensures Answers(Decide(TriggerInput(units, mutations, requested, inFlight, deferrals), p), units, mutations, requested, inFlight, deferrals, p)
  {
    DueIsShareSum(units, mutations, p);
  }

  /** The integer comparison is the share sum u/U + m/M >= 1. */
  lemma DueIsShareSum(units: int, mutations: int, p: TriggerPolicy)
    requires p.Positive()
    ensures Due(TriggerInput(units, mutations, false, false, 0), p)
        <==> units as real / p.unitsPerCycle as real + mutations as real / p.mutationsPerCycle as real >= 1.0
  {
    var u, m, uu, mm := units as real, mutations as real, p.unitsPerCycle as real, p.mutationsPerCycle as real;
    var shares := u / uu + m / mm;
    assert u / uu * uu == u && m / mm * mm == m;
    assert shares * uu * mm == u * mm + m * uu by {
      assert u / uu * uu * mm == u * mm;
      assert m / mm * uu * mm == m / mm * mm * uu == m * uu;
    }
    assert uu * mm > 0.0;
    assert shares >= 1.0 <==> shares * (uu * mm) >= uu * mm by { Scaled(shares, uu * mm); }
    assert shares * uu * mm == shares * (uu * mm);
    assert units * p.mutationsPerCycle + mutations * p.unitsPerCycle >= p.unitsPerCycle * p.mutationsPerCycle
      <==> u * mm + m * uu >= uu * mm;
  }

  lemma Scaled(x: real, k: real)
    requires k > 0.0
    ensures x >= 1.0 <==> x * k >= k
  {
    if x >= 1.0 { assert (x - 1.0) * k >= 0.0; } else { assert (1.0 - x) * k > 0.0; }
  }

  datatype Verdict = Verdict(proceed: bool, deferrals: int)

  /** A due cycle waits while ordinary work is unfinished or unresolved. */
  function Barrier(outcome: Outcome, deferrals: int, activeUnits: nat, pendingDeltas: nat): Verdict {
    if outcome != Run then Verdict(false, deferrals)
    else if activeUnits != 0 || pendingDeltas != 0 then Verdict(false, deferrals + 1)
    else Verdict(true, 0)
  }

  /** A run decision leaves room for one more deferral, and the barrier lets it
      through only over an idle workspace. */
  lemma RunIsBelowLimit(t: TriggerInput, p: TriggerPolicy, activeUnits: nat, pendingDeltas: nat)
    requires Decide(t, p) == Run
    ensures t.deferrals < p.maxDeferrals && t.mutations != 0 && !t.inFlight
    ensures var v := Barrier(Run, t.deferrals, activeUnits, pendingDeltas);
            && (v.proceed <==> activeUnits == 0 && pendingDeltas == 0)
            && v.deferrals == if v.proceed then 0 else t.deferrals + 1
  {
  }

  /** One tick of the trigger, and whether a due cycle that the barrier lets
      through then starts. */
  datatype Tick = Tick(units: nat, mutations: nat, requested: bool, inFlight: bool, activeUnits: nat, pendingDeltas: nat, started: bool)
  {
    function Outcome(deferrals: int, p: TriggerPolicy): Outcome {
      Decide(TriggerInput(units, mutations, requested, inFlight, deferrals), p)
    }

    predicate IdleWorkspace() {
      activeUnits == 0 && pendingDeltas == 0
    }

    /** Asked for, or due by the shares of the work done, with something to collect
        and no cycle in flight. */
    predicate Waiting(p: TriggerPolicy)
      requires p.Positive()
    {
      && (requested || units as real / p.unitsPerCycle as real + mutations as real / p.mutationsPerCycle as real >= 1.0)
      && !inFlight && mutations != 0
    }

    /** A waiting tick runs, or aborts once the deferrals have run out. */
    lemma WaitingAnswers(deferrals: int, p: TriggerPolicy)
      requires p.Positive() && Waiting(p)
      ensures Outcome(deferrals, p) == if deferrals >= p.maxDeferrals then Abort else Run
    {
      DecideAnswers(units, mutations, requested, inFlight, deferrals, p);
    }
  }

  /** The deferrals a tick leaves: waiting counts, a failed start counts from
      one, and starting, skipping or aborting clears the count. */
  function NextDeferrals(deferrals: int, t: Tick, p: TriggerPolicy): int {
    var outcome := t.Outcome(deferrals, p);
    if t.inFlight || outcome == Idle then deferrals
    else if outcome != Run then 0
    else if !t.IdleWorkspace() then deferrals + 1
    else if t.started then 0 else 1
  }

  function DeferralsAfter(deferrals: int, ticks: seq<Tick>, p: TriggerPolicy): int {
    if ticks == [] then deferrals
    else
      var n := |ticks| - 1;
      NextDeferrals(DeferralsAfter(deferrals, ticks[..n], p), ticks[n], p)
  }

  /** A cycle kept waiting by a busy workspace is waited for exactly as often as
      the limit says: that many ticks count up one by one, and the next aborts. */
  lemma {:induction false} BusyWaitEndsInAbort(ticks: seq<Tick>, p: TriggerPolicy)
    requires p.Positive() && |ticks| <= p.maxDeferrals
    requires forall i | 0 <= i < |ticks| :: ticks[i].Waiting(p) && !ticks[i].IdleWorkspace()
    ensures DeferralsAfter(0, ticks, p) == |ticks|
    ensures forall t: Tick | t.Waiting(p) :: t.Outcome(|ticks|, p) == (if |ticks| == p.maxDeferrals then Abort else Run)
  {
    forall t: Tick, k: nat | t.Waiting(p) ensures t.Outcome(k, p) == if k >= p.maxDeferrals then Abort else Run { t.WaitingAnswers(k, p); }
    if ticks != [] {
      var n := |ticks| - 1;
      assert forall i | 0 <= i < n :: ticks[..n][i] == ticks[i];
      BusyWaitEndsInAbort(ticks[..n], p);
      assert ticks[n].Outcome(n, p) == Run;
    }
  }

  /** Failed starts do not add up: the barrier has cleared the count before a
      failure counts one. However many come in a row, they reach the abort limit
      if and only if the limit is one. */
  lemma {:induction false} FailedStartsStayAtOne(ticks: seq<Tick>, p: TriggerPolicy)
    requires p.Positive() && ticks != []
    requires forall i | 0 <= i < |ticks| :: ticks[i].Waiting(p) && ticks[i].IdleWorkspace() && !ticks[i].started
    requires p.maxDeferrals > 1 || |ticks| == 1
    ensures DeferralsAfter(0, ticks, p) == 1
    ensures forall t: Tick | t.Waiting(p) :: t.Outcome(DeferralsAfter(0, ticks, p), p) == Abort <==> p.maxDeferrals == 1
  {
    forall t: Tick, k: nat | t.Waiting(p) ensures t.Outcome(k, p) == if k >= p.maxDeferrals then Abort else Run { t.WaitingAnswers(k, p); }
    var n := |ticks| - 1;
    assert DeferralsAfter(0, [], p) == 0;
    if n > 0 {
      assert forall i | 0 <= i < n :: ticks[..n][i] == ticks[i];
      FailedStartsStayAtOne(ticks[..n], p);
      assert ticks[n].Outcome(1, p) == Run;
    } else {
      assert ticks[..0] == [];
      assert ticks[0].Outcome(0, p) == Run;
    }
  }

  // ---- The coordinator ----

  datatype Cycle = Cycle(id: string, session: string, mandate: nat, phase: string, reason: string)

  /** A stretch of journal and history charged to one closed, skipped or aborted
      window. */
  datatype Window = Window(journalFrom: int, journalTo: int, historyFrom: int, historyTo: int, mutations: nat, units: nat)

  /** Windows follow one another from the start to the cursors, each with
      exactly what happened in it. */
  ghost predicate Charged(windows: seq<Window>, journal: seq<Mutation>, history: seq<Entry>, session: string, cursor: int, since: int) {
    if windows == [] then cursor == -1 && since == -1
    else
      var n := |windows| - 1; var w := windows[n];
      && w.journalTo == cursor && w.historyTo == since
      && -1 <= w.journalFrom <= w.journalTo && -1 <= w.historyFrom <= w.historyTo
      && w.mutations == Mutations(journal, session, w.journalFrom, w.journalTo)
      && w.units == Admissions(history, session, w.historyFrom, w.historyTo)
      && Charged(windows[..n], journal, history, session, w.journalFrom, w.historyFrom)
  }

  function MutationsCharged(windows: seq<Window>): nat {
    if windows == [] then 0 else MutationsCharged(windows[..|windows| - 1]) + windows[|windows| - 1].mutations
  }

  function UnitsCharged(windows: seq<Window>): nat {
    if windows == [] then 0 else UnitsCharged(windows[..|windows| - 1]) + windows[|windows| - 1].units
  }

  /** Nothing is counted twice and nothing is lost between windows. */
  lemma {:induction false} ChargedIsComplete(windows: seq<Window>, journal: seq<Mutation>, history: seq<Entry>, session: string, cursor: int, since: int)
    requires Charged(windows, journal, history, session, cursor, since)
    ensures cursor >= -1 && since >= -1
    ensures MutationsCharged(windows) == Mutations(journal, session, -1, cursor)
    ensures UnitsCharged(windows) == Admissions(history, session, -1, since)
  {
    if windows == [] {
      NoneBetween(journal, history, session);
    } else {
      var n := |windows| - 1;
      var w := windows[n];
      ChargedIsComplete(windows[..n], journal, history, session, w.journalFrom, w.historyFrom);
      MutationsSplit(journal, session, -1, w.journalFrom, w.journalTo);
      AdmissionsSplit(history, session, -1, w.historyFrom, w.historyTo);
    }
  }

  lemma {:induction false} NoneBetween(journal: seq<Mutation>, history: seq<Entry>, session: string)
    ensures Mutations(journal, session, -1, -1) == 0 && Admissions(history, session, -1, -1) == 0
    decreases |journal| + |history|
  {
    if journal != [] { NoneBetween(journal[..|journal| - 1], history, session); }
    if history != [] { NoneBetween(journal, history[..|history| - 1], session); }
  }

  /** Past windows stay exact while journal and history grow. */
  lemma {:induction false} ChargedStays(windows: seq<Window>, journal: seq<Mutation>, journal': seq<Mutation>,
                                       history: seq<Entry>, history': seq<Entry>, session: string, cursor: int, since: int)
    requires Charged(windows, journal, history, session, cursor, since)
    requires Extends(journal, journal') && Grows(history, history') && cursor <= Head(journal) && since < |history|
    ensures Charged(windows, journal', history', session, cursor, since)
  {
    if windows != [] {
      var n := |windows| - 1;
      var w := windows[n];
      ChargedStays(windows[..n], journal, journal', history, history', session, w.journalFrom, w.historyFrom);
      MutationsStay(journal, journal', session, w.journalFrom, w.journalTo);
      AdmissionsStay(history, history', session, w.historyFrom, w.historyTo);
    }
  }

  lemma {:induction false} EmptyWindow(journal: seq<Mutation>, history: seq<Entry>, session: string, a: int, b: int)
    ensures Mutations(journal, session, a, a) == 0 && Admissions(history, session, b, b) == 0
    decreases |journal| + |history|
  {
    if journal != [] { EmptyWindow(journal[..|journal| - 1], history, session, a, b); }
    if history != [] { EmptyWindow(journal, history[..|history| - 1], session, a, b); }
  }

  /** The effective mutations past the cursor, and the position reached. */
  method CountMutations(entries: seq<Mutation>, session: string, cursor: int) returns (count: nat, reached: int)
    requires cursor >= -1
    ensures count == Mutations(entries, session, cursor, Head(entries))
    ensures reached == if Head(entries) < cursor then cursor else Head(entries)
  {
    count, reached := 0, cursor;
    HeadBounds(entries);
    assert entries[..0] == [];
    for i := 0 to |entries|
      invariant reached == if Head(entries[..i]) < cursor then cursor else Head(entries[..i])
      invariant count == Mutations(entries[..i], session, cursor, Head(entries))
    {
      assert entries[..i + 1][..i] == entries[..i];
      var e := entries[i];
      if reached < e.position {
        reached := e.position;
      }
      if e.position > cursor && Effective(e, session) {
        count := count + 1;
      }
    }
    assert entries[..|entries|] == entries;
  }

  method CountAdmissions(entries: seq<Entry>, session: string, since: int) returns (count: nat)
    ensures count == Admissions(entries, session, since, |entries| - 1)
  {
    count := 0;
    for i := 0 to |entries|
      invariant count == Admissions(entries[..i], session, since, |entries| - 1)
    {
      assert entries[..i + 1][..i] == entries[..i];
      if i > since && entries[i].kind.KindAdmitted? && entries[i].session == session {
        count := count + 1;
      }
    }
    assert entries[..|entries|] == entries;
  }

  lemma SameHistory(history: seq<Entry>)
    ensures Grows(history, history)
  {
  }

  lemma GrowsLength(was: seq<Entry>, now: seq<Entry>)
    requires Grows(was, now)
    ensures |was| <= |now|
  {
  }

  /** Charging one stretch more keeps windows exact if and only if it starts at
      the cursors, goes forward and holds what was counted. */
  lemma ChargedNext(windows: seq<Window>, w: Window, journal: seq<Mutation>, history: seq<Entry>, session: string)
    ensures Charged(windows + [w], journal, history, session, w.journalTo, w.historyTo)
       <==> && Charged(windows, journal, history, session, w.journalFrom, w.historyFrom)
            && -1 <= w.journalFrom <= w.journalTo && -1 <= w.historyFrom <= w.historyTo
            && w.mutations == Mutations(journal, session, w.journalFrom, w.journalTo)
            && w.units == Admissions(history, session, w.historyFrom, w.historyTo)
  {
    assert (windows + [w])[..|windows|] == windows;
  }

  const MandateRotation: nat := 5

  /** What a command does once the state is observed. */
  datatype Action =
    | Nothing
    | Ask(activeUnits: nat, pendingDeltas: nat, plan: Option<Cycle>)
    | Trigger(activeUnits: nat, pendingDeltas: nat, plan: Option<Cycle>)
    | End(reason: string)
    | Admit(closing: Option<string>, admitted: seq<Entry>)

  /** A cycle starts: it was asked for, or the shares of the work done sum to one;
      there is something to collect, waiting has not run out, the workspace is idle
      and the plan can be drawn up. */
  predicate StartsCycle(p: TriggerPolicy, action: Action, requested: bool, deferrals: int, units: nat, mutations: nat)
    requires p.Positive() && (action.Ask? || action.Trigger?)
  {
    && (action.Ask? || requested || units as real / p.unitsPerCycle as real + mutations as real / p.mutationsPerCycle as real >= 1.0)
    && mutations > 0 && deferrals < p.maxDeferrals
    && action.activeUnits == 0 && action.pendingDeltas == 0 && action.plan.Some?
  }

  class Coordinator {
    const policy: TriggerPolicy
    var cursor: int
    var since: int
    var observedJournal: int
    var observedHistory: int
    var mutations: nat
    var units: nat
    var deferrals: int
    var requested: bool
    var session: string
    var cycle: Option<Cycle>
    var closed: seq<Cycle>
    /** What was last observed, and whether this session's counts are from it. */
    ghost var journal: seq<Mutation>
    ghost var history: seq<Entry>
    ghost var counted: bool
    ghost var tallied: bool
    ghost var windows: seq<Window>

    ghost predicate Valid()
      reads this
    {
      && policy.Positive() && 0 <= deferrals <= policy.maxDeferrals
      && -1 <= cursor <= Head(journal) && -1 <= since < |history|
      && -1 <= observedJournal <= Head(journal) && -1 <= observedHistory < |history|
      && (counted ==> observedJournal == Head(journal) && mutations == Mutations(journal, session, cursor, Head(journal)))
      && (tallied ==> observedHistory == |history| - 1 && units == Admissions(history, session, since, |history| - 1))
    }

    /** Past windows are disjoint, exact, and reach up to the cursors. */
    ghost predicate Conserved()
      reads this
    {
      Charged(windows, journal, history, session, cursor, since)
    }

    constructor (policy: TriggerPolicy)
      requires policy.Positive()
      ensures Valid() && Conserved() && cycle.None? && closed == [] && windows == [] && this.policy == policy && journal == [] && history == []
    {
      this.policy := policy;
      cursor, since, observedJournal, observedHistory := -1, -1, -1, -1;
      mutations, units, deferrals, requested, session := 0, 0, 0, false, "";
      cycle, closed := None, [];
      journal, history, counted, tallied, windows := [], [], false, false, [];
    }

    /** A new process reads back the cursors and deferrals, not the counts. */
    method Reload()
      requires Valid()
      modifies this
      ensures Valid() && cursor == old(cursor) && since == old(since) && deferrals == old(deferrals) && cycle == old(cycle)
      ensures Conserved() == old(Conserved()) && requested == old(requested) && mutations == 0 && units == 0 && !counted && !tallied
      ensures windows == old(windows) && journal == old(journal) && history == old(history) && session == old(session) && closed == old(closed)
      ensures observedJournal == -1 && observedHistory == -1
    {
      hide Charged, Mutations, Admissions, Head;
      observedJournal, observedHistory, mutations, units := -1, -1, 0, 0;
      counted, tallied := false, false;
      HeadBounds(journal);
    }

    /** Another root session starts the pace over. */
    method Bind(s: string)
      requires Valid()
      modifies this
      ensures Valid() && cycle == old(cycle) && closed == old(closed) && journal == old(journal) && history == old(history)
      ensures s == "" || s == old(session) ==> windows == old(windows) && session == old(session) && deferrals == old(deferrals)
      ensures s == "" || s == old(session) ==> counted == old(counted) && tallied == old(tallied) && requested == old(requested)
      ensures s == "" || s == old(session) ==> Conserved() == old(Conserved()) && cursor == old(cursor) && since == old(since)
      ensures s != "" && s != old(session) ==> Conserved()
      ensures s != "" && s != old(session) ==> windows == [] && session == s && deferrals == 0 && !requested && cursor == -1 && since == -1
    {
      hide Mutations, Admissions, Head;
      if s == "" || s == session {
        return;
      }
      Reset();
      cursor, since, session := -1, -1, s;
      counted, tallied, windows := false, false, [];
      HeadBounds(journal);
    }

    method Reset()
      modifies this`units, this`mutations, this`deferrals, this`requested
      ensures units == 0 && mutations == 0 && deferrals == 0 && !requested
    {
      units, mutations, deferrals, requested := 0, 0, 0, false;
    }

    /** Counts the effective mutations past the cursor, from the whole journal. */
    method Observe(entries: seq<Mutation>)
      requires Valid() && Extends(journal, entries)
      modifies this`mutations, this`observedJournal, this`journal, this`counted
      ensures Valid() && journal == entries && counted && (old(Conserved()) ==> Conserved())
      ensures mutations == Mutations(entries, session, cursor, Head(entries)) == |Changes(entries, session, cursor, Head(entries))|
      ensures observedJournal == Head(entries)
    {
      hide Charged, Mutations, Admissions, Head, Extends, Changes;
      MutationsAre(entries, session, cursor, Head(entries));
      HeadGrows(journal, entries);
      SameHistory(history);
      if Conserved() { ChargedStays(windows, journal, entries, history, history, session, cursor, since); }
      mutations, observedJournal := CountMutations(entries, session, cursor);
      journal, counted := entries, true;
    }

    /** Counts the session's admissions past the cursor, from the whole history. */
    method ObserveExecutions(entries: seq<Entry>)
      requires Valid() && Grows(history, entries)
      modifies this`units, this`observedHistory, this`history, this`tallied
      ensures Valid() && history == entries && tallied && (old(Conserved()) ==> Conserved())
      ensures units == Admissions(entries, session, since, |entries| - 1) == |Started(entries, session, since, |entries| - 1)|
      ensures observedHistory == |entries| - 1
    {
      hide Charged, Mutations, Admissions, Head, Extends, Grows, Started;
      AdmissionsAre(entries, session, since, |entries| - 1);
      SameJournal(journal);
      GrowsLength(history, entries);
      if Conserved() { ChargedStays(windows, journal, journal, history, entries, session, cursor, since); }
      observedHistory := |entries| - 1;
      units := CountAdmissions(entries, session, since);
      history, tallied := entries, true;
    }

    /** The stretch up to what was observed is charged with what was counted. */
    function Stretch(): Window
      reads this
    {
      Window(cursor, observedJournal, since, observedHistory, mutations, units)
    }

    /** Ends the cycle in flight. The cursors move to what this process observed,
        wherever that is; conservation holds when this process has observed. */
    method Close(reason: string)
      requires Valid()
      modifies this
      ensures Valid() && cycle.None? && journal == old(journal) && history == old(history) && session == old(session)
      ensures old(cycle).None? ==> windows == old(windows) && closed == old(closed) && deferrals == old(deferrals) && requested == old(requested)
      ensures old(cycle).None? ==> cursor == old(cursor) && since == old(since) && Conserved() == old(Conserved())
      ensures old(cycle).Some? ==> closed == old(closed) + [old(cycle).value.(phase := "closed", reason := reason)]
      ensures old(cycle).Some? ==> deferrals == 0 && windows == old(windows) + [old(Stretch())]
      ensures old(cycle).Some? ==> cursor == old(observedJournal) && since == old(observedHistory) && mutations == 0 && units == 0
      ensures old(counted && tallied && Conserved()) ==> Conserved()
      ensures counted == old(counted) && tallied == old(tallied)
    {
      hide Charged, Mutations, Admissions, Head;
      if cycle.None? {
        return;
      }
      closed := closed + [cycle.value.(phase := "closed", reason := reason)];
      cycle := None;
      MoveCursors();
    }

    /** What was counted is charged, and counting starts over from there. */
    method MoveCursors()
      requires Valid()
      modifies this`cursor, this`since, this`units, this`mutations, this`deferrals, this`requested, this`windows
      ensures Valid() && deferrals == 0 && mutations == 0 && units == 0 && !requested
      ensures cursor == observedJournal && since == observedHistory && windows == old(windows) + [old(Stretch())]
      ensures old(counted && tallied && Conserved()) ==> Conserved()
    {
      hide Charged, Mutations, Admissions, Head;
      EmptyWindow(journal, history, session, observedJournal, observedHistory);
      ChargedNext(windows, Stretch(), journal, history, session);
      windows := windows + [Stretch()];
      cursor, since := observedJournal, observedHistory;
      Reset();
    }

    /** A close that follows a reload without observing moves the cursors back to
        the start, with nothing charged: what past windows had charged will be
        counted again, so windows stay exact only when there was nothing yet. */
    method CloseUnobserved(reason: string)
      requires Valid() && Conserved() && cycle.Some?
      modifies this
      ensures Valid() && cursor == -1 && since == -1 && journal == old(journal) && history == old(history) && session == old(session)
      ensures Conserved() <==> old(cursor) == -1 && old(since) == -1
      ensures MutationsCharged(windows) + Mutations(journal, session, cursor, Head(journal))
           == Mutations(journal, session, -1, Head(journal)) + Mutations(journal, session, -1, old(cursor))
      ensures UnitsCharged(windows) + Admissions(history, session, since, |history| - 1)
           == Admissions(history, session, -1, |history| - 1) + Admissions(history, session, -1, old(since))
    {
      hide Mutations, Admissions, Head;
      ChargedIsComplete(windows, journal, history, session, cursor, since);
      EmptyWindow(journal, history, session, -1, -1);
      Reload();
      ghost var past := windows;
      Close(reason);
      assert windows[..|past|] == past;
    }

    method Advance(entries: seq<Mutation>, recorded: seq<Entry>, activeUnits: nat, pendingDeltas: nat, plan: Option<Cycle>)
      returns (outcome: Outcome, started: bool)
      requires Valid() && Extends(journal, entries) && Grows(history, recorded)
      modifies this
      ensures Valid() && counted && tallied && journal == entries && history == recorded && session == old(session)
      ensures old(Conserved()) ==> Conserved()
      ensures old(Conserved()) ==> MutationsCharged(windows) + mutations == Mutations(entries, session, -1, Head(entries))
      ensures old(Conserved()) ==> UnitsCharged(windows) + units == Admissions(recorded, session, -1, |recorded| - 1)
      ensures Answers(outcome, |Started(recorded, session, old(since), |recorded| - 1)|, |Changes(entries, session, old(cursor), Head(entries))|,
                      old(requested), old(cycle).Some?, old(deferrals), policy)
      ensures started <==> outcome == Run && activeUnits == 0 && pendingDeltas == 0 && plan.Some?
      ensures closed == old(closed)
      ensures cycle == if started then Some(plan.value.(phase := "baseline", mandate := |closed| % MandateRotation)) else old(cycle)
      ensures var n, m := Admissions(recorded, session, old(since), |recorded| - 1), Mutations(entries, session, old(cursor), Head(entries));
              if old(cycle).None? && (outcome == Skip || outcome == Abort) then
                && deferrals == 0 && !requested && units == 0 && mutations == 0 && cursor == Head(entries) && since == |recorded| - 1
                && windows == old(windows) + [Window(old(cursor), Head(entries), old(since), |recorded| - 1, m, n)]
              else
                && requested == old(requested) && units == n && mutations == m && cursor == old(cursor) && since == old(since)
                && windows == old(windows)
                && deferrals == if outcome != Run then old(deferrals) else if activeUnits != 0 || pendingDeltas != 0 then old(deferrals) + 1
                                else if started then 0 else 1
      ensures deferrals == NextDeferrals(old(deferrals), Tick(Admissions(recorded, session, old(since), |recorded| - 1),
                                                              Mutations(entries, session, old(cursor), Head(entries)),
                                                              old(requested), old(cycle).Some?, activeUnits, pendingDeltas, started), policy)
    {
      hide Charged, Mutations, Admissions, Head, Extends, Grows, MutationsCharged, UnitsCharged, Decide, NextDeferrals, Changes, Started, Answers;
      Observe(entries);
      ObserveExecutions(recorded);
      outcome, started := Act(activeUnits, pendingDeltas, plan);
      if Conserved() { Complete(); }
    }

    /** Decides on the current counts, and starts at most one cycle. */
    method Act(activeUnits: nat, pendingDeltas: nat, plan: Option<Cycle>) returns (outcome: Outcome, started: bool)
      requires Valid() && counted && tallied
      modifies this`cursor, this`since, this`units, this`mutations, this`deferrals, this`requested, this`windows, this`cycle
      ensures Valid() && (old(Conserved()) ==> Conserved())
      ensures Answers(outcome, old(units), old(mutations), old(requested), old(cycle).Some?, old(deferrals), policy)
      ensures started <==> outcome == Run && activeUnits == 0 && pendingDeltas == 0 && plan.Some?
      ensures cycle == if started then Some(plan.value.(phase := "baseline", mandate := |closed| % MandateRotation)) else old(cycle)
      ensures if old(cycle).None? && (outcome == Skip || outcome == Abort) then
                && deferrals == 0 && !requested && units == 0 && mutations == 0 && cursor == observedJournal && since == observedHistory
                && windows == old(windows) + [old(Stretch())]
              else
                && requested == old(requested) && units == old(units) && mutations == old(mutations) && cursor == old(cursor) && since == old(since)
                && windows == old(windows)
                && deferrals == if outcome != Run then old(deferrals) else if activeUnits != 0 || pendingDeltas != 0 then old(deferrals) + 1
                                else if started then 0 else 1
      ensures deferrals == NextDeferrals(old(deferrals), Tick(old(units), old(mutations), old(requested), old(cycle).Some?,
                                                              activeUnits, pendingDeltas, started), policy)
    {
      hide Charged, Mutations, Admissions, Head, Due, Barrier, Answers;
      DecideAnswers(units, mutations, requested, cycle.Some?, deferrals, policy);
      started := false;
      outcome := Decide(TriggerInput(units, mutations, requested, cycle.Some?, deferrals), policy);
      if cycle.Some? {
        return;
      }
      if outcome == Skip || outcome == Abort {
        MoveCursors();
        return;
      }
      if outcome != Run {
        return;
      }
      var b := Barrier(outcome, deferrals, activeUnits, pendingDeltas);
      RunIsBelowLimit(TriggerInput(units, mutations, requested, cycle.Some?, deferrals), policy, activeUnits, pendingDeltas);
      deferrals := b.deferrals;
      if !b.proceed {
        return;
      }
      if plan.None? {
        deferrals := deferrals + 1;
        return;
      }
      deferrals := 0;
      cycle := Some(plan.value.(phase := "baseline", mandate := |closed| % MandateRotation));
      started := true;
    }

    // ---- Commands ----

    /** The start of every command: the state is read back, bound to the session
        asked for, or to the one the cycle in flight covers, and observed. */
    method ObserveCoordination(s: string, entries: seq<Mutation>, recorded: seq<Entry>)
      requires Valid() && Conserved() && Extends(journal, entries) && Grows(history, recorded)
      modifies this
      ensures Valid() && Conserved() && counted && tallied && journal == entries && history == recorded
      ensures cycle == old(cycle) && closed == old(closed)
      ensures var bound := if old(cycle).Some? then old(cycle).value.session else s;
              if bound == "" || bound == old(session)
              then session == old(session) && windows == old(windows) && deferrals == old(deferrals) && requested == old(requested)
                   && cursor == old(cursor) && since == old(since)
              else session == bound && windows == [] && deferrals == 0 && !requested && cursor == -1 && since == -1
    {
      hide Charged, Mutations, Admissions, Head, Extends, Grows, Changes, Started;
      Reload();
      Bind(if cycle.Some? then cycle.value.session else s);
      Observe(entries);
      ObserveExecutions(recorded);
    }

    /** One command of any kind. Because every one observes first, its close
        included, after any sequence of them everything observed is in exactly one
        past window or in the current counts. */
    method Coordinate(s: string, entries: seq<Mutation>, recorded: seq<Entry>, action: Action)
      requires Valid() && Conserved() && Extends(journal, entries) && Grows(history, recorded)
      requires action.Admit? ==> Grows(recorded, action.admitted)
      modifies this
      ensures Valid() && Conserved() && journal == entries
      ensures history == if action.Admit? then action.admitted else recorded
      ensures action.Admit? && s != "" ==> session == s
      ensures MutationsCharged(windows) + Mutations(entries, session, cursor, Head(entries)) == Mutations(entries, session, -1, Head(entries))
      ensures UnitsCharged(windows) + Admissions(history, session, since, |history| - 1) == Admissions(history, session, -1, |history| - 1)
      ensures action.Nothing? || ((action.Ask? || action.Trigger?) && old(cycle).Some?) ==> cycle == old(cycle) && closed == old(closed)
      ensures action.End? ==> cycle.None? && |closed| == |old(closed)| + if old(cycle).Some? then 1 else 0
      ensures (action.Ask? || action.Trigger?) && old(cycle).None? ==>
                var rebound := s != "" && s != old(session);
                var waited, from, past := if rebound then 0 else old(deferrals), if rebound then -1 else old(cursor), if rebound then -1 else old(since);
                && (cycle.Some? <==> StartsCycle(policy, action, old(requested) && !rebound, waited,
                                                 |Started(recorded, session, past, |recorded| - 1)|, |Changes(entries, session, from, Head(entries))|))
                && (cycle.Some? ==> cycle == Some(action.plan.value.(phase := "baseline", mandate := |closed| % MandateRotation)))
                && closed == old(closed)
    {
      hide Charged, Mutations, Admissions, Head, Extends, Grows, MutationsCharged, UnitsCharged, Changes, Started, NextDeferrals;
      ObserveCoordination(s, entries, recorded);
      SameJournal(entries);
      SameHistory(recorded);
      match action {
        case Nothing =>
        case Ask(activeUnits, pendingDeltas, plan) =>
          requested := true;
          var _, _ := Advance(entries, recorded, activeUnits, pendingDeltas, plan);
        case Trigger(activeUnits, pendingDeltas, plan) =>
          var _, _ := Advance(entries, recorded, activeUnits, pendingDeltas, plan);
        case End(reason) =>
          Close(reason);
        case Admit(closing, admitted) =>
          if closing.Some? {
            Close(closing.value);
          }
          Bind(s);
          ObserveExecutions(admitted);
      }
      UpToCursors();
    }

    /** Whatever is not in a past window lies beyond the cursors. */
    lemma UpToCursors()
      requires Valid() && Conserved()
      ensures MutationsCharged(windows) + Mutations(journal, session, cursor, Head(journal)) == Mutations(journal, session, -1, Head(journal))
      ensures UnitsCharged(windows) + Admissions(history, session, since, |history| - 1) == Admissions(history, session, -1, |history| - 1)
    {
      ChargedIsComplete(windows, journal, history, session, cursor, since);
      MutationsSplit(journal, session, -1, cursor, Head(journal));
      AdmissionsSplit(history, session, -1, since, |history| - 1);
    }

    /** Everything observed is in one past window or in the current counts. */
    lemma Complete()
      requires Valid() && Conserved() && counted && tallied
      ensures MutationsCharged(windows) + mutations == Mutations(journal, session, -1, Head(journal))
      ensures UnitsCharged(windows) + units == Admissions(history, session, -1, |history| - 1)
    {
      UpToCursors();
    }
  }

  lemma SameJournal(journal: seq<Mutation>)
    ensures Extends(journal, journal)
  {
  }
}
