/** Delivery and assurance: completed work is never silently unverified, a
    cancelled attempt never completes, and the assurance that stands is the one
    the recorded results of the attempt determine. */
module Assurances {
  import opened Decimal
  import opened Record
  import opened Replay
  import opened PlanGraph
  import opened Protocol
  import opened Licensing
  import opened Runs
  import opened Slots
  import opened Lifecycle
  import opened Attempts

  // ---- Completed work carries an assurance ----

  predicate Assured(u: Unit) {
    && (u.state == StateSettled && u.outcome == Completed ==> u.assurance.Some?)
    && (u.state == StateSettled && u.cancelRequested ==> u.outcome != Completed)
  }

  ghost predicate AllAssured(p: Projection) {
    forall k | k in p.units :: Assured(p.units[k])
  }

  lemma MoveAssured(policy: Policy, p: Projection, e: Entry)
    requires Shape(p) && LifecycleKind(e) && Licensed(policy, p, e) && AllAssured(p)
    requires e.kind.KindTerminated? ==> e.outcome != Completed || p.Unit(e.session, e.unit).assurance.Some?
    ensures AllAssured(FoldLifecycle(p, e))
  {
    hide MovedSession, MovedExecutions, Licensed, Prevails, NextUnit, UnitShape;
    var key := UnitKey(e.session, e.unit);
    if Accepts(p.Unit(e.session, e.unit), p.Known(e.session, e.unit), e.kind) && !e.kind.KindResult? { OwnAssured(policy, p, e); }
    if key in p.units { assert Assured(p.units[key]); }
  }

  lemma OwnAssured(policy: Policy, p: Projection, e: Entry)
    requires Shape(p) && LifecycleKind(e) && !e.kind.KindResult? && Licensed(policy, p, e)
    requires Accepts(p.Unit(e.session, e.unit), p.Known(e.session, e.unit), e.kind)
    requires e.kind.KindTerminated? ==> e.outcome != Completed || p.Unit(e.session, e.unit).assurance.Some?
    ensures Assured(NextUnit(p.Unit(e.session, e.unit), e))
  {
  }

  lemma AssuredKept(policy: Policy, p: Projection, e: Entry)
    requires Shape(p) && Licensed(policy, p, e) && AllAssured(p)
    requires e.kind.KindTerminated? ==> e.outcome != Completed || p.Unit(e.session, e.unit).assurance.Some?
    ensures AllAssured(Fold(p, e))
  {
    hide Fold, Licensed, Assured, Shape;
    Lanes(e);
    if LifecycleKind(e) {
      FoldLife(p, e);
      MoveAssured(policy, p, e);
    } else if BudgetKind(e.kind) {
      FoldBudget(p, e);
    } else if ExecutionKind(e.kind) {
      FoldExec(p, e);
    } else {
      FoldAct(p, e);
    }
  }

  predicate PlainBatch(batch: seq<Entry>) {
    forall i | 0 <= i < |batch| :: !batch[i].kind.KindTerminated?
  }

  lemma {:induction false} PlainBatchAssured(policy: Policy, history: seq<Entry>, batch: seq<Entry>)
    requires LicensedHistory(policy, history + batch) && PlainBatch(batch) && AllAssured(Project(history))
    ensures AllAssured(Project(history + batch))
  {
    hide Fold, Licensed, Valid, Shape, AllAssured;
    if batch == [] {
      assert history + batch == history;
    } else {
      var n := |batch| - 1;
      var longer := history + batch;
      assert longer[..|longer| - 1] == history + batch[..n];
      LastEntry(policy, longer);
      PlainBatchAssured(policy, history, batch[..n]);
      AssuredKept(policy, Project(history + batch[..n]), batch[n]);
    }
  }

  /** The termination batch is indivisible for this reason: the completed entry
      alone would leave delivery without an assurance. */
  lemma TerminationAssured(policy: Policy, p: Projection, ref: string, session: string, unit: string, nonStart: bool)
    requires Shape(p) && AllAssured(p)
    requires AllValid(TerminateEntries(p, ref, session, unit, nonStart))
    ensures AllAssured(FoldAll(p, TerminateEntries(p, ref, session, unit, nonStart)))
  {
    hide Fold, Valid, AllAssured;
    var batch := TerminateEntries(p, ref, session, unit, nonStart);
    TerminateLicensed(policy, p, ref, session, unit, nonStart);
    assert FoldAll(p, batch[..1]) == Fold(p, batch[0]) by { assert batch[..1] == [batch[0]] && batch[..1][..0] == []; }
    if |batch| == 1 {
      assert batch[..1] == batch;
      AssuredKept(policy, p, batch[0]);
    } else {
      assert |batch| == 2 && batch[..|batch| - 1] == batch[..1];
      DeliveryAssured(policy, p, batch[0], batch[1]);
    }
  }

  lemma DeliveryAssured(policy: Policy, p: Projection, t: Entry, r: Entry)
    requires Shape(p) && AllAssured(p) && t.kind.KindTerminated? && Licensed(policy, p, t)
    requires r.kind.KindResult? && r.session == t.session && r.unit == t.unit && r.attempt == t.attempt
    requires p.Unit(t.session, t.unit).assurance.None? && Valid(t)
    ensures AllAssured(Fold(Fold(p, t), r))
  {
    hide Fold, AllAssured, Licensed, Shape, MovedUnits, MovedSession, MovedExecutions;
    FoldLife(p, t);
    var q := Fold(p, t);
    FoldLife(q, r);
    TerminatedUnits(policy, p, t);
    var key, u := UnitKey(t.session, t.unit), p.Unit(t.session, t.unit);
    if p.Known(t.session, t.unit) && u.state == StateInFlight {
      ResultUnits(q, r);
      DeliveredUnit(policy, p, t, r);
      AssuredDelivery(p, Fold(q, r), key, NextUnit(u, t).(assurance := Some(AssuranceOf(r))));
    } else {
      var f := Fold(q, r);
      assert AllAssured(q) by { AssuredUnits(p, q); }
      ResultAssured(q, f, r);
    }
  }

  lemma TerminatedUnits(policy: Policy, p: Projection, t: Entry)
    requires Shape(p) && t.kind.KindTerminated? && Licensed(policy, p, t)
    ensures var u := p.Unit(t.session, t.unit);
            if p.Known(t.session, t.unit) && u.state == StateInFlight
            then MovedUnits(p, t) == p.units[UnitKey(t.session, t.unit) := NextUnit(u, t)] && NextUnit(u, t).attempt == t.attempt
            else MovedUnits(p, t) == p.units
  {
  }

  lemma ResultUnits(q: Projection, r: Entry)
    requires r.kind.KindResult? && q.Known(r.session, r.unit)
    requires var u := q.Unit(r.session, r.unit); u.state == StateSettled && u.assurance.None? && u.attempt == r.attempt
    ensures MovedUnits(q, r) == q.units[UnitKey(r.session, r.unit) := q.Unit(r.session, r.unit).(assurance := Some(AssuranceOf(r)))]
  {
  }

  lemma DeliveredUnit(policy: Policy, p: Projection, t: Entry, r: Entry)
    requires t.kind.KindTerminated? && Licensed(policy, p, t)
    ensures Assured(NextUnit(p.Unit(t.session, t.unit), t).(assurance := Some(AssuranceOf(r))))
  {
  }

  lemma AssuredUnits(p: Projection, q: Projection)
    requires AllAssured(p) && q.units == p.units
    ensures AllAssured(q)
  {
  }

  lemma AssuredDelivery(p: Projection, q: Projection, key: UnitKey, u: Unit)
    requires AllAssured(p) && q.units == p.units[key := u] && u.assurance.Some? && Assured(u)
    ensures AllAssured(q)
  {
  }

  /** A result never takes an assurance away. */
  lemma ResultAssured(q: Projection, f: Projection, r: Entry)
    requires AllAssured(q) && r.kind.KindResult? && f.units == MovedUnits(q, r)
    ensures AllAssured(f)
  {
    var key := UnitKey(r.session, r.unit);
    if key in q.units { assert Assured(q.units[key]); }
  }

  lemma CommandAssured(policy: Policy, history: seq<Entry>, c: Command)
    requires LicensedHistory(policy, history + Effect(policy, history, c)) && Shape(Project(history)) && AllAssured(Project(history))
    ensures AllAssured(Project(history + Effect(policy, history, c)))
  {
    hide AllAssured, LicensedHistory, Shape, Termination, Decide, RecordEntry;
    var p := Project(history);
    var batch := Effect(policy, history, c);
    if c.Finish? || (c.Reconcile? && !c.running) {
      FoldAllConcat(Empty, history, batch);
      if batch != [] { TerminationAssured(policy, p, c.ref, c.session, c.unit, c.Reconcile?); }
    } else {
      OnlyTerminationsTerminate(policy, history, p, c);
      PlainBatchAssured(policy, history, batch);
    }
  }

  lemma DeclareIsPlain(p: Projection, ref: string, c: PlanChange)
    ensures PlainBatch(DeclareEntries(p, ref, c))
  {
    hide PlanFaultOf, RoundRefused, RevisionFault, CurrentPlan, ClassificationOf;
  }

  lemma OnlyTerminationsTerminate(policy: Policy, history: seq<Entry>, p: Projection, c: Command)
    requires !c.Finish? && !(c.Reconcile? && !c.running)
    ensures PlainBatch(Proposed(policy, history, p, c))
  {
    hide PlanFaultOf, RoundRefused, RevisionFault, CurrentPlan, ClassificationOf, Refusal, NextAttempt, LaneBlocked;
    hide Scope, Exhausted, ScopeActions, RecoveryRefusal, ChildTaken, StillRuns, RefSeq, JournalPosition;
    if c.Declare? {
      hide CommitEntries, ReviseEntries;
      DeclareIsPlain(p, c.ref, c.change);
    } else if c.Prepare? || c.AttachChild? || c.AttachLane? || c.MarkExecution? {
      LinksArePlain(policy, history, p, c);
    } else if c.Admit? {
    } else if c.RecordActivity? || c.RecordResult? {
    } else {
    }
  }

  lemma LinksArePlain(policy: Policy, history: seq<Entry>, p: Projection, c: Command)
    requires c.Prepare? || c.AttachChild? || c.AttachLane? || c.MarkExecution?
    ensures PlainBatch(Proposed(policy, history, p, c))
  {
    hide NextAttempt, LaneBlocked, ChildTaken, StillRuns;
  }

  lemma {:induction false} RunAssured(policy: Policy, commands: seq<Command>)
    ensures AllAssured(Reached(policy, commands))
  {
    hide AllAssured, Effect;
    if commands == [] {
      NothingAssured();
    } else {
      var n := |commands| - 1;
      var h := Execute(policy, commands[..n]);
      RunAssured(policy, commands[..n]);
      RunShape(policy, commands[..n]);
      RunIsLicensed(policy, commands);
      CommandAssured(policy, h, commands[n]);
    }
  }

  lemma NothingAssured()
    ensures AllAssured(Project([]))
  {
  }

  /** Between commands of any run, work settled completed carries an assurance,
      and work whose current attempt was asked to cancel never settled
      completed. */
  lemma CompletedIsAssured(policy: Policy, commands: seq<Command>, session: string, unit: string)
    ensures var u := Reached(policy, commands).Unit(session, unit);
            && (u.state == StateSettled && u.outcome == Completed ==> u.assurance.Some?)
            && (u.state == StateSettled && u.cancelRequested ==> u.outcome != Completed)
  {
    RunAssured(policy, commands);
  }

  /** No entry of any run settles as completed a unit that is uncertain, or was
      asked to cancel, where the entry is appended. */
  lemma UncertainNeverCompletes(policy: Policy, commands: seq<Command>, i: nat, session: string, unit: string)
    requires i < |Execute(policy, commands)|
    requires var u := Project(Execute(policy, commands)[..i]).Unit(session, unit);
             u.state == StateInFlight && (u.flight == FlightUncertain || u.cancelRequested)
    ensures var v := Project(Execute(policy, commands)[..i + 1]).Unit(session, unit);
            v.state == StateSettled ==> v.outcome != Completed
  {
    hide Execute, Project, Fold, Licensed, Shape, Valid, LicensedHistory;
    RunIsLicensed(policy, commands);
    var h := Execute(policy, commands);
    PrefixStep(policy, h, i);
    EntryNeverCompletes(policy, Project(h[..i]), h[i], UnitKey(session, unit));
  }

  lemma EntryNeverCompletes(policy: Policy, p: Projection, e: Entry, k: UnitKey)
    requires Shape(p) && Licensed(policy, p, e) && k in p.units
    requires p.units[k].state == StateInFlight && (p.units[k].flight == FlightUncertain || p.units[k].cancelRequested)
    ensures k in Fold(p, e).units
    ensures Fold(p, e).units[k].state == StateSettled ==> Fold(p, e).units[k].outcome != Completed
  {
    hide Fold, Licensed, Shape, NextUnit;
    EntryEvolves(policy, p, e, k);
    Lanes(e);
    if LifecycleKind(e) {
      FoldLife(p, e);
      if k == UnitKey(e.session, e.unit) { SettledByTermination(policy, p, e); }
    } else if BudgetKind(e.kind) {
      FoldBudget(p, e);
    } else if ExecutionKind(e.kind) {
      FoldExec(p, e);
    } else {
      FoldAct(p, e);
    }
  }

  lemma SettledByTermination(policy: Policy, p: Projection, e: Entry)
    requires Shape(p) && LifecycleKind(e) && Licensed(policy, p, e) && p.Known(e.session, e.unit)
    requires p.Unit(e.session, e.unit).state == StateInFlight
    requires p.Unit(e.session, e.unit).flight == FlightUncertain || p.Unit(e.session, e.unit).cancelRequested
    ensures var u := MovedUnits(p, e)[UnitKey(e.session, e.unit)];
            u.state == StateSettled ==> u.outcome != Completed
  {
  }

  /** The attempt asked to cancel is past, still cancelling, or ended without
      completing. */
  predicate CancelHolds(u: Unit, attempt: string) {
    || AttemptNumber(u.attempt) > AttemptNumber(attempt)
    || (u.attempt == attempt && u.state == StateInFlight && u.cancelRequested)
    || (u.attempt == attempt && u.state == StateSettled && u.outcome != Completed)
  }

  lemma CancelKept(policy: Policy, p: Projection, e: Entry, k: UnitKey, attempt: string)
    requires Shape(p) && Licensed(policy, p, e) && k in p.units && CancelHolds(p.units[k], attempt)
    ensures k in Fold(p, e).units && CancelHolds(Fold(p, e).units[k], attempt)
  {
    hide Fold, Licensed, Shape, NextUnit, CancelHolds;
    EntryEvolves(policy, p, e, k);
    Lanes(e);
    if LifecycleKind(e) {
      FoldLife(p, e);
      if k == UnitKey(e.session, e.unit) { CancelMoves(policy, p, e, attempt); } else { OtherUnitStays(p, e, k); }
    } else if BudgetKind(e.kind) {
      FoldBudget(p, e);
    } else if ExecutionKind(e.kind) {
      FoldExec(p, e);
    } else {
      FoldAct(p, e);
    }
  }

  lemma CancelMoves(policy: Policy, p: Projection, e: Entry, attempt: string)
    requires Shape(p) && LifecycleKind(e) && Licensed(policy, p, e) && p.Known(e.session, e.unit)
    requires CancelHolds(p.Unit(e.session, e.unit), attempt)
    ensures CancelHolds(MovedUnits(p, e)[UnitKey(e.session, e.unit)], attempt)
  {
    var u := p.Unit(e.session, e.unit);
    assert UnitShape(UnitKey(e.session, e.unit), u);
    OwnEvolves(policy, p, e);
    AttemptNotEmpty(u.attempt);
    if e.kind.KindAdmitted? && Accepts(u, true, e.kind) {
      ParsePrint(AttemptNumber(u.attempt));
      PrintedAttempt(AttemptNumber(u.attempt) + 1);
    }
  }

  lemma {:induction false} LicensedCancel(policy: Policy, history: seq<Entry>, i: nat, j: nat, k: UnitKey, attempt: string)
    requires LicensedHistory(policy, history) && i <= j <= |history|
    requires k in Project(history[..i]).units && CancelHolds(Project(history[..i]).units[k], attempt)
    ensures k in Project(history[..j]).units && CancelHolds(Project(history[..j]).units[k], attempt)
    decreases j
  {
    hide Project, Fold, CancelHolds, Licensed, LicensedHistory, Shape, Valid;
    if i < j {
      LicensedCancel(policy, history, i, j - 1, k, attempt);
      PrefixStep(policy, history, j - 1);
      CancelKept(policy, Project(history[..j - 1]), history[j - 1], k, attempt);
    }
  }

  /** An attempt once asked to cancel never settles completed, at any later
      point of any run. */
  lemma CancelledNeverCompletes(policy: Policy, commands: seq<Command>, i: nat, j: nat, session: string, unit: string)
    requires i <= j <= |Execute(policy, commands)|
    requires var u := Project(Execute(policy, commands)[..i]).Unit(session, unit); u.state == StateInFlight && u.cancelRequested
    ensures var u, v := Project(Execute(policy, commands)[..i]).Unit(session, unit), Project(Execute(policy, commands)[..j]).Unit(session, unit);
            v.state == StateSettled && v.attempt == u.attempt ==> v.outcome != Completed
  {
    hide Execute, Project, LicensedHistory;
    RunIsLicensed(policy, commands);
    var h := Execute(policy, commands);
    LicensedCancel(policy, h, i, j, UnitKey(session, unit), Project(h[..i]).Unit(session, unit).attempt);
  }

  // ---- Which result stands ----

  /** The attempt of the unit's latest recorded admission, "" before any. */
  function LastAttempt(history: seq<Entry>, session: string, unit: string): string {
    if history == [] then ""
    else
      var n := |history| - 1;
      if history[n].kind.KindAdmitted? && history[n].session == session && history[n].unit == unit then history[n].attempt
      else LastAttempt(history[..n], session, unit)
  }

  /** The results recorded for the unit's latest attempt, since it was admitted. */
  function AttemptResults(history: seq<Entry>, session: string, unit: string): seq<Entry> {
    if history == [] then []
    else
      var n := |history| - 1;
      var e := history[n];
      if e.session != session || e.unit != unit then AttemptResults(history[..n], session, unit)
      else if e.kind.KindAdmitted? then []
      else if e.kind.KindResult? && LastAttempt(history[..n], session, unit) != ""
              && e.attempt == LastAttempt(history[..n], session, unit)
      then AttemptResults(history[..n], session, unit) + [e]
      else AttemptResults(history[..n], session, unit)
  }

  /** Result i governs: the last of the highest revision, or, when none names a
      revision, the last of all. */
  predicate Governing(results: seq<Entry>, i: int) {
    && 0 <= i < |results|
    && (if results[i].revision.Some? then
          && (forall j | 0 <= j < |results| && results[j].revision.Some? :: results[j].revision.value <= results[i].revision.value)
          && (forall j | i < j < |results| && results[j].revision.Some? :: results[j].revision.value < results[i].revision.value)
        else i == |results| - 1 && forall j | 0 <= j < |results| :: results[j].revision.None?)
  }

  ghost predicate StandsFor(a: Option<Assurance>, results: seq<Entry>) {
    match a
    case None => results == []
    case Some(assurance) => exists i :: Governing(results, i) && assurance == AssuranceOf(results[i])
  }

  /** Recording one more result keeps the governing one in place. */
  lemma ResultStands(a: Option<Assurance>, results: seq<Entry>, e: Entry)
    requires StandsFor(a, results)
    ensures StandsFor(if Prevails(a, e) then Some(AssuranceOf(e)) else a, results + [e])
  {
    var more := results + [e];
    if a.None? {
      assert Governing(more, 0);
    } else {
      var i :| Governing(results, i) && a.value == AssuranceOf(results[i]);
      assert forall j | 0 <= j < |results| :: more[j] == results[j];
      if Prevails(a, e) {
        assert Governing(more, |results|);
      } else {
        assert Governing(more, i);
      }
    }
  }

  predicate UnitStands(p: Projection, attempt: string, session: string, unit: string)
  {
    var u := p.Unit(session, unit);
    if p.Known(session, unit) && Admitted(u) then attempt == u.attempt != "" else attempt == "" && u.assurance.None?
  }

  lemma MoveStands(policy: Policy, p: Projection, e: Entry, attempt: string, results: seq<Entry>)
    requires Shape(p) && LifecycleKind(e) && Licensed(policy, p, e)
    requires UnitStands(p, attempt, e.session, e.unit) && StandsFor(p.Unit(e.session, e.unit).assurance, results)
    ensures UnitStands(FoldLifecycle(p, e), if e.kind.KindAdmitted? then e.attempt else attempt, e.session, e.unit)
    ensures StandsFor(FoldLifecycle(p, e).Unit(e.session, e.unit).assurance,
                      if e.kind.KindAdmitted? then []
                      else if e.kind.KindResult? && attempt != "" && e.attempt == attempt then results + [e] else results)
  {
    hide StandsFor, MovedSession, MovedExecutions, MovedUnits, Licensed, Shape;
    NothingStands();
    MovedUnit(policy, p, e);
    MovedAssurance(policy, p, e);
    if e.kind.KindAdmitted? {
      PrintedNotEmpty(policy, p, e);
    } else if e.kind.KindResult? {
      ResultStands(p.Unit(e.session, e.unit).assurance, results, e);
    }
  }

  lemma PrintedNotEmpty(policy: Policy, p: Projection, e: Entry)
    requires Shape(p) && e.kind.KindAdmitted? && Licensed(policy, p, e)
    ensures e.attempt != ""
  {
    NextAttemptShape(p, e.session, e.unit);
  }

  /** Only admissions and results of the current attempt touch the assurance. */
  lemma MovedAssurance(policy: Policy, p: Projection, e: Entry)
    requires Shape(p) && LifecycleKind(e) && Licensed(policy, p, e)
    ensures var u, key := p.Unit(e.session, e.unit), UnitKey(e.session, e.unit);
            var a := if key in MovedUnits(p, e) then MovedUnits(p, e)[key].assurance else None;
            if e.kind.KindAdmitted? then a == None
            else if e.kind.KindResult? && p.Known(e.session, e.unit) && Admitted(u) && e.attempt == u.attempt && Prevails(u.assurance, e)
            then a == Some(AssuranceOf(e))
            else a == u.assurance
  {
    if e.kind.KindAdmitted? { AdmissionAccepted(policy, p, e); }
  }

  lemma NothingStands()
    ensures StandsFor(None, [])
  {
  }

  lemma EntryStands(policy: Policy, p: Projection, e: Entry, attempt: string, results: seq<Entry>, session: string, unit: string)
    requires Shape(p) && Licensed(policy, p, e) && UnitStands(p, attempt, session, unit)
    requires StandsFor(p.Unit(session, unit).assurance, results)
    requires e.session != session || e.unit != unit || !LifecycleKind(e)
    ensures UnitStands(Fold(p, e), attempt, session, unit) && StandsFor(Fold(p, e).Unit(session, unit).assurance, results)
  {
    hide Fold, Licensed, Shape, StandsFor;
    Lanes(e);
    if LifecycleKind(e) {
      FoldLife(p, e);
      OtherUnitsStay(p, e, session, unit);
    } else if BudgetKind(e.kind) {
      FoldBudget(p, e);
    } else if ExecutionKind(e.kind) {
      FoldExec(p, e);
    } else {
      FoldAct(p, e);
    }
  }

  lemma {:induction false} LicensedStands(policy: Policy, history: seq<Entry>, session: string, unit: string)
    requires LicensedHistory(policy, history)
    ensures UnitStands(Project(history), LastAttempt(history, session, unit), session, unit)
    ensures StandsFor(Project(history).Unit(session, unit).assurance, AttemptResults(history, session, unit))
  {
    hide Fold, Licensed, Valid, Shape, StandsFor, UnitStands;
    if history == [] {
      NothingRecorded(session, unit);
    } else {
      var n := |history| - 1;
      var e := history[n];
      LastEntry(policy, history);
      LicensedStands(policy, history[..n], session, unit);
      var p := Project(history[..n]);
      if e.session == session && e.unit == unit && LifecycleKind(e) {
        MoveStands(policy, p, e, LastAttempt(history[..n], session, unit), AttemptResults(history[..n], session, unit));
        FoldLife(p, e);
      } else {
        EntryStands(policy, p, e, LastAttempt(history[..n], session, unit), AttemptResults(history[..n], session, unit), session, unit);
      }
    }
  }

  lemma NothingRecorded(session: string, unit: string)
    ensures UnitStands(Project([]), "", session, unit) && StandsFor(Project([]).Unit(session, unit).assurance, [])
  {
  }

  /** Over every run, the assurance a unit shows is determined by the results
      recorded for its current attempt since that attempt was admitted. */
  lemma AssuranceGoverned(policy: Policy, commands: seq<Command>, session: string, unit: string)
    ensures var results := AttemptResults(Execute(policy, commands), session, unit);
            var a := Reached(policy, commands).Unit(session, unit).assurance;
            if results == [] then a.None?
            else a.Some? && exists i :: Governing(results, i) && a.value == AssuranceOf(results[i])
  {
    RunIsLicensed(policy, commands);
    LicensedStands(policy, Execute(policy, commands), session, unit);
  }
}
