/** What an accepted or refused plan revision leaves standing. */
module Revision {
  import opened Decimal
  import opened Ordering
  import opened Record
  import opened Replay
  import opened PlanGraph
  import opened Protocol
  import opened Licensing
  import opened Runs

  // ---- The plan left standing ----

  lemma CurrentPlanOf(p: Projection, session: string)
    ensures DistinctIds(CurrentPlan(p, session))
    ensures PlanOf(CurrentPlan(p, session)).Keys == StandingNames(p, session)
    ensures forall id | id in StandingNames(p, session) :: PlanOf(CurrentPlan(p, session))[id] == PlanUnitOf(p, session, id)
  {
    hide StandingNames, Standing, PlanOf, SortedSeq, Sorted;
    var names := SortedSeq(StandingNames(p, session));
    var plan := CurrentPlan(p, session);
    assert Lists(names, StandingNames(p, session));
    SortedIsDistinct(names);
    assert forall i | 0 <= i < |names| :: names[i] in names;
    var m := map id | id in StandingNames(p, session) :: PlanUnitOf(p, session, id);
    forall id | id in m ensures Declares(plan, id) {
      var i :| 0 <= i < |names| && names[i] == id;
      assert plan[i].unit == id;
    }
    PlanIs(plan, m);
  }

  lemma StandingMember(p: Projection, session: string, id: string)
    ensures id in StandingNames(p, session) <==> p.Known(session, id) && Standing(p.Unit(session, id))
  {
    var key := UnitKey(session, id);
    assert p.Known(session, id) <==> key in p.units;
    assert forall k | k in p.units && k.session == session && k.unit == id :: k == key;
    assert key in p.units && Standing(p.units[key]) ==> key.unit in StandingNames(p, session);
  }

  // ---- Replay of a declared batch ----

  /** A declaration reaches a unit that is unknown or still planned; anything
      past planned keeps its identity frozen. */
  predicate Open(p: Projection, session: string, id: string) {
    p.Known(session, id) ==> p.Unit(session, id).state == StatePlanned
  }

  predicate DeclaredUnit(u: Unit, d: PlanUnit) {
    u.state == StatePlanned && u.committed && u.contract == d.contract && u.prerequisites == d.prerequisites
  }

  /** Another session, its units included, and every execution are as they were. */
  ghost predicate ElsewhereSame(p: Projection, q: Projection, session: string) {
    && q.executions == p.executions && q.inputs == p.inputs
    && (forall s | s != session :: q.Budgets(s) == p.Budgets(s))
    && (forall s, id | s != session :: q.Known(s, id) == p.Known(s, id) && q.Unit(s, id) == p.Unit(s, id))
  }

  lemma ElsewhereOn(p: Projection, q: Projection, r: Projection, session: string)
    requires ElsewhereSame(p, q, session) && ElsewhereSame(q, r, session)
    ensures ElsewhereSame(p, r, session)
  {
  }

  lemma ElsewhereSelf(p: Projection, session: string)
    ensures ElsewhereSame(p, p, session)
  {
  }

  lemma FoldPlannedEntry(p: Projection, ref: string, session: string, version: string, d: PlanUnit)
    ensures var q := Fold(p, PlannedEntry(ref, session, version, d));
            && (Open(p, session, d.unit) ==> q.Known(session, d.unit) && DeclaredUnit(q.Unit(session, d.unit), d))
            && (!Open(p, session, d.unit) ==> q.units == p.units)
            && (forall id | id != d.unit :: q.Known(session, id) == p.Known(session, id) && q.Unit(session, id) == p.Unit(session, id))
            && q.Budgets(session) == p.Budgets(session).(planVersion := version) && ElsewhereSame(p, q, session)
            && (forall id :: Open(q, session, id) == Open(p, session, id))
  {
    var e := PlannedEntry(ref, session, version, d);
    FoldLife(p, e);
  }

  lemma {:induction false} FoldPlanned(p: Projection, ref: string, session: string, version: string, units: seq<PlanUnit>)
    ensures var q := FoldAll(p, PlannedEntries(ref, session, version, units)); var m := PlanOf(units);
            && (forall id | id in m && Open(p, session, id) :: q.Known(session, id) && DeclaredUnit(q.Unit(session, id), m[id]))
            && (forall id | id !in m || !Open(p, session, id) ::
                  q.Known(session, id) == p.Known(session, id) && q.Unit(session, id) == p.Unit(session, id))
            && (forall id :: Open(q, session, id) == Open(p, session, id))
            && (if units == [] then q == p else q.Budgets(session) == p.Budgets(session).(planVersion := version))
            && ElsewhereSame(p, q, session)
  {
    hide Fold, DeclaredUnit, PlannedEntry, ElsewhereSame;
    if units == [] {
      ElsewhereSelf(p, session);
    } else {
      var n := |units| - 1;
      var entries := PlannedEntries(ref, session, version, units);
      assert entries[..n] == PlannedEntries(ref, session, version, units[..n]);
      FoldPlanned(p, ref, session, version, units[..n]);
      FoldPlannedEntry(FoldAll(p, entries[..n]), ref, session, version, units[n]);
      ElsewhereOn(p, FoldAll(p, entries[..n]), FoldAll(p, entries), session);
    }
  }

  predicate SameDeclaration(u: Unit, v: Unit) {
    u.contract == v.contract && u.prerequisites == v.prerequisites
  }

  lemma FoldWithdrawnEntry(p: Projection, ref: string, session: string, id: string)
    ensures var q := Fold(p, WithdrawnEntries(ref, session, [id])[0]);
            && (p.Unit(session, id).state == StatePlanned ==> q.Unit(session, id).state == StateWithdrawn)
            && (p.Unit(session, id).state != StatePlanned ==> q.units == p.units)
            && q.Known(session, id) == p.Known(session, id) && SameDeclaration(q.Unit(session, id), p.Unit(session, id))
            && (forall other | other != id ::
                  q.Known(session, other) == p.Known(session, other) && q.Unit(session, other) == p.Unit(session, other))
            && q.Budgets(session) == p.Budgets(session) && ElsewhereSame(p, q, session)
  {
    FoldLife(p, WithdrawnEntries(ref, session, [id])[0]);
  }

  lemma {:induction false} FoldWithdrawn(p: Projection, ref: string, session: string, withdrawals: seq<string>)
    ensures var q := FoldAll(p, WithdrawnEntries(ref, session, withdrawals));
            && (forall id | id in withdrawals && p.Unit(session, id).state == StatePlanned :: q.Unit(session, id).state == StateWithdrawn)
            && (forall id | id !in withdrawals || p.Unit(session, id).state != StatePlanned ::
                  q.Known(session, id) == p.Known(session, id) && q.Unit(session, id) == p.Unit(session, id))
            && (forall id :: q.Known(session, id) == p.Known(session, id) && SameDeclaration(q.Unit(session, id), p.Unit(session, id)))
            && q.Budgets(session) == p.Budgets(session) && ElsewhereSame(p, q, session)
  {
    hide Fold, ElsewhereSame;
    if withdrawals == [] {
      ElsewhereSelf(p, session);
    } else {
      var n := |withdrawals| - 1;
      var entries := WithdrawnEntries(ref, session, withdrawals);
      assert entries[..n] == WithdrawnEntries(ref, session, withdrawals[..n]);
      assert entries[n] == WithdrawnEntries(ref, session, [withdrawals[n]])[0];
      FoldWithdrawn(p, ref, session, withdrawals[..n]);
      FoldWithdrawnEntry(FoldAll(p, entries[..n]), ref, session, withdrawals[n]);
      ElsewhereOn(p, FoldAll(p, entries[..n]), FoldAll(p, entries), session);
      assert withdrawals == withdrawals[..n] + [withdrawals[n]];
    }
  }

  /** The accounting with the declared round, not yet started. */
  function Rounded(b: Budgets, c: PlanChange): Budgets {
    if c.round.Some? then b.(qaRounds := b.qaRounds[c.version := Strengthening(c.round.value, false)]) else b
  }

  /** The accounting entries ahead of the declarations move no unit. */
  lemma FoldHeadEntries(p: Projection, ref: string, c: PlanChange, label': Classification)
    ensures var q := FoldAll(p, RoundEntries(ref, c.session, c.version, c.round)
                                + [RevisedEntry(ref, c.session, c.base, c.version, label')]);
            && q.units == p.units && ElsewhereSame(p, q, c.session)
            && q.Budgets(c.session) == Rounded(p.Budgets(c.session), c).(planVersion := c.version)
  {
    hide Fold, RoundEntries, RevisedEntry, Rounded, ElsewhereSame, FoldAll;
    var round, revised := RoundEntries(ref, c.session, c.version, c.round), RevisedEntry(ref, c.session, c.base, c.version, label');
    FoldAllConcat(p, round, [revised]);
    FoldRound(p, ref, c);
    FoldRevised(FoldAll(p, round), ref, c, label');
    ElsewhereOn(p, FoldAll(p, round), FoldAll(p, round + [revised]), c.session);
  }

  /** The round is declared, not yet started. */
  lemma FoldRound(p: Projection, ref: string, c: PlanChange)
    ensures var q := FoldAll(p, RoundEntries(ref, c.session, c.version, c.round));
            && q.units == p.units && ElsewhereSame(p, q, c.session)
            && q.Budgets(c.session) == Rounded(p.Budgets(c.session), c)
  {
    hide Fold;
    var round := RoundEntries(ref, c.session, c.version, c.round);
    if c.round.Some? {
      assert round[..0] == [] && FoldAll(p, round) == Fold(p, round[0]);
      FoldBudget(p, round[0]);
    }
  }

  lemma FoldRevised(p: Projection, ref: string, c: PlanChange, label': Classification)
    ensures var q := FoldAll(p, [RevisedEntry(ref, c.session, c.base, c.version, label')]);
            && q.units == p.units && ElsewhereSame(p, q, c.session)
            && q.Budgets(c.session) == p.Budgets(c.session).(planVersion := c.version)
  {
    hide Fold;
    var e := RevisedEntry(ref, c.session, c.base, c.version, label');
    assert [e][..0] == [] && FoldAll(p, [e]) == Fold(p, e);
    FoldBudget(p, e);
  }

  // ---- An accepted revision ----

  /** No declared unit has settled or been withdrawn. */
  predicate AddsUnsettled(p: Projection, session: string, adds: seq<PlanUnit>) {
    forall i | 0 <= i < |adds| ::
      p.Unit(session, adds[i].unit).state != StateSettled && p.Unit(session, adds[i].unit).state != StateWithdrawn
  }

  ghost predicate Applied(p: Projection, q: Projection, c: PlanChange) {
    var m := PlanOf(c.units);
    forall id ::
      && (id in c.withdrawals ==> q.Unit(c.session, id).state == StateWithdrawn
                                  && q.Known(c.session, id) && SameDeclaration(q.Unit(c.session, id), p.Unit(c.session, id)))
      && (id !in c.withdrawals && id in m && Open(p, c.session, id) ==> q.Known(c.session, id) && DeclaredUnit(q.Unit(c.session, id), m[id]))
      && (id !in c.withdrawals && !(id in m && Open(p, c.session, id)) ==>
            q.Known(c.session, id) == p.Known(c.session, id) && q.Unit(c.session, id) == p.Unit(c.session, id))
  }

  lemma RevisionApplies(p: Projection, ref: string, c: PlanChange)
    requires RevisionFault(p, c).None?
    ensures Applied(p, FoldAll(p, RevisionEntries(p, ref, c)), c)
    ensures FoldAll(p, RevisionEntries(p, ref, c)).Budgets(c.session) == Rounded(p.Budgets(c.session), c).(planVersion := c.version)
    ensures ElsewhereSame(p, FoldAll(p, RevisionEntries(p, ref, c)), c.session)
  {
    hide ClassificationOf, RevisionFault, Fold, FoldAll, PlannedEntries, WithdrawnEntries, RoundEntries, RevisedEntry, PlanOf, Applied,
         ElsewhereSame, Rounded;
    var shape := ClassificationOf(CurrentPlan(p, c.session), Revised(CurrentPlan(p, c.session), c.units, c.withdrawals));
    var head := RoundEntries(ref, c.session, c.version, c.round) + [RevisedEntry(ref, c.session, c.base, c.version, shape)];
    var planned, withdrawn := PlannedEntries(ref, c.session, c.version, c.units), WithdrawnEntries(ref, c.session, c.withdrawals);
    assert RevisionEntries(p, ref, c) == head + planned + withdrawn;
    FoldAllConcat(p, head + planned, withdrawn);
    FoldAllConcat(p, head, planned);
    FoldHeadEntries(p, ref, c, shape);
    var q1 := FoldAll(p, head);
    var q2 := FoldAll(q1, planned);
    FoldPlanned(q1, ref, c.session, c.version, c.units);
    FoldWithdrawn(q2, ref, c.session, c.withdrawals);
    WithdrawnApart(p, c);
    StagesApply(p, q1, q2, FoldAll(q2, withdrawn), c);
    ElsewhereOn(p, q1, q2, c.session);
    ElsewhereOn(p, q2, FoldAll(q2, withdrawn), c.session);
  }

  lemma WithdrawnApart(p: Projection, c: PlanChange)
    requires RevisionFault(p, c).None?
    ensures forall id | id in c.withdrawals :: p.Unit(c.session, id).state == StatePlanned && id !in PlanOf(c.units)
  {
    hide PlanFaultOf, AddedPrerequisitesSettled, AdmittedUnchanged, RoundRefused, CurrentPlan, Revised, PlanOf;
    forall id | id in c.withdrawals ensures p.Unit(c.session, id).state == StatePlanned && id !in PlanOf(c.units) {
      var i :| 0 <= i < |c.withdrawals| && c.withdrawals[i] == id;
      assert p.Unit(c.session, c.withdrawals[i]).state == StatePlanned;
      AddedNotWithdrawn(c.units, c.withdrawals, id);
    }
  }

  lemma AddedNotWithdrawn(adds: seq<PlanUnit>, withdrawals: seq<string>, id: string)
    requires !AddedAndWithdrawnTogether(adds, withdrawals) && id in withdrawals
    ensures id !in PlanOf(adds)
  {
    if id in PlanOf(adds) { var j := PlanOfMember(adds, id); }
  }

  /** The declarations reach what was open, the withdrawals what was planned. */
  lemma StagesApply(p: Projection, q1: Projection, q2: Projection, q: Projection, c: PlanChange)
    requires q1.units == p.units
    requires forall id | id in c.withdrawals :: p.Unit(c.session, id).state == StatePlanned && id !in PlanOf(c.units)
    requires forall id | id in PlanOf(c.units) && Open(q1, c.session, id) ::
      q2.Known(c.session, id) && DeclaredUnit(q2.Unit(c.session, id), PlanOf(c.units)[id])
    requires forall id | id !in PlanOf(c.units) || !Open(q1, c.session, id) ::
      q2.Known(c.session, id) == q1.Known(c.session, id) && q2.Unit(c.session, id) == q1.Unit(c.session, id)
    requires forall id | id in c.withdrawals && q2.Unit(c.session, id).state == StatePlanned :: q.Unit(c.session, id).state == StateWithdrawn
    requires forall id | id !in c.withdrawals || q2.Unit(c.session, id).state != StatePlanned ::
      q.Known(c.session, id) == q2.Known(c.session, id) && q.Unit(c.session, id) == q2.Unit(c.session, id)
    requires forall id :: q.Known(c.session, id) == q2.Known(c.session, id)
                          && SameDeclaration(q.Unit(c.session, id), q2.Unit(c.session, id))
    ensures Applied(p, q, c)
  {
    hide PlanOf, DeclaredUnit;
    assert forall id :: q1.Unit(c.session, id) == p.Unit(c.session, id) && q1.Known(c.session, id) == p.Known(c.session, id);
    assert forall id :: Open(q1, c.session, id) == Open(p, c.session, id);
  }

  lemma AddedContract(p: Projection, c: PlanChange, id: string)
    requires RevisionFault(p, c).None? && id in PlanOf(c.units)
    ensures PlanOf(c.units)[id].contract != "" && id !in c.withdrawals
    ensures !Open(p, c.session, id) ==> PlanUnitOf(p, c.session, id) == PlanOf(c.units)[id]
    ensures exists i :: 0 <= i < |c.units| && c.units[i] == PlanOf(c.units)[id]
  {
    hide PlanOf, Revised, CurrentPlan, RoundRefused, AddedPrerequisitesSettled, WithdrawalsPlanned, StandingNames, AddedAndWithdrawnTogether, Cyclic;
    var i := PlanOfMember(c.units, id);
    var current := CurrentPlan(p, c.session);
    var resulting := Revised(current, c.units, c.withdrawals);
    CurrentPlanOf(p, c.session);
    RevisedPlan(current, c.units, c.withdrawals);
    IdentityFaultNone(resulting);
    var k := PlanOfMember(resulting, id);
    assert resulting[k] == c.units[i];
    if id in c.withdrawals { AddedNotWithdrawn(c.units, c.withdrawals, id); }
    assert AdmittedUnchanged(p, c.session, c.units);
  }

  /** The accepted revision leaves exactly the revised plan standing when, and
      only when, it declares no unit that settled or was withdrawn: such a unit
      is tolerated unchanged, but stays out of the standing plan. */
  lemma AcceptedRevisionStands(p: Projection, ref: string, c: PlanChange)
    requires Shape(p) && RevisionFault(p, c).None?
    ensures var q := FoldAll(p, RevisionEntries(p, ref, c));
            var resulting := Revised(CurrentPlan(p, c.session), c.units, c.withdrawals);
            && q.Budgets(c.session).planVersion == c.version
            && !Cyclic(PlanOf(resulting))
            && (PlanOf(CurrentPlan(q, c.session)) == PlanOf(resulting) <==> AddsUnsettled(p, c.session, c.units))
  {
    hide RevisionEntries, Revised, CurrentPlan, PlanOf, RevisionFault, Applied, Cyclic, Shape;
    var q := FoldAll(p, RevisionEntries(p, ref, c));
    RevisionApplies(p, ref, c);
    FaultFree(p, c);
    RevisedMeaning(p, c);
    var now, meant := PlanOf(CurrentPlan(q, c.session)), PlanOf(Revised(CurrentPlan(p, c.session), c.units, c.withdrawals));
    if AddsUnsettled(p, c.session, c.units) {
      forall id ensures id in now <==> id in meant ensures id in now ==> now[id] == meant[id] {
        StandingPointwise(p, q, c, id);
        if id in PlanOf(c.units) && Finished(p.Unit(c.session, id)) { FinishedAdd(p, c, id); }
      }
    } else {
      var i :| 0 <= i < |c.units| && Finished(p.Unit(c.session, c.units[i].unit));
      PlanHolds(c.units, i);
      StandingPointwise(p, q, c, c.units[i].unit);
    }
  }

  lemma RevisedMeaning(p: Projection, c: PlanChange)
    ensures PlanOf(Revised(CurrentPlan(p, c.session), c.units, c.withdrawals))
         == (PlanOf(CurrentPlan(p, c.session)) - Elements(c.withdrawals)) + PlanOf(c.units)
  {
    hide CurrentPlan, PlanOf, Revised;
    CurrentPlanOf(p, c.session);
    RevisedPlan(CurrentPlan(p, c.session), c.units, c.withdrawals);
  }

  predicate Finished(u: Unit) {
    u.state == StateSettled || u.state == StateWithdrawn
  }

  lemma PlanHolds(units: seq<PlanUnit>, i: nat)
    requires i < |units|
    ensures units[i].unit in PlanOf(units)
  {
  }

  lemma FinishedAdd(p: Projection, c: PlanChange, id: string)
    requires id in PlanOf(c.units) && Finished(p.Unit(c.session, id))
    ensures !AddsUnsettled(p, c.session, c.units)
  {
    var i := PlanOfMember(c.units, id);
    assert c.units[i].unit == id;
  }

  lemma FaultFree(p: Projection, c: PlanChange)
    requires RevisionFault(p, c).None?
    ensures !Cyclic(PlanOf(Revised(CurrentPlan(p, c.session), c.units, c.withdrawals)))
  {
    hide Cyclic, Revised, CurrentPlan, PlanOf, AddedPrerequisitesSettled, AdmittedUnchanged, RoundRefused;
  }

  /** One identity at a time: what stands afterwards against what was declared. */
  lemma StandingPointwise(p: Projection, q: Projection, c: PlanChange, id: string)
    requires Shape(p) && RevisionFault(p, c).None? && Applied(p, q, c)
    ensures var cur, now, m := PlanOf(CurrentPlan(p, c.session)), PlanOf(CurrentPlan(q, c.session)), PlanOf(c.units);
            var meant := (cur - Elements(c.withdrawals)) + m;
            && (id in now ==> id in meant && now[id] == meant[id])
            && (id in meant && id !in now ==> id in m && Finished(p.Unit(c.session, id)))
            && (id in m && Finished(p.Unit(c.session, id)) ==> id in meant && id !in now)
  {
    hide RevisionFault, CurrentPlan, PlanOf, Revised;
    CurrentPlanOf(p, c.session);
    CurrentPlanOf(q, c.session);
    StandingMember(p, c.session, id);
    StandingMember(q, c.session, id);
    if id in PlanOf(c.units) { AddedContract(p, c, id); PlanKeysOwn(c.units, id); }
    if p.Known(c.session, id) { assert UnitShape(UnitKey(c.session, id), p.Unit(c.session, id)); }
  }

  lemma PlanKeysOwn(units: seq<PlanUnit>, id: string)
    requires id in PlanOf(units)
    ensures PlanOf(units)[id].unit == id
  {
  }

  // ---- A refused revision ----

  /** A refused revision changes no unit, no budget and no plan version. */
  lemma RefusedRevisionChangesNothing(p: Projection, ref: string, c: PlanChange)
    requires RevisionFault(p, c).Some?
    ensures var q := FoldAll(p, ReviseEntries(p, ref, c));
            && q.units == p.units && q.executions == p.executions
            && forall s :: q.Budgets(s) == p.Budgets(s)
  {
    hide RevisionFault, RevisionEntries;
    var batch := ReviseEntries(p, ref, c);
    if batch != [] {
      assert batch[..0] == [] && FoldAll(p, batch) == Fold(p, batch[0]);
      FoldBudget(p, batch[0]);
    }
  }

  // ---- Accepted revisions are recordable ----

  lemma AcceptedRevisionIsRecordable(p: Projection, ref: string, c: PlanChange)
    requires Shape(p) && RevisionFault(p, c).None? && c.session != "" && c.base != "" && c.version != ""
    ensures AllValid(RevisionEntries(p, ref, c))
  {
    hide RevisionFault, CurrentPlan, Revised, PlanOf, Valid;
    var shape := ClassificationOf(CurrentPlan(p, c.session), Revised(CurrentPlan(p, c.session), c.units, c.withdrawals));
    assert AllValid(RoundEntries(ref, c.session, c.version, c.round)) by { RoundRecordable(p, ref, c); }
    assert Valid(RevisedEntry(ref, c.session, c.base, c.version, shape)) by { RevisedRecordable(ref, c, shape); }
    forall i | 0 <= i < |c.units| ensures Valid(PlannedEntry(ref, c.session, c.version, c.units[i])) {
      PlanHolds(c.units, i);
      AddedIdentity(p, c, c.units[i].unit);
      PlannedRecordable(ref, c, c.units[i]);
    }
    forall i | 0 <= i < |c.withdrawals| ensures Valid(WithdrawnEntries(ref, c.session, c.withdrawals)[i]) {
      WithdrawnApart(p, c);
      assert c.withdrawals[i] in c.withdrawals;
      WithdrawnRecordable(p, ref, c, i);
    }
  }

  lemma RoundRecordable(p: Projection, ref: string, c: PlanChange)
    requires RevisionFault(p, c).None? && c.session != "" && c.version != ""
    ensures AllValid(RoundEntries(ref, c.session, c.version, c.round))
  {
    hide PlanFaultOf, AddedPrerequisitesSettled, AdmittedUnchanged, CurrentPlan, Revised, PlanOf;
  }

  lemma RevisedRecordable(ref: string, c: PlanChange, shape: Classification)
    requires c.session != "" && c.base != "" && c.version != "" && shape != NoClassification
    ensures Valid(RevisedEntry(ref, c.session, c.base, c.version, shape))
  {
  }

  lemma PlannedRecordable(ref: string, c: PlanChange, u: PlanUnit)
    requires c.session != "" && u.unit != ""
    ensures Valid(PlannedEntry(ref, c.session, c.version, u))
  {
  }

  lemma WithdrawnRecordable(p: Projection, ref: string, c: PlanChange, i: nat)
    requires Shape(p) && c.session != "" && i < |c.withdrawals| && p.Unit(c.session, c.withdrawals[i]).state == StatePlanned
    ensures Valid(WithdrawnEntries(ref, c.session, c.withdrawals)[i])
  {
    hide Valid;
    assert UnitShape(UnitKey(c.session, c.withdrawals[i]), p.Unit(c.session, c.withdrawals[i]));
    WithdrawalRecordable(ref, c.session, c.withdrawals[i]);
  }

  lemma WithdrawalRecordable(ref: string, session: string, id: string)
    requires session != "" && id != ""
    ensures Valid(WithdrawnEntries(ref, session, [id])[0])
  {
    assert Print(1) != "";
  }

  lemma AddedIdentity(p: Projection, c: PlanChange, id: string)
    requires RevisionFault(p, c).None? && id in PlanOf(c.units)
    ensures id != ""
  {
    var current := CurrentPlan(p, c.session);
    var resulting := Revised(current, c.units, c.withdrawals);
    CurrentPlanOf(p, c.session);
    RevisedPlan(current, c.units, c.withdrawals);
    IdentityFaultNone(resulting);
    var k := PlanOfMember(resulting, id);
  }

  /** On a run: declaring against the standing version either takes the new
      version, with the revised plan standing exactly when no declared unit had
      settled or been withdrawn, or leaves everything as it was. */
  lemma RevisionOnARun(policy: Policy, commands: seq<Command>, ref: string, c: PlanChange)
    requires c.session != "" && c.base != "" && c.version != ""
    requires Reached(policy, commands).Budgets(c.session).planVersion != ""
    ensures var p, q := Reached(policy, commands), Reached(policy, commands + [Declare(ref, c)]);
            if RevisionFault(p, c).Some? then q.units == p.units && forall s :: q.Budgets(s) == p.Budgets(s)
            else
              var resulting := Revised(CurrentPlan(p, c.session), c.units, c.withdrawals);
              && q.Budgets(c.session).planVersion == c.version
              && !Cyclic(PlanOf(resulting))
              && (PlanOf(CurrentPlan(q, c.session)) == PlanOf(resulting) <==> AddsUnsettled(p, c.session, c.units))
  {
    hide RevisionFault, RevisionEntries, Revised, CurrentPlan, PlanOf, Cyclic, AddsUnsettled, FoldAll, Shape, Valid;
    var h := Execute(policy, commands);
    var p := Project(h);
    RunShape(policy, commands);
    var longer := commands + [Declare(ref, c)];
    assert longer[..|commands|] == commands;
    FoldAllConcat(Empty, h, Effect(policy, h, Declare(ref, c)));
    if RevisionFault(p, c).Some? {
      RefusedRevisionChangesNothing(p, ref, c);
      InvalidRecordable(ref, c, RevisionFault(p, c).value);
    } else {
      AcceptedRevisionIsRecordable(p, ref, c);
      AcceptedRevisionStands(p, ref, c);
    }
  }

  lemma InvalidRecordable(ref: string, c: PlanChange, fault: PlanFault)
    requires c.session != ""
    ensures AllValid([InvalidRevisionEntry(ref, c.session, c.base, c.version, fault)])
  {
  }

  // ---- An accepted declaration that does not stand ----

  const First: PlanUnit := PlanUnit("first", "contract", [])
  const Second: PlanUnit := PlanUnit("second", "contract", [])
  const Commitment: PlanChange := PlanChange("root", "v1", "", [First, Second], [], None)
  const WithoutFirst: PlanChange := PlanChange("root", "v2", "v1", [], ["first"], None)
  const FirstAgain: PlanChange := PlanChange("root", "v3", "v2", [First], [], None)

  predicate Plain(u: PlanUnit) {
    u.unit != "" && u.contract != "" && u.prerequisites == []
  }

  /** Without prerequisites only identities can be at fault. */
  lemma PlainPlanPasses(units: seq<PlanUnit>, known: set<string>)
    requires DistinctIds(units) && forall i | 0 <= i < |units| :: Plain(units[i])
    ensures PlanFaultOf(units, known).None?
  {
    IdentityFaultNone(units);
    if Cyclic(PlanOf(units)) {
      var path :| Closed(PlanOf(units), path);
      assert Waits(PlanOf(units), path[0], path[1]);
      var i := PlanOfMember(units, path[0]);
    }
  }

  lemma PlainRevisionPasses(p: Projection, c: PlanChange)
    requires c.base == p.Budgets(c.session).planVersion && c.round.None? && !AddedAndWithdrawnTogether(c.units, c.withdrawals)
    requires forall id | id in StandingNames(p, c.session) :: id != "" && p.Unit(c.session, id).prerequisites == []
    requires forall i | 0 <= i < |c.units| :: Plain(c.units[i])
    requires WithdrawalsPlanned(p, c.session, c.withdrawals) && AdmittedUnchanged(p, c.session, c.units)
    ensures RevisionFault(p, c).None?
  {
    hide CurrentPlan, Revised, PlanOf, PlanFaultOf, WithdrawalsPlanned, AdmittedUnchanged, AddedAndWithdrawnTogether;
    var current := CurrentPlan(p, c.session);
    var resulting := Revised(current, c.units, c.withdrawals);
    CurrentPlanOf(p, c.session);
    RevisedPlan(current, c.units, c.withdrawals);
    PlanOfDistinct(resulting);
    forall i | 0 <= i < |resulting| ensures Plain(resulting[i]) {
      var id := resulting[i].unit;
      PlanHolds(resulting, i);
      if id in PlanOf(c.units) {
        var j := PlanOfMember(c.units, id);
      } else {
        StandingMember(p, c.session, id);
      }
    }
    PlainPlanPasses(resulting, KnownNames(p, c.session));
  }

  lemma DeclaringAppends(policy: Policy, commands: seq<Command>, c: PlanChange)
    requires AllValid(DeclareEntries(Reached(policy, commands), "", c))
    ensures Reached(policy, commands + [Declare("", c)])
         == FoldAll(Reached(policy, commands), DeclareEntries(Reached(policy, commands), "", c))
  {
    hide DeclareEntries, FoldAll, Valid;
    var longer := commands + [Declare("", c)];
    assert longer[..|commands|] == commands;
    FoldAllConcat(Empty, Execute(policy, commands), Effect(policy, Execute(policy, commands), Declare("", c)));
  }

  /** The first commitment plans both units, and nothing else is known. */
  lemma BothCommitted(policy: Policy)
    ensures var p := Reached(policy, [Declare("", Commitment)]);
            && p.Budgets("root").planVersion == "v1"
            && p.Known("root", "first") && DeclaredUnit(p.Unit("root", "first"), First)
            && p.Known("root", "second") && DeclaredUnit(p.Unit("root", "second"), Second)
            && forall id | id != "first" && id != "second" :: !p.Known("root", id)
  {
    hide Fold, FoldAll, Valid, DeclareEntries, PlannedEntries, PlanOf;
    assert [] + [Declare("", Commitment)] == [Declare("", Commitment)];
    NothingReached(policy);
    CommitmentRecorded();
    DeclaringAppends(policy, [], Commitment);
    FoldPlanned(Empty, "", "root", "v1", [First, Second]);
    BothDeclared();
  }

  lemma NothingReached(policy: Policy)
    ensures Reached(policy, []) == Empty
  {
  }

  lemma CommitmentRecorded()
    ensures DeclareEntries(Empty, "", Commitment) == PlannedEntries("", "root", "v1", [First, Second])
    ensures AllValid(DeclareEntries(Empty, "", Commitment))
  {
    hide PlanFaultOf, Valid, PlannedEntry, ReviseEntries, KnownNames, RoundRefused, PlanOf;
    PlainPlanPasses([First, Second], KnownNames(Empty, "root"));
    NotRefused(Empty, Commitment, [First, Second]);
    var entries := PlannedEntries("", "root", "v1", [First, Second]);
    assert RoundEntries("", "root", "v1", None) + entries == entries;
    PlannedRecordable("", Commitment, First);
    PlannedRecordable("", Commitment, Second);
  }

  lemma NotRefused(p: Projection, c: PlanChange, plan: seq<PlanUnit>)
    requires c.round.None?
    ensures !RoundRefused(p, c, plan)
  {
  }

  lemma BothDeclared()
    ensures PlanOf([First, Second]) == map["first" := First, "second" := Second]
  {
    var units := [First, Second];
    PlanOfLast(units);
    PlanOfLast(units[..1]);
    assert units[..1] == [First] && units[..1][..0] == [];
    PlanOfLast([]);
  }

  lemma FirstWithdrawn(policy: Policy)
    ensures var p := Reached(policy, [Declare("", Commitment), Declare("", WithoutFirst)]);
            && p.Budgets("root").planVersion == "v2"
            && p.Known("root", "first") && p.Unit("root", "first").state == StateWithdrawn
            && p.Unit("root", "first").contract == "contract" && p.Unit("root", "first").prerequisites == []
            && p.Known("root", "second") && DeclaredUnit(p.Unit("root", "second"), Second)
            && forall id | id != "first" && id != "second" :: !p.Known("root", id)
  {
    hide Fold, RevisionFault, RevisionEntries, Valid, Shape, FoldAll, CurrentPlan;
    var commands := [Declare("", Commitment)];
    var p := Reached(policy, commands);
    BothCommitted(policy);
    RunShape(policy, commands);
    NamesStanding(p);
    PlainRevisionPasses(p, WithoutFirst);
    AcceptedRevisionIsRecordable(p, "", WithoutFirst);
    DeclaringAppends(policy, commands, WithoutFirst);
    assert commands + [Declare("", WithoutFirst)] == [Declare("", Commitment), Declare("", WithoutFirst)];
    RevisionApplies(p, "", WithoutFirst);
    assert "first" in WithoutFirst.withdrawals;
    assert PlanOf(WithoutFirst.units) == map[];
  }

  lemma NamesStanding(p: Projection)
    requires forall id | id != "first" && id != "second" :: !p.Known("root", id)
    ensures forall id | id in StandingNames(p, "root") :: id == "first" || id == "second"
  {
    forall id | id in StandingNames(p, "root") ensures p.Known("root", id) { StandingMember(p, "root", id); }
  }

  /** Commit two units, withdraw one, and declare it again unchanged: the last
      revision is accepted, its result holds the unit, and the standing plan does
      not. */
  lemma RedeclaredStaysOut(policy: Policy)
    ensures var commands := [Declare("", Commitment), Declare("", WithoutFirst)];
            var p, q := Reached(policy, commands), Reached(policy, commands + [Declare("", FirstAgain)]);
            && RevisionFault(p, FirstAgain).None? && !AddsUnsettled(p, "root", FirstAgain.units)
            && q.Budgets("root").planVersion == "v3"
            && "first" in PlanOf(Revised(CurrentPlan(p, "root"), FirstAgain.units, FirstAgain.withdrawals))
            && "first" !in PlanOf(CurrentPlan(q, "root"))
  {
    hide Fold, RevisionFault, RevisionEntries, Valid, Shape, FoldAll, CurrentPlan, Revised, PlanOf, Applied, Execute;
    var commands := [Declare("", Commitment), Declare("", WithoutFirst)];
    var p := Reached(policy, commands);
    FirstWithdrawn(policy);
    RunShape(policy, commands);
    NamesStanding(p);
    PlainRevisionPasses(p, FirstAgain);
    AcceptedRevisionIsRecordable(p, "", FirstAgain);
    DeclaringAppends(policy, commands, FirstAgain);
    RevisionApplies(p, "", FirstAgain);
    assert FirstAgain.units[0] == First;
    PlanHolds(FirstAgain.units, 0);
    RevisedMeaning(p, FirstAgain);
    StandingPointwise(p, Reached(policy, commands + [Declare("", FirstAgain)]), FirstAgain, "first");
  }
}
