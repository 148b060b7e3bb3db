/** What a plan declaration is for, said of the plans alone: when it is accepted,
    what it then leaves standing, and why it is refused. */
module Declarations {
  import opened Decimal
  import opened Ordering
  import opened Record
  import opened Replay
  import opened PlanGraph
  import opened Protocol
  import opened Licensing
  import opened Budgeting
  import opened Revision
  import opened Effects
  import opened Verdicts

  // ---- When ----

  /** The declared units still planned or admitted, by name. */
  ghost function StandingPlan(p: Projection, session: string): Plan {
    map id | id in StandingNames(p, session) :: PlanUnitOf(p, session, id)
  }

  /** The plan a declaration asks for: what stands, less the withdrawn, with the
      declared units in place of those of their name. */
  ghost function Intended(p: Projection, c: PlanChange): Plan {
    (StandingPlan(p, c.session) - Elements(c.withdrawals)) + PlanOf(c.units)
  }

  predicate Named(m: Plan) {
    forall id | id in m :: id != "" && m[id].contract != ""
  }

  /** A prerequisite is a unit of the plan, or one the session already knows. */
  predicate PrerequisitesKnown(p: Projection, session: string, m: Plan) {
    forall id, need | id in m && need in m[id].prerequisites :: need in m || p.Known(session, need)
  }

  /** A round names an objective and distinct new authoring units of the plan, each
      in no other round; its version declares no other round. */
  predicate RoundFits(p: Projection, c: PlanChange, m: Plan) {
    c.round.Some? ==>
      var r, b := c.round.value, p.Budgets(c.session);
      && !BlankText(r.objective) && r.units != [] && Distinct(r.units) && c.version !in b.qaRounds
      && forall id | id in r.units ::
           && !BlankText(id) && id in m && (p.Known(c.session, id) ==> p.Unit(c.session, id).state == StatePlanned)
           && forall v | v in b.qaRounds :: !b.InRound(v, id)
  }

  ghost predicate CommitmentFits(p: Projection, c: PlanChange) {
    var m := PlanOf(c.units);
    && c.base == "" && c.withdrawals == [] && c.units != [] && DistinctIds(c.units)
    && Named(m) && PrerequisitesKnown(p, c.session, m) && !Cyclic(m) && RoundFits(p, c, m)
  }

  /** Work past planned is redeclared unchanged or not at all. */
  predicate PastPlannedUnchanged(p: Projection, c: PlanChange) {
    forall i | 0 <= i < |c.units| && p.Known(c.session, c.units[i].unit) ::
      var u := p.Unit(c.session, c.units[i].unit);
      u.state == StatePlanned || SameDeclaration(u, PlanUnitAsUnit(c.units[i]))
  }

  function PlanUnitAsUnit(d: PlanUnit): Unit {
    NoUnit.(contract := d.contract, prerequisites := d.prerequisites)
  }

  /** A declared unit waits only for work of the resulting plan, or settled work. */
  predicate AddsWaitForWork(p: Projection, c: PlanChange, m: Plan) {
    forall i, need | 0 <= i < |c.units| && need in c.units[i].prerequisites ::
      need in m || p.Unit(c.session, need).state == StateSettled
  }

  ghost predicate RevisionFits(p: Projection, c: PlanChange) {
    var m := Intended(p, c);
    && c.base == p.Budgets(c.session).planVersion
    && (forall i | 0 <= i < |c.units| :: c.units[i].unit !in c.withdrawals)
    && Named(m) && PrerequisitesKnown(p, c.session, m) && !Cyclic(m)
    && (forall w | w in c.withdrawals :: p.Unit(c.session, w).state == StatePlanned)
    && PastPlannedUnchanged(p, c) && AddsWaitForWork(p, c, m) && RoundFits(p, c, m)
  }

  /** The first declaration commits a plan that fits; a later one names the standing
      version and leaves a plan that fits. */
  ghost predicate DeclarationFits(p: Projection, c: PlanChange) {
    && c.session != "" && c.version != ""
    && if p.Budgets(c.session).planVersion == "" then CommitmentFits(p, c) else RevisionFits(p, c)
  }

  // ---- The decision means this ----

  lemma PlanMeans(p: Projection, session: string, units: seq<PlanUnit>)
    requires DistinctIds(units)
    ensures var m := PlanOf(units);
            && (IdentityFault(units).None? <==> Named(m))
            && (AllResolved(units, m.Keys, KnownNames(p, session)) <==> PrerequisitesKnown(p, session, m))
  {
    hide PlanOf, DistinctIds;
    var m := PlanOf(units);
    IdentityFaultNone(units);
    PlanOfDistinct(units);
    KnownByName(p, session);
    forall id | id in m ensures exists i :: 0 <= i < |units| && units[i] == m[id] { var i := PlanOfMember(units, id); }
    if PrerequisitesKnown(p, session, m) {
      forall i, j | 0 <= i < |units| && 0 <= j < |units[i].prerequisites|
        ensures Resolved(units[i].prerequisites[j], m.Keys, KnownNames(p, session))
      {
        assert units[i].prerequisites[j] in m[units[i].unit].prerequisites;
      }
    }
    if AllResolved(units, m.Keys, KnownNames(p, session)) {
      forall id, need | id in m && need in m[id].prerequisites ensures need in m || p.Known(session, need) {
        var i :| 0 <= i < |units| && units[i] == m[id];
        var j :| 0 <= j < |units[i].prerequisites| && units[i].prerequisites[j] == need;
        assert Resolved(units[i].prerequisites[j], m.Keys, KnownNames(p, session));
      }
    }
  }

  lemma KnownByName(p: Projection, session: string)
    ensures forall id :: id in KnownNames(p, session) <==> p.Known(session, id)
  {
    forall id | p.Known(session, id) ensures id in KnownNames(p, session) {
      var k := UnitKey(session, id);
      assert k in p.units && k.session == session && k.unit == id;
    }
  }

  lemma RoundMeans(p: Projection, c: PlanChange, plan: seq<PlanUnit>)
    requires Sound(p.Budgets(c.session))
    ensures RoundRefused(p, c, plan) <==> !RoundFits(p, c, PlanOf(plan))
  {
    hide PlanOf, Sound, BlankText, QARoundFor;
    var b := p.Budgets(c.session);
    if c.round.Some? {
      var r := c.round.value;
      forall i | 0 <= i < |r.units| ensures r.units[i] in r.units
        ensures QARoundFor(b, r.units[i]) == "" <==> forall v | v in b.qaRounds :: !b.InRound(v, r.units[i])
      {
        Choices(b, r.units[i]);
      }
    }
  }

  lemma StandingPlanIs(p: Projection, session: string)
    ensures PlanOf(CurrentPlan(p, session)) == StandingPlan(p, session)
  {
    hide CurrentPlan, PlanOf, StandingNames, PlanUnitOf;
    CurrentPlanOf(p, session);
  }

  lemma IntendedIs(p: Projection, c: PlanChange)
    ensures var resulting := Revised(CurrentPlan(p, c.session), c.units, c.withdrawals);
            DistinctIds(resulting) && PlanOf(resulting) == Intended(p, c)
  {
    hide CurrentPlan, PlanOf, Revised, DistinctIds, StandingPlan;
    CurrentPlanOf(p, c.session);
    RevisedPlan(CurrentPlan(p, c.session), c.units, c.withdrawals);
    StandingPlanIs(p, c.session);
  }

  lemma CommitmentMeans(p: Projection, c: PlanChange)
    requires Sound(p.Budgets(c.session))
    ensures c.base == "" && c.withdrawals == [] ==>
              (CommitmentFits(p, c) <==> c.units != [] && PlanFaultOf(c.units, KnownNames(p, c.session)).None? && !RoundRefused(p, c, c.units))
  {
    hide PlanOf, Sound, RoundRefused, RoundFits, AllResolved, PrerequisitesKnown, Named, Cyclic, IdentityFault;
    IdentityFaultNone(c.units);
    if DistinctIds(c.units) { PlanMeans(p, c.session, c.units); }
    RoundMeans(p, c, c.units);
  }

  lemma AddsPass(p: Projection, c: PlanChange, resulting: seq<PlanUnit>)
    ensures AddedAndWithdrawnTogether(c.units, c.withdrawals) <==> exists i :: 0 <= i < |c.units| && c.units[i].unit in c.withdrawals
    ensures WithdrawalsPlanned(p, c.session, c.withdrawals) <==> forall w | w in c.withdrawals :: p.Unit(c.session, w).state == StatePlanned
    ensures AdmittedUnchanged(p, c.session, c.units) <==> PastPlannedUnchanged(p, c)
    ensures AddedPrerequisitesSettled(p, c.session, resulting, c.units) <==> AddsWaitForWork(p, c, PlanOf(resulting))
  {
    hide PlanOf;
    forall i | 0 <= i < |c.withdrawals| ensures c.withdrawals[i] in c.withdrawals {}
    if AddsWaitForWork(p, c, PlanOf(resulting)) {
      forall i, j | 0 <= i < |c.units| && 0 <= j < |c.units[i].prerequisites|
        ensures c.units[i].prerequisites[j] in PlanOf(resulting) || p.Unit(c.session, c.units[i].prerequisites[j]).state == StateSettled
      {
        assert c.units[i].prerequisites[j] in c.units[i].prerequisites;
      }
    }
  }

  /** Why a revision is refused: the first requirement it misses. */
  ghost predicate RefusedFor(p: Projection, c: PlanChange, fault: PlanFault) {
    var m := Intended(p, c);
    if p.Budgets(c.session).planVersion != c.base then fault == StaleBase
    else if exists i :: 0 <= i < |c.units| && c.units[i].unit in c.withdrawals then fault == AddedAndWithdrawn
    else if !Named(m) then fault == MissingIdentity
    else if !PrerequisitesKnown(p, c.session, m) then fault == UnknownPrerequisite
    else if Cyclic(m) then fault == PrerequisiteCycle
    else if exists w :: w in c.withdrawals && p.Unit(c.session, w).state != StatePlanned then fault == NotPlanned
    else if !PastPlannedUnchanged(p, c) then fault == AlreadyAdmitted
    else if !AddsWaitForWork(p, c, m) then fault == UnsettledPrerequisite
    else !RoundFits(p, c, m) && fault == QARoundRefused
  }

  lemma IdentityFaultIs(units: seq<PlanUnit>)
    requires DistinctIds(units) && IdentityFault(units).Some?
    ensures IdentityFault(units) == Some(MissingIdentity)
  {
    var n := |units| - 1;
    if IdentityFault(units[..n]).Some? {
      IdentityFaultIs(units[..n]);
    } else {
      NotRepeated(units);
    }
  }

  lemma NotRepeated(units: seq<PlanUnit>)
    requires DistinctIds(units) && units != []
    ensures units[|units| - 1].unit !in PlanOf(units[..|units| - 1])
  {
    var n := |units| - 1;
    if units[n].unit in PlanOf(units[..n]) {
      var i := PlanOfMember(units[..n], units[n].unit);
      assert false;
    }
  }

  lemma RevisionMeans(p: Projection, c: PlanChange)
    requires Sound(p.Budgets(c.session))
    ensures RevisionFault(p, c).None? <==> RevisionFits(p, c)
    ensures RevisionFault(p, c).Some? ==> RefusedFor(p, c, RevisionFault(p, c).value)
  {
    hide PlanOf, CurrentPlan, Revised, Sound, RoundRefused, RoundFits, AllResolved, PrerequisitesKnown, Named, Cyclic, IdentityFault, Intended,
         AdmittedUnchanged, AddedPrerequisitesSettled, PastPlannedUnchanged, AddsWaitForWork, WithdrawalsPlanned, AddedAndWithdrawnTogether, KnownNames;
    var resulting := Revised(CurrentPlan(p, c.session), c.units, c.withdrawals);
    IntendedIs(p, c);
    PlanMeans(p, c.session, resulting);
    if IdentityFault(resulting).Some? { IdentityFaultIs(resulting); }
    RoundMeans(p, c, resulting);
    AddsPass(p, c, resulting);
  }

  /** A declaration is accepted exactly when it fits. */
  lemma AcceptedMeans(p: Projection, c: PlanChange)
    requires Sound(p.Budgets(c.session))
    ensures DeclarationAccepted(p, c) <==> DeclarationFits(p, c)
  {
    hide RevisionFault, RevisionFits, CommitmentFits, PlanFaultOf, RoundRefused, Sound;
    CommitmentMeans(p, c);
    RevisionMeans(p, c);
    assert CommitmentFits(p, c) ==> c.base == "" && c.withdrawals == [] by { CommitmentIsFirst(p, c); }
    assert RevisionFits(p, c) ==> c.base == p.Budgets(c.session).planVersion by { RevisionNamesBase(p, c); }
  }

  lemma CommitmentIsFirst(p: Projection, c: PlanChange)
    ensures CommitmentFits(p, c) ==> c.base == "" && c.withdrawals == []
  {
  }

  lemma RevisionNamesBase(p: Projection, c: PlanChange)
    ensures RevisionFits(p, c) ==> c.base == p.Budgets(c.session).planVersion
  {
  }

  // ---- What it leaves ----

  /** The declared units are planned as declared where they were new or planned, the
      withdrawn withdrawn, all other units as they were; the version stands and the
      round is declared, not started. */
  ghost predicate DeclaredAs(p: Projection, q: Projection, c: PlanChange) {
    && Applied(p, q, c) && ElsewhereSame(p, q, c.session)
    && q.Budgets(c.session) == p.Budgets(c.session).(
         planVersion := c.version,
         qaRounds := if c.round.Some? then p.Budgets(c.session).qaRounds[c.version := Strengthening(c.round.value, false)]
                     else p.Budgets(c.session).qaRounds)
  }

  lemma CommitmentApplies(p: Projection, ref: string, c: PlanChange)
    requires CommitEntries(p, ref, c) != [] && c.withdrawals == []
    ensures DeclaredAs(p, FoldAll(p, CommitEntries(p, ref, c)), c)
  {
    hide PlanFaultOf, RoundRefused, Fold, FoldAll, KnownNames, PlanOf, ElsewhereSame, Rounded, PlannedEntries, RoundEntries, Revision.Open;
    var round, planned := RoundEntries(ref, c.session, c.version, c.round), PlannedEntries(ref, c.session, c.version, c.units);
    var r := FoldAll(p, round);
    var q := FoldAll(p, round + planned);
    FoldAllConcat(p, round, planned);
    FoldRound(p, ref, c);
    FoldPlanned(r, ref, c.session, c.version, c.units);
    ElsewhereOn(p, r, q, c.session);
    OpenAlike(p, r, c.session);
    RoundedAs(p.Budgets(c.session), c);
  }

  lemma OpenAlike(p: Projection, q: Projection, session: string)
    requires q.units == p.units
    ensures forall id :: Revision.Open(q, session, id) == Revision.Open(p, session, id)
    ensures forall id :: q.Known(session, id) == p.Known(session, id) && q.Unit(session, id) == p.Unit(session, id)
  {
  }

  lemma RoundedAs(b: Budgets, c: PlanChange)
    ensures Rounded(b, c).(planVersion := c.version) == b.(
              planVersion := c.version,
              qaRounds := if c.round.Some? then b.qaRounds[c.version := Strengthening(c.round.value, false)] else b.qaRounds)
  {
  }

  lemma RevisionLeaves(p: Projection, ref: string, c: PlanChange)
    requires RevisionFault(p, c).None?
    ensures DeclaredAs(p, FoldAll(p, RevisionEntries(p, ref, c)), c)
  {
    hide RevisionFault, RevisionEntries, FoldAll, Applied, ElsewhereSame, Rounded;
    RevisionApplies(p, ref, c);
    RoundedAs(p.Budgets(c.session), c);
  }

  /** The plan standing after an accepted declaration: what stood, less the
      withdrawn, and every declared unit that was new or planned, as declared. */
  lemma DeclarationStands(p: Projection, q: Projection, c: PlanChange)
    requires Shape(p) && DeclarationFits(p, c) && DeclaredAs(p, q, c)
    ensures StandingPlan(q, c.session)
         == (StandingPlan(p, c.session) - Elements(c.withdrawals))
            + map id | id in PlanOf(c.units) && Revision.Open(p, c.session, id) :: PlanOf(c.units)[id]
  {
    hide PlanOf, StandingNames, Revision.Open, DeclarationFits, DeclaredAs;
    var declared := map id | id in PlanOf(c.units) && Revision.Open(p, c.session, id) :: PlanOf(c.units)[id];
    var meant := (StandingPlan(p, c.session) - Elements(c.withdrawals)) + declared;
    forall id ensures id in StandingPlan(q, c.session) <==> id in meant
      ensures id in StandingPlan(q, c.session) && id in meant ==> StandingPlan(q, c.session)[id] == meant[id]
    {
      StandsAfter(p, q, c, id);
    }
  }

  lemma StandsAfter(p: Projection, q: Projection, c: PlanChange, id: string)
    requires Shape(p) && DeclarationFits(p, c) && DeclaredAs(p, q, c)
    ensures var before, after, m := StandingPlan(p, c.session), StandingPlan(q, c.session), PlanOf(c.units);
            var declared := id in m && Revision.Open(p, c.session, id);
            && (id in after <==> declared || (id in before && id !in c.withdrawals))
            && (id in after ==> after[id] == if declared then m[id] else before[id])
  {
    hide PlanOf, DeclarationFits, StandingNames;
    assert Applied(p, q, c);
    StandingMember(p, c.session, id);
    StandingMember(q, c.session, id);
    if id in PlanOf(c.units) { DeclaredNamed(p, c, id); }
  }

  lemma DeclaredNamed(p: Projection, c: PlanChange, id: string)
    requires DeclarationFits(p, c) && id in PlanOf(c.units)
    ensures PlanOf(c.units)[id].unit == id && PlanOf(c.units)[id].contract != "" && id !in c.withdrawals
  {
    hide PlanOf, Cyclic, RoundFits, PrerequisitesKnown, AddsWaitForWork, PastPlannedUnchanged, StandingPlan;
    var i := PlanOfMember(c.units, id);
    if p.Budgets(c.session).planVersion != "" {
      assert Intended(p, c)[id] == PlanOf(c.units)[id];
    }
  }

  // ---- What it records ----

  /** A retained unit waits for other work than before. */
  ghost predicate Rewired(p: Projection, c: PlanChange) {
    exists id :: id in StandingPlan(p, c.session) && id in Intended(p, c)
                 && StandingPlan(p, c.session)[id].prerequisites != Intended(p, c)[id].prerequisites
  }

  /** A revision is recorded as strategic exactly when it rewires retained work. */
  lemma RevisionRecords(p: Projection, ref: string, c: PlanChange)
    ensures var k := if c.round.Some? then 1 else 0; var e := RevisionEntries(p, ref, c)[k];
            e.kind.KindRevised? && e.session == c.session && e.baseVersion == c.base && e.planVersion == c.version
            && e.classification == if Rewired(p, c) then Strategic else Tactical
  {
    hide CurrentPlan, Revised, PlanOf, Intended, StandingPlan, ClassificationOf;
    StandingPlanIs(p, c.session);
    IntendedIs(p, c);
    Rewires(p, c, Revised(CurrentPlan(p, c.session), c.units, c.withdrawals));
  }

  lemma Rewires(p: Projection, c: PlanChange, resulting: seq<PlanUnit>)
    requires DistinctIds(resulting) && PlanOf(resulting) == Intended(p, c)
    requires PlanOf(CurrentPlan(p, c.session)) == StandingPlan(p, c.session)
    ensures ClassificationOf(CurrentPlan(p, c.session), resulting) == if Rewired(p, c) then Strategic else Tactical
  {
    hide CurrentPlan, PlanOf, Intended, StandingPlan;
    PlanOfDistinct(resulting);
    if Rewired(p, c) {
      var id :| id in StandingPlan(p, c.session) && id in Intended(p, c)
                && StandingPlan(p, c.session)[id].prerequisites != Intended(p, c)[id].prerequisites;
      var i := PlanOfMember(resulting, id);
      assert resulting[i].unit == id;
    }
  }

  ghost predicate RefusalRecorded(p: Projection, c: PlanChange, e: Entry) {
    e.kind.KindInvalidRevision? && e.session == c.session && exists fault :: RefusedFor(p, c, fault) && e.reason == FaultText(fault)
  }

  ghost predicate RevisionRecorded(p: Projection, c: PlanChange, e: Entry) {
    && e.kind.KindRevised? && e.session == c.session && e.baseVersion == c.base && e.planVersion == c.version
    && e.classification == if Rewired(p, c) then Strategic else Tactical
  }

  /** A declaration that fits is recorded whole; one that does not changes nothing,
      and a refused revision is recorded with the reason. */
  lemma DeclarationMeans(p: Projection, ref: string, c: PlanChange)
    requires Shape(p) && Sound(p.Budgets(c.session))
    ensures var batch := DeclareEntries(p, ref, c); var q := FoldAll(p, batch); var first := p.Budgets(c.session).planVersion == "";
            && AllValid(batch)
            && (DeclarationFits(p, c) <==> batch != [] && !batch[0].kind.KindInvalidRevision?)
            && (DeclarationFits(p, c) ==> DeclaredAs(p, q, c))
            && (DeclarationFits(p, c) && !first ==>
                  var k := if c.round.Some? then 1 else 0; k < |batch| && RevisionRecorded(p, c, batch[k]))
            && (!DeclarationFits(p, c) ==> q.units == p.units && q.executions == p.executions && forall s :: q.Budgets(s) == p.Budgets(s))
            && (!DeclarationFits(p, c) ==> if first || c.session == "" || c.version == "" || c.base == "" then batch == []
                                           else |batch| == 1 && RefusalRecorded(p, c, batch[0]))
  {
    hide RevisionFault, RevisionFits, CommitmentFits, DeclarationFits, RefusedFor, Sound, Shape, RevisionEntries, CommitEntries, FoldAll,
         DeclaredAs, RevisionRecorded, PlanFaultOf, RoundRefused, Valid;
    AcceptedMeans(p, c);
    DeclarationEffect(p, ref, c);
    NothingFolds(p);
    if p.Budgets(c.session).planVersion == "" {
      CommitmentEffect(p, ref, c);
      if c.withdrawals == [] && CommitEntries(p, ref, c) != [] { CommitmentApplies(p, ref, c); }
    } else if c.session != "" && c.version != "" && c.base != "" {
      RevisionMeans(p, c);
      if RevisionFault(p, c).None? {
        RevisionLeaves(p, ref, c);
        RevisionNoted(p, ref, c);
      } else {
        RefusedRevisionChangesNothing(p, ref, c);
        InvalidRecordable(ref, c, RevisionFault(p, c).value);
      }
    }
  }

  lemma RevisionNoted(p: Projection, ref: string, c: PlanChange)
    ensures var batch := RevisionEntries(p, ref, c); var k := if c.round.Some? then 1 else 0;
            k < |batch| && RevisionRecorded(p, c, batch[k])
  {
    hide CurrentPlan, Revised, ClassificationOf, PlannedEntries, WithdrawnEntries, Rewired;
    RevisionRecords(p, ref, c);
  }
}
