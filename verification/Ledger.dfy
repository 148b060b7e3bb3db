/** The execution history as the runtime holds it, and the operations that read
    its projection, decide, and append: each records exactly what its command
    means, so whatever holds over every run holds of this object. */
module Ledger {
  import opened Decimal
  import opened Ordering
  import opened Record
  import opened Replay
  import opened Protocol
  import opened Licensing
  import opened Runs
  import opened Budgeting
  import opened Linkage
  import opened Accounting
  import opened ReplayState
  import opened Decisions
  import opened Effects
  import opened Verdicts
  import opened Declarations
  import opened Recoveries
  import opened Executions
  import opened Activities

  lemma SafeSession(policy: Policy, history: seq<Entry>, session: string)
    requires policy.Positive() && LicensedHistory(policy, history)
    ensures Sound(Project(history).Budgets(session))
  {
    hide LicensedHistory, Project, BudgetShape;
    LicensedSafe(policy, history);
    LicensedShape(policy, history);
    ShapeOfSession(Project(history), session);
    FreshSessionSafe(policy);
    SafeParts(policy, Project(history).Budgets(session));
  }

  lemma SafeParts(policy: Policy, b: Budgets)
    requires SessionSafe(policy, b)
    ensures ScopesDisjoint(b) && RoundsDisjoint(b)
  {
  }

  lemma ExecuteStep(policy: Policy, commands: seq<Command>, c: Command)
    ensures Execute(policy, commands + [c]) == Execute(policy, commands) + Effect(policy, Execute(policy, commands), c)
  {
    hide Effect;
    var more := commands + [c];
    assert more[..|more| - 1] == commands;
  }

  class History {
    const policy: Policy
    var entries: seq<Entry>
    ghost var commands: seq<Command>

    /** The entries are what some run of commands records. */
    ghost predicate Valid()
      reads this
    {
      policy.Positive() && entries == Execute(policy, commands)
    }

    ghost function Now(): Projection
      reads this
    {
      Replay.Project(entries)
    }

    constructor (policy: Policy)
      requires policy.Positive()
      ensures Valid() && this.policy == policy && entries == []
    {
      this.policy := policy;
      entries := [];
      commands := [];
    }

    // ---- Store ----

    /** All or nothing: one entry that is not recordable refuses the batch. */
    method AppendBatch(batch: seq<Entry>) returns (ok: bool)
      modifies this`entries
      ensures ok <==> AllValid(batch)
      ensures entries == old(entries) + if ok then batch else []
      ensures !ok || batch == [] ==> entries == old(entries)
    {
      hide Record.Valid;
      for i := 0 to |batch|
        invariant AllValid(batch[..i])
        invariant entries == old(entries)
      {
        if !Record.Valid(batch[i]) {
          return false;
        }
        assert batch[..i + 1] == batch[..i] + [batch[i]];
      }
      assert batch[..|batch|] == batch;
      entries := entries + batch;
      return true;
    }

    /** The batch a command asks for, appended as its whole effect. */
    method Carry(batch: seq<Entry>, ghost c: Command) returns (ok: bool)
      requires Valid() && batch == Proposed(policy, entries, Now(), c)
      modifies this
      ensures Valid() && commands == old(commands) + [c]
      ensures ok <==> AllValid(batch)
      ensures entries == old(entries) + if ok then batch else []
      ensures !ok || batch == [] ==> entries == old(entries)
    {
      hide Proposed, AllValid, Execute;
      ok := AppendBatch(batch);
      ExecuteStep(policy, commands, c);
      commands := commands + [c];
    }

    /** The one entry a command asks for. */
    method CarryOne(e: Entry, ghost c: Command) returns (ok: bool)
      requires Valid() && [e] == Proposed(policy, entries, Now(), c)
      modifies this
      ensures Valid() && commands == old(commands) + [c]
      ensures ok <==> Record.Valid(e)
      ensures entries == old(entries) + if ok then [e] else []
      ensures !ok ==> entries == old(entries)
      ensures Now() == if ok then Fold(old(Now()), e) else old(Now())
    {
      hide Proposed, Execute, Record.Valid, Replay.Project, Fold;
      ghost var before := entries;
      ok := Carry([e], c);
      assert AllValid([e]) <==> Record.Valid([e][0]);
      if ok { NowAfterOne(before, e); }
    }

    /** A command that asks for nothing. */
    ghost method Pass(c: Command)
      requires Valid() && Proposed(policy, entries, Now(), c) == []
      modifies this`commands
      ensures Valid() && commands == old(commands) + [c]
    {
      hide Proposed, Execute;
      ExecuteStep(policy, commands, c);
      commands := commands + [c];
    }

    /** Replay of the recorded order, one entry at a time. */
    method Project() returns (p: Projection)
      requires Valid()
      ensures p == Now() && Shape(p) && Linkage.Linked(p)
      ensures forall session :: Sound(p.Budgets(session))
    {
      hide Execute, Fold, Licensed, Record.Valid, Shape, Linkage.Linked, Sound;
      var state := new ProjectionState();
      Replayed();
      for i := 0 to |entries|
        invariant fresh(state) && Valid()
        invariant state.Value() == Replay.Project(entries[..i])
      {
        PrefixSound(i, entries[i].session);
        state.Fold(entries[i]);
        assert entries[..i + 1][..i] == entries[..i];
      }
      assert entries[..|entries|] == entries;
      p := state.Value();
      RunLinked(policy, commands);
      forall session ensures Sound(p.Budgets(session)) { PrefixSound(|entries|, session); }
    }

    lemma Replayed()
      ensures Replay.Project(entries[..0]) == Empty
    {
    }

    lemma PrefixSound(n: nat, session: string)
      requires Valid() && n <= |entries|
      ensures var b := Replay.Project(entries[..n]).Budgets(session); Sound(b) && BudgetShape(b) && RoundsDisjoint(b)
    {
      hide Execute, LicensedHistory, Replay.Project, BudgetShape, RoundsDisjoint, ScopesDisjoint, Fold;
      RunIsLicensed(policy, commands);
      LicensedPrefix(policy, entries, n);
      SafeSession(policy, entries[..n], session);
    }

    // ---- Admission and lifecycle ----

    /** Reserves one slot indivisibly, or records why not: the first reason there
        is. */
    method Admit(ref: string, r: Request) returns (admitted: bool)
      requires Valid()
      modifies this
      ensures Valid() && commands == old(commands) + [Command.Admit(ref, r)]
      ensures admitted <==> r.unit != "" && r.session != "" && MayAdmit(policy, old(Now()), r.session, r.unit)
      ensures admitted ==> AdmittedAs(old(Now()), Now(), r)
      ensures r.unit == "" || r.session == "" ==> entries == old(entries)
      ensures !admitted && r.unit != "" && r.session != "" ==>
                && |entries| == |old(entries)| + 1 && entries[..|old(entries)|] == old(entries)
                && var denial := entries[|old(entries)|];
                   && denial.kind.KindDenied? && denial.session == r.session && denial.unit == r.unit
                   && DeniedFor(policy, old(Now()), r.session, r.unit, denial.cause)
      ensures !admitted ==> && Now().units == old(Now()).units && Now().executions == old(Now()).executions
                            && Now().inputs == old(Now()).inputs && forall s :: Now().Budgets(s) == old(Now()).Budgets(s)
    {
      hide Execute, Decide, Record.Valid, Sound, Shape, MayAdmit, DeniedFor, AdmittedAs, Fold, Replay.Project;
      ghost var c := Command.Admit(ref, r);
      if r.unit == "" || r.session == "" {
        Pass(c);
        return false;
      }
      var p := Project();
      var entry := DecideAdmission(policy, p, ref, r);
      DecisionValid(policy, p, ref, r);
      DecisionNames(policy, p, ref, r);
      var ok := CarryOne(entry, c);
      admitted := ok && entry.kind.KindAdmitted?;
      if admitted { AdmissionLeaves(policy, p, ref, r); } else { DenialLeaves(p, entry); }
    }

    /** Whatever the unit has in flight ends; a unit that has nothing keeps its
        state. */
    method Finish(ref: string, session: string, unit: string) returns (ok: bool)
      requires Valid()
      modifies this
      ensures Valid() && commands == old(commands) + [Command.Finish(ref, session, unit)]
      ensures ok <==> session != "" && unit != ""
      ensures !ok ==> entries == old(entries)
      ensures old(Now()).Unit(session, unit).state == StateInFlight ==> ok && FinishedAs(old(Now()), Now(), session, unit, false)
      ensures var u, v := old(Now()).Unit(session, unit), Now().Unit(session, unit);
              u.state != StateInFlight ==> v == u.(assurance := v.assurance)
      ensures OnlyUnit(old(Now()), Now(), session, unit)
    {
      hide Execute, TerminateEntries, Record.Valid, Shape, Sound, Replay.Project, FinishedAs;
      var p := Project();
      ghost var before := entries;
      var batch := DecideTermination(p, ref, session, unit, false);
      TerminationRecordable(p, ref, session, unit, false);
      FinishEffect(before, ref, session, unit, false);
      if p.Unit(session, unit).state == StateInFlight { TerminationFinishes(before, ref, session, unit, false); }
      ok := Carry(batch, Command.Finish(ref, session, unit));
    }

    /** A repeat of an observed launch appends nothing; an uncertain one waits
        for reconciliation. */
    method Launch(ref: string, session: string, unit: string) returns (ok: bool)
      requires Valid()
      modifies this
      ensures Valid() && commands == old(commands) + [Command.Launch(ref, session, unit)]
      ensures var u := old(Now()).Unit(session, unit);
              && (ok <==> u.state == StateInFlight && (u.launched || (u.flight != FlightUncertain && u.flight != FlightUnmonitored)))
              && (!ok || u.launched ==> entries == old(entries))
              && (ok && !u.launched ==> NotedAs(old(Now()), Now(), session, unit, KindLaunched))
    {
      hide Execute, RecordEntry, Record.Valid, Shape, Replay.Project, Fold, NotedAs;
      ghost var c := Command.Launch(ref, session, unit);
      var p := Project();
      var u := p.Unit(session, unit);
      if u.state != StateInFlight || u.launched || UncertainFlight(u.flight) {
        Pass(c);
        return u.state == StateInFlight && u.launched;
      }
      LaunchLeaves(p, ref, session, unit);
      ok := CarryOne(RecordEntry(p, ref, session, unit, KindLaunched), c);
    }

    /** Uncertain work found running runs again; work found not running ends, and
        not as completed. */
    method Reconcile(ref: string, session: string, unit: string, running: bool) returns (ok: bool)
      requires Valid()
      modifies this
      ensures Valid() && commands == old(commands) + [Command.Reconcile(ref, session, unit, running)]
      ensures var u := old(Now()).Unit(session, unit); var uncertain := u.flight == FlightUncertain || u.flight == FlightUnmonitored;
              && (ok <==> uncertain || (!running && u.state != StateInFlight))
              && (!uncertain ==> entries == old(entries))
              && (uncertain && running ==> u.state == StateInFlight && NotedAs(old(Now()), Now(), session, unit, KindLaunched))
              && (uncertain && !running ==> u.state == StateInFlight && FinishedAs(old(Now()), Now(), session, unit, true))
    {
      hide Execute, RecordEntry, TerminateEntries, Record.Valid, Shape, Sound, Replay.Project, Fold, NotedAs, FinishedAs;
      ghost var c := Command.Reconcile(ref, session, unit, running);
      var p := Project();
      var u := p.Unit(session, unit);
      UncertainInFlight(p, session, unit);
      if !running && u.state != StateInFlight {
        Pass(c);
        return true;
      }
      if !UncertainFlight(u.flight) {
        Pass(c);
        return false;
      }
      if running {
        LaunchLeaves(p, ref, session, unit);
        ok := CarryOne(RecordEntry(p, ref, session, unit, KindLaunched), c);
      } else {
        TerminationFinishes(entries, ref, session, unit, true);
        var batch := DecideTermination(p, ref, session, unit, true);
        ok := Carry(batch, c);
      }
    }

    /** A lifecycle fact or declaration that consumes no budget. */
    method Note(ref: string, session: string, unit: string, kind: Kind) returns (ok: bool)
      requires Valid() && NoteKind(kind)
      modifies this
      ensures Valid() && commands == old(commands) + [Command.Note(ref, session, unit, kind)]
      ensures ok <==> session != "" && unit != ""
      ensures ok ==> NotedAs(old(Now()), Now(), session, unit, kind)
      ensures !ok ==> entries == old(entries)
    {
      hide Execute, RecordEntry, Record.Valid, Shape, Replay.Project, Fold, NotedAs;
      var p := Project();
      NoteRecorded(p, ref, session, unit, kind);
      NoteLeaves(p, ref, session, unit, kind);
      ok := CarryOne(RecordEntry(p, ref, session, unit, kind), Command.Note(ref, session, unit, kind));
    }

    method Withdraw(ref: string, session: string, unit: string) returns (ok: bool)
      requires Valid()
      modifies this
      ensures Valid() && commands == old(commands) + [Command.Withdraw(ref, session, unit)]
      ensures ok <==> old(Now()).Unit(session, unit).state == StatePlanned
      ensures ok ==> && OnlyUnit(old(Now()), Now(), session, unit) && Now().executions == old(Now()).executions
                     && Now().Unit(session, unit) == old(Now()).Unit(session, unit).(state := StateWithdrawn)
                     && forall s :: Now().Budgets(s) == old(Now()).Budgets(s)
      ensures !ok ==> entries == old(entries)
    {
      hide Execute, RecordEntry, Record.Valid, Shape, Replay.Project, Fold, OnlyUnit;
      ghost var c := Command.Withdraw(ref, session, unit);
      var p := Project();
      if p.Unit(session, unit).state != StatePlanned {
        Pass(c);
        return false;
      }
      WithdrawalLeaves(p, ref, session, unit);
      ok := CarryOne(RecordEntry(p, ref, session, unit, KindWithdrawn), c);
    }

    method Except(ref: string, event: string, session: string, bound: Bound, objective: string, allowance: int) returns (ok: bool)
      requires Valid()
      modifies this
      ensures Valid() && commands == old(commands) + [Command.Except(ref, event, session, bound, objective, allowance)]
      ensures ok <==> session != "" && MayExcept(old(Now()).Budgets(session), bound, objective, allowance)
      ensures ok ==> ExceptedAs(old(Now()), Now(), session, bound, objective, allowance, ref)
      ensures !ok ==> entries == old(entries)
    {
      hide Execute, ExceptionEntry, ExceptionRefused, MayExcept, ExceptedAs, Record.Valid, Shape, Replay.Project, Fold;
      ghost var c := Command.Except(ref, event, session, bound, objective, allowance);
      var p := Project();
      ExceptionMeans(p.Budgets(session), bound, objective, allowance);
      if ExceptionRefused(p.Budgets(session), bound, objective) {
        Pass(c);
        return false;
      }
      ExceptionValid(ref, event, session, bound, objective, allowance);
      if MayExcept(p.Budgets(session), bound, objective, allowance) {
        ExceptionLeaves(p, ref, event, session, bound, objective, allowance);
      }
      ok := CarryOne(ExceptionEntry(ref, event, session, bound, objective, allowance), c);
    }

    // ---- Plans ----

    /** The first declaration commits; a later one revises the version it names.
        It goes through whole, or changes nothing; a refused revision is recorded
        with its reason. */
    method Declare(ref: string, change: PlanChange) returns (ok: bool)
      requires Valid()
      modifies this
      ensures Valid() && commands == old(commands) + [Command.Declare(ref, change)]
      ensures ok <==> DeclarationFits(old(Now()), change)
      ensures ok ==> DeclaredAs(old(Now()), Now(), change)
      ensures !ok ==> Now().units == old(Now()).units && Now().executions == old(Now()).executions
                      && forall s :: Now().Budgets(s) == old(Now()).Budgets(s)
      ensures var first := old(Now()).Budgets(change.session).planVersion == ""; var n, k := |old(entries)|, if change.round.Some? then 1 else 0;
              && entries[..n] == old(entries)
              && (ok && !first ==> n + k < |entries| && RevisionRecorded(old(Now()), change, entries[n + k]))
              && (!ok ==> if first || change.session == "" || change.version == "" || change.base == "" then |entries| == n
                          else |entries| == n + 1 && RefusalRecorded(old(Now()), change, entries[n]))
    {
      hide Execute, DeclareEntries, Record.Valid, Shape, Sound, Replay.Project, AllValid, Fold, DeclarationFits, DeclaredAs, RevisionRecorded, RefusalRecorded;
      var p := Project();
      var batch := DecideDeclaration(p, ref, change);
      ghost var before := entries;
      DeclarationMeans(p, ref, change);
      ok := Carry(batch, Command.Declare(ref, change));
      NowAfter(before, batch);
      ok := ok && batch != [] && !batch[0].kind.KindInvalidRevision?;
    }

    // ---- Bounded recovery ----

    /** A repeat of an open recovery appends nothing; a refusal is recorded with its
        first reason. */
    method DeclareRecovery(ref: string, event: string, session: string, d: RecoveryDeclaration) returns (ok: bool)
      requires Valid()
      modifies this
      ensures Valid() && commands == old(commands) + [Command.DeclareRecovery(ref, event, session, d)]
      ensures var b := old(Now()).Budgets(session); var r := b.Recovery(d.objective);
              && (ok <==> r.open || (session != "" && event != "" && MayDeclare(policy, b, d)))
              && (r.open || session == "" || event == "" ==> entries == old(entries))
              && (ok && !r.open ==> RecoveryIs(old(Now()), Now(), session, d.objective, Opened(r.failures, event, d, ref)))
              && (!ok && session != "" && event != "" ==>
                    && |entries| == |old(entries)| + 1 && entries[..|old(entries)|] == old(entries)
                    && entries[|old(entries)|].kind.KindDenied? && DeclarationDeniedFor(policy, b, d, entries[|old(entries)|].cause))
      ensures !ok ==> Now().units == old(Now()).units && forall s :: Now().Budgets(s) == old(Now()).Budgets(s)
    {
      hide Execute, RecoveryEntry, RecoveryRefusal, Record.Valid, Shape, Replay.Project, Fold, MayDeclare, DeclarationDeniedFor, RecoveryIs, Opened;
      ghost var c := Command.DeclareRecovery(ref, event, session, d);
      var p := Project();
      if p.Budgets(session).Recovery(d.objective).open {
        Pass(c);
        return true;
      }
      var refusal := RecoveryRefusal(policy, p.Budgets(session), d);
      RecoveryMeans(policy, p.Budgets(session), d);
      RecoveryRecorded(policy, p, ref, event, session, d);
      RecoveryLeaves(p, ref, event, session, d, refusal);
      ok := CarryOne(RecoveryEntry(ref, event, session, d, refusal), c);
      ok := ok && refusal.None?;
    }

    method CloseRecovery(ref: string, event: string, session: string, objective: string, evidence: string, demonstrated: bool)
      returns (ok: bool)
      requires Valid()
      modifies this
      ensures Valid() && commands == old(commands) + [Command.CloseRecovery(ref, event, session, objective, evidence, demonstrated)]
      ensures var r := old(Now()).Budgets(session).Recovery(objective);
              && (ok <==> r.open && event != "" && (demonstrated ==> evidence != ""))
              && (ok ==> RecoveryIs(old(Now()), Now(), session, objective,
                                    r.(open := false, failures := if demonstrated then 0 else r.failures + 1)))
      ensures !ok ==> entries == old(entries)
    {
      hide Execute, ClosureEntry, Record.Valid, Shape, Replay.Project, Fold, RecoveryIs;
      ghost var c := Command.CloseRecovery(ref, event, session, objective, evidence, demonstrated);
      var p := Project();
      if !p.Budgets(session).Recovery(objective).open || (demonstrated && evidence == "") {
        Pass(c);
        return false;
      }
      ClosureRecorded(p, ref, event, session, objective, evidence, demonstrated);
      ClosureLeaves(p, ref, event, session, objective, evidence, demonstrated);
      ok := CarryOne(ClosureEntry(ref, event, session, objective, evidence, demonstrated), c);
    }

    /** An abandonment is made good once, and never under work of its scope still
        in flight. */
    method ConfirmRestored(ref: string, session: string, objective: string, evidence: string) returns (ok: bool)
      requires Valid()
      modifies this
      ensures Valid() && commands == old(commands) + [Command.ConfirmRestored(ref, session, objective, evidence)]
      ensures var r := old(Now()).Budgets(session).Recovery(objective);
              && (ok <==> Abandoned(r) && !r.open && ScopeIdle(old(Now()), session, r.scope))
              && (ok ==> RecoveryIs(old(Now()), Now(), session, objective, r.(restored := true)))
      ensures !ok ==> entries == old(entries)
    {
      hide Execute, RestoredEntries, Record.Valid, Shape, Replay.Project, AnyInFlight, ScopeIdle, Fold, RecoveryIs;
      var p := Project();
      var batch := RestoredEntries(p, ref, session, objective, evidence);
      ghost var before := entries;
      RestoredWhen(p, ref, session, objective, evidence);
      IdleScope(p, session, p.Budgets(session).Recovery(objective).scope);
      if batch != [] {
        RestorationRecorded(p, ref, session, objective, evidence);
        RestorationLeaves(p, ref, session, objective, evidence);
      }
      ok := Carry(batch, Command.ConfirmRestored(ref, session, objective, evidence));
      if batch != [] { NowAfterOne(before, batch[0]); }
      ok := ok && batch != [];
    }

    /** One recovery, decided on the projection read at the start of the
        accounting; nothing recorded since concerns it. */
    method AccountRecovery(p: Projection, journal: seq<JournalEntry>, session: string, objective: string)
      requires Valid() && Journal(journal) && Declared(Now(), session, objective) && ReadAs(p, Now(), session, objective)
      modifies this
      ensures Valid()
      ensures OnlyAccounts(old(commands), commands, journal)
      ensures Settled(Now(), journal, session, objective) && OnlyRecovery(old(Now()), Now(), session, objective)
      ensures AccountedAs(old(Now()), session, objective, Now().Budgets(session).Recovery(objective), journal)
      ensures old(Settled(Now(), journal, session, objective)) ==> entries == old(entries)
    {
      hide Execute, Shape, Record.Valid, Replay.Project, Journal, Exhausted, OnlyRecovery, BacktrackEntries, AccountEntries, Head, Fold,
           AccountedAs;
      ghost var was := Now();
      var r := p.Budgets(session).Recovery(objective);
      if !r.open || r.unreconciled {
        NothingAccounted(was, session, objective, journal);
        Accounting.SelfOnly(was, session, objective);
        NothingToAccount(was, session, objective, journal);
        return;
      }
      AccountSettles(was, session, objective, journal);
      ObserveFolds(was, session, objective, journal);
      var consumed := ObserveRecovery(p, journal, session, objective, r);
      ghost var q := Now();
      if consumed.None? {
        NothingToAccount(q, session, objective, journal);
        return;
      }
      OnlyUnits(was, q, session, objective);
      OnlyKeepsDeclared(was, q, session, objective);
      Abandon(p, session, objective, consumed.value, Head(journal));
    }

    /** Records what the bus shows; None when the bus no longer accounts for
        consumption already observed. */
    method ObserveRecovery(p: Projection, journal: seq<JournalEntry>, session: string, objective: string, r: Recovery)
      returns (consumed: Option<Recovery>)
      requires Valid() && Journal(journal) && Declared(Now(), session, objective)
      requires r == Now().Budgets(session).Recovery(objective) && r.open && !r.unreconciled
      modifies this
      ensures Valid() && commands == old(commands) + [Command.ObserveActions(session, objective, journal)]
      ensures entries == old(entries) + AccountEntries(session, objective, r, journal)
      ensures Now() == FoldAll(old(Now()), AccountEntries(session, objective, r, journal))
      ensures consumed.None? ==> Observed(r, session, journal).unreconciled
      ensures consumed.Some? ==> consumed.value == Observed(r, session, journal).(cursor := r.cursor)
    {
      hide Execute, Shape, Record.Valid, Replay.Project, Journal, ScopeActions, ActionsEntry, Head, Fold;
      ghost var was, before := Now(), entries;
      ghost var c := Command.ObserveActions(session, objective, journal);
      var head := Head(journal);
      var n := CountActions(journal, session, r);
      RunShape(policy, commands);
      AccountRecordable(was, session, objective, journal);
      if head < r.cursor {
        var _ := Carry([ActionsEntry(session, objective, r, KindActionsUncertain, 0, head)], c);
        NowAfter(before, AccountEntries(session, objective, r, journal));
        return None;
      }
      var next := r.(used := r.used + n);
      if n > 0 {
        EntryNamesUnit(session, objective, r, next, KindActions, n, head);
        var _ := Carry([ActionsEntry(session, objective, next, KindActions, n, head)], c);
      } else {
        Pass(c);
      }
      NowAfter(before, AccountEntries(session, objective, r, journal));
      return Some(next);
    }

    /** Forced backtracking of the exhausted, on the consumption just recorded
        and the units and allowances read at the start. */
    method Abandon(p: Projection, session: string, objective: string, r: Recovery, head: int)
      requires Valid() && Declared(Now(), session, objective)
      requires Now().units == p.units && Now().Budgets(session).allowance == p.Budgets(session).allowance
      requires r == Now().Budgets(session).Recovery(objective).(cursor := r.cursor)
      modifies this
      ensures Valid() && (commands == old(commands) || commands == old(commands) + [Command.Backtrack(session, objective, head)])
      ensures var batch := BacktrackEntries(old(Now()), session, objective, old(Now()).Budgets(session).Recovery(objective), head);
              entries == old(entries) + batch && Now() == FoldAll(old(Now()), batch)
    {
      hide Execute, Shape, Record.Valid, Replay.Project, BacktrackEntries, Fold;
      ghost var before := entries;
      StaleBacktrack(p, Now(), session, objective, r, head);
      RunShape(policy, commands);
      AbandonRecordable(Now(), session, objective, head);
      var abandoned := BacktrackEntries(p, session, objective, r, head);
      if abandoned != [] {
        var _ := Carry(abandoned, Command.Backtrack(session, objective, head));
      }
      NowAfter(before, abandoned);
    }

    lemma NowAfterOne(before: seq<Entry>, e: Entry)
      requires entries == before + [e]
      ensures Now() == Fold(Replay.Project(before), e)
    {
      hide Fold;
      OneEntry(before, e);
    }

    lemma NowAfter(before: seq<Entry>, batch: seq<Entry>)
      requires entries == before + batch
      ensures Now() == FoldAll(Replay.Project(before), batch)
    {
      hide Fold;
      FoldAllConcat(Empty, before, batch);
    }

    /** Attributes the bus actions to every open, reconciled recovery, against
        the projection read once at the start, and abandons the exhausted. */
    method Account(journal: seq<JournalEntry>)
      requires Valid() && Journal(journal)
      modifies this
      ensures Valid() && OnlyAccounts(old(commands), commands, journal)
      ensures AllSettled(Now(), journal)
      ensures forall s, o | Declared(old(Now()), s, o) :: AccountedAs(old(Now()), s, o, Now().Budgets(s).Recovery(o), journal)
      ensures old(AllSettled(Now(), journal)) ==> entries == old(entries)
    {
      hide Execute, Shape, Settled, Sound, Linkage.Linked, Replay.Project, Journal, Accounted, Sorted, OnlyAccounts, Fold, AccountedAs;
      var p := Project();
      var names := SortedSeq(p.sessions.Keys);
      ghost var done: set<(string, string)> := {};
      PassStarts(p, journal);
      NoneFurther(commands, journal);
      SortedIsDistinct(names);
      for i := 0 to |names|
        invariant Valid() && Accounted(p, Now(), journal, done) && OnlyAccounts(old(commands), commands, journal)
        invariant forall s, o :: (s, o) in done <==> Declared(p, s, o) && s in names[..i]
        invariant old(AllSettled(Now(), journal)) ==> entries == old(entries)
      {
        assert names[i] in p.sessions && names[i] !in names[..i];
        assert names[..i + 1] == names[..i] + [names[i]];
        ghost var earlier := commands;
        done := AccountSession(p, journal, names[i], done);
        AccountsOn(old(commands), earlier, commands, journal);
      }
      assert names[..|names|] == names;
      AllAccounted(p, Now(), journal, done);
    }

    method AccountSession(p: Projection, journal: seq<JournalEntry>, session: string, ghost was: set<(string, string)>)
      returns (ghost done: set<(string, string)>)
      requires Valid() && Journal(journal) && session in p.sessions && Accounted(p, Now(), journal, was)
      requires forall o :: (session, o) !in was
      modifies this
      ensures Valid() && Accounted(p, Now(), journal, done) && OnlyAccounts(old(commands), commands, journal)
      ensures forall s, o :: (s, o) in done <==> (s, o) in was || (s == session && Declared(p, s, o))
      ensures old(AllSettled(Now(), journal)) ==> entries == old(entries)
    {
      hide Execute, Shape, Settled, Replay.Project, Journal, Accounted, Sorted, OnlyAccounts, Fold, AccountedAs;
      var objectives := SortedSeq(p.sessions[session].recoveries.Keys);
      done := was;
      NoneFurther(commands, journal);
      SortedIsDistinct(objectives);
      for j := 0 to |objectives|
        invariant Valid() && Accounted(p, Now(), journal, done) && OnlyAccounts(old(commands), commands, journal)
        invariant forall s, o :: (s, o) in done <==> (s, o) in was || (s == session && o in objectives[..j])
        invariant old(AllSettled(Now(), journal)) ==> entries == old(entries)
      {
        var objective := objectives[j];
        assert Declared(p, session, objective) && objective !in objectives[..j];
        assert objectives[..j + 1] == objectives[..j] + [objective];
        ghost var q := Now();
        NotYet(p, q, journal, done, session, objective);
        ghost var earlier := commands;
        AccountRecovery(p, journal, session, objective);
        AccountsOn(old(commands), earlier, commands, journal);
        AccountedNext(p, q, Now(), journal, done, session, objective);
        done := done + {(session, objective)};
      }
      assert objectives[..|objectives|] == objectives;
    }

    // ---- Contests ----

    method Contest(ref: string, session: string, unit: string, attempt: string) returns (ok: bool)
      requires Valid()
      modifies this
      ensures Valid() && commands == old(commands) + [Command.Contest(ref, session, unit, attempt)]
      ensures var b := old(Now()).Budgets(session); var key := AttemptKey(unit, attempt);
              && (ok <==> unit != "" && session != "" && (key in b.contests || attempt != "")
                          && MayContest(policy, old(entries), b, session, unit, attempt))
              && Now().Budgets(session) == (if ok then b.(contests := b.contests + {key}) else b)
              && (key in b.contests ==> entries == old(entries))
      ensures OnlyAccounting(old(Now()), Now(), session)
    {
      hide Execute, ContestEntries, TerminalFailure, MayContest, Record.Valid, Shape, Replay.Project, AttemptKey, Fold, OnlyAccounting;
      var p := Project();
      var failed := FailedTerminally(session, unit, attempt);
      var batch := ContestEntries(policy, p.Budgets(session), failed, ref, session, unit, attempt);
      ghost var before := entries;
      ContestMeans(policy, entries, p.Budgets(session), session, unit, attempt);
      ContestEffect(policy, p, failed, ref, session, unit, attempt);
      AccountingSame(p, session);
      ok := Carry(batch, Command.Contest(ref, session, unit, attempt));
      if ok && batch != [] {
        NowAfterOne(before, batch[0]);
        ContestLeaves(p, batch[0]);
      }
      assert p.Budgets(session).(contests := p.Budgets(session).contests + {}) == p.Budgets(session);
      ok := ok && if batch == [] then unit != "" && session != "" else batch[0].kind.KindContested?;
    }

    method FailedTerminally(session: string, unit: string, attempt: string) returns (failed: bool)
      ensures failed <==> TerminalFailure(entries, session, unit, attempt)
    {
      hide FailedEntry;
      for i := 0 to |entries|
        invariant forall k | 0 <= k < i :: !FailedEntry(entries[k], session, unit, attempt)
      {
        if FailedEntry(entries[i], session, unit, attempt) {
          return true;
        }
      }
      return false;
    }

    // ---- Interlocutor ----

    method Switch(ref: string, root: string, child: string, agent: string, eligible: bool) returns (ok: bool)
      requires Valid()
      modifies this
      ensures Valid() && commands == old(commands) + [Command.Switch(ref, root, child, agent, eligible)]
      ensures var b := old(Now()).Budgets(root);
              && (ok <==> eligible && b.holder == "" && root != "" && child != "")
              && Now().Budgets(root) == if ok then b.(holder := child, holderAgent := agent) else b
    {
      hide Execute, SwitchEntry, Record.Valid, Shape, Replay.Project, Fold;
      var p := Project();
      var entry := DecideSwitch(p.Budgets(root), ref, root, child, agent, eligible);
      SwitchEffect(p, ref, root, child, agent, eligible);
      ok := CarryOne(entry, Command.Switch(ref, root, child, agent, eligible));
      ok := ok && !entry.kind.KindDenied?;
    }

    method Handoff(ref: string, root: string, caller: string, result: string) returns (ok: bool)
      requires Valid()
      modifies this
      ensures Valid() && commands == old(commands) + [Command.Handoff(ref, root, caller, result)]
      ensures var b := old(Now()).Budgets(root);
              && (ok <==> caller != "" && caller == b.holder)
              && Now().Budgets(root) == if ok then b.(holder := "", holderAgent := "") else b
    {
      hide Execute, HandoffEntry, Record.Valid, Shape, Replay.Project, Fold;
      var p := Project();
      var entry := DecideHandoff(p.Budgets(root), ref, root, caller, result);
      HandoffEffect(p, ref, root, caller, result);
      ok := CarryOne(entry, Command.Handoff(ref, root, caller, result));
      ok := ok && !entry.kind.KindDenied?;
    }

    method Abort(ref: string, root: string, child: string, origin: Origin) returns (ok: bool)
      requires Valid()
      modifies this
      ensures Valid() && commands == old(commands) + [Command.Abort(ref, root, child, origin)]
      ensures var b := old(Now()).Budgets(root);
              && (ok <==> !origin.OtherOrigin? && b.holder != "" && (child == "" || child == b.holder))
              && Now().Budgets(root) == if ok then b.(holder := "", holderAgent := "") else b
    {
      hide Execute, AbortEntry, Record.Valid, Shape, Replay.Project, Fold;
      var p := Project();
      var entry := DecideAbort(p.Budgets(root), ref, root, child, origin);
      AbortEffect(p, ref, root, child, origin);
      ok := CarryOne(entry, Command.Abort(ref, root, child, origin));
      ok := ok && !entry.kind.KindDenied?;
    }

    // ---- Executions ----

    /** The consumed results of a unit: exactly the ids, or explicitly none. */
    method DeclareInputs(session: string, unit: string, ids: seq<int>) returns (ok: bool)
      requires Valid()
      modifies this
      ensures Valid() && commands == old(commands) + [Command.DeclareInputs(session, unit, ids)]
      ensures ok <==> session != "" && unit != ""
      ensures ok ==> Now() == old(Now()).(inputs := old(Now()).inputs[UnitKey(session, unit) := ids])
      ensures !ok ==> entries == old(entries)
    {
      hide Execute, Record.Valid, Replay.Project, Fold;
      var entry := Blank.(author := Orchestrator, kind := KindInputs, session := session, unit := unit, resultIds := ids,
                          none := ids == [], cause := CauseNone);
      InputsEffect(Now(), entry);
      ok := CarryOne(entry, Command.DeclareInputs(session, unit, ids));
    }

    method RecordResult(entry: Entry) returns (ok: bool)
      requires Valid() && entry.kind.KindResult?
      modifies this
      ensures Valid() && commands == old(commands) + [Command.RecordResult(entry)]
      ensures ok <==> Record.Valid(entry)
      ensures var u, v := old(Now()).Unit(entry.session, entry.unit), Now().Unit(entry.session, entry.unit);
              v == if ok && ResultTakes(u, entry) then u.(assurance := Some(AssuranceOf(entry))) else u
      ensures OnlyUnit(old(Now()), Now(), entry.session, entry.unit)
      ensures !ok ==> entries == old(entries)
    {
      hide Execute, Record.Valid, Replay.Project, Fold;
      ResultEffect(Now(), entry);
      ok := CarryOne(entry, Command.RecordResult(entry));
    }

    /** Records the execution of a running attempt, once, with the seat it declares. */
    method Prepare(r: Request, caller: string, owner: string, now: int, model: string, seat: Option<Seat>) returns (ok: bool)
      requires Valid()
      modifies this
      ensures Valid() && commands == old(commands) + [Command.Prepare(r, caller, owner, now, model, seat)]
      ensures ok <==> !MayPrepare(old(Now()), r, caller, owner) || SeatFits(seat)
      ensures if MayPrepare(old(Now()), r, caller, owner) && SeatFits(seat) then Begun(old(Now()), Now(), r, caller, owner, now, model)
              else entries == old(entries)
    {
      hide Execute, PreparationEntries, Record.Valid, Shape, Replay.Project, MayPrepare, SeatFits, Begun, AllValid;
      var p := Project();
      ghost var before := entries;
      PreparationMeans(entries, r, caller, owner, now, model, seat);
      ok := Carry(PreparationEntries(p, r, caller, owner, now, model, seat), Command.Prepare(r, caller, owner, now, model, seat));
    }

    /** A fact is recorded only while that exact execution runs. */
    method Fact(d: Execution, kind: Kind, phase: string, ids: seq<int>) returns (ok: bool)
      requires Valid() && MarkKind(kind)
      modifies this
      ensures Valid() && commands == old(commands) + [Command.MarkExecution(d, kind, phase, ids)]
      ensures ok <==> && d.dispatch in old(Now()).executions
                      && var x := old(Now()).executions[d.dispatch]; !x.settled && x.root == d.root && x.unit == d.unit && x.attempt == d.attempt
      ensures ok ==> && d.dispatch in Now().executions && ExecutionIs(old(Now()), Now(), d.dispatch, Now().executions[d.dispatch])
                     && FactMarks(old(Now()).executions[d.dispatch], kind, phase, ids, Now().executions[d.dispatch])
      ensures !ok ==> entries == old(entries)
    {
      hide Execute, ExecutionFactEntry, Record.Valid, Shape, Replay.Project, Fold, FactMarks;
      ghost var c := Command.MarkExecution(d, kind, phase, ids);
      var p := Project();
      if !StillRuns(p, d) {
        Pass(c);
        return false;
      }
      FactRecordable(p, d, kind, "", phase, ids);
      FactLeaves(p, d, kind, phase, ids);
      ok := CarryOne(ExecutionFactEntry(d, kind, "", phase, ids), c);
    }

    /** The execution holding the dispatch, once the child is linked to it. */
    method AttachChild(dispatch: string, child: string, agent: string) returns (ok: bool)
      requires Valid()
      modifies this
      ensures Valid() && commands == old(commands) + [Command.AttachChild(dispatch, child, agent)]
      ensures ok <==> MayAttach(old(Now()), dispatch, child, agent)
      ensures ok ==> ExecutionIs(old(Now()), Now(), dispatch, old(Now()).executions[dispatch].(child := child))
      ensures ok && old(Now()).executions[dispatch].child == child ==> entries == old(entries)
      ensures !ok ==> entries == old(entries)
    {
      hide Execute, AttachEntries, Record.Valid, Shape, Replay.Project, Fold, ClaimedElsewhere;
      var p := Project();
      ghost var before := entries;
      var batch := DecideAttachment(p, dispatch, child, agent);
      AttachmentMeans(p, dispatch, child, agent);
      ok := Carry(batch, Command.AttachChild(dispatch, child, agent));
      if batch != [] {
        NowAfterOne(before, batch[0]);
        return true;
      }
      var d := ExecutionOf(p, dispatch);
      ok := !d.settled && d.agent == agent && (d.ready || d.cycle != "") && d.child == child != "";
      if ok { assert p.executions[dispatch := p.executions[dispatch]] == p.executions; }
    }

    method RenewLease(owner: string, now: int) returns (ok: bool)
      requires Valid()
      modifies this
      ensures Valid() && commands == old(commands) + [Command.RenewLease(owner, now)]
      ensures ok <==> owner != "" && now > 0
      ensures var last := if owner in old(Now()).leases then old(Now()).leases[owner] else 0;
              ok ==> Now() == old(Now()).(leases := old(Now()).leases[owner := if now > last then now else last])
      ensures !ok ==> entries == old(entries)
    {
      hide Execute, Record.Valid, Replay.Project, Fold;
      LeaseLeaves(Now(), owner, now);
      ok := CarryOne(Blank.(author := Harness, kind := KindLease, owner := owner, createdAt := now, cause := CauseNone), Command.RenewLease(owner, now));
    }

    // ---- Activities ----

    /** A repeat by the instance that captures the activity appends nothing; another
        instance takes the capture over. */
    method StartActivity(session: string, id: string, nodeKind: NodeKind, owner: string) returns (ok: bool)
      requires Valid()
      modifies this
      ensures Valid()
      ensures var p := old(Now());
              && (ok <==> session != "" && id != "" && (nodeKind == Direct || nodeKind == Maintenance)
                          && (id in p.activities ==> Recognized(p, session, id, nodeKind) && p.activities[id].state == StateInFlight))
              && (ok && id !in p.activities ==>
                    ActivityIs(p, Now(), id, Activity(id, session, nodeKind, StateInFlight, FlightRunning, NoOutcome, owner)))
              && (ok && id in p.activities && owner != "" && owner != p.activities[id].owner ==>
                    ActivityIs(p, Now(), id, p.activities[id].(owner := owner, flight := FlightRunning)))
              && (!ok || (id in p.activities && (owner == "" || owner == p.activities[id].owner)) ==> entries == old(entries))
    {
      hide Execute, StartEntry, Record.Valid, Shape, Replay.Project, Fold, Sound, Linkage.Linked;
      if session == "" || id == "" || (nodeKind != Direct && nodeKind != Maintenance) {
        return false;
      }
      var p := Project();
      if id in p.activities {
        var prior := p.activities[id];
        if prior.session != session || prior.nodeKind != nodeKind || prior.state != StateInFlight {
          return false;
        }
        if owner == "" || owner == prior.owner {
          return true;
        }
      }
      StartLeaves(p, session, id, nodeKind, owner);
      var e := StartEntry(session, id, nodeKind, owner);
      ok := CarryOne(e, Command.RecordActivity(e));
    }

    /** An activity ends once; a repeat of its outcome appends nothing. */
    method FinishActivity(session: string, id: string, nodeKind: NodeKind, outcome: Outcome) returns (ok: bool)
      requires Valid()
      modifies this
      ensures Valid()
      ensures var p := old(Now());
              && (ok ==> session != "" && id != "" && Recognized(p, session, id, nodeKind))
              && (session != "" && id != "" && Recognized(p, session, id, nodeKind) && p.activities[id].state == StateInFlight ==>
                    && (ok <==> (nodeKind == Direct || nodeKind == Maintenance) && outcome != NoOutcome && outcome != Backtracked)
                    && (ok ==> ActivityIs(p, Now(), id, p.activities[id].(state := StateSettled, flight := NoFlight, outcome := outcome))))
              && (session != "" && id != "" && Recognized(p, session, id, nodeKind) && p.activities[id].state == StateSettled ==>
                    (ok <==> p.activities[id].outcome == outcome) && entries == old(entries))
              && (!ok ==> entries == old(entries))
    {
      hide Execute, FinishEntry, Record.Valid, Shape, Replay.Project, Fold, Sound, Linkage.Linked;
      if session == "" || id == "" {
        return false;
      }
      var p := Project();
      if !Recognized(p, session, id, nodeKind) {
        return false;
      }
      if p.activities[id].state == StateSettled {
        return p.activities[id].outcome == outcome;
      }
      if nodeKind != Direct && nodeKind != Maintenance {
        return false;
      }
      ActivitiesEvolve(entries, 0);
      FinishLeaves(p, session, id, nodeKind, outcome);
      var e := FinishEntry(session, id, nodeKind, outcome);
      ok := CarryOne(e, Command.RecordActivity(e));
    }

    /** Lost capture leaves the activity in flight; a repeat, or a loss after the end,
        appends nothing. */
    method MarkActivityUnmonitored(session: string, id: string) returns (ok: bool)
      requires Valid()
      modifies this
      ensures Valid()
      ensures var p := old(Now());
              && (ok <==> session != "" && id != "" && Recognized(p, session, id, Direct))
              && (if ok && p.activities[id].state == StateInFlight && p.activities[id].flight != FlightUnmonitored
                  then ActivityIs(p, Now(), id, p.activities[id].(flight := FlightUnmonitored))
                  else entries == old(entries))
    {
      hide Execute, LostEntry, Record.Valid, Shape, Replay.Project, Fold, Sound, Linkage.Linked;
      if session == "" || id == "" {
        return false;
      }
      var p := Project();
      if !Recognized(p, session, id, Direct) {
        return false;
      }
      if p.activities[id].state == StateSettled || p.activities[id].flight == FlightUnmonitored {
        return true;
      }
      ActivitiesEvolve(entries, 0);
      LossLeaves(p, session, id);
      var e := LostEntry(session, id);
      ok := CarryOne(e, Command.RecordActivity(e));
    }

    method AttachMaintenance(root: string, cycle: string, role: Role, child: string, owner: string, now: int) returns (ok: bool)
      requires Valid()
      modifies this
      ensures Valid() && commands == old(commands) + [Command.AttachLane(root, cycle, role, child, owner, now)]
      ensures var p := old(Now()); var named := cycle != "" && root != "" && child != "" && role != NoRole;
              && (ok <==> named && (LaneRuns(p, cycle, role, child) || LaneOpen(p, cycle, role, child)))
              && (named && LaneOpen(p, cycle, role, child) <==> entries != old(entries))
              && (named && LaneOpen(p, cycle, role, child) ==> LaneOpened(p, Now(), root, cycle, role, child, owner, now))
    {
      hide Execute, LaneBlocked, LaneOpen, LaneRuns, NextAttempt, Record.Valid, Shape, Replay.Project, LaneServed, LaneOpened, Linkage.Linked, Sound, Fold;
      ghost var c := Command.AttachLane(root, cycle, role, child, owner, now);
      if cycle == "" || root == "" || child == "" || role == NoRole {
        Pass(c);
        return false;
      }
      var p := Project();
      LaneMeans(p, cycle, role, child);
      var blocked, attached := LaneStands(p, cycle, role, child);
      if blocked {
        Pass(c);
        return attached;
      }
      var unit := LaneUnit(cycle, role);
      var attempt := IssueAttempt(p, root, unit);
      var entry := Blank.(author := Harness, kind := KindLane, session := root, unit := unit, attempt := attempt,
                          dispatch := cycle + "/" + RoleText(role), agent := if role == Verifier then "verify" else "simplify",
                          caller := root, child := child, cycle := cycle, role := role, owner := owner, createdAt := now, cause := CauseNone);
      LaneRecordable(p, entry);
      LaneLeaves(p, entry);
      ok := CarryOne(entry, c);
    }

    /** The running execution of a child session: there is at most one, so the
        order the executions are visited in does not matter. */
    method ExecutionForChild(child: string, agent: string) returns (found: Option<Execution>)
      requires Valid()
      ensures found.Some? <==> child != "" && exists id :: ServesChild(Now(), id, child, agent)
      ensures found.Some? ==> ServesChild(Now(), found.value.dispatch, child, agent)
      ensures found.Some? ==> forall id | ServesChild(Now(), id, child, "") :: Now().executions[id] == found.value
    {
      hide Execute, Shape, Linkage.Linked, Sound;
      if child == "" {
        return None;
      }
      var p := Project();
      var unseen := p.executions.Keys;
      while unseen != {}
        invariant unseen <= p.executions.Keys
        invariant forall id | id in p.executions && id !in unseen :: !ServesChild(p, id, child, agent)
        decreases |unseen|
      {
        var id :| id in unseen;
        var d := p.executions[id];
        if !d.settled && d.child == child && (agent == "" || d.agent == agent) {
          assert ServesChild(p, id, child, agent);
          OnlyServer(id, child, agent);
          return Some(d);
        }
        unseen := unseen - {id};
      }
      return None;
    }

    lemma OnlyServer(id: string, child: string, agent: string)
      requires Valid() && child != "" && ServesChild(Now(), id, child, agent)
      ensures Now().executions[id].dispatch == id
      ensures forall other | ServesChild(Now(), other, child, "") :: other == id
    {
      hide Execute, Replay.Project, Fold;
      RunShape(policy, commands);
      forall other | ServesChild(Now(), other, child, "") ensures other == id {
        OneExecutionPerChild(policy, commands, id, other, child);
      }
    }
  }

  lemma DecisionNames(policy: Policy, p: Projection, ref: string, r: Request)
    ensures Decide(policy, p, ref, r).session == r.session && Decide(policy, p, ref, r).unit == r.unit
  {
  }
}
