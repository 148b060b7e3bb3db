/** The lent interface: turns are taken and given back strictly in alternation. */
module Interlocutor {
  import opened Record
  import opened Replay
  import opened Protocol
  import opened Licensing
  import opened Runs

  datatype Turn = Lent(session: string) | Returned(session: string)

  /** The recorded switches, handoffs and aborts of a root session, in order. */
  function Turns(history: seq<Entry>, root: string): seq<Turn> {
    if history == [] then []
    else
      var n := |history| - 1;
      Turns(history[..n], root) + TurnOf(history[n], root)
  }

  function TurnOf(e: Entry, root: string): seq<Turn> {
    if e.session != root then []
    else if e.kind.KindInterlocutorSwitched? then [Lent(e.unit)]
    else if e.kind.KindInterlocutorHandoff? || e.kind.KindInterlocutorAborted? then [Returned(e.unit)]
    else []
  }

  /** Switch, end, switch, end, …, each end naming the session it ends. */
  predicate Alternating(turns: seq<Turn>) {
    forall i | 0 <= i < |turns| ::
      && turns[i].session != ""
      && (turns[i].Lent? <==> i % 2 == 0)
      && (i % 2 == 1 ==> turns[i].session == turns[i - 1].session)
  }

  predicate HolderIs(turns: seq<Turn>, holder: string) {
    if |turns| % 2 == 1 then holder == turns[|turns| - 1].session else holder == ""
  }

  lemma TurnAlternates(turns: seq<Turn>, t: Turn)
    requires Alternating(turns) && t.session != ""
    requires if t.Lent? then HolderIs(turns, "") else HolderIs(turns, t.session)
    ensures Alternating(turns + [t]) && HolderIs(turns + [t], if t.Lent? then t.session else "")
  {
    var more := turns + [t];
    assert forall i | 0 <= i < |turns| :: more[i] == turns[i];
  }

  lemma HolderAfter(policy: Policy, p: Projection, e: Entry, root: string)
    requires Valid(e) && Licensed(policy, p, e)
    ensures var b, c := p.Budgets(root), Fold(p, e).Budgets(root);
            if TurnOf(e, root) == [] then c.holder == b.holder
            else
              && e.unit != ""
              && if e.kind.KindInterlocutorSwitched? then b.holder == "" && c.holder == e.unit
                 else b.holder == e.unit && c.holder == ""
  {
    hide Fold, Valid, Licensed, Budgeted, MovedSession, MovedUnits, MovedExecutions, FoldExecution;
    Lanes(e);
    if LifecycleKind(e) {
      FoldLife(p, e);
      MoveKeepsHolder(p, e);
    } else if BudgetKind(e.kind) {
      FoldBudget(p, e);
      TurnTaken(policy, p, e);
    } else if ExecutionKind(e.kind) {
      FoldExec(p, e);
    } else {
      FoldAct(p, e);
    }
  }

  lemma MoveKeepsHolder(p: Projection, e: Entry)
    ensures MovedSession(p, e).holder == p.Budgets(e.session).holder
  {
    hide Accepts, ScopeOf, RoundOf;
  }

  lemma TurnTaken(policy: Policy, p: Projection, e: Entry)
    requires BudgetKind(e.kind) && Valid(e) && Licensed(policy, p, e)
    ensures var b := p.Budgets(e.session); var c := Budgeted(b, e).value;
            && Budgeted(b, e).Some? && e.unit != ""
            && (if e.kind.KindInterlocutorSwitched? then b.holder == "" && c.holder == e.unit
                else if e.kind.KindInterlocutorHandoff? || e.kind.KindInterlocutorAborted? then b.holder == e.unit && c.holder == ""
                else c.holder == b.holder)
  {
  }

  lemma {:induction false} LicensedTurns(policy: Policy, history: seq<Entry>, root: string)
    requires LicensedHistory(policy, history)
    ensures Alternating(Turns(history, root)) && HolderIs(Turns(history, root), Project(history).Budgets(root).holder)
  {
    hide Fold, Licensed, Valid, Shape;
    if history != [] {
      var n := |history| - 1;
      var e := history[n];
      LastEntry(policy, history);
      LicensedTurns(policy, history[..n], root);
      HolderAfter(policy, Project(history[..n]), e, root);
      if TurnOf(e, root) == [] {
        assert Turns(history, root) == Turns(history[..n], root);
      } else {
        TurnAlternates(Turns(history[..n], root), TurnOf(e, root)[0]);
      }
    }
  }

  /** Over every run, a root session's recorded switches and ends alternate,
      starting with a switch; each end names the session of the switch it ends;
      and the holder shown is the session of an unended switch. */
  lemma TurnsAlternate(policy: Policy, commands: seq<Command>, root: string)
    ensures Alternating(Turns(Execute(policy, commands), root))
    ensures HolderIs(Turns(Execute(policy, commands), root), Reached(policy, commands).Budgets(root).holder)
  {
    RunIsLicensed(policy, commands);
    LicensedTurns(policy, Execute(policy, commands), root);
  }

  /** Only entry validation stands between an idle root and a handoff by no one:
      the decision itself lets the empty caller through. */
  lemma EmptyCallerNeedsValidation(b: Budgets, ref: string, root: string, result: string)
    requires b.holder == ""
    ensures HandoffEntry(b, ref, root, "", result).kind.KindInterlocutorHandoff?
    ensures !Valid(HandoffEntry(b, ref, root, "", result))
  {
  }
}
