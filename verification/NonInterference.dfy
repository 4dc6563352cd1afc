/** Two instances in one namespace: each is a bystander to the other, and each runs as if it were alone. */
module NonInterference {
  import opened ObjectNames
  import opened Cluster
  import opened Plan
  import opened Machine
  import opened PlanLaws
  import opened Frames
  import opened Reach
  import opened Incarnations

  // ---- Objects stay under their owner's names ----

  lemma NextOwnsOwnNames(inst: Instance, s: Sys, l: Label)
    requires Sane(inst, s) && OwnsOwnNames(inst, s.store) && Enabled(inst, s, l)
    ensures OwnsOwnNames(inst, Next(inst, s, l).store)
  {
    var store' := Next(inst, s, l).store;
    forall k | Owned(store', k, inst.uid)
      ensures Generated(inst.name, k)
    {
      match l
      case Operate(i) => if !Generated(inst.name, k) { StepsAreGenerated(inst, s, i, k); }
      case Others(_) => assert Bystander(inst.name, inst.uid, k, At(s.store, k), At(store', k));
      case _ =>
    }
  }

  // ---- One instance's step is harmless to the other ----

  ghost predicate Apart(a: Instance, b: Instance) { a.name != b.name && a.uid != b.uid }

  lemma AnswerHarmless(uid: Uid, s: Slot, act: Action, lingers: bool, name: string, rival: Uid, k: Key)
    requires Writes(act) && Answer(uid, s, act, lingers).Done? && WellBorn(s) && uid != rival
    requires !Generated(name, k) && (s.obj.Some? ==> !ControlledBy(s.obj.value, rival))
    ensures Bystander(name, rival, k, s, Answer(uid, s, act, lingers).slot)
  {
  }

  /** What one operator does, the other may take for the work of bystanders. */
  lemma OperatorIsBystander(a: Instance, b: Instance, s: Sys, i: Input)
    requires Apart(a, b) && Sane(a, s) && OwnsOwnNames(b, s.store)
    ensures Bystanders(b, s.store, OperatorStep(a, s, i).store)
  {
    var store' := OperatorStep(a, s, i).store;
    forall k
      ensures Bystander(b.name, b.uid, k, At(s.store, k), At(store', k))
    {
      if At(store', k) == At(s.store, k) {
        BystanderReflexive(b.name, b.uid, k, At(s.store, k));
      } else {
        if !Busy(a, s) { OtherStepsKeepStore(a, s, i); }
        HarmlessOnKey(a, b, s, i, k);
      }
    }
  }

  lemma HarmlessOnKey(a: Instance, b: Instance, s: Sys, i: Input, k: Key)
    requires Apart(a, b) && Sane(a, s) && OwnsOwnNames(b, s.store) && Busy(a, s)
    requires At(OperatorStep(a, s, i).store, k) != At(s.store, k)
    ensures Bystander(b.name, b.uid, k, At(s.store, k), At(OperatorStep(a, s, i).store, k))
  {
    StepEffect(a, s, i);
    WriteKeyGenerated(a.name, Current(s));
    if Generated(b.name, k) { GeneratedDisjoint(a.name, b.name, k); }
    AnswerHarmless(a.uid, At(s.store, k), CurrentAction(a, s, i), i.lingers, b.name, b.uid, k);
  }

  // ---- The two together ----

  datatype Turn = First(move: Label) | Second(move: Label)

  /** Both see one store. */
  datatype Pair = Pair(first: Sys, second: Sys)

  ghost function TurnStep(a: Instance, b: Instance, p: Pair, turn: Turn): Pair {
    match turn
    case First(l) => var s := Next(a, p.first, l); Pair(s, p.second.(store := s.store))
    case Second(l) => var s := Next(b, p.second, l); Pair(p.first.(store := s.store), s)
  }

  /** Begin, Operate, Crash and Edit, of either; others do not take part. */
  ghost predicate TurnEnabled(a: Instance, b: Instance, p: Pair, turn: Turn) {
    !turn.move.Others? && if turn.First? then Enabled(a, p.first, turn.move) else Enabled(b, p.second, turn.move)
  }

  ghost function Together(a: Instance, b: Instance, p: Pair, turns: seq<Turn>): Pair
    decreases |turns|
  {
    if |turns| == 0 then p else TurnStep(a, b, Together(a, b, p, turns[..|turns| - 1]), turns[|turns| - 1])
  }

  ghost predicate TogetherPossible(a: Instance, b: Instance, p: Pair, turns: seq<Turn>)
    decreases |turns|
  {
    |turns| == 0
    || (TogetherPossible(a, b, p, turns[..|turns| - 1])
        && TurnEnabled(a, b, Together(a, b, p, turns[..|turns| - 1]), turns[|turns| - 1]))
  }

  ghost predicate Start(a: Instance, b: Instance, p: Pair) {
    Apart(a, b) && Initial(a, p.first) && Initial(b, p.second) && p.first.store == p.second.store
  }

  /** What holds of both at any time. */
  ghost predicate Peace(a: Instance, b: Instance, p: Pair) {
    && p.first.store == p.second.store
    && Sane(a, p.first) && Sane(b, p.second) && OwnsOwnNames(a, p.first.store) && OwnsOwnNames(b, p.first.store)
  }

  lemma FirstTurn(a: Instance, b: Instance, s: Sys, t: Sys, l: Label)
    requires Apart(a, b) && s.store == t.store && Sane(a, s) && Sane(b, t)
    requires OwnsOwnNames(a, s.store) && OwnsOwnNames(b, s.store) && Enabled(a, s, l) && !l.Others?
    ensures Enabled(b, t, Others(Next(a, s, l).store))
    ensures Peace(a, b, Pair(Next(a, s, l), t.(store := Next(a, s, l).store)))
  {
    var store' := Next(a, s, l).store;
    if l.Operate? {
      OperatorIsBystander(a, b, s, l.input);
    } else {
      forall k
        ensures Bystander(b.name, b.uid, k, At(s.store, k), At(store', k))
      {
        BystanderReflexive(b.name, b.uid, k, At(s.store, k));
      }
    }
    SaneNext(a, s, l);
    SaneNext(b, t, Others(store'));
    NextOwnsOwnNames(a, s, l);
    NextOwnsOwnNames(b, t, Others(store'));
  }

  /** An Others label for what the other instance's turn did, or the turn itself. */
  ghost function SeenBy(p': Pair, turn: Turn, first: bool): Label {
    if turn.First? == first then turn.move else Others(if first then p'.first.store else p'.second.store)
  }

  /** A turn is a move of each machine. */
  lemma TurnIsSeen(a: Instance, b: Instance, q: Pair, turn: Turn, q': Pair)
    requires Apart(a, b) && Peace(a, b, q) && TurnEnabled(a, b, q, turn) && q' == TurnStep(a, b, q, turn)
    ensures Enabled(a, q.first, SeenBy(q', turn, true)) && q'.first == Next(a, q.first, SeenBy(q', turn, true))
    ensures Enabled(b, q.second, SeenBy(q', turn, false)) && q'.second == Next(b, q.second, SeenBy(q', turn, false))
    ensures Peace(a, b, q')
  {
    if turn.First? {
      FirstTurn(a, b, q.first, q.second, turn.move);
    } else {
      FirstTurn(b, a, q.second, q.first, turn.move);
    }
  }

  lemma RunOneMore(inst: Instance, s0: Sys, ls: seq<Label>, l: Label)
    requires Possible(inst, s0, ls) && Enabled(inst, RunTo(inst, s0, ls), l)
    ensures Possible(inst, s0, ls + [l]) && RunTo(inst, s0, ls + [l]) == Next(inst, RunTo(inst, s0, ls), l)
  {
    assert (ls + [l])[..|ls + [l]| - 1] == ls;
  }

  /** Whatever the two do, in any interleaving, each one's part is a run of its own machine: every result about one
      instance holds for each of two. */
  lemma {:induction false} EachRunsItsMachine(a: Instance, b: Instance, p: Pair, turns: seq<Turn>)
    returns (ls: seq<Label>, ms: seq<Label>)
    requires Start(a, b, p) && TogetherPossible(a, b, p, turns)
    ensures Possible(a, p.first, ls) && Together(a, b, p, turns).first == RunTo(a, p.first, ls)
    ensures Possible(b, p.second, ms) && Together(a, b, p, turns).second == RunTo(b, p.second, ms)
    ensures Peace(a, b, Together(a, b, p, turns))
    decreases |turns|
  {
    ls, ms := [], [];
    if turns != [] {
      var front, turn := turns[..|turns| - 1], turns[|turns| - 1];
      var q, q' := Together(a, b, p, front), Together(a, b, p, turns);
      ls, ms := EachRunsItsMachine(a, b, p, front);
      TurnIsSeen(a, b, q, turn, q');
      RunOneMore(a, p.first, ls, SeenBy(q', turn, true));
      RunOneMore(b, p.second, ms, SeenBy(q', turn, false));
      ls, ms := ls + [SeenBy(q', turn, true)], ms + [SeenBy(q', turn, false)];
    }
  }
}
