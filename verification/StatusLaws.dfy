/** Laws of the status: the four conditions agree with each other, keep the time of their last flip over any
    history of reports, and do not change when nothing else does. */
module StatusLaws {
  import opened Options
  import opened Resolve
  import opened Status

  // ---- Lists of conditions ----

  lemma {:induction false} FindSet(cs: seq<Condition>, c: Condition, kind: ConditionType)
    ensures Find(SetCondition(cs, c), kind) ==
      if kind != c.kind then Find(cs, kind)
      else if Find(cs, kind).Some? && Find(cs, kind).value.holds == c.holds then Some(c.(since := Find(cs, kind).value.since))
      else Some(c)
  {
    if |cs| > 0 && cs[0].kind != c.kind { FindSet(cs[1..], c, kind); }
  }

  /** Setting a condition that is already there, at whatever time, changes nothing. */
  lemma {:induction false} SetAgain(cs: seq<Condition>, c: Condition)
    requires Find(cs, c.kind).Some? && Find(cs, c.kind).value == c.(since := Find(cs, c.kind).value.since)
    ensures SetCondition(cs, c) == cs
  {
    if cs[0].kind != c.kind { SetAgain(cs[1..], c); }
    assert cs == [cs[0]] + cs[1..];
  }

  /** One report: what a patchStatus call was given, and when. */
  datatype Report = Report(d: Desired, generation: nat, leftover: bool, ending: Ending, o: Observed, now: nat)

  function Apply(st: Status, r: Report): Status {
    NextStatus(st, r.d, r.generation, r.leftover, r.ending, r.o, r.now)
  }

  function Said(r: Report, kind: ConditionType): bool { Verdict(kind, r.leftover, r.ending, r.o).0 }

  /** Each condition of the new status: as judged, stamped now exactly when it is new or flips. */
  lemma ConditionAfter(st: Status, r: Report, kind: ConditionType)
    ensures var was, now := Find(st.conditions, kind), Find(Apply(st, r).conditions, kind);
            && now.Some? && now.value.kind == kind
            && now.value.holds == Said(r, kind)
            && now.value.reason == Verdict(kind, r.leftover, r.ending, r.o).1
            && now.value.generation == r.generation
            && now.value.since == if was.Some? && was.value.holds == Said(r, kind) then was.value.since else r.now
  {
    var c1 := SetCondition(st.conditions, NewCondition(DatabaseReady, r.generation, r.leftover, r.ending, r.o, r.now));
    var c2 := SetCondition(c1, NewCondition(Degraded, r.generation, r.leftover, r.ending, r.o, r.now));
    var c3 := SetCondition(c2, NewCondition(Progressing, r.generation, r.leftover, r.ending, r.o, r.now));
    FindSet(st.conditions, NewCondition(DatabaseReady, r.generation, r.leftover, r.ending, r.o, r.now), kind);
    FindSet(c1, NewCondition(Degraded, r.generation, r.leftover, r.ending, r.o, r.now), kind);
    FindSet(c2, NewCondition(Progressing, r.generation, r.leftover, r.ending, r.o, r.now), kind);
    FindSet(c3, NewCondition(Ready, r.generation, r.leftover, r.ending, r.o, r.now), kind);
    FindKind(st.conditions, kind);
  }

  lemma {:induction false} FindKind(cs: seq<Condition>, kind: ConditionType)
    ensures Find(cs, kind).Some? ==> Find(cs, kind).value.kind == kind
  {
    if |cs| > 0 { FindKind(cs[1..], kind); }
  }

  // ---- The four conditions agree ----

  predicate Holds(st: Status, kind: ConditionType) {
    Find(st.conditions, kind).Some? && Find(st.conditions, kind).value.holds
  }

  predicate Denied(st: Status, kind: ConditionType) {
    Find(st.conditions, kind).Some? && !Find(st.conditions, kind).value.holds
  }

  /** The conditions never contradict each other. */
  predicate Coherent(st: Status) {
    && (Holds(st, Ready) <==> Denied(st, Progressing))
    && (Denied(st, Ready) <==> Holds(st, Progressing))
    && (Holds(st, Ready) ==> Denied(st, Degraded) && Holds(st, DatabaseReady))
  }

  /** Whatever the status was before, the one reported is coherent, and Ready only when the reconcile succeeded,
      both workloads are up and no managed Postgres is left over. */
  lemma ReportIsCoherent(st: Status, r: Report)
    requires r.o.deploymentReady ==> !r.o.imagePull
    ensures Coherent(Apply(st, r))
    ensures Holds(Apply(st, r), Ready) <==>
      r.ending == Fine && r.o.deploymentReady && r.o.databaseReady && !r.leftover
    ensures Holds(Apply(st, r), Degraded) <==> r.leftover || r.ending != Fine || r.o.imagePull
  {
    ConditionAfter(st, r, Ready);
    ConditionAfter(st, r, Progressing);
    ConditionAfter(st, r, Degraded);
    ConditionAfter(st, r, DatabaseReady);
  }

  /** Without that guard the pair Ready and Degraded can hold together: deploymentReady supplies it. */
  lemma CoherentNeedsNoImagePull(st: Status, r: Report)
    ensures Coherent(Apply(st, r)) <==>
      !(r.ending == Fine && r.o.deploymentReady && r.o.databaseReady && !r.leftover && r.o.imagePull)
  {
    ConditionAfter(st, r, Ready);
    ConditionAfter(st, r, Progressing);
    ConditionAfter(st, r, Degraded);
    ConditionAfter(st, r, DatabaseReady);
  }

  // ---- Histories of reports ----

  function ApplyAll(st: Status, rs: seq<Report>): Status {
    if |rs| == 0 then st else Apply(ApplyAll(st, rs[..|rs| - 1]), rs[|rs| - 1])
  }

  /** What a condition says, if it is there. */
  function SaidBy(st: Status, kind: ConditionType): Option<bool> {
    if Find(st.conditions, kind).Some? then Some(Find(st.conditions, kind).value.holds) else None
  }

  /** What a condition said after the first `i` reports on a status that was `st`. */
  function SaidAfter(st: Status, rs: seq<Report>, kind: ConditionType, i: nat): Option<bool>
    requires i <= |rs|
  {
    if i == 0 then SaidBy(st, kind) else Some(Said(rs[i - 1], kind))
  }

  /** Report `i` is the last one at which the condition flipped or first appeared. */
  ghost predicate LastFlip(st: Status, rs: seq<Report>, kind: ConditionType, i: nat)
    requires i < |rs|
  {
    && SaidAfter(st, rs, kind, i) != SaidAfter(st, rs, kind, i + 1)
    && forall j :: i < j < |rs| ==> Said(rs[j], kind) == Said(rs[i], kind)
  }

  /** Every report says what the status said before the first. */
  ghost predicate NeverFlips(st: Status, rs: seq<Report>, kind: ConditionType) {
    SaidBy(st, kind).Some? && forall j :: 0 <= j < |rs| ==> Said(rs[j], kind) == SaidBy(st, kind).value
  }

  /** A report that says the same keeps the last flip; one that differs is the new last flip. */
  lemma FlipAfter(st: Status, front: seq<Report>, last: Report, kind: ConditionType, k: nat) returns (i: nat)
    requires k < |front| && LastFlip(st, front, kind, k)
    ensures i == if Said(last, kind) == Said(front[|front| - 1], kind) then k else |front|
    ensures LastFlip(st, front + [last], kind, i)
  {
    var rs := front + [last];
    assert forall j :: 0 <= j < |front| ==> rs[j] == front[j];
    assert Said(front[|front| - 1], kind) == Said(front[k], kind);
    i := if Said(last, kind) == Said(front[k], kind) then k else |front|;
  }

  /** One condition's own history: the time moves only with the status. */
  function Track(st: Status, rs: seq<Report>, kind: ConditionType): Option<Condition> {
    if |rs| == 0 then Find(st.conditions, kind)
    else
      var was, r := Track(st, rs[..|rs| - 1], kind), rs[|rs| - 1];
      Some(Condition(kind, Said(r, kind), Verdict(kind, r.leftover, r.ending, r.o).1,
                     if was.Some? && was.value.holds == Said(r, kind) then was.value.since else r.now, r.generation))
  }

  lemma {:induction false} Tracked(st: Status, rs: seq<Report>, kind: ConditionType)
    ensures Find(ApplyAll(st, rs).conditions, kind) == Track(st, rs, kind)
  {
    if rs != [] {
      Tracked(st, rs[..|rs| - 1], kind);
      ConditionAfter(ApplyAll(st, rs[..|rs| - 1]), rs[|rs| - 1], kind);
    }
  }

  lemma {:induction false} TrackedFlip(st: Status, rs: seq<Report>, kind: ConditionType) returns (i: Option<nat>)
    requires rs != []
    ensures Track(st, rs, kind).Some?
    ensures i.Some? ==> i.value < |rs| && LastFlip(st, rs, kind, i.value) && Track(st, rs, kind).value.since == rs[i.value].now
    ensures i.None? ==> NeverFlips(st, rs, kind) && Track(st, rs, kind).value.since == Find(st.conditions, kind).value.since
    ensures Track(st, rs, kind).value.holds == Said(rs[|rs| - 1], kind)
  {
    var front, last := rs[..|rs| - 1], rs[|rs| - 1];
    assert front + [last] == rs;
    if front == [] {
      i := if SaidBy(st, kind) == Some(Said(last, kind)) then None else Some(0);
    } else {
      i := TrackedFlip(st, front, kind);
      assert forall j :: 0 <= j < |front| ==> rs[j] == front[j];
      if i.Some? {
        var k := FlipAfter(st, front, last, kind, i.value);
        i := Some(k);
      } else if Said(last, kind) != Said(front[|front| - 1], kind) {
        i := Some(|front|);
      }
    }
  }

  /** LastTransitionTime, over every history and from any status to begin with: the time of the condition's last
      flip, or the time it had if it never flips. */
  lemma TransitionTimeIsLastFlip(st: Status, rs: seq<Report>, kind: ConditionType) returns (i: Option<nat>)
    requires rs != []
    ensures Find(ApplyAll(st, rs).conditions, kind).Some?
    ensures i.Some? ==> i.value < |rs| && LastFlip(st, rs, kind, i.value)
                        && Find(ApplyAll(st, rs).conditions, kind).value.since == rs[i.value].now
    ensures i.None? ==> NeverFlips(st, rs, kind)
                        && Find(ApplyAll(st, rs).conditions, kind).value.since == Find(st.conditions, kind).value.since
    ensures Find(ApplyAll(st, rs).conditions, kind).value.holds == Said(rs[|rs| - 1], kind)
  {
    Tracked(st, rs, kind);
    i := TrackedFlip(st, rs, kind);
  }

  /** Reporting the same findings again, at any later time, leaves the whole status as it is. */
  lemma ReportAgain(st: Status, r: Report, later: nat)
    ensures Apply(Apply(st, r), r.(now := later)) == Apply(st, r)
  {
    var after := Apply(st, r);
    ConditionAfter(st, r, DatabaseReady);
    ConditionAfter(st, r, Degraded);
    ConditionAfter(st, r, Progressing);
    ConditionAfter(st, r, Ready);
    SetAgain(after.conditions, NewCondition(DatabaseReady, r.generation, r.leftover, r.ending, r.o, later));
    SetAgain(after.conditions, NewCondition(Degraded, r.generation, r.leftover, r.ending, r.o, later));
    SetAgain(after.conditions, NewCondition(Progressing, r.generation, r.leftover, r.ending, r.o, later));
    SetAgain(after.conditions, NewCondition(Ready, r.generation, r.leftover, r.ending, r.o, later));
  }
}
