/** How many frames each step loses, and exactly which steps lose none. */
module Losses {
  import opened Types
  import opened Frames
  import opened Ownership

  /** Enough frames for the parent's pages and a kernel stack. */
  predicate ForkFits(m: Mem)
    requires m.current.Some? && m.current.value < |m.spaces|
  {
    |m.free| >= |Mapped(m.spaces[m.current.value].table)| + KSTACK
  }

  /** The frames that no queue and no table names after the step. */
  function Lost(m: Mem, e: Event): nat
    requires m.current.Some? ==> m.current.value < |m.spaces|
  {
    if e.Fork? && m.current.Some? then if ForkFits(m) then 0 else |m.free|
    else if e.Exec? && m.current.Some? then
      var t := m.spaces[m.current.value].table;
      if |m.free| < 3 * |t| then |m.free|
      else 3 * |t| - PlannedPages(e.plan, 0, |t|) + Unchecked(t, e.checked)
    else 0
  }

  /** What a caller can check before the step: fork has the frames it needs, or there are none to lose. */
  predicate KeepsFrames(m: Mem, e: Event)
    requires m.current.Some? ==> m.current.value < |m.spaces|
  {
    match e
    case Fork => m.current.Some? ==> ForkFits(m) || m.free == []
    case Exec(_, _) => m.free == []
    case _ => true
  }

  // ------------------------------------------------------------------------ fork

  lemma ForkSucceeds(m: Mem)
    requires m.current.Some? && m.current.value < |m.spaces|
    ensures ForkFits(m) <==> |ForkStep(m).spaces| > |m.spaces|
    ensures !ForkFits(m) ==> ForkStep(m) == m.(free := [])
  {
    var t := m.spaces[m.current.value].table;
    CopyTakes(m.free, t, Unmapped(|t|), 0);
    assert t[0..] == t;
  }

  /** Emptying the queue loses exactly what was in it. */
  lemma DrainLoses(m: Mem)
    ensures Owned(m) == Owned(m.(free := [])) + multiset(m.free)
  {
    var m' := m.(free := []);
    assert Effective(m') == Effective(m);
    Reorder(multiset(m.free), Mapped(m.low), Total(Effective(m)));
    assert multiset(m'.free) == multiset{};
  }

  lemma Reorder(a: multiset<nat>, b: multiset<nat>, c: multiset<nat>)
    ensures a + b + c == (multiset{} + b + c) + a
  {
  }

  /** A failed fork loses every free frame of the system, and nothing else. */
  lemma FailedForkLosesAll(m: Mem)
    requires m.current.Some? && m.current.value < |m.spaces| && !ForkFits(m)
    ensures ForkStep(m).free == [] && Owned(m) == Owned(ForkStep(m)) + multiset(m.free)
    ensures Owned(ForkStep(m)) == Owned(m) <==> m.free == []
  {
    ForkSucceeds(m);
    DrainLoses(m);
    Emptied(Owned(m), Owned(ForkStep(m)), m.free);
  }

  lemma Emptied(o: multiset<nat>, o': multiset<nat>, free: seq<nat>)
    requires o == o' + multiset(free)
    ensures |o| == |o'| + |free|
    ensures o' == o <==> free == []
  {
    assert |o' + multiset(free)| == |o'| + |multiset(free)|;
  }

  // ------------------------------------------------------------------------ exec

  /** A failed exec loses every free frame too; a successful one loses three frames a page less the
      one each planned page uses, and the old pages that do not pass the memory check. */
  lemma FailedExecLosesAll(m: Mem, plan: Plan, checked: nat -> bool)
    requires m.current.Some? && m.current.value < |m.spaces|
    requires |m.free| < 3 * |m.spaces[m.current.value].table|
    ensures ExecStep(m, plan, checked) == m.(free := [])
    ensures Owned(m) == Owned(ExecStep(m, plan, checked)) + multiset(m.free)
  {
    var t := m.spaces[m.current.value].table;
    LoadTakesThree(m.free, plan, Unmapped(|t|), 0);
    DrainLoses(m);
  }

  lemma TableBalance(m: Mem, free: seq<nat>, t: seq<Pte>)
    requires m.current.Some? && m.current.value < |m.spaces|
    ensures |Owned(WithTable(m, free, t))| + |m.free| + |Mapped(m.spaces[m.current.value].table)|
         == |Owned(m)| + |free| + |Mapped(t)|
  {
    var p := m.current.value;
    var m', sp, was := WithTable(m, free, t), Space(t, m.stack), m.spaces[p].table;
    assert Effective(m') == Effective(m)[p := sp];
    OwnedAfter(m, m', p, sp);
    assert Effective(m)[p] == Space(was, m.stack);
    SizesAfter(Owned(m'), Owned(m), m.free, free, Mapped(was), Mapped(t), Mapped(m.stack));
  }

  lemma ExecTakes(free: seq<nat>, plan: Plan, n: nat)
    requires |free| >= 3 * n
    ensures var r := LoadTable(free, plan, Unmapped(n), 0);
            && r.ok && |r.free| + 3 * n == |free|
            && |Mapped(Executable(r.table, plan))| == PlannedPages(plan, 0, n)
  {
    var r := LoadTable(free, plan, Unmapped(n), 0);
    LoadTakesThree(free, plan, Unmapped(n), 0);
    UnmappedIsEmpty(Unmapped(n));
    SameFrames(Executable(r.table, plan), r.table);
  }

  lemma ExecCounts(m: Mem, plan: Plan, checked: nat -> bool)
    requires m.current.Some? && m.current.value < |m.spaces|
    requires |m.free| >= 3 * |m.spaces[m.current.value].table|
    ensures var t := m.spaces[m.current.value].table;
            |Owned(m)| == |Owned(ExecStep(m, plan, checked))|
              + 3 * |t| - PlannedPages(plan, 0, |t|) + Unchecked(t, checked)
  {
    var t := m.spaces[m.current.value].table;
    var r := LoadTable(m.free, plan, Unmapped(|t|), 0);
    ExecTakes(m.free, plan, |t|);
    ReleasedCount(t, checked);
    TableBalance(m, r.free + Released(t, checked), Executable(r.table, plan));
  }

  lemma SizesAfter(o': multiset<nat>, o: multiset<nat>, free: seq<nat>, free': seq<nat>,
                   t: multiset<nat>, t': multiset<nat>, k: multiset<nat>)
    requires o' + (multiset(free) + (t + k)) == o + (multiset(free') + (t' + k))
    ensures |o'| + |free| + |t| == |o| + |free'| + |t'|
  {
    assert |o' + (multiset(free) + (t + k))| == |o'| + (|free| + (|t| + |k|));
    assert |o + (multiset(free') + (t' + k))| == |o| + (|free'| + (|t'| + |k|));
  }

  // -------------------------------------------------------------------- every step

  /** Every step, by the number of frames it loses. */
  lemma StepLoses(m: Mem, e: Event)
    requires Formed(m) && Enabled(m, e)
    ensures |Owned(m)| == |Owned(Apply(m, e))| + Lost(m, e)
  {
    match e
    case Fork =>
      ForkSucceeds(m);
      assert Apply(m, e) == ForkStep(m);
      if ForkFits(m) {
        ForkAccounted(m);
      } else {
        FailedForkLosesAll(m);
        Emptied(Owned(m), Owned(ForkStep(m)), m.free);
      }
    case Exec(plan, checked) =>
      assert Apply(m, e) == ExecStep(m, plan, checked);
      if |m.free| < 3 * |m.spaces[m.current.value].table| {
        FailedExecLosesAll(m, plan, checked);
        Emptied(Owned(m), Owned(ExecStep(m, plan, checked)), m.free);
      } else {
        ExecCounts(m, plan, checked);
      }
    case _ => StepAccounted(m, e);
  }

  /** A successful exec loses at least two frames a page, so only an exec with nothing to lose loses nothing. */
  lemma LosesNothing(m: Mem, e: Event)
    requires Formed(m) && Enabled(m, e)
    ensures Lost(m, e) == 0 <==> KeepsFrames(m, e)
    ensures e.Exec? && |m.free| >= 3 * |m.spaces[m.current.value].table| ==>
              Lost(m, e) >= 2 * |m.spaces[m.current.value].table| > 0
  {
  }

  lemma SameSize(a: multiset<nat>, b: multiset<nat>)
    requires a <= b
    ensures a == b <==> |a| == |b|
  {
    assert b == a + (b - a);
    if |a| == |b| {
      assert |b - a| == 0;
      assert b - a == multiset{};
    }
  }

  /** The exact law for every step: all frames stay accounted for if and only if it is a fork that fits
      or any fork or exec on an empty queue, or a step of another kind. */
  lemma StepConserves(m: Mem, e: Event)
    requires Formed(m) && Enabled(m, e)
    ensures Owned(Apply(m, e)) == Owned(m) <==> KeepsFrames(m, e)
  {
    StepLoses(m, e);
    LosesNothing(m, e);
    StepAccounted(m, e);
    SameSize(Owned(Apply(m, e)), Owned(m));
  }
}
