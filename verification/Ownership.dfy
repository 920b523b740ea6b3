/** No frame is ever used twice, whatever steps the kernel takes, failed ones included. */
module Ownership {
  import opened Types
  import opened Frames

  /** Each step gives out and takes back only frames it owns; all but exec and failed forks lose none. */
  ghost predicate Accounted(m: Mem, m': Mem, exact: bool) {
    Owned(m') <= Owned(m) && (exact ==> Owned(m') == Owned(m))
  }

  /** Where p's kernel stack is, running or not. */
  function Home(m: Mem, p: nat): seq<Pte>
    requires p < |m.spaces|
  {
    Effective(m)[p].kstack
  }

  ghost predicate SameHomes(m: Mem, m': Mem) {
    |m.spaces| <= |m'.spaces| &&
    forall p :: 0 <= p < |m.spaces| && Alive(m, p) && Alive(m', p) ==> Home(m', p) == Home(m, p)
  }

  lemma Sum3(a: multiset<nat>, b: multiset<nat>, c: multiset<nat>, a': multiset<nat>, b': multiset<nat>)
    requires a' + b' == a + b
    ensures a' + b' + c == a + b + c && a' + c + b' == a + c + b
  {
    assert a' + c + b' == (a' + b') + c;
    assert a + c + b == (a + b) + c;
  }

  // --------------------------------------------------------------- kernel heap

  lemma HeapAccounted(m: Mem, first: nat, end: nat)
    requires Formed(m) && end <= |m.low| - KSTACK
    ensures Accounted(m, HeapStep(m, first, end), true)
  {
    FillUpConserves(m.free, m.low, first, end - 1);
    var r := FillUp(m.free, m.low, first, end - 1);
    var m' := m.(free := r.free, low := r.table);
    assert Effective(m') == Effective(m);
    assert m' == HeapStep(m, first, end);
    assert Owned(m') == multiset(r.free) + Mapped(r.table) + Total(Effective(m));
    Sum3(multiset(m.free), Mapped(m.low), Total(Effective(m)), multiset(r.free), Mapped(r.table));
  }

  lemma HeapFormed(m: Mem, first: nat, end: nat)
    requires Formed(m) && end <= |m.low| - KSTACK
    ensures var m' := HeapStep(m, first, end); Formed(m') && SameHomes(m, m')
  {
    FillUpFills(m.free, m.low, first, end - 1);
    var r := FillUp(m.free, m.low, first, end - 1);
    var m' := m.(free := r.free, low := r.table);
    assert Effective(m') == Effective(m);
    assert forall p :: Alive(m', p) <==> Alive(m, p);
  }

  // ------------------------------------------------------------ a table changes

  lemma LeakAccounted(m: Mem, free: seq<nat>)
    requires multiset(free) <= multiset(m.free)
    ensures Accounted(m, m.(free := free), false)
  {
    assert Effective(m.(free := free)) == Effective(m);
  }

  /** Frames that leave the queue are in the table, and the other way round. */
  ghost predicate Traded(m: Mem, free: seq<nat>, t: seq<Pte>, exact: bool)
    requires m.current.Some? && m.current.value < |m.spaces|
  {
    var now, was := multiset(free) + Mapped(t), multiset(m.free) + Mapped(m.spaces[m.current.value].table);
    now <= was && (exact ==> now == was)
  }

  lemma TableAccounted(m: Mem, free: seq<nat>, t: seq<Pte>, exact: bool)
    requires m.current.Some? && m.current.value < |m.spaces| && Traded(m, free, t, exact)
    ensures Accounted(m, WithTable(m, free, t), exact)
  {
    var p := m.current.value;
    var m', sp, was, k := WithTable(m, free, t), Space(t, m.stack), m.spaces[p].table, Mapped(m.stack);
    assert Effective(m') == Effective(m)[p := sp];
    OwnedAfter(m, m', p, sp);
    assert FramesOf(Effective(m)[p]) == Mapped(was) + k;
    AddStack(multiset(free), Mapped(t), multiset(m.free), Mapped(was), k, exact);
    Balanced(Owned(m'), Owned(m), multiset(m.free) + (Mapped(was) + k), multiset(free) + (Mapped(t) + k));
  }

  lemma AddStack(a: multiset<nat>, b: multiset<nat>, c: multiset<nat>, d: multiset<nat>, k: multiset<nat>, exact: bool)
    requires a + b <= c + d && (exact ==> a + b == c + d)
    ensures a + (b + k) <= c + (d + k) && (exact ==> a + (b + k) == c + (d + k))
  {
    assert a + (b + k) == (a + b) + k && c + (d + k) == (c + d) + k;
  }

  lemma TableFormed(m: Mem, free: seq<nat>, t: seq<Pte>)
    requires Formed(m) && m.current.Some? && |t| == |m.low| + KSTACK
    ensures var m' := WithTable(m, free, t); Formed(m') && SameHomes(m, m')
  {
    var p := m.current.value;
    var m' := WithTable(m, free, t);
    assert Effective(m') == Effective(m)[p := Space(t, m.stack)];
    assert forall q :: Alive(m', q) <==> Alive(m, q);
  }

  // ---------------------------------------------------------------- a new process

  lemma TwoFrames(a: nat, b: nat)
    ensures Mapped([Fresh(a), Fresh(b)]) == multiset{a, b}
  {
    var t := [Fresh(a), Fresh(b)];
    assert t[..1] == [Fresh(a)] && t[..1][..0] == [];
    assert Mapped(t[..1]) == multiset{a};
  }

  lemma BornOwned(m: Mem, free: seq<nat>, t: seq<Pte>)
    requires |free| >= 2 && m.current.Some? && m.current.value < |m.spaces|
    ensures Owned(Born(m, free, t))
         == multiset(free[2..]) + Mapped(m.low) + (Total(Effective(m)) + (Mapped(t) + multiset{free[0], free[1]}))
  {
    var m', sp := Born(m, free, t), Space(t, [Fresh(free[0]), Fresh(free[1])]);
    assert Effective(m') == Effective(m) + [sp];
    assert Effective(m')[..|m.spaces|] == Effective(m);
    assert Total(Effective(m')) == Total(Effective(m)) + FramesOf(sp);
    TwoFrames(free[0], free[1]);
  }

  lemma FirstTwo(free: seq<nat>)
    requires |free| >= 2
    ensures multiset(free) == multiset{free[0], free[1]} + multiset(free[2..])
  {
    assert free == [free[0], free[1]] + free[2..];
  }

  lemma BornAccounted(m: Mem, free: seq<nat>, t: seq<Pte>)
    requires |free| >= 2 && m.current.Some? && m.current.value < |m.spaces|
    requires multiset(free) + Mapped(t) == multiset(m.free)
    ensures Accounted(m, Born(m, free, t), true)
  {
    BornOwned(m, free, t);
    FirstTwo(free);
    NewPart(multiset(free[2..]), Mapped(m.low), Total(Effective(m)), Mapped(t), multiset{free[0], free[1]},
            multiset(m.free));
    assert Owned(Born(m, free, t)) == Owned(m);
  }

  lemma NewPart(rest: multiset<nat>, low: multiset<nat>, total: multiset<nat>, t: multiset<nat>, k: multiset<nat>,
                free: multiset<nat>)
    requires (k + rest) + t == free
    ensures rest + low + (total + (t + k)) == free + low + total
  {
    assert rest + low + (total + (t + k)) == (k + rest) + t + low + total;
  }

  lemma BornFormed(m: Mem, free: seq<nat>, t: seq<Pte>)
    requires Formed(m) && |free| >= 2 && |t| == |m.low| + KSTACK && m.current.Some?
    ensures var m' := Born(m, free, t); Formed(m') && SameHomes(m, m')
  {
    var m', sp := Born(m, free, t), Space(t, [Fresh(free[0]), Fresh(free[1])]);
    assert Effective(m') == Effective(m) + [sp];
    assert forall q :: 0 <= q < |m.spaces| ==> m'.spaces[q] == m.spaces[q];
  }

  lemma {:induction false} UnmappedIsEmpty(t: seq<Pte>)
    requires forall i :: 0 <= i < |t| ==> !t[i].valid
    ensures Mapped(t) == multiset{}
  {
    if t != [] {
      UnmappedIsEmpty(t[..|t| - 1]);
    }
  }

  lemma IdleTrades(free: seq<nat>, n: nat)
    requires free != [] && n > 0
    ensures multiset(free[1..]) + Mapped(Unmapped(n)[n - 1 := Fresh(free[0])]) == multiset(free)
  {
    UnmappedIsEmpty(Unmapped(n));
    TakeFrame(free, Unmapped(n), n - 1, READ + WRITE);
  }

  lemma IdleAccounted(m: Mem)
    requires |m.free| >= 3 && m.current.Some? && m.current.value < |m.spaces|
    ensures Accounted(m, IdleStep(m), true)
  {
    var n := |m.low| + KSTACK;
    IdleTrades(m.free, n);
    BornAccounted(m, m.free[1..], Unmapped(n)[n - 1 := Fresh(m.free[0])]);
  }

  lemma CopyIsExact(free: seq<nat>, src: seq<Pte>)
    ensures var r := CopyTable(free, src, Unmapped(|src|), 0);
            multiset(r.free) + Mapped(r.table) == multiset(free)
  {
    CopyConserves(free, src, Unmapped(|src|), 0);
    UnmappedIsEmpty(Unmapped(|src|));
  }

  lemma ForkAccounted(m: Mem)
    requires m.current.Some? && m.current.value < |m.spaces|
    ensures Accounted(m, ForkStep(m), |ForkStep(m).spaces| > |m.spaces|)
  {
    var t := m.spaces[m.current.value].table;
    var r := CopyTable(m.free, t, Unmapped(|t|), 0);
    CopyIsExact(m.free, t);
    if !r.ok {
      LeakAccounted(m, r.free);
    } else if |r.free| < 2 {
      LeakAccounted(m, []);
    } else {
      BornAccounted(m, r.free, r.table);
    }
  }

  lemma ForkFormed(m: Mem)
    requires Formed(m) && m.current.Some?
    ensures Formed(ForkStep(m)) && SameHomes(m, ForkStep(m))
  {
    var t := m.spaces[m.current.value].table;
    var r := CopyTable(m.free, t, Unmapped(|t|), 0);
    if r.ok && |r.free| >= 2 {
      BornFormed(m, r.free, r.table);
    } else {
      var m' := ForkStep(m);
      assert Effective(m') == Effective(m);
      assert forall q :: Alive(m', q) <==> Alive(m, q);
    }
  }

  // ----------------------------------------------------------------------- exec

  lemma LoadIsBounded(free: seq<nat>, plan: Plan, n: nat)
    ensures var r := LoadTable(free, plan, Unmapped(n), 0);
            multiset(r.free) + Mapped(Executable(r.table, plan)) <= multiset(free)
  {
    var r := LoadTable(free, plan, Unmapped(n), 0);
    LoadShrinks(free, plan, Unmapped(n), 0);
    UnmappedIsEmpty(Unmapped(n));
    SameFrames(Executable(r.table, plan), r.table);
    NothingAdded(multiset(free), Mapped(Unmapped(n)));
  }

  lemma NothingAdded(a: multiset<nat>, b: multiset<nat>)
    requires b == multiset{}
    ensures a + b == a
  {
  }

  lemma ExecAccounted(m: Mem, plan: Plan, checked: nat -> bool)
    requires m.current.Some? && m.current.value < |m.spaces|
    ensures Accounted(m, ExecStep(m, plan, checked), false)
  {
    var t := m.spaces[m.current.value].table;
    var r := LoadTable(m.free, plan, Unmapped(|t|), 0);
    LoadIsBounded(m.free, plan, |t|);
    if !r.ok {
      LeakAccounted(m, r.free);
    } else {
      var text, back := Executable(r.table, plan), Released(t, checked);
      ReleasedSome(t, checked);
      assert multiset(r.free + back) + Mapped(text) == (multiset(r.free) + Mapped(text)) + multiset(back);
      TableAccounted(m, r.free + back, text, false);
    }
  }

  lemma ExecFormed(m: Mem, plan: Plan, checked: nat -> bool)
    requires Formed(m) && m.current.Some?
    ensures Formed(ExecStep(m, plan, checked)) && SameHomes(m, ExecStep(m, plan, checked))
  {
    var t := m.spaces[m.current.value].table;
    var r := LoadTable(m.free, plan, Unmapped(|t|), 0);
    if r.ok {
      TableFormed(m, r.free + Released(t, checked), Executable(r.table, plan));
    } else {
      var m' := m.(free := r.free);
      assert Effective(m') == Effective(m);
      assert forall q :: Alive(m', q) <==> Alive(m, q);
    }
  }

  // ------------------------------------------------------------- exit and switching

  /** Exit gives back each frame of the process once: the saved stack entries are the true ones. */
  lemma ExitFrees(m: Mem)
    requires Formed(m) && Enabled(m, Exit)
    ensures multiset(ExitStep(m).free) == multiset(m.free) + FramesOf(Effective(m)[m.current.value])
  {
    var sp := m.spaces[m.current.value];
    ReleasedAll(sp.table);
    ReleasedAll(sp.kstack);
    assert Effective(m)[m.current.value] == sp;
    var a, b := Released(sp.table, ALL), Released(sp.kstack, ALL);
    assert multiset(m.free + a + b) == multiset(m.free) + (multiset(a) + multiset(b));
  }

  /** Until the next switch the kernel still runs on a stack whose frames are free again. */
  lemma ExitLeavesTheStackFree(m: Mem)
    requires Formed(m) && Enabled(m, Exit)
    ensures var m' := ExitStep(m); m'.stack == m.stack && Mapped(m'.stack) <= multiset(m'.free)
  {
    ExitFrees(m);
    assert Effective(m)[m.current.value].kstack == m.stack;
  }

  lemma ExitAccounted(m: Mem)
    requires Formed(m) && Enabled(m, Exit)
    ensures Accounted(m, ExitStep(m), true)
  {
    var p, m' := m.current.value, ExitStep(m);
    ExitFrees(m);
    assert Effective(m') == Effective(m)[p := DEAD];
    OwnedAfter(m, m', p, DEAD);
    var gone := FramesOf(Effective(m)[p]);
    assert FramesOf(DEAD) == multiset{};
    assert multiset(m'.free) + multiset{} == multiset(m.free) + gone;
    Balanced(Owned(m'), Owned(m), multiset(m.free) + gone, multiset(m'.free) + multiset{});
  }

  lemma ExitFormed(m: Mem)
    requires Formed(m) && Enabled(m, Exit)
    ensures Formed(ExitStep(m)) && SameHomes(m, ExitStep(m))
  {
    var p := m.current.value;
    var m' := ExitStep(m);
    assert Effective(m)[p] == m.spaces[p];
    assert Effective(m') == Effective(m)[p := DEAD];
  }

  lemma SwitchKept(m: Mem, next: nat)
    requires Formed(m) && Alive(m, next)
    ensures var m' := SwitchStep(m, next); Accounted(m, m', true) && Formed(m') && SameHomes(m, m')
  {
    var m' := SwitchStep(m, next);
    assert Effective(m') == Effective(m);
    assert forall p :: 0 <= p < |m.spaces| ==> (Alive(m', p) <==> Alive(m, p));
  }

  // --------------------------------------------------------------------- any step

  lemma TableExact(m: Mem, free: seq<nat>, t: seq<Pte>)
    requires m.current.Some? && m.current.value < |m.spaces|
    requires multiset(free) + Mapped(t) == multiset(m.free) + Mapped(m.spaces[m.current.value].table)
    ensures Accounted(m, WithTable(m, free, t), true)
  {
    TableAccounted(m, free, t, true);
  }

  lemma BrkAccounted(m: Mem, first: nat, last: nat)
    requires m.current.Some? && m.current.value < |m.spaces| && last < |m.spaces[m.current.value].table|
    ensures Accounted(m, BrkStep(m, first, last), true)
  {
    var t := m.spaces[m.current.value].table;
    FillUpConserves(m.free, t, first, last);
    var r := FillUp(m.free, t, first, last);
    TableExact(m, r.free, r.table);
  }

  lemma GrowAccounted(m: Mem, last: nat)
    requires m.current.Some? && m.current.value < |m.spaces|
    ensures Accounted(m, GrowStep(m, last), true)
  {
    var t := m.spaces[m.current.value].table;
    FillDownConserves(m.free, t, |t| - 1, last);
    var r := FillDown(m.free, t, |t| - 1, last);
    TableExact(m, r.free, r.table);
  }

  lemma StepAccounted(m: Mem, e: Event)
    requires Formed(m) && Enabled(m, e)
    ensures Accounted(m, Apply(m, e), !e.Fork? && !e.Exec?)
  {
    match e
    case ExpandHeap(first, end) =>
      HeapAccounted(m, first, end);
      assert Apply(m, e) == HeapStep(m, first, end);
    case SpawnIdle =>
      IdleAccounted(m);
      assert Apply(m, e) == IdleStep(m);
    case Fork =>
      ForkAccounted(m);
      assert Apply(m, e) == ForkStep(m);
    case Brk(first, last) =>
      BrkAccounted(m, first, last);
      assert Apply(m, e) == BrkStep(m, first, last);
    case GrowStack(last) =>
      GrowAccounted(m, last);
      assert Apply(m, e) == GrowStep(m, last);
    case Exec(plan, checked) =>
      ExecAccounted(m, plan, checked);
      assert Apply(m, e) == ExecStep(m, plan, checked);
    case Exit =>
      ExitAccounted(m);
      assert Apply(m, e) == ExitStep(m);
    case Switch(next) =>
      SwitchKept(m, next);
      assert Apply(m, e) == SwitchStep(m, next);
  }

  lemma IdleFormed(m: Mem)
    requires Formed(m) && |m.free| >= 3 && m.current.Some?
    ensures Formed(IdleStep(m)) && SameHomes(m, IdleStep(m))
  {
    var n := |m.low| + KSTACK;
    BornFormed(m, m.free[1..], Unmapped(n)[n - 1 := Fresh(m.free[0])]);
  }

  lemma BrkFormed(m: Mem, first: nat, last: nat)
    requires Formed(m) && m.current.Some? && last < |m.low| + KSTACK
    ensures Formed(BrkStep(m, first, last)) && SameHomes(m, BrkStep(m, first, last))
  {
    var r := FillUp(m.free, m.spaces[m.current.value].table, first, last);
    TableFormed(m, r.free, r.table);
  }

  lemma GrowFormed(m: Mem, last: nat)
    requires Formed(m) && m.current.Some?
    ensures Formed(GrowStep(m, last)) && SameHomes(m, GrowStep(m, last))
  {
    var t := m.spaces[m.current.value].table;
    var r := FillDown(m.free, t, |t| - 1, last);
    TableFormed(m, r.free, r.table);
  }

  lemma StepFormed(m: Mem, e: Event)
    requires Formed(m) && Enabled(m, e)
    ensures Formed(Apply(m, e)) && SameHomes(m, Apply(m, e))
  {
    match e
    case ExpandHeap(first, end) =>
      HeapFormed(m, first, end);
      assert Apply(m, e) == HeapStep(m, first, end);
    case SpawnIdle =>
      IdleFormed(m);
      assert Apply(m, e) == IdleStep(m);
    case Fork =>
      ForkFormed(m);
      assert Apply(m, e) == ForkStep(m);
    case Brk(first, last) =>
      BrkFormed(m, first, last);
      assert Apply(m, e) == BrkStep(m, first, last);
    case GrowStack(last) =>
      GrowFormed(m, last);
      assert Apply(m, e) == GrowStep(m, last);
    case Exec(plan, checked) =>
      ExecFormed(m, plan, checked);
      assert Apply(m, e) == ExecStep(m, plan, checked);
    case Exit =>
      ExitFormed(m);
      assert Apply(m, e) == ExitStep(m);
    case Switch(next) =>
      SwitchKept(m, next);
      assert Apply(m, e) == SwitchStep(m, next);
  }

  /** From a state in which no frame is shared, no step shares one, and no step invents one. */
  lemma StepKeepsInv(m: Mem, e: Event)
    requires Inv(m) && Enabled(m, e)
    ensures Inv(Apply(m, e)) && Owned(Apply(m, e)) <= Owned(m)
    ensures SameHomes(m, Apply(m, e))
  {
    var m' := Apply(m, e);
    StepAccounted(m, e);
    StepFormed(m, e);
    forall f ensures Owned(m')[f] <= 1 {
      assert Owned(m')[f] <= Owned(m)[f] <= 1;
    }
  }
}
