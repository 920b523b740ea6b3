/**
 * Runs from boot, on every machine and for every program, in which frames are lost and in which one is used
 * twice. All begin as the kernel does: idle is made, and init's program loaded.
 */
module FrameWitnesses {
  import opened Types
  import opened Frames
  import opened Ownership
  import opened Losses
  import opened FrameRuns
  import opened Sharing

  lemma Extend(ms: seq<Mem>, es: seq<Event>, e: Event) returns (ms': seq<Mem>, es': seq<Event>)
    requires Run(ms, es) && Formed(ms[|es|]) && Enabled(ms[|es|], e)
    ensures ms' == ms + [Apply(ms[|es|], e)] && es' == es + [e] && Run(ms', es')
  {
    ms', es' := ms + [Apply(ms[|es|], e)], es + [e];
    forall i | 0 <= i < |es'| ensures StepAt(ms', es', i) {
      if i < |es| { assert StepAt(ms, es, i); }
    }
  }

  /** A machine with any number of free frames exists, whatever the bounds. */
  lemma FramesFor(b: Bounds, n: nat, frames: nat) returns (enough: nat)
    requires b.Valid() && |FreeFrames(b, frames)| <= n
    ensures |FreeFrames(b, enough)| == n
    decreases n - |FreeFrames(b, frames)|, Max(b.pages + b.brk + 2 - frames, 0)
  {
    if |FreeFrames(b, frames)| == n {
      enough := frames;
    } else {
      assert FreeFrames(b, frames + 1) == FreeFrames(b, frames) + if IsFree(b, frames) then [frames] else [];
      enough := FramesFor(b, n, frames + 1);
    }
  }

  // ------------------------------------------------------------ loading init

  /** init's program is loaded: it runs, its table maps the planned pages, idle waits, n frames are free. */
  ghost predicate Loaded(m: Mem, b: Bounds, plan: Plan, n: nat) {
    && b.Valid() && m.current == Some(0) && |m.spaces| == 2 && |m.free| == n
    && |Mapped(m.spaces[0].table)| == PlannedPages(plan, 0, b.pages) && |m.spaces[0].table| == b.pages
    && m.low == BootTable(b, 0, b.StackBase()) && m.stack == BootTable(b, b.StackBase(), b.pages)
  }

  lemma IdleIsMade(m: Mem)
    requires Formed(m) && Enabled(m, SpawnIdle)
    ensures var m' := Apply(m, SpawnIdle);
            && m'.current == m.current && m'.low == m.low && m'.stack == m.stack && |m'.free| + 3 == |m.free|
            && |m'.spaces| == |m.spaces| + 1 && m'.spaces[..|m.spaces|] == m.spaces
  {
    assert Apply(m, SpawnIdle) == IdleStep(m);
  }

  lemma NothingReleased(n: nat, checked: nat -> bool)
    ensures Released(Unmapped(n), checked) == []
  {
    UnmappedIsEmpty(Unmapped(n));
    ReleasedCount(Unmapped(n), checked);
  }

  lemma InitIsLoaded(m: Mem, n: nat, plan: Plan, checked: nat -> bool)
    requires Formed(m) && m.current == Some(0) && m.spaces[0].table == Unmapped(n) && |m.free| >= 3 * n
    ensures var m' := Apply(m, Exec(plan, checked));
            && m'.current == m.current && m'.low == m.low && m'.stack == m.stack && |m'.free| + 3 * n == |m.free|
            && |m'.spaces| == |m.spaces| && |m'.spaces[0].table| == n
            && |Mapped(m'.spaces[0].table)| == PlannedPages(plan, 0, n)
  {
    ExecTakes(m.free, plan, n);
    NothingReleased(n, checked);
    assert Apply(m, Exec(plan, checked)) == ExecStep(m, plan, checked);
  }

  /** What loading init loses. */
  lemma LoadingLoses(m: Mem, n: nat, plan: Plan, checked: nat -> bool)
    requires Formed(m) && m.current == Some(0) && m.spaces[0].table == Unmapped(n) && |m.free| >= 3 * n
    ensures |Owned(m)| == |Owned(Apply(m, Exec(plan, checked)))| + 3 * n - PlannedPages(plan, 0, n)
  {
    StepLoses(m, Exec(plan, checked));
    UnmappedIsEmpty(Unmapped(n));
    ReleasedCount(Unmapped(n), checked);
  }

  /** idle is made, nothing is loaded yet, and n frames are free. */
  ghost predicate IdleMade(m: Mem, b: Bounds, n: nat) {
    && b.Valid() && m.current == Some(0) && |m.spaces| == 2 && |m.free| == n && m.spaces[0].table == Unmapped(b.pages)
    && m.low == BootTable(b, 0, b.StackBase()) && m.stack == BootTable(b, b.StackBase(), b.pages)
  }

  lemma IdleRun(b: Bounds, n: nat, stale: seq<Pte>) returns (frames: nat, ms: seq<Mem>, es: seq<Event>)
    requires b.Valid() && |stale| == KSTACK
    ensures es == [SpawnIdle] && Run(ms, es) && ms[0] == Boot(b, frames, stale) && Inv(ms[0]) && IdleMade(ms[1], b, n)
  {
    frames := FramesFor(b, 3 + n, 0);
    var m := Boot(b, frames, stale);
    BootIsInv(b, frames, stale);
    IdleIsMade(m);
    ms, es := Extend([m], [], SpawnIdle);
    assert ms[1].spaces[0] == m.spaces[0];
  }

  lemma LoadRun(ms: seq<Mem>, es: seq<Event>, b: Bounds, plan: Plan, checked: nat -> bool, n: nat)
    returns (ms': seq<Mem>, es': seq<Event>)
    requires Run(ms, es) && |es| == 1 && IdleMade(ms[1], b, 3 * b.pages + n)
    ensures es' == es + [Exec(plan, checked)] && Run(ms', es') && ms'[..2] == ms
    ensures Loaded(ms'[2], b, plan, n)
    ensures |Owned(ms[1])| == |Owned(ms'[2])| + 3 * b.pages - PlannedPages(plan, 0, b.pages)
  {
    RunFormed(ms, es, 1);
    InitIsLoaded(ms[1], b.pages, plan, checked);
    LoadingLoses(ms[1], b.pages, plan, checked);
    ms', es' := Extend(ms, es, Exec(plan, checked));
  }

  /** Every exec that loads init loses three frames a page less the pages of the program: on any machine,
      for any program, and any number n of frames left. */
  lemma ExecLosesFrames(b: Bounds, plan: Plan, checked: nat -> bool, n: nat, stale: seq<Pte>)
    returns (frames: nat, ms: seq<Mem>, es: seq<Event>)
    requires b.Valid() && |stale| == KSTACK
    ensures es == [SpawnIdle, Exec(plan, checked)] && Run(ms, es) && ms[0] == Boot(b, frames, stale) && Inv(ms[0])
    ensures Loaded(ms[2], b, plan, n)
    ensures |Owned(ms[1])| == |Owned(ms[2])| + 3 * b.pages - PlannedPages(plan, 0, b.pages)
  {
    var ms1, es1;
    frames, ms1, es1 := IdleRun(b, 3 * b.pages + n, stale);
    ms, es := LoadRun(ms1, es1, b, plan, checked, n);
    assert ms[0] == ms[..2][0] && ms[1] == ms[..2][1];
  }

  // -------------------------------------------------------- a fork that fails

  lemma FailedForkRun(ms: seq<Mem>, es: seq<Event>) returns (ms': seq<Mem>, es': seq<Event>)
    requires Run(ms, es) && |es| == 2 && ms[2].current.Some? && ms[2].current.value < |ms[2].spaces|
    requires !ForkFits(ms[2]) && ms[2].free != []
    ensures es' == es + [Fork] && Run(ms', es') && |ms'| == 4 && ms'[0] == ms[0] && ms'[2] == ms[2]
    ensures ms'[3].free == [] && |Owned(ms'[3])| < |Owned(ms[2])|
    ensures Owned(ms[2]) == Owned(ms'[3]) + multiset(ms[2].free)
  {
    var m := ms[2];
    RunFormed(ms, es, 2);
    FailedForkLosesAll(m);
    Emptied(Owned(m), Owned(ForkStep(m)), m.free);
    ms', es' := Extend(ms, es, Fork);
    assert ms'[3] == ForkStep(m);
  }

  /** On any machine and for any program of init, if fewer frames are free than its pages and a kernel
      stack, its fork fails and all of them are gone. */
  lemma ForkLosesFrames(b: Bounds, plan: Plan, checked: nat -> bool, n: nat, stale: seq<Pte>)
    returns (frames: nat, ms: seq<Mem>, es: seq<Event>)
    requires b.Valid() && |stale| == KSTACK && 0 < n < PlannedPages(plan, 0, b.pages) + KSTACK
    ensures es == [SpawnIdle, Exec(plan, checked), Fork] && Run(ms, es) && ms[0] == Boot(b, frames, stale) && Inv(ms[0])
    ensures |ms[2].free| == n && ms[3].free == [] && |Owned(ms[3])| < |Owned(ms[2])|
    ensures Owned(ms[2]) == Owned(ms[3]) + multiset(ms[2].free)
  {
    var ms2, es2;
    frames, ms2, es2 := ExecLosesFrames(b, plan, checked, n, stale);
    ms, es := FailedForkRun(ms2, es2);
  }

  // ------------------------------------------- a frame of the dead process's stack

  /** m after init has forked with just enough frames: the child, 2, has init's pages. */
  lemma JustFits(m: Mem, b: Bounds, plan: Plan)
    requires Formed(m) && Loaded(m, b, plan, PlannedPages(plan, 0, b.pages) + KSTACK)
    ensures var m' := Apply(m, Fork);
            && m'.low == m.low && m'.free == [] && |m'.spaces| == 3 && IsStack(m'.spaces[2].kstack)
            && |Mapped(m'.spaces[2].table)| == PlannedPages(plan, 0, b.pages)
            && |m'.spaces[2].table| == b.pages && m'.current == m.current
  {
    var t := m.spaces[0].table;
    CopyTakes(m.free, t, Unmapped(|t|), 0);
    assert t[0..] == t;
    CopyIsExact(m.free, t);
    var r := CopyTable(m.free, t, Unmapped(|t|), 0);
    assert |multiset(r.free) + Mapped(r.table)| == |m.free|;
    assert Apply(m, Fork) == ForkStep(m) == Born(m, r.free, r.table);
  }

  lemma ChildRuns(m: Mem)
    requires Formed(m) && |m.spaces| == 3 && Alive(m, 2) && m.current == Some(0)
    ensures var m' := Apply(m, Switch(2));
            && m'.low == m.low && m'.free == m.free && m'.current == Some(2) && |m'.spaces| == 3
            && m'.spaces[2] == m.spaces[2] && m'.stack == m.spaces[2].kstack
  {
    assert Apply(m, Switch(2)) == SwitchStep(m, 2);
  }

  lemma StackReleased(s: seq<Pte>)
    requires IsStack(s)
    ensures Released(s, ALL) == [s[0].pfn, s[1].pfn]
  {
    assert s[..1][..0] == [];
    assert Released(s[..1], ALL) == [s[0].pfn];
  }

  /** The child exits: its pages' frames and then those of its stack are all that is free. */
  lemma ChildIsGone(m: Mem, k: nat)
    requires Formed(m) && m.current == Some(2) && m.free == [] && IsStack(m.stack)
    requires |Mapped(m.spaces[2].table)| == k
    ensures Enabled(m, Exit)
    ensures var m' := Apply(m, Exit);
            && m'.low == m.low && m'.stack == m.stack && m'.current == None
            && |m'.free| == k + 2 && m'.free[k] == m.stack[0].pfn
  {
    var sp := m.spaces[2];
    ReleasedAll(sp.table);
    StackReleased(sp.kstack);
    assert |multiset(Released(sp.table, ALL))| == k;
    assert Apply(m, Exit) == ExitStep(m);
  }

  lemma {:induction false} FillsInOrder(free: seq<nat>, t: seq<Pte>, i: nat, hi: int, j: nat)
    requires i <= j <= hi < |t| && hi - i < |free| && forall k :: i <= k <= hi ==> !t[k].valid
    ensures FillUp(free, t, i, hi).table[j] == Fresh(free[j - i])
    decreases hi - i
  {
    var t' := t[i := Fresh(free[0])];
    assert FillUp(free, t, i, hi) == FillUp(free[1..], t', i + 1, hi);
    if i == j {
      FillUpFills(free[1..], t', i + 1, hi);
    } else {
      FillsInOrder(free[1..], t', i + 1, hi, j);
    }
  }

  /** The heap grows before the next switch: its last new page gets the first frame of the stack in use. */
  lemma HeapTakesTheStack(m: Mem, b: Bounds, k: nat)
    requires Formed(m) && b.Valid() && m.low == BootTable(b, 0, b.StackBase()) && b.brk + k + 1 <= b.StackBase() - KSTACK
    requires IsStack(m.stack) && |m.free| == k + 2 && m.free[k] == m.stack[0].pfn
    ensures Enabled(m, ExpandHeap(b.brk, b.brk + k + 1))
    ensures var m' := Apply(m, ExpandHeap(b.brk, b.brk + k + 1));
            m'.stack == m.stack && m'.current == m.current && m'.low[b.brk + k] == m.stack[0]
  {
    forall i | b.brk <= i <= b.brk + k ensures !m.low[i].valid {
      assert m.low[i] == BootEntry(b, i);
    }
    FillsInOrder(m.free, m.low, b.brk, b.brk + k, b.brk + k);
    assert Apply(m, ExpandHeap(b.brk, b.brk + k + 1)) == HeapStep(m, b.brk, b.brk + k + 1);
  }

  /** The child runs with all frames in use, nothing of the kernel's heap has changed. */
  ghost predicate ChildAlone(m: Mem, b: Bounds, k: nat) {
    && b.Valid() && m.low == BootTable(b, 0, b.StackBase()) && m.free == [] && m.current == Some(2)
    && |m.spaces| == 3 && |Mapped(m.spaces[2].table)| == k && IsStack(m.stack)
  }

  lemma ForkedRun(ms: seq<Mem>, es: seq<Event>, b: Bounds, plan: Plan) returns (ms': seq<Mem>, es': seq<Event>)
    requires Run(ms, es) && |es| == 2 && Loaded(ms[2], b, plan, PlannedPages(plan, 0, b.pages) + KSTACK)
    ensures es' == es + [Fork] + [Switch(2)] && Run(ms', es') && |ms'| == 5 && ms'[0] == ms[0]
    ensures ChildAlone(ms'[4], b, PlannedPages(plan, 0, b.pages))
  {
    RunFormed(ms, es, 2);
    JustFits(ms[2], b, plan);
    var ms3, es3 := Extend(ms, es, Fork);
    RunFormed(ms3, es3, 3);
    ChildRuns(ms3[3]);
    ms', es' := Extend(ms3, es3, Switch(2));
  }

  /** The child is gone, and the frames of its stack, still in use, are the last two free ones. */
  ghost predicate ChildGone(m: Mem, b: Bounds, k: nat) {
    && b.Valid() && m.low == BootTable(b, 0, b.StackBase()) && m.current == None && IsStack(m.stack)
    && |m.free| == k + 2 && m.free[k] == m.stack[0].pfn
  }

  lemma ExitedRun(ms: seq<Mem>, es: seq<Event>, b: Bounds, k: nat) returns (ms': seq<Mem>, es': seq<Event>)
    requires Run(ms, es) && |es| == 4 && ChildAlone(ms[4], b, k)
    ensures es' == es + [Exit] && Run(ms', es') && |ms'| == 6 && ms'[0] == ms[0] && ChildGone(ms'[5], b, k)
  {
    RunFormed(ms, es, 4);
    ChildIsGone(ms[4], k);
    ms', es' := Extend(ms, es, Exit);
  }

  lemma GrownRun(ms: seq<Mem>, es: seq<Event>, b: Bounds, k: nat) returns (ms': seq<Mem>, es': seq<Event>)
    requires Run(ms, es) && |es| == 5 && ChildGone(ms[5], b, k) && b.brk + k + 1 <= b.StackBase() - KSTACK
    ensures es' == es + [ExpandHeap(b.brk, b.brk + k + 1)] && Run(ms', es') && |ms'| == 7 && ms'[0] == ms[0]
    ensures ms'[6].current.None? && IsStack(ms'[6].stack) && Dangles(ms'[6], b.brk + k)
  {
    RunFormed(ms, es, 5);
    HeapTakesTheStack(ms[5], b, k);
    ms', es' := Extend(ms, es, ExpandHeap(b.brk, b.brk + k + 1));
  }

  /** Page top of the kernel's heap and the first page of the stack in use are one frame. */
  ghost predicate Dangles(m: Mem, top: nat) {
    top < |m.low| && |m.stack| == KSTACK && m.low[top] == m.stack[0] && m.stack[0].valid
  }

  /** On any machine with room in the kernel heap, and for any program of init: a child exits, and the heap
      grows before the next switch. A page of the heap and a page of the stack in use are then one frame. */
  lemma HeapAndStackShare(b: Bounds, plan: Plan, checked: nat -> bool, stale: seq<Pte>)
    returns (frames: nat, ms: seq<Mem>, es: seq<Event>)
    requires b.Valid() && |stale| == KSTACK && b.brk + PlannedPages(plan, 0, b.pages) + 1 <= b.StackBase() - KSTACK
    ensures es == [SpawnIdle, Exec(plan, checked)] + [Fork] + [Switch(2)] + [Exit]
                + [ExpandHeap(b.brk, b.brk + PlannedPages(plan, 0, b.pages) + 1)]
    ensures Run(ms, es) && ms[0] == Boot(b, frames, stale)
    ensures Dangles(ms[6], b.brk + PlannedPages(plan, 0, b.pages)) && Inv(ms[6])
  {
    var k := PlannedPages(plan, 0, b.pages);
    var ms2, es2;
    frames, ms2, es2 := ExecLosesFrames(b, plan, checked, k + KSTACK, stale);
    var ms4, es4 := ForkedRun(ms2, es2, b, plan);
    var ms5, es5 := ExitedRun(ms4, es4, b, k);
    ms, es := GrownRun(ms5, es5, b, k);
    NeverShared(ms, es, 6);
  }
}
