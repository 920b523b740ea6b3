/** Frames over whole runs from boot: what is kept and what is lost, kernel stacks, fork undone by exit. */
module FrameRuns {
  import opened Types
  import opened Frames
  import opened Ownership
  import opened Losses

  // ------------------------------------------------------------------------ boot

  /** Page numbers fixed at boot: kernel text, kernel data, kernel break; pages per region. */
  datatype Bounds = Bounds(text: nat, data: nat, brk: nat, pages: nat) {
    predicate Valid() {
      text <= data <= brk && brk + 2 * KSTACK <= pages
    }

    function StackBase(): nat
      requires Valid()
    {
      pages - KSTACK
    }
  }

  /** init_page_tables: what region 0 maps before paging, each page to the frame of its number. */
  function BootEntry(b: Bounds, page: nat): Pte
    requires b.Valid()
  {
    if page < b.text then Pte(false, 0, 0)
    else if page < b.data then Pte(true, READ + EXEC, page)
    else if page < b.brk then Pte(true, READ + WRITE, page)
    else if b.StackBase() <= page < b.pages then Pte(true, READ + WRITE, page)
    else Pte(false, 0, 0)
  }

  function BootTable(b: Bounds, first: nat, end: nat): (t: seq<Pte>)
    requires b.Valid() && first <= end
    ensures |t| == end - first
  {
    seq(end - first, i requires 0 <= i < end - first => BootEntry(b, first + i))
  }

  /** init_free_frame_queue: the frames that no region of the kernel uses. */
  predicate IsFree(b: Bounds, frame: nat)
    requires b.Valid()
  {
    frame > b.brk + 1 && !(b.StackBase() <= frame < b.pages)
  }

  function FreeFrames(b: Bounds, n: nat): seq<nat>
    requires b.Valid()
  {
    if n == 0 then [] else FreeFrames(b, n - 1) + if IsFree(b, n - 1) then [n - 1] else []
  }

  /** After boot init runs on the boot stack with nothing mapped in region 1. */
  function Boot(b: Bounds, frames: nat, stale: seq<Pte>): Mem
    requires b.Valid()
  {
    Mem(FreeFrames(b, frames), BootTable(b, 0, b.StackBase()), BootTable(b, b.StackBase(), b.pages),
        [Space(Unmapped(b.pages), stale)], Some(0))
  }

  lemma CountLast(prev: seq<nat>, n: nat, keep: bool, f: nat)
    ensures multiset(prev + if keep then [n] else [])[f] == multiset(prev)[f] + if keep && f == n then 1 else 0
  {
  }

  lemma {:induction false} FreeOnce(b: Bounds, n: nat, f: nat)
    requires b.Valid()
    ensures multiset(FreeFrames(b, n))[f] == if f < n && IsFree(b, f) then 1 else 0
  {
    if n > 0 {
      var m := n - 1;
      FreeOnce(b, m, f);
      CountLast(FreeFrames(b, m), m, IsFree(b, m), f);
    }
  }

  /** A table in which page first + i can only map frame first + i names frame f at most once. */
  lemma {:induction false} IdentityOnce(t: seq<Pte>, first: nat, f: nat)
    requires forall i :: 0 <= i < |t| && t[i].valid ==> t[i].pfn == first + i
    ensures Mapped(t)[f] == if first <= f < first + |t| && t[f - first].valid then 1 else 0
  {
    if t != [] {
      IdentityOnce(t[..|t| - 1], first, f);
    }
  }

  lemma BootCounts(b: Bounds, frames: nat, stale: seq<Pte>, f: nat)
    requires b.Valid() && |stale| == KSTACK
    ensures Owned(Boot(b, frames, stale))[f]
         == multiset(FreeFrames(b, frames))[f] + Mapped(BootTable(b, 0, b.StackBase()))[f]
            + Mapped(BootTable(b, b.StackBase(), b.pages))[f]
  {
    var m := Boot(b, frames, stale);
    var sp := Space(m.spaces[0].table, m.stack);
    assert Effective(m) == [sp];
    assert [sp][..0] == [];
    UnmappedIsEmpty(sp.table);
    assert Total([sp]) == Mapped(m.stack);
  }

  lemma BootIsFormed(b: Bounds, frames: nat, stale: seq<Pte>)
    requires b.Valid() && |stale| == KSTACK
    ensures Formed(Boot(b, frames, stale))
  {
    var m := Boot(b, frames, stale);
    forall i | |m.low| - KSTACK <= i < |m.low| ensures !m.low[i].valid {
      assert m.low[i] == BootEntry(b, i);
    }
  }

  /** The free frames and the frames the kernel runs in are disjoint from the start. */
  lemma BootIsInv(b: Bounds, frames: nat, stale: seq<Pte>)
    requires b.Valid() && |stale| == KSTACK
    ensures Inv(Boot(b, frames, stale))
  {
    BootIsFormed(b, frames, stale);
    forall f ensures Owned(Boot(b, frames, stale))[f] <= 1 {
      BootUsesOnce(b, frames, stale, f);
    }
  }

  lemma BootUsesOnce(b: Bounds, frames: nat, stale: seq<Pte>, f: nat)
    requires b.Valid() && |stale| == KSTACK
    ensures Owned(Boot(b, frames, stale))[f] <= 1
  {
    var n := b.StackBase();
    BootCounts(b, frames, stale, f);
    FreeOnce(b, frames, f);
    LowOnce(b, f);
    StackOnce(b, f);
  }

  lemma LowOnce(b: Bounds, f: nat)
    requires b.Valid()
    ensures Mapped(BootTable(b, 0, b.StackBase()))[f] == if b.text <= f < b.brk then 1 else 0
  {
    var t := BootTable(b, 0, b.StackBase());
    IdentityOnce(t, 0, f);
    if f < |t| {
      assert t[f] == BootEntry(b, f);
    }
  }

  lemma StackOnce(b: Bounds, f: nat)
    requires b.Valid()
    ensures Mapped(BootTable(b, b.StackBase(), b.pages))[f] == if b.StackBase() <= f < b.pages then 1 else 0
  {
    var n := b.StackBase();
    var t := BootTable(b, n, b.pages);
    forall i | 0 <= i < |t| && t[i].valid ensures t[i].pfn == n + i {
      assert t[i] == BootEntry(b, n + i);
    }
    IdentityOnce(t, n, f);
    if n <= f < b.pages {
      assert t[f - n] == BootEntry(b, f);
    }
  }

  // ------------------------------------------------------------------------ runs

  ghost predicate Run(ms: seq<Mem>, es: seq<Event>) {
    && |ms| == |es| + 1 && Formed(ms[0])
    && forall i :: 0 <= i < |es| ==> StepAt(ms, es, i)
  }

  ghost predicate StepAt(ms: seq<Mem>, es: seq<Event>, i: nat)
    requires i < |es| < |ms|
  {
    Formed(ms[i]) ==> Enabled(ms[i], es[i]) && ms[i + 1] == Apply(ms[i], es[i])
  }

  lemma {:induction false} RunFormed(ms: seq<Mem>, es: seq<Event>, i: nat)
    requires Run(ms, es) && i <= |es|
    ensures Formed(ms[i])
  {
    if i > 0 {
      var j := i - 1;
      RunFormed(ms, es, j);
      assert StepAt(ms, es, j);
      StepFormed(ms[j], es[j]);
    }
  }

  lemma RunAccounted(ms: seq<Mem>, es: seq<Event>, i: nat)
    requires Run(ms, es) && i < |es|
    ensures Formed(ms[i]) && Enabled(ms[i], es[i]) && ms[i + 1] == Apply(ms[i], es[i])
    ensures Owned(ms[i + 1]) <= Owned(ms[i])
  {
    RunFormed(ms, es, i);
    assert StepAt(ms, es, i);
    StepAccounted(ms[i], es[i]);
  }

  lemma Chain(a: multiset<nat>, b: multiset<nat>, c: multiset<nat>)
    requires a <= b && b <= c
    ensures a <= c
  {
  }

  ghost predicate Shrinks(os: seq<multiset<nat>>, k: nat)
    requires k + 1 < |os|
  {
    os[k + 1] <= os[k]
  }

  lemma {:induction false} Descends(os: seq<multiset<nat>>, i: nat)
    requires i < |os| && forall k :: 0 <= k < |os| - 1 ==> Shrinks(os, k)
    ensures os[i] <= os[0]
  {
    if i > 0 {
      Descends(os, i - 1);
      assert Shrinks(os, i - 1);
      Chain(os[i], os[i - 1], os[0]);
    }
  }

  /** No frame is ever in use that was not there at the start. */
  lemma NeverInvented(ms: seq<Mem>, es: seq<Event>, i: nat)
    requires Run(ms, es) && i <= |es|
    ensures Owned(ms[i]) <= Owned(ms[0])
  {
    var os := seq(|ms|, k requires 0 <= k < |ms| => Owned(ms[k]));
    forall k | 0 <= k < |os| - 1 ensures Shrinks(os, k) {
      RunAccounted(ms, es, k);
    }
    Descends(os, i);
  }

  ghost function LostAt(ms: seq<Mem>, es: seq<Event>, k: nat): nat
    requires Run(ms, es) && k < |es|
  {
    RunFormed(ms, es, k);
    Lost(ms[k], es[k])
  }

  /** What each of the first i steps loses. */
  ghost function LossesOf(ms: seq<Mem>, es: seq<Event>, i: nat): (ls: seq<nat>)
    requires Run(ms, es) && i <= |es|
    ensures |ls| == i
  {
    seq(i, k requires 0 <= k < i => LostAt(ms, es, k))
  }

  function Sum(ls: seq<nat>): nat {
    if ls == [] then 0 else Sum(ls[..|ls| - 1]) + ls[|ls| - 1]
  }

  ghost predicate DropsBy(sizes: seq<nat>, ls: seq<nat>, k: nat)
    requires k < |ls| && |sizes| == |ls| + 1
  {
    sizes[k] == sizes[k + 1] + ls[k]
  }

  lemma {:induction false} Telescopes(sizes: seq<nat>, ls: seq<nat>)
    requires |sizes| == |ls| + 1 && forall k :: 0 <= k < |ls| ==> DropsBy(sizes, ls, k)
    ensures sizes[0] == sizes[|ls|] + Sum(ls)
  {
    if ls != [] {
      var n := |ls| - 1;
      var shorter, fewer := sizes[..n + 1], ls[..n];
      forall k | 0 <= k < n ensures DropsBy(shorter, fewer, k) {
        assert DropsBy(sizes, ls, k);
      }
      Telescopes(shorter, fewer);
      assert DropsBy(sizes, ls, n);
    }
  }

  lemma {:induction false} SumIsZero(ls: seq<nat>)
    ensures Sum(ls) == 0 <==> forall k :: 0 <= k < |ls| ==> ls[k] == 0
  {
    if ls != [] { SumIsZero(ls[..|ls| - 1]); }
  }

  lemma StepCounts(ms: seq<Mem>, es: seq<Event>, i: nat)
    requires Run(ms, es) && i < |es|
    ensures |Owned(ms[i])| == |Owned(ms[i + 1])| + LostAt(ms, es, i)
    ensures LostAt(ms, es, i) == 0 <==> KeepsAt(ms, es, i)
  {
    RunAccounted(ms, es, i);
    StepLoses(ms[i], es[i]);
    LosesNothing(ms[i], es[i]);
  }

  /** The frames in use and free at the start are those left and those lost, in every run. */
  lemma LossesAddUp(ms: seq<Mem>, es: seq<Event>, i: nat)
    requires Run(ms, es) && i <= |es|
    ensures |Owned(ms[0])| == |Owned(ms[i])| + Sum(LossesOf(ms, es, i))
  {
    var sizes, ls := seq(i + 1, k requires 0 <= k <= i => |Owned(ms[k])|), LossesOf(ms, es, i);
    forall k | 0 <= k < i ensures DropsBy(sizes, ls, k) {
      StepCounts(ms, es, k);
    }
    Telescopes(sizes, ls);
  }

  ghost predicate KeepsAt(ms: seq<Mem>, es: seq<Event>, k: nat)
    requires Run(ms, es) && k < |es|
  {
    RunFormed(ms, es, k);
    KeepsFrames(ms[k], es[k])
  }

  lemma NothingLost(ms: seq<Mem>, es: seq<Event>, i: nat)
    requires Run(ms, es) && i <= |es|
    ensures Sum(LossesOf(ms, es, i)) == 0 <==> forall k :: 0 <= k < i ==> KeepsAt(ms, es, k)
  {
    var ls := LossesOf(ms, es, i);
    SumIsZero(ls);
    forall k | 0 <= k < i ensures ls[k] == 0 <==> KeepsAt(ms, es, k) {
      StepCounts(ms, es, k);
    }
  }

  /** A run keeps all frames accounted for if and only if each of its steps does. */
  lemma NeverLost(ms: seq<Mem>, es: seq<Event>, i: nat)
    requires Run(ms, es) && i <= |es|
    ensures Owned(ms[i]) == Owned(ms[0]) <==> forall k :: 0 <= k < i ==> KeepsAt(ms, es, k)
  {
    NeverInvented(ms, es, i);
    LossesAddUp(ms, es, i);
    NothingLost(ms, es, i);
    SameSize(Owned(ms[i]), Owned(ms[0]));
  }

  /** In every run no frame has two owners. */
  lemma NeverShared(ms: seq<Mem>, es: seq<Event>, i: nat)
    requires Run(ms, es) && Inv(ms[0]) && i <= |es|
    ensures Inv(ms[i])
  {
    RunFormed(ms, es, i);
    NeverInvented(ms, es, i);
    forall f ensures Owned(ms[i])[f] <= 1 {
      assert Owned(ms[i])[f] <= Owned(ms[0])[f] <= 1;
    }
  }

  /** The saved entries of whoever runs, init too, are region 0's. */
  predicate SavedIsTrue(m: Mem) {
    m.current.Some? && m.current.value < |m.spaces| ==> m.spaces[m.current.value].kstack == m.stack
  }

  lemma SwitchSaves(m: Mem, next: nat)
    requires Formed(m) && Alive(m, next)
    ensures SavedIsTrue(SwitchStep(m, next))
  {
  }

  lemma StepKeepsSaved(m: Mem, e: Event)
    requires Formed(m) && Enabled(m, e) && SavedIsTrue(m)
    ensures SavedIsTrue(Apply(m, e))
  {
    match e
    case Switch(next) =>
      SwitchSaves(m, next);
      assert Apply(m, e) == SwitchStep(m, next);
    case Fork => assert Apply(m, e) == ForkStep(m);
    case SpawnIdle => assert Apply(m, e) == IdleStep(m);
    case Exec(plan, checked) => assert Apply(m, e) == ExecStep(m, plan, checked);
    case Brk(first, last) => assert Apply(m, e) == BrkStep(m, first, last);
    case GrowStack(last) => assert Apply(m, e) == GrowStep(m, last);
    case Exit => assert Apply(m, e) == ExitStep(m);
    case ExpandHeap(first, end) => assert Apply(m, e) == HeapStep(m, first, end);
  }

  lemma SavedAt(ms: seq<Mem>, es: seq<Event>, k: nat)
    requires Run(ms, es) && k < |es| && (es[k].Switch? || SavedIsTrue(ms[k]))
    ensures SavedIsTrue(ms[k + 1])
  {
    var m, e := ms[k], es[k];
    RunAccounted(ms, es, k);
    if e.Switch? {
      SwitchSaves(m, e.next);
      assert Apply(m, e) == SwitchStep(m, e.next);
    } else {
      StepKeepsSaved(m, e);
    }
  }

  /** From the first switch on, init's saved entries are true ones too. */
  lemma {:induction false} SavedAfterSwitch(ms: seq<Mem>, es: seq<Event>, j: nat, i: nat)
    requires Run(ms, es) && j < i <= |es| && es[j].Switch?
    ensures SavedIsTrue(ms[i])
    decreases i
  {
    if j < i - 1 { SavedAfterSwitch(ms, es, j, i - 1); }
    SavedAt(ms, es, i - 1);
  }

  ghost predicate LivesThrough(ms: seq<Mem>, p: nat, i: nat, j: nat)
    requires i <= j < |ms|
  {
    forall k :: i <= k <= j ==> Alive(ms[k], p)
  }

  /** A process keeps its kernel stack frames, whatever happens meanwhile. */
  lemma {:induction false} HomesStay(ms: seq<Mem>, es: seq<Event>, p: nat, i: nat, j: nat)
    requires Run(ms, es) && i <= j <= |es| && LivesThrough(ms, p, i, j)
    ensures Home(ms[j], p) == Home(ms[i], p)
    decreases j
  {
    if i < j {
      HomesStay(ms, es, p, i, j - 1);
      assert Alive(ms[j - 1], p) && Alive(ms[j], p);
      HomeAt(ms, es, p, j - 1);
    }
  }

  lemma HomeAt(ms: seq<Mem>, es: seq<Event>, p: nat, k: nat)
    requires Run(ms, es) && k < |es| && Alive(ms[k], p) && Alive(ms[k + 1], p)
    ensures Home(ms[k + 1], p) == Home(ms[k], p)
  {
    RunAccounted(ms, es, k);
    HomeStep(ms[k], es[k], p);
  }

  lemma HomeStep(m: Mem, e: Event, p: nat)
    requires Formed(m) && Enabled(m, e) && Alive(m, p) && Alive(Apply(m, e), p)
    ensures Home(Apply(m, e), p) == Home(m, p)
  {
    StepFormed(m, e);
  }

  /** Whenever a process runs, region 0 has the stack entries it had each earlier time it ran. */
  lemma ResumesOnItsOwnStack(ms: seq<Mem>, es: seq<Event>, p: nat, i: nat, j: nat)
    requires Run(ms, es) && i <= j <= |es| && LivesThrough(ms, p, i, j)
    requires ms[i].current == Some(p) == ms[j].current
    ensures ms[j].stack == ms[i].stack
  {
    HomesStay(ms, es, p, i, j);
    assert Alive(ms[i], p) && Alive(ms[j], p);
  }

  // -------------------------------------------------------- fork undone by exit

  lemma Cancel(a: multiset<nat>, b: multiset<nat>, c: multiset<nat>, a': multiset<nat>)
    requires a' + b + c == a + b + c
    ensures a' == a
  {
    forall f ensures a'[f] == a[f] {
      assert (a' + b + c)[f] == (a + b + c)[f];
    }
    assert a' <= a && a <= a';
  }

  lemma ForkAppends(m: Mem)
    requires m.current.Some? && m.current.value < |m.spaces| && |ForkStep(m).spaces| > |m.spaces|
    ensures var m1 := ForkStep(m);
            && m1.low == m.low && m1.stack == m.stack && m1.current == m.current
            && |m1.spaces| == |m.spaces| + 1 && m1.spaces[..|m.spaces|] == m.spaces
            && |m1.spaces[|m.spaces|].kstack| == KSTACK
  {
  }

  lemma EffectiveAppends(m: Mem, m1: Mem)
    requires m1.stack == m.stack && m1.current == m.current && m.current.Some? && m.current.value < |m.spaces|
    requires |m1.spaces| == |m.spaces| + 1 && m1.spaces[..|m.spaces|] == m.spaces
    ensures Effective(m1) == Effective(m) + [m1.spaces[|m.spaces|]]
  {
    assert m1.spaces == m.spaces + [m1.spaces[|m.spaces|]];
  }

  lemma ForkAddsChild(m: Mem)
    requires Formed(m) && m.current.Some? && ForkFits(m)
    ensures var m1 := Apply(m, Fork);
            && m1.low == m.low && |m1.spaces| == |m.spaces| + 1 && Alive(m1, |m.spaces|)
            && Effective(m1) == Effective(m) + [m1.spaces[|m.spaces|]]
  {
    ForkSucceeds(m);
    var m1 := ForkStep(m);
    assert m1 == Apply(m, Fork);
    ForkAppends(m);
    EffectiveAppends(m, m1);
  }

  /** Steps that leave alone what is not the child's: switches, and growth by the child itself. */
  predicate ChildOnly(m: Mem, e: Event, child: nat) {
    e.Switch? || (m.current == Some(child) && (e.Brk? || e.GrowStack?))
  }

  /** m' has what m had of everything but the child. */
  ghost predicate Spared(m: Mem, m': Mem, child: nat) {
    && m'.low == m.low && |m'.spaces| == child + 1 && Alive(m', child)
    && Effective(m')[..child] == Effective(m)
  }

  lemma ChildOnlySpares(m: Mem, m1: Mem, e: Event, child: nat)
    requires Formed(m1) && Enabled(m1, e) && Spared(m, m1, child) && ChildOnly(m1, e, child)
    ensures Spared(m, Apply(m1, e), child)
  {
    match e
    case Switch(next) =>
      var m' := SwitchStep(m1, next);
      assert Apply(m1, e) == m' && Effective(m') == Effective(m1);
      assert m'.spaces[child] == Effective(m1)[child];
    case Brk(first, last) =>
      var r := FillUp(m1.free, m1.spaces[child].table, first, last);
      ChildTableSpares(m, m1, r.free, r.table, child);
      assert Apply(m1, e) == WithTable(m1, r.free, r.table);
    case GrowStack(last) =>
      var t := m1.spaces[child].table;
      var r := FillDown(m1.free, t, |t| - 1, last);
      ChildTableSpares(m, m1, r.free, r.table, child);
      assert Apply(m1, e) == WithTable(m1, r.free, r.table);
  }

  lemma ChildTableSpares(m: Mem, m1: Mem, free: seq<nat>, t: seq<Pte>, child: nat)
    requires Formed(m1) && Spared(m, m1, child) && m1.current == Some(child) && t != []
    ensures Spared(m, WithTable(m1, free, t), child)
  {
    var m' := WithTable(m1, free, t);
    assert Effective(m') == Effective(m1)[child := Space(t, m1.stack)];
    assert Effective(m')[..child] == Effective(m1)[..child];
  }

  lemma ExitMarksDead(m: Mem)
    requires Formed(m) && Enabled(m, Exit)
    ensures var m' := ExitStep(m);
            m'.low == m.low && Effective(m') == m'.spaces == Effective(m)[m.current.value := DEAD]
  {
    var p := m.current.value;
    assert Effective(m)[p] == m.spaces[p];
    assert m.spaces[p := DEAD] == Effective(m)[p := DEAD];
  }

  lemma SameTotal(m: Mem, m': Mem)
    requires Owned(m') == Owned(m) && m'.low == m.low && Effective(m') == Effective(m) + [DEAD]
    ensures multiset(m'.free) == multiset(m.free)
  {
    assert Effective(m')[..|m.spaces|] == Effective(m);
    assert FramesOf(DEAD) == multiset{};
    assert Total(Effective(m')) == Total(Effective(m));
    Cancel(multiset(m.free), Mapped(m.low), Total(Effective(m)), multiset(m'.free));
  }

  /** A run that begins with a fork that fits and continues with steps of its child, or switches. */
  ghost predicate ForksAndRuns(ms: seq<Mem>, es: seq<Event>, n: nat) {
    && Run(ms, es) && 0 < n < |es| && es[0] == Fork && ms[0].current.Some? && ForkFits(ms[0])
    && forall k :: 1 <= k < n ==> ChildOnly(ms[k], es[k], |ms[0].spaces|)
  }

  lemma {:induction false} OthersAreSpared(ms: seq<Mem>, es: seq<Event>, n: nat, k: nat)
    requires ForksAndRuns(ms, es, n) && 1 <= k <= n
    ensures Spared(ms[0], ms[k], |ms[0].spaces|)
  {
    var child, j := |ms[0].spaces|, k - 1;
    RunAccounted(ms, es, j);
    if k == 1 {
      ForkAddsChild(ms[0]);
    } else {
      OthersAreSpared(ms, es, n, j);
      ChildOnlySpares(ms[0], ms[j], es[j], child);
    }
  }

  lemma RunKeepsAll(ms: seq<Mem>, es: seq<Event>, n: nat)
    requires ForksAndRuns(ms, es, n) && es[n] == Exit
    ensures Owned(ms[n + 1]) == Owned(ms[0])
  {
    forall k | 0 <= k < n + 1 ensures KeepsAt(ms, es, k) {
      RunFormed(ms, es, k);
      if k > 0 && k < n { assert ChildOnly(ms[k], es[k], |ms[0].spaces|); }
    }
    NeverLost(ms, es, n + 1);
  }

  lemma AfterChildExit(m: Mem, m1: Mem, child: nat)
    requires Formed(m1) && Enabled(m1, Exit) && Spared(m, m1, child) && m1.current == Some(child)
    ensures var m' := ExitStep(m1);
            m'.low == m.low && Effective(m') == m'.spaces == Effective(m) + [DEAD]
  {
    ExitMarksDead(m1);
    var ss := Effective(m1);
    assert ss[child := DEAD] == ss[..child] + [DEAD];
  }

  /** A successful fork, then any steps of the child and any switches, then its exit: the free frames are
      again those before the fork, and all other tables and kernel stacks are as they were. */
  lemma ForkThenExit(ms: seq<Mem>, es: seq<Event>, n: nat)
    requires ForksAndRuns(ms, es, n) && es[n] == Exit && ms[n].current == Some(|ms[0].spaces|)
    ensures var m, m' := ms[0], ms[n + 1];
            && multiset(m'.free) == multiset(m.free) && m'.low == m.low && m'.spaces == Effective(m) + [DEAD]
  {
    var m, m1, child := ms[0], ms[n], |ms[0].spaces|;
    RunAccounted(ms, es, n);
    assert ms[n + 1] == ExitStep(m1);
    OthersAreSpared(ms, es, n, n);
    AfterChildExit(m, m1, child);
    RunKeepsAll(ms, es, n);
    SameTotal(m, ms[n + 1]);
  }
}
