/**
 * What it means that no frame has two owners, for the entries in memory; and the one case in which an entry
 * is nobody's: between an exit and the next switch region 0 maps a kernel stack whose frames are free.
 */
module Sharing {
  import opened Types
  import opened Frames
  import opened Ownership
  import opened Losses
  import opened FrameRuns

  // ------------------------------------------------------- what no-aliasing means

  /** The places that can name a frame: region 0 below its stack entries and those entries, and each
      process's region 1 table and saved stack entries, except the saved copy of whoever runs. */
  datatype Part = Low | Stack0 | User(p: nat) | Saved(q: nat)

  ghost predicate HasPart(m: Mem, x: Part) {
    match x
    case Low => true
    case Stack0 => true
    case User(p) => p < |m.spaces|
    case Saved(q) => q < |m.spaces| && m.current != Some(q)
  }

  /** Region 0's stack entries are somebody's only while somebody runs. */
  ghost predicate Counted(m: Mem, x: Part) {
    HasPart(m, x) && (x == Stack0 ==> m.current.Some? && m.current.value < |m.spaces|)
  }

  function Entries(m: Mem, x: Part): seq<Pte>
    requires HasPart(m, x)
  {
    match x
    case Low => m.low
    case Stack0 => m.stack
    case User(p) => m.spaces[p].table
    case Saved(q) => m.spaces[q].kstack
  }

  lemma {:induction false} NamedOnce(t: seq<Pte>, i: nat)
    requires i < |t| && t[i].valid
    ensures Mapped(t)[t[i].pfn] >= 1
  {
    MappedUpdate(t, i, Pte(false, 0, 0));
    assert (Mapped(t) + One(Pte(false, 0, 0)))[t[i].pfn] == Mapped(t)[t[i].pfn];
  }

  lemma NamedTwice(t: seq<Pte>, i: nat, j: nat)
    requires i < j < |t| && t[i].valid && t[j].valid && t[i].pfn == t[j].pfn
    ensures Mapped(t)[t[i].pfn] >= 2
  {
    var t', f := t[j := Pte(false, 0, 0)], t[i].pfn;
    MappedUpdate(t, j, Pte(false, 0, 0));
    NamedOnce(t', i);
    assert (Mapped(t') + One(t[j]))[f] == (Mapped(t) + One(Pte(false, 0, 0)))[f];
  }

  lemma SpaceCounts(ss: seq<Space>, p: nat, f: nat)
    requires p < |ss|
    ensures Total(ss)[f] == Total(ss[p := DEAD])[f] + FramesOf(ss[p])[f]
  {
    TotalUpdate(ss, p, DEAD);
    assert FramesOf(DEAD) == multiset{};
    assert (Total(ss[p := DEAD]) + FramesOf(ss[p]))[f] == (Total(ss) + multiset{})[f];
  }

  lemma TwoSpacesCount(ss: seq<Space>, p: nat, q: nat, f: nat)
    requires p < |ss| && q < |ss| && p != q
    ensures Total(ss)[f] >= FramesOf(ss[p])[f] + FramesOf(ss[q])[f]
  {
    SpaceCounts(ss, p, f);
    SpaceCounts(ss[p := DEAD], q, f);
  }

  ghost function Owner(m: Mem, x: Part): (p: nat)
    requires Counted(m, x) && x != Low
    ensures p < |m.spaces|
  {
    match x
    case Stack0 => m.current.value
    case User(p) => p
    case Saved(q) => q
  }

  lemma OwnedBySpaces(m: Mem, f: nat)
    ensures Owned(m)[f] == multiset(m.free)[f] + Mapped(m.low)[f] + Total(Effective(m))[f]
  {
  }

  /** All the uses in one part of memory count; all the uses in two parts count together. */
  lemma PartCounts(m: Mem, x: Part, f: nat)
    requires Counted(m, x)
    ensures Owned(m)[f] >= multiset(m.free)[f] + Mapped(Entries(m, x))[f]
  {
    OwnedBySpaces(m, f);
    if x != Low {
      InSpace(m, x, f);
      SpaceCounts(Effective(m), Owner(m, x), f);
    }
  }

  lemma LowAndSpaceCount(m: Mem, y: Part, f: nat)
    requires Counted(m, y) && y != Low
    ensures Owned(m)[f] >= Mapped(m.low)[f] + Mapped(Entries(m, y))[f]
  {
    OwnedBySpaces(m, f);
    InSpace(m, y, f);
    SpaceCounts(Effective(m), Owner(m, y), f);
  }

  lemma SpacesCount(m: Mem, x: Part, y: Part, f: nat)
    requires Counted(m, x) && Counted(m, y) && x != y && x != Low && y != Low
    ensures Total(Effective(m))[f] >= Mapped(Entries(m, x))[f] + Mapped(Entries(m, y))[f]
  {
    var ss := Effective(m);
    if Owner(m, x) == Owner(m, y) {
      assert FramesOf(ss[Owner(m, x)])[f] == Mapped(Entries(m, x))[f] + Mapped(Entries(m, y))[f];
      SpaceCounts(ss, Owner(m, x), f);
    } else {
      InSpace(m, x, f);
      InSpace(m, y, f);
      TwoSpacesCount(ss, Owner(m, x), Owner(m, y), f);
    }
  }

  lemma TwoPartsCount(m: Mem, x: Part, y: Part, f: nat)
    requires Counted(m, x) && Counted(m, y) && x != y
    ensures Owned(m)[f] >= Mapped(Entries(m, x))[f] + Mapped(Entries(m, y))[f]
  {
    if x == Low {
      LowAndSpaceCount(m, y, f);
    } else if y == Low {
      LowAndSpaceCount(m, x, f);
    } else {
      OwnedBySpaces(m, f);
      SpacesCount(m, x, y, f);
    }
  }

  lemma InSpace(m: Mem, x: Part, f: nat)
    requires Counted(m, x) && x != Low
    ensures Mapped(Entries(m, x))[f] <= FramesOf(Effective(m)[Owner(m, x)])[f]
  {
  }

  /** While a process runs, two valid entries anywhere in memory name different frames. In between, this
      holds of all entries but region 0's stack. */
  lemma EntriesDiffer(m: Mem, x: Part, i: nat, y: Part, j: nat)
    requires Inv(m) && Counted(m, x) && Counted(m, y) && (x != y || i != j)
    requires i < |Entries(m, x)| && j < |Entries(m, y)| && Entries(m, x)[i].valid && Entries(m, y)[j].valid
    ensures Entries(m, x)[i].pfn != Entries(m, y)[j].pfn
  {
    var a, b := Entries(m, x), Entries(m, y);
    var f := a[i].pfn;
    assert Owned(m)[f] <= 1;
    if f == b[j].pfn {
      if x == y {
        if i < j { NamedTwice(a, i, j); } else { NamedTwice(a, j, i); }
        PartCounts(m, x, f);
      } else {
        NamedOnce(a, i);
        NamedOnce(b, j);
        TwoPartsCount(m, x, y, f);
      }
    }
  }

  /** The free queue holds no frame that is mapped, save by region 0's stack while nobody runs. */
  lemma FreeIsUnused(m: Mem, k: nat, x: Part, i: nat)
    requires Inv(m) && k < |m.free| && Counted(m, x) && i < |Entries(m, x)| && Entries(m, x)[i].valid
    ensures m.free[k] != Entries(m, x)[i].pfn
  {
    var f := Entries(m, x)[i].pfn;
    NamedOnce(Entries(m, x), i);
    PartCounts(m, x, f);
    assert Owned(m)[f] <= 1;
    assert m.free[k] in multiset(m.free);
  }

  lemma FreeIsDistinct(m: Mem, k: nat, l: nat)
    requires Inv(m) && k < l < |m.free|
    ensures m.free[k] != m.free[l]
  {
    var f := m.free[k];
    assert Owned(m)[f] <= 1;
    assert m.free == m.free[..l] + [m.free[l]] + m.free[l + 1..];
    assert f == m.free[..l][k] && f in m.free[..l];
    assert multiset(m.free) == multiset(m.free[..l]) + multiset{m.free[l]} + multiset(m.free[l + 1..]);
    assert multiset(m.free)[f] <= 1;
  }

  // ------------------------------------------------------ kernel stacks are mapped

  /** Both entries of every live process's kernel stack are mapped and writable. */
  ghost predicate StacksMapped(m: Mem) {
    forall p :: 0 <= p < |m.spaces| && Alive(m, p) ==> IsStack(Home(m, p))
  }

  predicate IsStack(s: seq<Pte>) {
    |s| == KSTACK && s[0] == Fresh(s[0].pfn) && s[1] == Fresh(s[1].pfn)
  }

  /** A process new in m' has a new stack. */
  lemma NewStacks(m: Mem, e: Event, p: nat)
    requires Formed(m) && Enabled(m, e) && |m.spaces| <= p < |Apply(m, e).spaces|
    ensures IsStack(Home(Apply(m, e), p))
  {
    match e
    case Fork => assert Apply(m, e) == ForkStep(m);
    case SpawnIdle => assert Apply(m, e) == IdleStep(m);
    case _ =>
  }

  lemma StepKeepsStacks(m: Mem, e: Event)
    requires Formed(m) && Enabled(m, e) && StacksMapped(m)
    ensures StacksMapped(Apply(m, e))
  {
    var m' := Apply(m, e);
    StepFormed(m, e);
    forall p | 0 <= p < |m'.spaces| && Alive(m', p) ensures IsStack(Home(m', p)) {
      if p < |m.spaces| {
        StaysAlive(m, e, p);
      } else {
        NewStacks(m, e, p);
      }
    }
  }

  /** Numbers are not reused: a live process was alive before, if it was there at all. */
  lemma StaysAlive(m: Mem, e: Event, p: nat)
    requires Formed(m) && Enabled(m, e) && p < |m.spaces| && Alive(Apply(m, e), p)
    ensures Alive(m, p)
  {
  }

  lemma {:induction false} RunKeepsStacks(ms: seq<Mem>, es: seq<Event>, i: nat)
    requires Run(ms, es) && StacksMapped(ms[0]) && i <= |es|
    ensures StacksMapped(ms[i])
  {
    if i > 0 {
      RunKeepsStacks(ms, es, i - 1);
      RunAccounted(ms, es, i - 1);
      StepKeepsStacks(ms[i - 1], es[i - 1]);
    }
  }

  lemma BootStackMapped(b: Bounds, frames: nat, stale: seq<Pte>)
    requires b.Valid() && |stale| == KSTACK
    ensures StacksMapped(Boot(b, frames, stale))
  {
    var n := b.StackBase();
    assert BootTable(b, n, b.pages)[0] == BootEntry(b, n) && BootTable(b, n, b.pages)[1] == BootEntry(b, n + 1);
  }

  // -------------------------------------------------- when is any frame used twice

  /** Every use of a frame, region 0's stack entries included when nobody runs. */
  function AllUses(m: Mem): multiset<nat> {
    Owned(m) + if m.current.Some? then multiset{} else Mapped(m.stack)
  }

  ghost predicate Unshared(m: Mem) {
    forall f :: AllUses(m)[f] <= 1
  }

  /** When nobody runs, region 0 still maps a stack, and its frames are in use or free. */
  ghost predicate Dangling(m: Mem) {
    m.current.None? ==> IsStack(m.stack) && Mapped(m.stack) <= Owned(m)
  }

  lemma FreeIsPart(m: Mem)
    ensures multiset(m.free) <= Owned(m)
  {
  }

  lemma ExitDangles(m: Mem)
    requires Formed(m) && Enabled(m, Exit) && StacksMapped(m)
    ensures Dangling(ExitStep(m))
  {
    var m' := ExitStep(m);
    ExitLeavesTheStackFree(m);
    FreeIsPart(m');
    Chain(Mapped(m'.stack), multiset(m'.free), Owned(m'));
    assert IsStack(Home(m, m.current.value)) && Home(m, m.current.value) == m.stack;
  }

  lemma HeapDangles(m: Mem, first: nat, end: nat)
    requires Formed(m) && end <= |m.low| - KSTACK && Dangling(m)
    ensures Dangling(HeapStep(m, first, end))
  {
    HeapAccounted(m, first, end);
  }

  lemma StepKeepsDangling(m: Mem, e: Event)
    requires Formed(m) && Enabled(m, e) && StacksMapped(m) && Dangling(m)
    ensures Dangling(Apply(m, e))
  {
    match e
    case Exit =>
      ExitDangles(m);
      assert Apply(m, e) == ExitStep(m);
    case ExpandHeap(first, end) =>
      HeapDangles(m, first, end);
      assert Apply(m, e) == HeapStep(m, first, end);
    case _ => assert Apply(m, e).current.Some?;
  }

  lemma {:induction false} RunKeepsDangling(ms: seq<Mem>, es: seq<Event>, i: nat)
    requires Run(ms, es) && StacksMapped(ms[0]) && Dangling(ms[0]) && i <= |es|
    ensures Dangling(ms[i])
  {
    if i > 0 {
      var j := i - 1;
      RunKeepsDangling(ms, es, j);
      RunKeepsStacks(ms, es, j);
      RunAccounted(ms, es, j);
      StepKeepsDangling(ms[j], es[j]);
    }
  }

  /** The exact law of one state: some frame has two uses if and only if nobody runs. */
  lemma SharedWhenIdle(m: Mem)
    requires Inv(m) && Dangling(m)
    ensures Unshared(m) <==> m.current.Some?
  {
    if m.current.Some? {
      forall f ensures AllUses(m)[f] <= 1 {
        assert Owned(m)[f] <= 1;
      }
    } else {
      var f := m.stack[0].pfn;
      NamedOnce(m.stack, 0);
      assert Mapped(m.stack)[f] <= Owned(m)[f];
      assert AllUses(m)[f] >= 2;
    }
  }

  /** Over every run from boot: no frame is used twice if and only if a process is current. */
  lemma SharedExactlyBetween(b: Bounds, frames: nat, stale: seq<Pte>, ms: seq<Mem>, es: seq<Event>, i: nat)
    requires b.Valid() && |stale| == KSTACK && Run(ms, es) && ms[0] == Boot(b, frames, stale) && i <= |es|
    ensures Unshared(ms[i]) <==> ms[i].current.Some?
  {
    BootIsInv(b, frames, stale);
    BootStackMapped(b, frames, stale);
    NeverShared(ms, es, i);
    RunKeepsDangling(ms, es, i);
    SharedWhenIdle(ms[i]);
  }

  /** Nobody runs exactly between an exit and the next switch. */
  lemma NobodyRunsAfterExit(ms: seq<Mem>, es: seq<Event>, i: nat)
    requires Run(ms, es) && i < |es|
    ensures es[i].Exit? ==> ms[i + 1].current.None?
    ensures es[i].Switch? ==> ms[i + 1].current.Some?
    ensures !es[i].Exit? && !es[i].Switch? ==> ms[i + 1].current == ms[i].current
  {
    RunAccounted(ms, es, i);
  }
}
