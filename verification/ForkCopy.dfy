/**
 * How fork copies a process: each page, and then the kernel stack, through pages of region 0
 * mapped for the purpose, on a machine whose TLB may hold stale translations.
 */
module ForkCopy {
  import opened Types
  import opened Frames
  import opened Ownership
  import opened FrameRuns
  import opened Sharing

  type Tlb = map<nat, nat>

  /** The frame a page is found in: what the TLB says, and only otherwise what the table says. */
  function Translate(tlb: Tlb, table: seq<Pte>, page: nat): nat
    requires page < |table|
  {
    if page in tlb then tlb[page] else table[page].pfn
  }

  ghost predicate Agrees(tlb: Tlb, table: seq<Pte>) {
    forall p :: p in tlb ==> p < |table| && tlb[p] == table[p].pfn
  }

  /** All the frames a table names exist. */
  ghost predicate InMemory(t: seq<Pte>, frames: nat) {
    forall i :: 0 <= i < |t| && t[i].valid ==> t[i].pfn < frames
  }

  /** What fork may rely on where no frame has two uses. */
  ghost predicate FreeApart(free: seq<nat>, t: seq<Pte>, frames: nat) {
    && (forall k :: 0 <= k < |free| ==> free[k] < frames)
    && (forall k, l :: 0 <= k < l < |free| ==> free[k] != free[l])
    && (forall k, i :: 0 <= k < |free| && 0 <= i < |t| && t[i].valid ==> free[k] != t[i].pfn)
  }

  /** Two address spaces look the same from inside: validity, protection and contents. */
  ghost predicate SameImage(t: seq<Pte>, memory: seq<Bytes>, t': seq<Pte>, memory': seq<Bytes>) {
    && |t'| == |t| && InMemory(t, |memory|) && InMemory(t', |memory'|)
    && forall i :: 0 <= i < |t| ==>
         && t'[i].valid == t[i].valid
         && (t[i].valid ==> t'[i].prot == t[i].prot && memory'[t'[i].pfn] == memory[t[i].pfn])
  }

  /** Frames outside the queue keep their contents. */
  ghost predicate KeepsOthers(memory: seq<Bytes>, memory': seq<Bytes>, free: seq<nat>) {
    |memory'| == |memory| && forall f :: 0 <= f < |memory| && f !in free ==> memory'[f] == memory[f]
  }

  class Machine {
    /** Contents of the physical frames. */
    const memory: array<Bytes>
    const r0: array<Pte>
    /** Region 1's table: the running process's. */
    const r1: array<Pte>
    var tlb0: Tlb
    var tlb1: Tlb
    var free: seq<nat>

    ghost predicate Valid()
      reads this, r0, r1
    {
      && r0 != r1 && 2 * KSTACK <= r0.Length
      && InMemory(r1[..], memory.Length)
    }

    function Window(): nat
      requires 2 * KSTACK <= r0.Length
    {
      r0.Length - 2 * KSTACK
    }

    /** Whatever was used so far may still be cached. */
    method Cache0(entries: Tlb)
      modifies this`tlb0
      ensures tlb0 == entries
    {
      tlb0 := entries;
    }

    method Flush0()
      modifies this`tlb0
      ensures tlb0 == map[]
    {
      tlb0 := map[];
    }

    method FlushAll()
      modifies this`tlb0, this`tlb1
      ensures tlb0 == map[] && tlb1 == map[]
    {
      tlb0, tlb1 := map[], map[];
    }

    /** memcpy of one page from region 1 to region 0; both translations are cached. */
    method CopyToWindow(dst: nat, src: nat)
      requires Valid() && dst < r0.Length && src < r1.Length
      requires Translate(tlb0, r0[..], dst) < memory.Length && Translate(tlb1, r1[..], src) < memory.Length
      modifies memory, this`tlb0, this`tlb1
      ensures var d, s := old(Translate(tlb0, r0[..], dst)), old(Translate(tlb1, r1[..], src));
              && memory[..] == old(memory[..])[d := old(memory[..])[s]]
              && tlb0 == old(tlb0)[dst := d] && tlb1 == old(tlb1)[src := s]
    {
      var d := if dst in tlb0 then tlb0[dst] else r0[dst].pfn;
      var s := if src in tlb1 then tlb1[src] else r1[src].pfn;
      memory[d] := memory[s];
      tlb0, tlb1 := tlb0[dst := d], tlb1[src := s];
    }

    /** One page of fork's loop: map the window to the new frame, flush, copy, unmap. */
    method CopyPage(i: nat, frame: nat, stale: Tlb)
      requires Valid() && i < r1.Length && r1[i].valid && frame < memory.Length && Agrees(tlb1, r1[..])
      modifies memory, r0, this`tlb0, this`tlb1
      ensures memory[..] == old(memory[..])[frame := old(memory[..])[r1[i].pfn]]
      ensures Agrees(tlb1, r1[..])
      ensures r0[..] == old(r0[..])[Window() := Pte(false, 0, 0)]
    {
      var w := Window();
      r0[w] := Pte(true, READ + WRITE, frame);
      Cache0(stale);
      Flush0();
      CopyToWindow(w, i);
      r0[w] := Pte(false, 0, 0);
    }

    /** What a round of fork's loop keeps: i pages done with the first k free frames. */
    ghost predicate Progress(t: seq<Pte>, memory0: seq<Bytes>, free0: seq<nat>, child: seq<Pte>, i: nat, k: nat)
      reads this, r0, r1, memory
    {
      && Valid() && r1[..] == t && Agrees(tlb1, t) && k <= |free0| && free == free0[k..]
      && Copied(t, memory0, free0, memory[..], child, i, k)
    }

    /** A valid page: take a frame, enter it in the child's table, and copy through the window. */
    method CopyValid(child: array<Pte>, i: nat, stale: Tlb,
                     ghost t: seq<Pte>, ghost memory0: seq<Bytes>, ghost free0: seq<nat>, ghost k: nat)
      requires child != r0 && child != r1 && Progress(t, memory0, free0, child[..], i, k)
      requires FreeApart(free0, t, memory.Length) && i < |t| && t[i].valid && free != []
      modifies memory, r0, child, this`tlb0, this`tlb1, this`free
      ensures Progress(t, memory0, free0, child[..], i + 1, k + 1)
      ensures r0[..] == old(r0[..])[Window() := Pte(false, 0, 0)]
      ensures free == old(free)[1..] && child[..] == old(child[..])[i := Pte(true, t[i].prot, old(free)[0])]
    {
      var frame := free[0];
      CopiedNext(t, memory0, free0, memory[..], child[..], i, k);
      assert frame == free0[k] && r1[i] == t[i];
      free := free[1..];
      child[i] := Pte(true, r1[i].prot, frame);
      CopyPage(i, frame, stale);
    }

    /**
     * Fork's loop over the pages. stale(i) is what the TLB holds for region 0 just before the
     * flush for page i: anything at all, the window's last translation included.
     */
    method CopyRegion1(stale: nat -> Tlb) returns (child: array<Pte>, ok: bool, ghost taken: nat)
      requires Valid() && FreeApart(free, r1[..], memory.Length)
      modifies memory, r0, this`tlb0, this`tlb1, this`free
      ensures fresh(child) && Fill(free, child[..], ok) == CopyTable(old(free), r1[..], Unmapped(r1.Length), 0)
      ensures r1[..] == old(r1[..]) && SameButWindow(old(r0[..]), r0[..], Window(), 1)
      ensures KeepsOthers(old(memory[..]), memory[..], old(free))
      ensures ok ==> SameImage(r1[..], old(memory[..]), child[..], memory[..])
      ensures taken <= |old(free)| && free == old(free)[taken..]
      ensures forall i :: 0 <= i < child.Length && child[i].valid ==> child[i].pfn in old(free)[..taken]
    {
      ghost var t, memory0, free0, k := r1[..], memory[..], free, 0;
      FlushAll();
      child := new Pte[r1.Length](_ => Pte(false, 0, 0));
      assert child[..] == Unmapped(r1.Length);
      var i := 0;
      while i < r1.Length
        invariant 0 <= i <= r1.Length && Progress(t, memory0, free0, child[..], i, k)
        invariant SameButWindow(old(r0[..]), r0[..], Window(), 1)
        invariant CopyTable(free, t, child[..], i) == CopyTable(free0, t, Unmapped(|t|), 0)
      {
        if r1[i].valid {
          if free == [] {
            return child, false, k;
          }
          CopyValid(child, i, stale(i), t, memory0, free0, k);
          k := k + 1;
        }
        i := i + 1;
      }
      ok, taken := true, k;
    }

    /** memcpy of one page within region 0. */
    method CopyInRegion0(dst: nat, src: nat)
      requires Valid() && dst < r0.Length && src < r0.Length
      requires Translate(tlb0, r0[..], dst) < memory.Length && Translate(tlb0, r0[..], src) < memory.Length
      modifies memory, this`tlb0
      ensures var d, s := old(Translate(tlb0, r0[..], dst)), old(Translate(tlb0, r0[..], src));
              && memory[..] == old(memory[..])[d := old(memory[..])[s]]
              && tlb0 == old(tlb0)[dst := d][src := s]
    {
      var d := if dst in tlb0 then tlb0[dst] else r0[dst].pfn;
      var s := if src in tlb0 then tlb0[src] else r0[src].pfn;
      memory[d] := memory[s];
      tlb0 := tlb0[dst := d][src := s];
    }

    /** KCCopy: the running kernel stack into the frames k0 and k1 of the new process. */
    method CopyKernelStack(k0: Pte, k1: Pte, stale: Tlb)
      requires Valid() && k0.pfn < memory.Length && k1.pfn < memory.Length && k0.pfn != k1.pfn
      requires var top := r0.Length - KSTACK;
        && r0[top].pfn < memory.Length && r0[top + 1].pfn < memory.Length
        && r0[top].pfn !in [k0.pfn, k1.pfn] && r0[top + 1].pfn !in [k0.pfn, k1.pfn]
      modifies memory, r0, this`tlb0, this`tlb1
      ensures var top := r0.Length - KSTACK;
        memory[..] == old(memory[..])[k0.pfn := old(memory[r0[top].pfn])][k1.pfn := old(memory[r0[top + 1].pfn])]
      ensures r0[..] == old(r0[..])[Window() := Pte(false, 0, 0)][Window() + 1 := Pte(false, 0, 0)]
      ensures tlb0 == map[]
    {
      var w, top := Window(), r0.Length - KSTACK;
      FlushAll();
      r0[w], r0[w + 1] := k0, k1;
      Cache0(stale);
      Flush0();
      CopyInRegion0(w, top);
      CopyInRegion0(w + 1, top + 1);
      r0[w], r0[w + 1] := Pte(false, 0, 0), Pte(false, 0, 0);
      Flush0();
    }

    /**
     * The memory side of ForkHandler. The child is None where frames run out; those taken by
     * then are lost. Otherwise its region 1 is the parent's and its kernel stack the running
     * one, byte for byte, in frames from the free queue, and no other frame changed.
     */
    method Fork(stale: nat -> Tlb, staleStack: Tlb) returns (child: Option<Space>)
      requires Valid() && FreeApart(free, r1[..], memory.Length)
      requires FreeApart(free, r0[r0.Length - KSTACK..], memory.Length)
      requires StackInMemory()
      modifies memory, r0, this`tlb0, this`tlb1, this`free
      ensures r1[..] == old(r1[..]) && SameButWindow(old(r0[..]), r0[..], Window(), KSTACK)
      ensures KeepsOthers(old(memory[..]), memory[..], old(free))
      ensures var r := CopyTable(old(free), r1[..], Unmapped(r1.Length), 0);
        && (child.None? <==> !r.ok || |r.free| < 2)
        && (child.None? ==> free == if r.ok then [] else r.free)
        && (child.Some? ==> free == r.free[2..] && child.value == Space(r.table, [Fresh(r.free[0]), Fresh(r.free[1])]))
      ensures child.Some? ==>
        && SameImage(r1[..], old(memory[..]), child.value.table, memory[..])
        && SameImage(old(r0[r0.Length - KSTACK..]), old(memory[..]), child.value.kstack, memory[..])
    {
      ghost var memory0, free0 := memory[..], free;
      var table, ok, taken := CopyRegion1(stale);
      if !ok {
        return None;
      }
      if |free| < 2 {
        free := [];
        return None;
      }
      ghost var s, memory1 := r0[r0.Length - KSTACK..], memory[..];
      var k0, k1 := Fresh(free[0]), Fresh(free[1]);
      ghost var a, b := k0.pfn, k1.pfn;
      assert a == free0[taken] && b == free0[taken + 1];
      assert s == old(r0[r0.Length - KSTACK..]);
      assert s[0] == r0[r0.Length - KSTACK] && s[1] == r0[r0.Length - KSTACK + 1];
      free := free[2..];
      CopyKernelStack(k0, k1, staleStack);
      assert memory[..] == memory1[a := memory1[s[0].pfn]][b := memory1[s[1].pfn]];
      StackImage(memory0, free0, memory1, s, a, b);
      TableImage(r1[..], memory0, table[..], memory1, memory[..], free0, taken);
      child := Some(Space(table[..], [k0, k1]));
    }

    ghost predicate StackInMemory()
      requires Valid()
      reads this, r0, r1
    {
      IsStack(r0[r0.Length - KSTACK..]) && InMemory(r0[r0.Length - KSTACK..], memory.Length)
    }
  }

  /** Why the flush: a copy made through the TLB as it is reaches the new frame exactly if no stale
      translation of the window points elsewhere, unless the bytes happened to be there already. */
  lemma CopyReachesFrame(memory: seq<Bytes>, r0: seq<Pte>, tlb0: Tlb, w: nat, src: nat)
    requires w < |r0| && r0[w].pfn < |memory| && src < |memory| && Translate(tlb0, r0, w) < |memory|
    ensures var after := memory[Translate(tlb0, r0, w) := memory[src]];
            after[r0[w].pfn] == memory[src] <==>
            w !in tlb0 || tlb0[w] == r0[w].pfn || memory[r0[w].pfn] == memory[src]
  {
  }

  lemma StackImage(memory0: seq<Bytes>, free0: seq<nat>, memory1: seq<Bytes>, s: seq<Pte>, a: nat, b: nat)
    requires IsStack(s) && InMemory(s, |memory0|)
    requires KeepsOthers(memory0, memory1, free0) && FreeApart(free0, s, |memory0|)
    requires a in free0 && b in free0 && a != b
    ensures SameImage(s, memory0, [Fresh(a), Fresh(b)], memory1[a := memory1[s[0].pfn]][b := memory1[s[1].pfn]])
  {
    assert s[0].pfn !in free0 && s[1].pfn !in free0;
  }

  /** The child's pages lie in frames taken earlier, so copying the stack does not touch them. */
  lemma TableImage(t: seq<Pte>, memory0: seq<Bytes>, t': seq<Pte>, memory1: seq<Bytes>,
                   memory2: seq<Bytes>, free0: seq<nat>, k: nat)
    requires k + 2 <= |free0| && |memory1| == |memory2| == |memory0| && FreeApart(free0, t, |memory0|)
    requires SameImage(t, memory0, t', memory1)
    requires forall i :: 0 <= i < |t'| && t'[i].valid ==> t'[i].pfn in free0[..k]
    requires forall f :: 0 <= f < |memory1| && f != free0[k] && f != free0[k + 1] ==> memory2[f] == memory1[f]
    ensures SameImage(t, memory0, t', memory2)
  {
    assert free0[k] !in free0[..k] && free0[k + 1] !in free0[..k];
  }

  // -------------------------------------- the frame accounting gives what fork relies on

  /** All the frames in use or free exist. */
  ghost predicate Exist(m: Mem, frames: nat) {
    forall f :: f in Owned(m) ==> f < frames
  }

  lemma PartIsOwned(m: Mem, x: Part, i: nat)
    requires Counted(m, x) && i < |Entries(m, x)| && Entries(m, x)[i].valid
    ensures Entries(m, x)[i].pfn in Owned(m)
  {
    NamedOnce(Entries(m, x), i);
    PartCounts(m, x, Entries(m, x)[i].pfn);
  }

  lemma FreeIsOwned(m: Mem, k: nat)
    requires k < |m.free|
    ensures m.free[k] in Owned(m)
  {
    assert m.free[k] in multiset(m.free);
    PartCounts(m, Low, m.free[k]);
  }

  /** Where no frame is shared, the free queue is apart from every table. */
  lemma FreeIsApart(m: Mem, x: Part, frames: nat)
    requires Inv(m) && Exist(m, frames) && Counted(m, x)
    ensures FreeApart(m.free, Entries(m, x), frames) && InMemory(Entries(m, x), frames)
  {
    var t := Entries(m, x);
    forall k | 0 <= k < |m.free| ensures m.free[k] < frames {
      FreeIsOwned(m, k);
    }
    forall i | 0 <= i < |t| && t[i].valid ensures t[i].pfn < frames {
      PartIsOwned(m, x, i);
    }
    forall k, l | 0 <= k < l < |m.free| ensures m.free[k] != m.free[l] {
      FreeIsDistinct(m, k, l);
    }
    forall k, i | 0 <= k < |m.free| && 0 <= i < |t| && t[i].valid ensures m.free[k] != t[i].pfn {
      FreeIsUnused(m, k, x, i);
    }
  }

  lemma BootFramesExist(b: Bounds, frames: nat, stale: seq<Pte>)
    requires b.Valid() && |stale| == KSTACK && b.pages <= frames
    ensures Exist(Boot(b, frames, stale), frames)
  {
    forall f | f in Owned(Boot(b, frames, stale)) ensures f < frames {
      BootFrameExists(b, frames, stale, f);
    }
  }

  lemma BootFrameExists(b: Bounds, frames: nat, stale: seq<Pte>, f: nat)
    requires b.Valid() && |stale| == KSTACK && b.pages <= frames && Owned(Boot(b, frames, stale))[f] > 0
    ensures f < frames
  {
    BootCounts(b, frames, stale, f);
    FreeOnce(b, frames, f);
    LowOnce(b, f);
    StackOnce(b, f);
  }

  /** In every run from boot, whoever runs may fork: what the copying relies on always holds. */
  lemma ForkMayCopy(b: Bounds, frames: nat, stale: seq<Pte>, ms: seq<Mem>, es: seq<Event>, i: nat)
    requires b.Valid() && |stale| == KSTACK && b.pages <= frames
    requires Run(ms, es) && ms[0] == Boot(b, frames, stale) && i <= |es| && ms[i].current.Some?
    ensures var m, p := ms[i], ms[i].current.value;
      && p < |m.spaces|
      && FreeApart(m.free, m.spaces[p].table, frames) && InMemory(m.spaces[p].table, frames)
      && FreeApart(m.free, m.stack, frames) && InMemory(m.stack, frames) && IsStack(m.stack)
  {
    var m := ms[i];
    BootIsInv(b, frames, stale);
    BootFramesExist(b, frames, stale);
    BootStackMapped(b, frames, stale);
    NeverShared(ms, es, i);
    NeverInvented(ms, es, i);
    RunKeepsStacks(ms, es, i);
    assert Exist(m, frames) by {
      forall f | f in Owned(m) ensures f < frames {
        assert f in Owned(ms[0]);
      }
    }
    var p := m.current.value;
    FreeIsApart(m, User(p), frames);
    FreeIsApart(m, Stack0, frames);
    assert IsStack(Home(m, p)) && Home(m, p) == m.stack;
  }

  /** Only pages of the copy window may differ, and those are unmapped. */
  ghost predicate SameButWindow(r0: seq<Pte>, r0': seq<Pte>, w: nat, pages: nat) {
    && |r0'| == |r0|
    && forall p :: 0 <= p < |r0| ==> r0'[p] == r0[p] || (w <= p < w + pages && r0'[p] == Pte(false, 0, 0))
  }

  /** After i pages, k of them valid: what the child has, and that nothing else changed. */
  ghost predicate Copied(t: seq<Pte>, memory0: seq<Bytes>, free0: seq<nat>, memory: seq<Bytes>, child: seq<Pte>,
                         i: nat, k: nat)
  {
    && i <= |t| == |child| && k <= |free0| && |memory| == |memory0| && InMemory(t, |memory|)
    && (forall j :: i <= j < |t| ==> !child[j].valid)
    && (forall j :: 0 <= j < i ==> child[j].valid == t[j].valid)
    && (forall j :: 0 <= j < i && t[j].valid ==>
          && child[j].prot == t[j].prot && child[j].pfn < |memory|
          && child[j].pfn in free0[..k] && memory[child[j].pfn] == memory0[t[j].pfn])
    && (forall f :: 0 <= f < |memory| && f !in free0[..k] ==> memory[f] == memory0[f])
  }

  lemma CopiedNext(t: seq<Pte>, memory0: seq<Bytes>, free0: seq<nat>, memory: seq<Bytes>, child: seq<Pte>,
                   i: nat, k: nat)
    requires Copied(t, memory0, free0, memory, child, i, k) && FreeApart(free0, t, |memory|)
    requires i < |t| && t[i].valid && k < |free0|
    ensures Copied(t, memory0, free0, memory[free0[k] := memory[t[i].pfn]],
                   child[i := Pte(true, t[i].prot, free0[k])], i + 1, k + 1)
  {
    assert free0[..k + 1] == free0[..k] + [free0[k]];
    assert free0[k] !in free0[..k];
    assert t[i].pfn !in free0[..k];
  }
}
