/**
 * What the steps that move frames leave in the page tables, entry by entry: which pages are valid, with
 * which protection, and which frame of the queue each got. And what they leave alone: the memory of a
 * process changes only while it runs.
 */
module Tables {
  import opened Types
  import opened Frames
  import opened Ownership
  import opened Losses
  import opened FrameRuns

  /** Entries from i up to k, exclusive, that are valid, or that are not. */
  function Count(t: seq<Pte>, i: int, k: int, valid: bool): nat
    requires 0 <= i && k <= |t|
    decreases k - i
  {
    if k <= i then 0 else Count(t, i, k - 1, valid) + if t[k - 1].valid == valid then 1 else 0
  }

  lemma {:induction false} CountFirst(t: seq<Pte>, u: seq<Pte>, i: nat, k: nat, valid: bool)
    requires i < k <= |t| == |u| && forall n :: i < n < k ==> u[n].valid == t[n].valid
    ensures Count(t, i, k, valid) == (if t[i].valid == valid then 1 else 0) + Count(u, i + 1, k, valid)
    decreases k
  {
    if k > i + 1 { CountFirst(t, u, i, k - 1, valid); }
  }

  lemma {:induction false} CountSame(t: seq<Pte>, u: seq<Pte>, i: nat, k: int, valid: bool)
    requires |t| == |u| && k <= |t| && forall n :: i <= n < k ==> u[n].valid == t[n].valid
    ensures Count(u, i, k, valid) == Count(t, i, k, valid)
    decreases k - i
  {
    if k > i { CountSame(t, u, i, k - 1, valid); }
  }

  // -------------------------------------------------------------- growing upwards

  /** The invalid pages from first to end, exclusive, got the frames of the queue in order, readable and
      writable, as long as there were any; nothing else changed. */
  ghost predicate GrownUp(t: seq<Pte>, t': seq<Pte>, free: seq<nat>, first: nat, end: int)
    requires end <= |t|
  {
    |t'| == |t| && forall k :: 0 <= k < |t| ==> t'[k] == UpEntry(t, free, first, end, k)
  }

  ghost function UpEntry(t: seq<Pte>, free: seq<nat>, first: nat, end: int, k: nat): Pte
    requires end <= |t| && k < |t|
  {
    if first <= k < end && !t[k].valid && Count(t, first, k, false) < |free|
    then Pte(valid := true, prot := 3, pfn := free[Count(t, first, k, false)]) else t[k]
  }

  lemma UpNext(t: seq<Pte>, free: seq<nat>, i: nat, end: int, k: nat)
    requires i < end <= |t| && k < |t| && !t[i].valid && free != [] && k != i
    ensures UpEntry(t[i := Pte(true, 3, free[0])], free[1..], i + 1, end, k) == UpEntry(t, free, i, end, k)
  {
    if i < k < end { CountFirst(t, t[i := Pte(true, 3, free[0])], i, k, false); }
  }

  lemma UpSkip(t: seq<Pte>, free: seq<nat>, i: nat, end: int, k: nat)
    requires i < end <= |t| && k < |t| && t[i].valid
    ensures UpEntry(t, free, i + 1, end, k) == UpEntry(t, free, i, end, k)
  {
    if i < k < end { CountFirst(t, t, i, k, false); }
  }

  lemma {:induction false} FillUpGives(free: seq<nat>, t: seq<Pte>, i: nat, hi: int)
    requires hi < |t|
    ensures var r, need := FillUp(free, t, i, hi), Count(t, i, hi + 1, false);
            && GrownUp(t, r.table, free, i, hi + 1)
            && (r.ok <==> need <= |free|) && r.free == Drop(free, need)
    decreases hi - i
  {
    if i <= hi {
      CountFirst(t, t, i, hi + 1, false);
      if t[i].valid {
        var r := FillUp(free, t, i + 1, hi);
        FillUpGives(free, t, i + 1, hi);
        forall k | 0 <= k < |t| ensures r.table[k] == UpEntry(t, free, i, hi + 1, k) {
          UpSkip(t, free, i, hi + 1, k);
        }
      } else if free != [] {
        UpGives(free, t, i, hi);
      }
    }
  }

  lemma UpGives(free: seq<nat>, t: seq<Pte>, i: nat, hi: int)
    requires i <= hi < |t| && !t[i].valid && free != []
    ensures var r, need := FillUp(free, t, i, hi), Count(t, i, hi + 1, false);
            && GrownUp(t, r.table, free, i, hi + 1)
            && (r.ok <==> need <= |free|) && r.free == Drop(free, need)
    decreases hi - i, 1
  {
    var u := t[i := Pte(true, 3, free[0])];
    FillUpGives(free[1..], u, i + 1, hi);
    CountFirst(t, u, i, hi + 1, false);
    var r := FillUp(free, t, i, hi);
    assert r == FillUp(free[1..], u, i + 1, hi);
    forall k | 0 <= k < |t| ensures r.table[k] == UpEntry(t, free, i, hi + 1, k) {
      if k != i { UpNext(t, free, i, hi + 1, k); }
    }
  }

  // ------------------------------------------------------------ growing downwards

  /** The same from the top page down to last. */
  ghost predicate GrownDown(t: seq<Pte>, t': seq<Pte>, free: seq<nat>, top: int, last: nat)
    requires top < |t|
  {
    |t'| == |t| && forall k :: 0 <= k < |t| ==> t'[k] == DownEntry(t, free, top, last, k)
  }

  ghost function DownEntry(t: seq<Pte>, free: seq<nat>, top: int, last: nat, k: nat): Pte
    requires top < |t| && k < |t|
  {
    if last <= k <= top && !t[k].valid && Count(t, k + 1, top + 1, false) < |free|
    then Pte(valid := true, prot := 3, pfn := free[Count(t, k + 1, top + 1, false)]) else t[k]
  }

  lemma {:induction false} FillDownGives(free: seq<nat>, t: seq<Pte>, i: int, lo: nat)
    requires i < |t|
    ensures var r, need := FillDown(free, t, i, lo), Count(t, lo, i + 1, false);
            && GrownDown(t, r.table, free, i, lo)
            && (r.ok <==> need <= |free|) && r.free == Drop(free, need)
    decreases i - lo
  {
    if i >= lo {
      if t[i].valid {
        FillDownGives(free, t, i - 1, lo);
      } else if free != [] {
        var u := t[i := Pte(true, 3, free[0])];
        var r := FillDown(free, t, i, lo);
        FillDownGives(free[1..], u, i - 1, lo);
        assert r == FillDown(free[1..], u, i - 1, lo);
        CountSame(t, u, lo, i, false);
        forall k | 0 <= k < |t| ensures r.table[k] == DownEntry(t, free, i, lo, k) {
          if lo <= k < i { CountSame(t, u, k + 1, i, false); }
        }
      }
    }
  }

  // ------------------------------------------------------------------------ fork

  /** Each valid page of the parent from i on is valid in the copy, with the parent's protection and the next
      frame of the queue; the copy has no other. */
  ghost function CopyEntry(src: seq<Pte>, t: seq<Pte>, free: seq<nat>, i: nat, k: nat): Pte
    requires |t| == |src| && k < |src|
  {
    if i <= k && src[k].valid && Count(src, i, k, true) < |free|
    then Pte(valid := true, prot := src[k].prot, pfn := free[Count(src, i, k, true)]) else t[k]
  }

  ghost predicate IsCopy(src: seq<Pte>, t: seq<Pte>, u: seq<Pte>, free: seq<nat>, i: nat)
    requires |t| == |src|
  {
    |u| == |src| && forall k :: 0 <= k < |src| ==> u[k] == CopyEntry(src, t, free, i, k)
  }

  lemma {:induction false} CopyGives(free: seq<nat>, src: seq<Pte>, t: seq<Pte>, i: nat)
    requires i <= |src| == |t|
    ensures var r, need := CopyTable(free, src, t, i), Count(src, i, |src|, true);
            && IsCopy(src, t, r.table, free, i)
            && (r.ok <==> need <= |free|) && r.free == Drop(free, need)
    decreases |src| - i
  {
    if i < |src| {
      var r := CopyTable(free, src, t, i);
      CountFirst(src, src, i, |src|, true);
      if !src[i].valid {
        CopyGives(free, src, t, i + 1);
        forall k | 0 <= k < |t| ensures r.table[k] == CopyEntry(src, t, free, i, k) {
          if k > i { CountFirst(src, src, i, k, true); }
        }
      } else if free != [] {
        CopyMoves(free, src, t, i);
      }
    }
  }

  lemma CopyMoves(free: seq<nat>, src: seq<Pte>, t: seq<Pte>, i: nat)
    requires i < |src| == |t| && src[i].valid && free != []
    ensures var r, need := CopyTable(free, src, t, i), Count(src, i, |src|, true);
            && IsCopy(src, t, r.table, free, i)
            && (r.ok <==> need <= |free|) && r.free == Drop(free, need)
    decreases |src| - i, 1
  {
    var u := t[i := Pte(true, src[i].prot, free[0])];
    var r := CopyTable(free, src, t, i);
    CopyGives(free[1..], src, u, i + 1);
    assert r == CopyTable(free[1..], src, u, i + 1);
    CountFirst(src, src, i, |src|, true);
    forall k | 0 <= k < |t| ensures r.table[k] == CopyEntry(src, t, free, i, k) {
      if k > i { CountFirst(src, src, i, k, true); }
    }
  }

  // ------------------------------------------------------------------------ exec

  /** A program's table: page i is valid exactly if the plan maps it; text from its first page up to data is
      readable and executable, every other valid page readable and writable. */
  ghost predicate ProgramTable(t: seq<Pte>, plan: Plan) {
    forall i :: 0 <= i < |t| ==>
      && (t[i].valid <==> plan.text < i < plan.data || i < plan.dataEnd || i >= plan.stackLow)
      && (t[i].valid ==> t[i].prot == if plan.text <= i < plan.data then 5 else 3)
  }

  /** Page i has one of the three frames taken for it: the first if it is text, the second if it is data, the
      third if it is stack. */
  ghost predicate ProgramFrames(t: seq<Pte>, plan: Plan, free: seq<nat>)
    requires |free| >= 3 * |t|
  {
    forall i :: 0 <= i < |t| && t[i].valid ==>
      t[i].pfn == free[3 * i + Which(plan, i)]
  }

  ghost function Which(plan: Plan, i: nat): nat {
    if plan.text < i < plan.data then 0 else if i < plan.dataEnd then 1 else 2
  }

  ghost predicate LoadedFrom(t: seq<Pte>, t': seq<Pte>, plan: Plan, free: seq<nat>, i: nat)
    requires i <= |t| && |free| >= 3 * (|t| - i)
  {
    && |t'| == |t| && (forall k :: 0 <= k < i ==> t'[k] == t[k])
    && forall k :: i <= k < |t| ==>
         && (t'[k].valid <==> plan.text < k < plan.data || k < plan.dataEnd || k >= plan.stackLow)
         && (t'[k].valid ==> t'[k].prot == 3)
         && (t'[k].valid ==> t'[k].pfn == free[3 * (k - i) + Which(plan, k)])
  }

  lemma {:induction false} LoadGives(free: seq<nat>, plan: Plan, t: seq<Pte>, i: nat)
    requires i <= |t| && |free| >= 3 * (|t| - i)
    ensures var r := LoadTable(free, plan, t, i);
            && r.ok && LoadedFrom(t, r.table, plan, free, i) && r.free == free[3 * (|t| - i)..]
    decreases |t| - i
  {
    if i < |t| {
      var e := PlanEntry(plan, t[i], i, free[0], free[1], free[2]);
      var r := LoadTable(free, plan, t, i);
      LoadGives(free[3..], plan, t[i := e], i + 1);
      assert r == LoadTable(free[3..], plan, t[i := e], i + 1);
      assert r.table[i] == e;
      assert r.free == free[3 * (|t| - i)..];
    }
  }

  lemma ExecutableTable(free: seq<nat>, plan: Plan, n: nat)
    requires |free| >= 3 * n
    ensures var t := Executable(LoadTable(free, plan, Unmapped(n), 0).table, plan);
            ProgramTable(t, plan) && ProgramFrames(t, plan, free)
  {
    LoadGives(free, plan, Unmapped(n), 0);
  }

  /** What a successful exec leaves. */
  lemma ExecMakesTable(m: Mem, plan: Plan, checked: nat -> bool)
    requires Formed(m) && Enabled(m, Exec(plan, checked))
    requires |m.free| >= 3 * |m.spaces[m.current.value].table|
    ensures var p, m' := m.current.value, Apply(m, Exec(plan, checked));
            && |m'.spaces| == |m.spaces|
            && var t, t' := m.spaces[p].table, m'.spaces[p].table;
               && |t'| == |t| && ProgramTable(t', plan) && ProgramFrames(t', plan, m.free)
               && m' == m.(free := m.free[3 * |t|..] + Released(t, checked),
                           spaces := m.spaces[p := m.spaces[p].(table := t')])
  {
    var n := |m.spaces[m.current.value].table|;
    LoadGives(m.free, plan, Unmapped(n), 0);
    ExecutableTable(m.free, plan, n);
  }

  // -------------------------------------------------------------- the other steps

  ghost predicate GivesBack(t: seq<Pte>, checked: nat -> bool, f: nat, i: nat) {
    i < |t| && t[i].valid && checked(i) && t[i].pfn == f
  }

  /** The frames given back are those of the valid pages that pass the check. */
  lemma {:induction false} ReleasedAre(t: seq<Pte>, checked: nat -> bool, f: nat)
    ensures f in Released(t, checked) <==> exists i: nat :: GivesBack(t, checked, f, i)
  {
    if t != [] {
      var n := |t| - 1;
      ReleasedAre(t[..n], checked, f);
      forall i: nat | i < n ensures GivesBack(t[..n], checked, f, i) <==> GivesBack(t, checked, f, i) {}
      if f in Released(t, checked) && f !in Released(t[..n], checked) {
        assert GivesBack(t, checked, f, n);
      }
    }
  }

  lemma {:induction false} CountIsMapped(t: seq<Pte>, k: nat)
    requires k <= |t|
    ensures Count(t, 0, k, true) == |Mapped(t[..k])|
  {
    if k > 0 {
      CountIsMapped(t, k - 1);
      assert t[..k][..k - 1] == t[..k - 1];
      assert |Mapped(t[..k])| == |Mapped(t[..k - 1])| + |One(t[k - 1])|;
    }
  }

  /** What a successful fork leaves: the child has a page where the parent has one, with the same protection,
      and a writable kernel stack, all on the front of the queue; nobody else's memory has changed. */
  lemma ForkMakesTable(m: Mem)
    requires Formed(m) && Enabled(m, Fork) && ForkFits(m)
    ensures var t, m' := m.spaces[m.current.value].table, Apply(m, Fork);
            var n := Count(t, 0, |t|, true);
            && n + 2 <= |m.free| && |m'.spaces| == |m.spaces| + 1
            && var child := m'.spaces[|m.spaces|];
               && Copied(t, child.table, m.free)
               && child.kstack == [Pte(true, 3, m.free[n]), Pte(true, 3, m.free[n + 1])]
               && m' == m.(free := m.free[n + 2..], spaces := m.spaces + [child])
  {
    var t := m.spaces[m.current.value].table;
    CountIsMapped(t, |t|);
    assert t[..|t|] == t;
    CopyIsComplete(m.free, t);
    TwoMore(m.free, Count(t, 0, |t|, true));
  }

  lemma TwoMore(free: seq<nat>, n: nat)
    requires n + 2 <= |free|
    ensures free[n..][0] == free[n] && free[n..][1] == free[n + 1] && free[n..][2..] == free[n + 2..]
  {
  }

  lemma CopyIsComplete(free: seq<nat>, t: seq<Pte>)
    requires Count(t, 0, |t|, true) <= |free|
    ensures var r, n := CopyTable(free, t, Unmapped(|t|), 0), Count(t, 0, |t|, true);
            r.ok && Copied(t, r.table, free) && r.free == free[n..]
  {
    CopyGives(free, t, Unmapped(|t|), 0);
    EntriesAreCopied(t, CopyTable(free, t, Unmapped(|t|), 0).table, Unmapped(|t|), free);
  }

  lemma EntriesAreCopied(t: seq<Pte>, u: seq<Pte>, blank: seq<Pte>, free: seq<nat>)
    requires |t| == |blank| && Count(t, 0, |t|, true) <= |free| && blank == Unmapped(|t|)
    requires IsCopy(t, blank, u, free, 0)
    ensures Copied(t, u, free)
  {
    forall k | 0 <= k < |t| && t[k].valid
      ensures var n := Count(t, 0, k, true); n < |free| && u[k] == Pte(true, t[k].prot, free[n])
    {
      CountGrows(t, k, |t|);
    }
  }

  /** u has the pages of t, with their protection, in the frames of free in order. */
  ghost predicate Copied(t: seq<Pte>, u: seq<Pte>, free: seq<nat>) {
    && |u| == |t|
    && (forall k :: 0 <= k < |t| ==> (u[k].valid <==> t[k].valid))
    && forall k :: 0 <= k < |t| && t[k].valid ==>
         var n := Count(t, 0, k, true); n < |free| && u[k] == Pte(true, t[k].prot, free[n])
  }

  lemma {:induction false} CountGrows(t: seq<Pte>, k: nat, end: nat)
    requires k < end <= |t| && t[k].valid
    ensures Count(t, 0, k, true) < Count(t, 0, end, true)
    decreases end
  {
    if k < end - 1 { CountGrows(t, k, end - 1); }
  }

  /** idle has one page, the top one, and a kernel stack. */
  lemma IdleMakesTable(m: Mem)
    requires Formed(m) && Enabled(m, SpawnIdle)
    ensures var m', top := Apply(m, SpawnIdle), |m.low| + 1;
            && |m'.spaces| == |m.spaces| + 1
            && var idle := m'.spaces[|m.spaces|];
               && |idle.table| == top + 1 && idle.table[top] == Pte(true, 3, m.free[0])
               && (forall k :: 0 <= k < top ==> !idle.table[k].valid)
               && idle.kstack == [Pte(true, 3, m.free[1]), Pte(true, 3, m.free[2])]
               && m' == m.(free := m.free[3..], spaces := m.spaces + [idle])
  {
    assert m.free[1..][2..] == m.free[3..];
  }

  /** Growing the kernel heap, the user heap and the user stack: the missing pages of the range, in the order
      of the loop, and nothing else. */
  lemma HeapGrows(m: Mem, first: nat, end: nat)
    requires Formed(m) && Enabled(m, ExpandHeap(first, end))
    ensures var m' := Apply(m, ExpandHeap(first, end));
            && GrownUp(m.low, m'.low, m.free, first, end)
            && m' == m.(free := Drop(m.free, Count(m.low, first, end, false)), low := m'.low)
  {
    FillUpGives(m.free, m.low, first, end - 1);
  }

  lemma BrkGrows(m: Mem, first: nat, last: nat)
    requires Formed(m) && Enabled(m, Brk(first, last))
    ensures var p, m' := m.current.value, Apply(m, Brk(first, last));
            var t := m.spaces[p].table;
            && |m'.spaces| == |m.spaces| && GrownUp(t, m'.spaces[p].table, m.free, first, last + 1)
            && m' == m.(free := Drop(m.free, Count(t, first, last + 1, false)),
                        spaces := m.spaces[p := m.spaces[p].(table := m'.spaces[p].table)])
  {
    FillUpGives(m.free, m.spaces[m.current.value].table, first, last);
  }

  lemma StackGrows(m: Mem, last: nat)
    requires Formed(m) && Enabled(m, GrowStack(last))
    ensures var p, m' := m.current.value, Apply(m, GrowStack(last));
            var t := m.spaces[p].table;
            && |m'.spaces| == |m.spaces| && GrownDown(t, m'.spaces[p].table, m.free, |t| - 1, last)
            && m' == m.(free := Drop(m.free, Count(t, last, |t|, false)),
                        spaces := m.spaces[p := m.spaces[p].(table := m'.spaces[p].table)])
  {
    var t := m.spaces[m.current.value].table;
    FillDownGives(m.free, t, |t| - 1, last);
  }

  /** Exit gives back the frames of region 1 and of the kernel stack, and takes nothing else from anybody. */
  lemma ExitGivesBack(m: Mem)
    requires Formed(m) && Enabled(m, Exit)
    ensures var p, m' := m.current.value, Apply(m, Exit);
            && m' == m.(free := m'.free, spaces := m.spaces[p := Space([], [])], current := None)
            && Appended(m.free, m'.free, Mapped(m.spaces[p].table) + Mapped(m.spaces[p].kstack))
  {
    var sp := m.spaces[m.current.value];
    ReleasedAll(sp.table);
    ReleasedAll(sp.kstack);
    TwoAppended(m.free, Released(sp.table, ALL), Released(sp.kstack, ALL));
  }

  /** after is before with these frames behind it. */
  ghost predicate Appended(before: seq<nat>, after: seq<nat>, frames: multiset<nat>) {
    before <= after && multiset(after[|before|..]) == frames
  }

  lemma TwoAppended(before: seq<nat>, a: seq<nat>, b: seq<nat>)
    ensures Appended(before, before + a + b, multiset(a) + multiset(b))
  {
    assert (before + a + b)[|before|..] == a + b;
  }

  /** A switch saves the stack entries of whoever ran, loads those of the next, and changes no table. */
  lemma SwitchSwaps(m: Mem, next: nat)
    requires Formed(m) && Enabled(m, Switch(next))
    ensures var m' := Apply(m, Switch(next));
            && m'.current == Some(next) && m'.free == m.free && m'.low == m.low && |m'.spaces| == |m.spaces|
            && (forall p :: 0 <= p < |m.spaces| ==>
                  m'.spaces[p] == if m.current == Some(p) then m.spaces[p].(kstack := m.stack) else m.spaces[p])
            && m'.stack == if m.current == Some(next) then m.stack else m.spaces[next].kstack
  {
  }

  /** A fork or an exec that does not find its frames changes nothing but the queue, which is empty then. */
  lemma FailureEmptiesTheQueue(m: Mem, e: Event)
    requires Formed(m) && Enabled(m, e)
    requires (e.Fork? && !ForkFits(m)) || (e.Exec? && |m.free| < 3 * |m.spaces[m.current.value].table|)
    ensures Apply(m, e) == m.(free := [])
  {
    if e.Fork? { ForkSucceeds(m); } else { FailedExecLosesAll(m, e.plan, e.checked); }
  }

  // ------------------------------------------------------------------- isolation

  /** While a process does not run, its region 1 and its kernel stack stay what they were, whatever the
      others do: no exec, fork, growth or exit of theirs moves a page of it. */
  lemma {:induction false} MemoryIsPrivate(ms: seq<Mem>, es: seq<Event>, p: nat, i: nat, j: nat)
    requires Run(ms, es) && i <= j <= |es| && p < |ms[i].spaces|
    requires forall k :: i <= k < j ==> ms[k].current != Some(p)
    ensures p < |ms[j].spaces| && ms[j].spaces[p] == ms[i].spaces[p]
    decreases j
  {
    if i < j {
      MemoryIsPrivate(ms, es, p, i, j - 1);
      RunAccounted(ms, es, j - 1);
      StepLeavesSpaces(ms[j - 1], es[j - 1], p);
    }
  }

  /** A step leaves everybody's memory but the current process's alone. */
  lemma StepLeavesSpaces(m: Mem, e: Event, p: nat)
    requires Formed(m) && Enabled(m, e) && p < |m.spaces| && m.current != Some(p)
    ensures p < |Apply(m, e).spaces| && Apply(m, e).spaces[p] == m.spaces[p]
  {
    match e
    case Fork => assert Apply(m, e) == ForkStep(m);
    case SpawnIdle => assert Apply(m, e) == IdleStep(m);
    case _ =>
  }

  // ------------------------------------------------------------------------ boot

  /** The frames queued at boot are those above the kernel's data, heap and one spare page and outside its
      stack, in order. */
  lemma {:induction false} FreeAtBoot(b: Bounds, n: nat)
    requires b.Valid()
    ensures forall f: nat :: f in FreeFrames(b, n) <==> f < n && b.brk + 2 <= f && (f < b.pages - 2 || b.pages <= f)
    ensures forall i, j :: 0 <= i < j < |FreeFrames(b, n)| ==> FreeFrames(b, n)[i] < FreeFrames(b, n)[j]
  {
    if n > 0 {
      var before, all := FreeFrames(b, n - 1), FreeFrames(b, n);
      FreeAtBoot(b, n - 1);
      forall i, j | 0 <= i < j < |all| ensures all[i] < all[j] {
        assert all[i] in before;
      }
    }
  }

  /** The tables at boot: kernel text readable and executable, data, heap and stack readable and writable,
      each page in the frame of its own number, and nothing else mapped. */
  lemma MappedAtBoot(b: Bounds, frames: nat, stale: seq<Pte>)
    requires b.Valid()
    ensures var m := Boot(b, frames, stale);
            && |m.low| == b.pages - 2 && |m.stack| == 2 && |m.spaces| == 1 && m.current == Some(0)
            && (forall i :: 0 <= i < |m.low| ==> (m.low[i].valid <==> b.text <= i < b.brk))
            && (forall i :: b.text <= i < b.brk ==> m.low[i] == Pte(true, if i < b.data then 5 else 3, i))
            && m.stack == [Pte(true, 3, b.pages - 2), Pte(true, 3, b.pages - 1)]
            && |m.spaces[0].table| == b.pages && (forall i :: 0 <= i < b.pages ==> !m.spaces[0].table[i].valid)
  {
    var m, base := Boot(b, frames, stale), b.StackBase();
    assert m.stack[0] == BootEntry(b, base) && m.stack[1] == BootEntry(b, base + 1);
    forall i | 0 <= i < |m.low| ensures m.low[i] == BootEntry(b, i) {}
  }
}
