/**
 * Physical frames: the queue of free ones, the page tables that name the others, and every
 * step of the kernel that moves a frame between them.
 */
module Frames {
  import opened Types

  datatype Pte = Pte(valid: bool, prot: nat, pfn: nat)

  const READ := 1
  const WRITE := 2
  const EXEC := 4
  /** Pages of a kernel stack. */
  const KSTACK := 2

  /** A process's region 1 table and its saved kernel stack entries; both [] once it has exited. */
  datatype Space = Space(table: seq<Pte>, kstack: seq<Pte>)

  /** low and stack are the region 0 table, stack its last entries; spaces are numbered from init, 0. */
  datatype Mem = Mem(free: seq<nat>, low: seq<Pte>, stack: seq<Pte>, spaces: seq<Space>, current: Option<nat>)

  // ------------------------------------------------------------ counting frames

  function One(e: Pte): multiset<nat> {
    if e.valid then multiset{e.pfn} else multiset{}
  }

  /** The frames a table names, each as often as it is named. */
  function Mapped(t: seq<Pte>): multiset<nat> {
    if t == [] then multiset{} else Mapped(t[..|t| - 1]) + One(t[|t| - 1])
  }

  function Total(ss: seq<Space>): multiset<nat> {
    if ss == [] then multiset{} else Total(ss[..|ss| - 1]) + FramesOf(ss[|ss| - 1])
  }

  function FramesOf(sp: Space): multiset<nat> {
    Mapped(sp.table) + Mapped(sp.kstack)
  }

  /** The running process's kernel stack is the one region 0 names, whatever its saved copy says. */
  function Effective(m: Mem): (ss: seq<Space>)
    ensures |ss| == |m.spaces|
  {
    match m.current
    case Some(p) => if p < |m.spaces| then m.spaces[p := m.spaces[p].(kstack := m.stack)] else m.spaces
    case None => m.spaces
  }

  /** Every use of a frame in the whole system. */
  function Owned(m: Mem): multiset<nat> {
    multiset(m.free) + Mapped(m.low) + Total(Effective(m))
  }

  /** No frame has two uses. */
  ghost predicate NoAlias(m: Mem) {
    forall f :: Owned(m)[f] <= 1
  }

  /** Table sizes, and the copy window, the last low pages, not mapped between steps. */
  ghost predicate Shape(m: Mem) {
    && |m.stack| == KSTACK && KSTACK <= |m.low| && 0 < |m.spaces|
    && (forall i :: |m.low| - KSTACK <= i < |m.low| ==> !m.low[i].valid)
    && forall p :: 0 <= p < |m.spaces| ==>
         m.spaces[p] == DEAD || (|m.spaces[p].table| == |m.low| + KSTACK && |m.spaces[p].kstack| == KSTACK)
  }

  const DEAD := Space([], [])

  predicate Alive(m: Mem, p: nat) {
    p < |m.spaces| && m.spaces[p] != DEAD
  }

  /** init, 0, starts on the boot stack and has no true saved copy until it is first switched out. */
  ghost predicate Formed(m: Mem) {
    && Shape(m)
    && (m.current.Some? ==> Alive(m, m.current.value))
    && (m.current.Some? && m.current.value != 0 ==> m.spaces[m.current.value].kstack == m.stack)
  }

  ghost predicate Inv(m: Mem) {
    NoAlias(m) && Formed(m)
  }

  lemma {:induction false} MappedConcat(a: seq<Pte>, b: seq<Pte>)
    ensures Mapped(a + b) == Mapped(a) + Mapped(b)
  {
    if b == [] {
      assert a + b == a;
    } else {
      var n := |b| - 1;
      assert (a + b)[..|a + b| - 1] == a + b[..n] && (a + b)[|a + b| - 1] == b[n];
      MappedConcat(a, b[..n]);
    }
  }

  lemma MappedOne(e: Pte)
    ensures Mapped([e]) == One(e)
  {
    assert [e][..0] == [];
  }

  lemma MappedAround(a: seq<Pte>, e: Pte, b: seq<Pte>)
    ensures Mapped(a + [e] + b) == Mapped(a) + One(e) + Mapped(b)
  {
    MappedConcat(a + [e], b);
    MappedConcat(a, [e]);
    MappedOne(e);
  }

  lemma MappedSplit(t: seq<Pte>, a: seq<Pte>, e: Pte, b: seq<Pte>)
    requires t == a + [e] + b
    ensures Mapped(t) == Mapped(a) + One(e) + Mapped(b)
  {
    MappedAround(a, e, b);
  }

  lemma Exchange(now: multiset<nat>, was: multiset<nat>, a: multiset<nat>, b: multiset<nat>,
                 x: multiset<nat>, y: multiset<nat>)
    requires was == a + x + b && now == a + y + b
    ensures now + x == was + y
  {
  }

  lemma MappedUpdate(t: seq<Pte>, i: nat, e: Pte)
    requires i < |t|
    ensures Mapped(t[i := e]) + One(t[i]) == Mapped(t) + One(e)
  {
    var a, b, t' := t[..i], t[i + 1..], t[i := e];
    assert t' == a + [e] + b;
    MappedSplit(t, a, t[i], b);
    MappedSplit(t', a, e, b);
    Exchange(Mapped(t'), Mapped(t), Mapped(a), Mapped(b), One(t[i]), One(e));
  }

  /** Entries that agree on validity and frame map the same frames. */
  lemma {:induction false} SameFrames(a: seq<Pte>, b: seq<Pte>)
    requires |a| == |b| && forall i :: 0 <= i < |a| ==> One(a[i]) == One(b[i])
    ensures Mapped(a) == Mapped(b)
  {
    if a != [] {
      SameFrames(a[..|a| - 1], b[..|b| - 1]);
    }
  }

  lemma {:induction false} TotalConcat(a: seq<Space>, b: seq<Space>)
    ensures Total(a + b) == Total(a) + Total(b)
  {
    if b == [] {
      assert a + b == a;
    } else {
      var n := |b| - 1;
      assert (a + b)[..|a + b| - 1] == a + b[..n] && (a + b)[|a + b| - 1] == b[n];
      TotalConcat(a, b[..n]);
    }
  }

  lemma TotalAround(a: seq<Space>, sp: Space, b: seq<Space>)
    ensures Total(a + [sp] + b) == Total(a) + FramesOf(sp) + Total(b)
  {
    TotalConcat(a + [sp], b);
    TotalConcat(a, [sp]);
    assert [sp][..0] == [];
  }

  lemma TotalSplit(ss: seq<Space>, a: seq<Space>, sp: Space, b: seq<Space>)
    requires ss == a + [sp] + b
    ensures Total(ss) == Total(a) + FramesOf(sp) + Total(b)
  {
    TotalAround(a, sp, b);
  }

  lemma TotalUpdate(ss: seq<Space>, i: nat, sp: Space)
    requires i < |ss|
    ensures Total(ss[i := sp]) + FramesOf(ss[i]) == Total(ss) + FramesOf(sp)
  {
    var a, b, ss' := ss[..i], ss[i + 1..], ss[i := sp];
    assert ss' == a + [sp] + b;
    TotalSplit(ss, a, ss[i], b);
    TotalSplit(ss', a, sp, b);
    Exchange(Total(ss'), Total(ss), Total(a), Total(b), FramesOf(ss[i]), FramesOf(sp));
  }

  // -------------------------------------------------------- filling and releasing

  /** A table being filled from the free queue; ok is false if the queue ran out. */
  datatype Fill = Fill(free: seq<nat>, table: seq<Pte>, ok: bool)

  function Fresh(frame: nat): Pte {
    Pte(true, READ + WRITE, frame)
  }

  /** Give every invalid page from i to hi a frame, upwards; stop where there is none. */
  function FillUp(free: seq<nat>, t: seq<Pte>, i: nat, hi: int): (r: Fill)
    requires hi < |t|
    ensures |r.table| == |t|
    decreases hi - i
  {
    if i > hi then Fill(free, t, true)
    else if t[i].valid then FillUp(free, t, i + 1, hi)
    else if free == [] then Fill(free, t, false)
    else FillUp(free[1..], t[i := Fresh(free[0])], i + 1, hi)
  }

  /** The same from i down to lo. */
  function FillDown(free: seq<nat>, t: seq<Pte>, i: int, lo: nat): (r: Fill)
    requires i < |t|
    ensures |r.table| == |t|
    decreases i - lo
  {
    if i < lo then Fill(free, t, true)
    else if t[i].valid then FillDown(free, t, i - 1, lo)
    else if free == [] then Fill(free, t, false)
    else FillDown(free[1..], t[i := Fresh(free[0])], i - 1, lo)
  }

  /** Fork's table: a fresh frame for every valid page of src from i on, with its protection. */
  function CopyTable(free: seq<nat>, src: seq<Pte>, t: seq<Pte>, i: nat): (r: Fill)
    requires i <= |src| == |t|
    ensures |r.table| == |t|
    decreases |src| - i
  {
    if i == |src| then Fill(free, t, true)
    else if !src[i].valid then CopyTable(free, src, t, i + 1)
    else if free == [] then Fill(free, t, false)
    else CopyTable(free[1..], src, t[i := Pte(true, src[i].prot, free[0])], i + 1)
  }

  /** Pages of a program: text strictly between text and data, data below dataEnd, stack from stackLow. */
  datatype Plan = Plan(text: nat, data: nat, dataEnd: nat, stackLow: nat)

  /** Exec's table from page i on: three frames are taken for each page and at most one is used. */
  function LoadTable(free: seq<nat>, plan: Plan, t: seq<Pte>, i: nat): (r: Fill)
    requires i <= |t|
    ensures |r.table| == |t|
    decreases |t| - i
  {
    if i == |t| then Fill(free, t, true)
    else if |free| < 3 then Fill([], t, false)
    else LoadTable(free[3..], plan, t[i := PlanEntry(plan, t[i], i, free[0], free[1], free[2])], i + 1)
  }

  /** The frames of the valid entries that pass the memory check, in order. */
  function Released(t: seq<Pte>, checked: nat -> bool): seq<nat> {
    if t == [] then [] else
    var n := |t| - 1;
    Released(t[..n], checked) + if t[n].valid && checked(n) then [t[n].pfn] else []
  }

  const ALL: nat -> bool := _ => true

  lemma {:induction false} ReleasedAll(t: seq<Pte>)
    ensures multiset(Released(t, ALL)) == Mapped(t)
  {
    if t != [] {
      ReleasedAll(t[..|t| - 1]);
    }
  }

  lemma {:induction false} ReleasedSome(t: seq<Pte>, checked: nat -> bool)
    ensures multiset(Released(t, checked)) <= Mapped(t)
  {
    if t != [] {
      ReleasedSome(t[..|t| - 1], checked);
    }
  }

  lemma TakeFrame(free: seq<nat>, t: seq<Pte>, i: nat, prot: nat)
    requires free != [] && i < |t| && !t[i].valid
    ensures multiset(free[1..]) + Mapped(t[i := Pte(true, prot, free[0])]) == multiset(free) + Mapped(t)
  {
    var e := Pte(true, prot, free[0]);
    assert free == [free[0]] + free[1..];
    assert multiset(free) == One(e) + multiset(free[1..]);
    MappedUpdate(t, i, e);
    assert Mapped(t[i := e]) == Mapped(t) + One(e);
  }

  lemma {:induction false} FillUpConserves(free: seq<nat>, t: seq<Pte>, i: nat, hi: int)
    requires hi < |t|
    ensures var r := FillUp(free, t, i, hi); multiset(r.free) + Mapped(r.table) == multiset(free) + Mapped(t)
    decreases hi - i
  {
    if i <= hi {
      if t[i].valid {
        FillUpConserves(free, t, i + 1, hi);
      } else if free != [] {
        var t' := t[i := Fresh(free[0])];
        TakeFrame(free, t, i, READ + WRITE);
        FillUpConserves(free[1..], t', i + 1, hi);
        assert FillUp(free, t, i, hi) == FillUp(free[1..], t', i + 1, hi);
      }
    }
  }

  lemma {:induction false} FillDownConserves(free: seq<nat>, t: seq<Pte>, i: int, lo: nat)
    requires i < |t|
    ensures var r := FillDown(free, t, i, lo); multiset(r.free) + Mapped(r.table) == multiset(free) + Mapped(t)
    decreases i - lo
  {
    if i >= lo {
      if t[i].valid {
        FillDownConserves(free, t, i - 1, lo);
      } else if free != [] {
        var t' := t[i := Fresh(free[0])];
        TakeFrame(free, t, i, READ + WRITE);
        FillDownConserves(free[1..], t', i - 1, lo);
        assert FillDown(free, t, i, lo) == FillDown(free[1..], t', i - 1, lo);
      }
    }
  }

  /** Every page of the range is valid afterwards, and valid pages are left alone. */
  lemma {:induction false} FillUpFills(free: seq<nat>, t: seq<Pte>, i: nat, hi: int)
    requires hi < |t|
    ensures var r := FillUp(free, t, i, hi);
            && (r.ok ==> forall k :: i <= k <= hi ==> r.table[k].valid)
            && (forall k :: 0 <= k < |t| && (t[k].valid || k < i || k > hi) ==> r.table[k] == t[k])
    decreases hi - i
  {
    if i <= hi {
      if t[i].valid {
        FillUpFills(free, t, i + 1, hi);
      } else if free != [] {
        var t' := t[i := Fresh(free[0])];
        FillUpFills(free[1..], t', i + 1, hi);
        assert FillUp(free, t, i, hi) == FillUp(free[1..], t', i + 1, hi);
        assert FillUp(free, t, i, hi).table[i] == t'[i];
      }
    }
  }

  lemma {:induction false} FillDownFills(free: seq<nat>, t: seq<Pte>, i: int, lo: nat)
    requires i < |t|
    ensures var r := FillDown(free, t, i, lo);
            && (r.ok ==> forall k :: lo <= k <= i ==> r.table[k].valid)
            && (forall k :: 0 <= k < |t| && (t[k].valid || k < lo || k > i) ==> r.table[k] == t[k])
    decreases i - lo
  {
    if i >= lo {
      if t[i].valid {
        FillDownFills(free, t, i - 1, lo);
      } else if free != [] {
        var t' := t[i := Fresh(free[0])];
        FillDownFills(free[1..], t', i - 1, lo);
        assert FillDown(free, t, i, lo) == FillDown(free[1..], t', i - 1, lo);
        assert FillDown(free, t, i, lo).table[i] == t'[i];
      }
    }
  }

  /** Whether or not fork finds enough frames, those it takes are exactly those its table names. */
  lemma {:induction false} CopyConserves(free: seq<nat>, src: seq<Pte>, t: seq<Pte>, i: nat)
    requires i <= |src| == |t| && forall k :: i <= k < |t| ==> !t[k].valid
    ensures var r := CopyTable(free, src, t, i); multiset(r.free) + Mapped(r.table) == multiset(free) + Mapped(t)
    decreases |src| - i
  {
    if i < |src| {
      if !src[i].valid {
        CopyConserves(free, src, t, i + 1);
      } else if free != [] {
        TakeFrame(free, t, i, src[i].prot);
        CopyConserves(free[1..], src, t[i := Pte(true, src[i].prot, free[0])], i + 1);
      }
    }
  }

  /** The entry exec makes for page i from the three frames it takes. */
  function PlanEntry(plan: Plan, was: Pte, i: nat, f1: nat, f2: nat, f3: nat): Pte {
    if plan.text < i < plan.data then Fresh(f1)
    else if i < plan.dataEnd then Fresh(f2)
    else if i >= plan.stackLow then Fresh(f3)
    else Pte(false, 0, was.pfn)
  }

  lemma TakeThree(free: seq<nat>, plan: Plan, t: seq<Pte>, i: nat)
    requires |free| >= 3 && i < |t| && !t[i].valid
    ensures var e := PlanEntry(plan, t[i], i, free[0], free[1], free[2]);
            multiset(free[3..]) + Mapped(t[i := e]) <= multiset(free) + Mapped(t)
  {
    var e := PlanEntry(plan, t[i], i, free[0], free[1], free[2]);
    assert free == [free[0], free[1], free[2]] + free[3..];
    assert multiset(free) == multiset{free[0], free[1], free[2]} + multiset(free[3..]);
    assert One(e) <= multiset{free[0], free[1], free[2]};
    MappedUpdate(t, i, e);
    assert Mapped(t[i := e]) == Mapped(t) + One(e);
  }

  lemma {:induction false} LoadShrinks(free: seq<nat>, plan: Plan, t: seq<Pte>, i: nat)
    requires i <= |t| && forall k :: i <= k < |t| ==> !t[k].valid
    ensures var r := LoadTable(free, plan, t, i); multiset(r.free) + Mapped(r.table) <= multiset(free) + Mapped(t)
    decreases |t| - i
  {
    if i < |t| && |free| >= 3 {
      TakeThree(free, plan, t, i);
      LoadShrinks(free[3..], plan, t[i := PlanEntry(plan, t[i], i, free[0], free[1], free[2])], i + 1);
    }
  }

  lemma MappedFirst(t: seq<Pte>)
    requires t != []
    ensures |Mapped(t)| == |Mapped(t[1..])| + if t[0].valid then 1 else 0
  {
    MappedConcat([t[0]], t[1..]);
    MappedOne(t[0]);
    assert t == [t[0]] + t[1..];
    assert |One(t[0])| == if t[0].valid then 1 else 0;
  }

  /** Fork's loop succeeds exactly if there is a frame for each valid page, takes just those, and
      where it fails it has emptied the queue. */
  lemma {:induction false} CopyTakes(free: seq<nat>, src: seq<Pte>, t: seq<Pte>, i: nat)
    requires i <= |src| == |t|
    ensures var r, need := CopyTable(free, src, t, i), |Mapped(src[i..])|;
            && (r.ok <==> |free| >= need)
            && (if r.ok then |r.free| == |free| - need else r.free == [])
    decreases |src| - i
  {
    if i < |src| {
      MappedFirst(src[i..]);
      assert src[i..][1..] == src[i + 1..];
      if !src[i].valid {
        CopyTakes(free, src, t, i + 1);
      } else if free != [] {
        CopyTakes(free[1..], src, t[i := Pte(true, src[i].prot, free[0])], i + 1);
      }
    }
  }

  /** Does the plan map page i? */
  predicate Planned(plan: Plan, i: nat) {
    plan.text < i < plan.data || i < plan.dataEnd || i >= plan.stackLow
  }

  function PlannedPages(plan: Plan, i: nat, n: nat): (count: nat)
    requires i <= n
    ensures count <= n - i
    decreases n - i
  {
    if i == n then 0 else (if Planned(plan, i) then 1 else 0) + PlannedPages(plan, i + 1, n)
  }

  lemma SizeAfterUpdate(t: seq<Pte>, i: nat, e: Pte)
    requires i < |t| && !t[i].valid
    ensures |Mapped(t[i := e])| == |Mapped(t)| + if e.valid then 1 else 0
  {
    MappedUpdate(t, i, e);
    assert |Mapped(t[i := e]) + One(t[i])| == |Mapped(t) + One(e)|;
  }

  /** Exec takes exactly three frames a page, and where it fails it has emptied the queue. */
  lemma {:induction false} LoadTakesThree(free: seq<nat>, plan: Plan, t: seq<Pte>, i: nat)
    requires i <= |t| && forall k :: i <= k < |t| ==> !t[k].valid
    ensures var r := LoadTable(free, plan, t, i);
            && (r.ok <==> |free| >= 3 * (|t| - i))
            && (if r.ok then |r.free| + 3 * (|t| - i) == |free| else r.free == [])
            && (r.ok ==> |Mapped(r.table)| == |Mapped(t)| + PlannedPages(plan, i, |t|))
    decreases |t| - i
  {
    if i < |t| && |free| >= 3 {
      var e := PlanEntry(plan, t[i], i, free[0], free[1], free[2]);
      SizeAfterUpdate(t, i, e);
      LoadTakesThree(free[3..], plan, t[i := e], i + 1);
    }
  }

  /** How many valid pages fail the memory check. */
  function Unchecked(t: seq<Pte>, checked: nat -> bool): nat {
    if t == [] then 0 else
    var n := |t| - 1;
    Unchecked(t[..n], checked) + if t[n].valid && !checked(n) then 1 else 0
  }

  lemma {:induction false} ReleasedCount(t: seq<Pte>, checked: nat -> bool)
    ensures |Mapped(t)| == |Released(t, checked)| + Unchecked(t, checked)
  {
    if t != [] {
      var n := |t| - 1;
      ReleasedCount(t[..n], checked);
      assert |Mapped(t)| == |Mapped(t[..n])| + |One(t[n])|;
    }
  }

  // ------------------------------------------------------------------- the steps

  datatype Event =
    | ExpandHeap(first: nat, end: nat)
    | SpawnIdle
    | Fork
    | Brk(first: nat, last: nat)
    | GrowStack(last: nat)
    | Exec(plan: Plan, checked: nat -> bool)
    | Exit
    | Switch(next: nat)

  ghost predicate Enabled(m: Mem, e: Event) {
    match e
    case ExpandHeap(first, end) => end <= |m.low| - KSTACK
    case SpawnIdle => m.current.Some? && |m.free| >= 3
    case Fork => m.current.Some?
    case Brk(_, last) => m.current.Some? && last < |m.low| + KSTACK
    case GrowStack(_) => m.current.Some?
    case Exec(_, _) => m.current.Some?
    case Exit => m.current.Some? && m.current.value != 0
    case Switch(next) => Alive(m, next)
  }

  function Unmapped(n: nat): (t: seq<Pte>)
    ensures |t| == n
  {
    seq(n, _ => Pte(false, 0, 0))
  }

  /** The running process gets table t, the queue becomes free. */
  function WithTable(m: Mem, free: seq<nat>, t: seq<Pte>): Mem
    requires m.current.Some? && m.current.value < |m.spaces|
  {
    var p := m.current.value;
    m.(free := free, spaces := m.spaces[p := m.spaces[p].(table := t)])
  }

  /** expand_heap_pages over the pages first..end - 1 of region 0. */
  function HeapStep(m: Mem, first: nat, end: nat): Mem
    requires end <= |m.low|
  {
    var r := FillUp(m.free, m.low, first, end - 1);
    m.(free := r.free, low := r.table)
  }

  /** The growing branch of BrkHandler. */
  function BrkStep(m: Mem, first: nat, last: nat): Mem
    requires m.current.Some? && m.current.value < |m.spaces| && last < |m.spaces[m.current.value].table|
  {
    var r := FillUp(m.free, m.spaces[m.current.value].table, first, last);
    WithTable(m, r.free, r.table)
  }

  /** The growing branch of TrapMemoryHandler, from the top page down. */
  function GrowStep(m: Mem, last: nat): Mem
    requires m.current.Some? && m.current.value < |m.spaces|
  {
    var t := m.spaces[m.current.value].table;
    var r := FillDown(m.free, t, |t| - 1, last);
    WithTable(m, r.free, r.table)
  }

  /** A new process with this table and the first two free frames as kernel stack. */
  function Born(m: Mem, free: seq<nat>, t: seq<Pte>): Mem
    requires |free| >= 2
  {
    m.(free := free[2..], spaces := m.spaces + [Space(t, [Fresh(free[0]), Fresh(free[1])])])
  }

  /** idle: one page of user stack at the top of region 1, and a kernel stack. */
  function IdleStep(m: Mem): Mem
    requires |m.free| >= 3
  {
    Born(m, m.free[1..], Unmapped(|m.low| + KSTACK)[|m.low| + KSTACK - 1 := Fresh(m.free[0])])
  }

  function ForkStep(m: Mem): Mem
    requires m.current.Some? && m.current.value < |m.spaces|
  {
    var t := m.spaces[m.current.value].table;
    var r := CopyTable(m.free, t, Unmapped(|t|), 0);
    if !r.ok then m.(free := r.free)
    else if |r.free| < 2 then m.(free := [])
    else Born(m, r.free, r.table)
  }

  /** Text pages become executable. */
  function Executable(t: seq<Pte>, plan: Plan): (r: seq<Pte>)
    ensures |r| == |t|
  {
    seq(|t|, i requires 0 <= i < |t| =>
      if plan.text <= i < plan.data && t[i].valid then t[i].(prot := READ + EXEC) else t[i])
  }

  function ExecStep(m: Mem, plan: Plan, checked: nat -> bool): Mem
    requires m.current.Some? && m.current.value < |m.spaces|
  {
    var t := m.spaces[m.current.value].table;
    var r := LoadTable(m.free, plan, Unmapped(|t|), 0);
    if !r.ok then m.(free := r.free)
    else WithTable(m, r.free + Released(t, checked), Executable(r.table, plan))
  }

  function ExitStep(m: Mem): Mem
    requires m.current.Some? && m.current.value < |m.spaces|
  {
    var p := m.current.value;
    m.(free := m.free + Released(m.spaces[p].table, ALL) + Released(m.spaces[p].kstack, ALL),
       spaces := m.spaces[p := DEAD], current := None)
  }

  /** KCSwitch: save the stack entries of the process that ran, if any, and load the next one's. */
  function SwitchStep(m: Mem, next: nat): Mem
    requires next < |m.spaces|
  {
    var saved := Effective(m);
    m.(spaces := saved, stack := saved[next].kstack, current := Some(next))
  }

  ghost function Apply(m: Mem, e: Event): Mem
    requires Formed(m) && Enabled(m, e)
  {
    match e
    case ExpandHeap(first, end) => HeapStep(m, first, end)
    case SpawnIdle => IdleStep(m)
    case Fork => ForkStep(m)
    case Brk(first, last) => BrkStep(m, first, last)
    case GrowStack(last) => GrowStep(m, last)
    case Exec(plan, checked) => ExecStep(m, plan, checked)
    case Exit => ExitStep(m)
    case Switch(next) => SwitchStep(m, next)
  }

  // ------------------------------------------------- what each step does to ownership

  /** Changing one process's space changes what is owned by exactly that. */
  lemma OwnedAfter(m: Mem, m': Mem, p: nat, sp: Space)
    requires p < |m.spaces| && m'.low == m.low && Effective(m') == Effective(m)[p := sp]
    ensures Owned(m') + (multiset(m.free) + FramesOf(Effective(m)[p])) == Owned(m) + (multiset(m'.free) + FramesOf(sp))
  {
    TotalUpdate(Effective(m), p, sp);
    var x, y, z := Total(Effective(m')), Total(Effective(m)), Mapped(m.low);
    assert x + FramesOf(Effective(m)[p]) == y + FramesOf(sp);
    Regroup(multiset(m'.free), multiset(m.free), z, x, y, FramesOf(Effective(m)[p]), FramesOf(sp));
  }

  lemma Regroup(free': multiset<nat>, free: multiset<nat>, low: multiset<nat>, x: multiset<nat>, y: multiset<nat>,
                a: multiset<nat>, b: multiset<nat>)
    requires x + a == y + b
    ensures (free' + low + x) + (free + a) == (free + low + y) + (free' + b)
  {
    assert (free' + low + x) + (free + a) == (free' + low + free) + (x + a);
    assert (free + low + y) + (free' + b) == (free' + low + free) + (y + b);
  }

  lemma Balanced(o': multiset<nat>, o: multiset<nat>, out: multiset<nat>, in': multiset<nat>)
    requires o' + out == o + in'
    ensures in' <= out ==> o' <= o
    ensures in' == out ==> o' == o
  {
    forall f ensures o'[f] + out[f] == o[f] + in'[f] {
      assert (o' + out)[f] == (o + in')[f];
    }
    if in' == out {
      assert forall f :: o'[f] == o[f];
      assert o' == o;
    }
  }
}
