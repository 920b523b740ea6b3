/** The loops over page tables and the frame queue, as the kernel runs them in place. */
module FrameCode {
  import opened Types
  import opened Frames
  import FrameRuns
  import Tables

  /** The fields of a process that name frames; null once they have been given back. */
  class Pcb {
    var table: array?<Pte>
    var kstack: array?<Pte>

    constructor (table: array<Pte>, kstack: array<Pte>)
      ensures this.table == table && this.kstack == kstack
    {
      this.table, this.kstack := table, kstack;
    }
  }

  function EntriesOf(a: array?<Pte>): seq<Pte>
    reads a
  {
    if a == null then [] else a[..]
  }

  function AfterRelease(e: Pte, passed: bool): Pte {
    if e.valid && passed then e.(valid := false, prot := 0) else e
  }

  class FrameTables {
    const r0: array<Pte>
    var free: seq<nat>

    constructor (pages: nat)
      ensures fresh(r0) && r0[..] == Unmapped(pages) && free == []
    {
      r0 := new Pte[pages](_ => Pte(false, 0, 0));
      free := [];
    }

    /** init_page_tables: region 0 as the kernel lies in memory, region 1 with nothing mapped. */
    method InitPageTables(b: FrameRuns.Bounds, region1: array<Pte>)
      requires b.Valid() && r0.Length == b.pages && r0[..] == Unmapped(b.pages) && region1 != r0
      modifies r0, region1
      ensures r0[..] == FrameRuns.BootTable(b, 0, b.pages)
      ensures forall i :: 0 <= i < region1.Length ==> region1[i] == old(region1[i]).(valid := false, prot := 0)
    {
      InitRegion0(b);
      var page := 0;
      while page < region1.Length
        invariant 0 <= page <= region1.Length && r0[..] == FrameRuns.BootTable(b, 0, b.pages)
        invariant forall i :: 0 <= i < page ==> region1[i] == old(region1[i]).(valid := false, prot := 0)
        invariant forall i :: page <= i < region1.Length ==> region1[i] == old(region1[i])
      {
        region1[page] := region1[page].(valid := false, prot := 0);
        page := page + 1;
      }
    }

    method InitRegion0(b: FrameRuns.Bounds)
      requires b.Valid() && r0.Length == b.pages && r0[..] == Unmapped(b.pages)
      modifies r0
      ensures r0[..] == FrameRuns.BootTable(b, 0, b.pages)
    {
      var page := 0;
      while page < b.pages
        invariant 0 <= page <= b.pages
        invariant forall i :: 0 <= i < page ==> r0[i] == FrameRuns.BootEntry(b, i)
        invariant forall i :: page <= i < b.pages ==> r0[i] == Pte(false, 0, 0)
      {
        if page < b.text {
          r0[page] := r0[page].(valid := false, prot := 0);
        } else if page < b.data {
          r0[page] := Pte(true, EXEC + READ, page);
        } else if page < b.brk {
          r0[page] := Pte(true, WRITE + READ, page);
        } else if page >= b.StackBase() && page < b.pages {
          r0[page] := Pte(true, WRITE + READ, page);
        } else {
          r0[page] := r0[page].(valid := false, prot := 0);
        }
        page := page + 1;
      }
    }

    /** init_free_frame_queue. */
    method InitFreeFrameQueue(b: FrameRuns.Bounds, frames: nat)
      requires b.Valid()
      modifies this`free
      ensures free == old(free) + FrameRuns.FreeFrames(b, frames)
    {
      var frame := 0;
      while frame < frames
        invariant 0 <= frame <= frames && free == old(free) + FrameRuns.FreeFrames(b, frame)
      {
        var region := 0;
        if frame < b.text {
          region := 1;
        } else if frame < b.data {
          region := 2;
        } else if frame <= b.brk + 1 {
          region := 3;
        } else if frame >= b.StackBase() && frame < b.pages {
          region := 4;
        }
        if region == 0 {
          free := free + [frame];
        }
        frame := frame + 1;
      }
    }

    /** The loop of expand_heap_pages and of BrkHandler: upwards from first to last. */
    method GrowUp(table: array<Pte>, first: nat, last: int) returns (ok: bool)
      requires last < table.Length
      modifies this`free, table
      ensures Fill(free, table[..], ok) == FillUp(old(free), old(table[..]), first, last)
    {
      var i := first;
      while i <= last
        invariant first <= i && (i <= last + 1 || i == first)
        invariant FillUp(free, table[..], i, last) == FillUp(old(free), old(table[..]), first, last)
        decreases last - i
      {
        if !table[i].valid {
          if free == [] {
            return false;
          }
          var frame := free[0];
          free := free[1..];
          ghost var was := table[..];
          table[i] := Pte(true, READ + WRITE, frame);
          assert table[..] == was[i := Fresh(frame)];
        }
        i := i + 1;
      }
      ok := true;
    }

    /** The loop of TrapMemoryHandler: downwards from the top page to last. */
    method GrowDown(table: array<Pte>, last: nat) returns (ok: bool)
      modifies this`free, table
      ensures Fill(free, table[..], ok) == FillDown(old(free), old(table[..]), table.Length - 1, last)
    {
      var i := table.Length - 1;
      while i >= last
        invariant -1 <= i < table.Length
        invariant FillDown(free, table[..], i, last) == FillDown(old(free), old(table[..]), table.Length - 1, last)
      {
        if !table[i].valid {
          if free == [] {
            return false;
          }
          var frame := free[0];
          free := free[1..];
          ghost var was := table[..];
          table[i] := Pte(true, READ + WRITE, frame);
          assert table[..] == was[i := Fresh(frame)];
        }
        i := i - 1;
      }
      ok := true;
    }

    /** One of the two release loops of pcbExit and pcbFree. */
    method Release(table: array<Pte>)
      modifies this`free
      ensures free == old(free) + Released(table[..], ALL)
    {
      var i := 0;
      while i < table.Length
        invariant 0 <= i <= table.Length && free == old(free) + Released(table[..i], ALL)
      {
        assert table[..i + 1][..i] == table[..i];
        if table[i].valid {
          free := free + [table[i].pfn];
        }
        i := i + 1;
      }
      assert table[..i] == table[..];
    }

    /** pcbExit: give back region 1 and the kernel stack, and forget them; nothing for null. */
    method PcbExit(pcb: Pcb?)
      modifies this`free, pcb
      ensures pcb == null ==> free == old(free)
      ensures pcb != null ==>
        && pcb.table == null == pcb.kstack
        && free == old(free) + Released(old(EntriesOf(pcb.table)), ALL) + Released(old(EntriesOf(pcb.kstack)), ALL)
    {
      if pcb == null {
        return;
      }
      if pcb.table != null {
        Release(pcb.table);
        pcb.table := null;
      }
      if pcb.kstack != null {
        Release(pcb.kstack);
        pcb.kstack := null;
      }
    }

    /** pcbFree: the same releases before the block itself goes. */
    method PcbFree(pcb: Pcb?)
      modifies this`free, pcb
      ensures pcb == null ==> free == old(free)
      ensures pcb != null ==>
        && pcb.table == null == pcb.kstack
        && free == old(free) + Released(old(EntriesOf(pcb.table)), ALL) + Released(old(EntriesOf(pcb.kstack)), ALL)
    {
      if pcb == null {
        return;
      }
      if pcb.table != null {
        Release(pcb.table);
        pcb.table := null;
      }
      if pcb.kstack != null {
        Release(pcb.kstack);
        pcb.kstack := null;
      }
    }

    /** The two ways a process is taken apart: its parent waits for it or it stays as a zombie
        until collected. Either way the same frames are pushed once, in the same order. */
    method TakeApart(pcb: Pcb, parentWaits: bool)
      modifies this`free, pcb
      ensures free == old(free) + Released(old(EntriesOf(pcb.table)), ALL) + Released(old(EntriesOf(pcb.kstack)), ALL)
    {
      if parentWaits {
        PcbFree(pcb);
        PcbExit(null);
      } else {
        PcbExit(pcb);
        PcbFree(pcb);
      }
    }

    /** KCSwitch's table part: save the running process's stack entries, load the next one's. */
    method SwitchStacks(curr: Pcb?, next: Pcb)
      requires KSTACK <= r0.Length
      requires next.kstack != null && next.kstack != r0 && next.kstack.Length == KSTACK
      requires curr != null && curr.kstack != null ==> curr.kstack != r0 && curr.kstack.Length == KSTACK
      requires curr != null && curr != next ==> curr.kstack != next.kstack
      modifies r0, if curr == null then null else curr.kstack
      ensures r0[..r0.Length - KSTACK] == old(r0[..r0.Length - KSTACK])
      ensures curr != null && curr.kstack != null ==> curr.kstack[..] == old(r0[r0.Length - KSTACK..])
      ensures r0[r0.Length - KSTACK..] == if curr == next then old(r0[r0.Length - KSTACK..]) else old(next.kstack[..])
    {
      var top := r0.Length - KSTACK;
      if curr != null && curr.kstack != null {
        curr.kstack[0] := r0[top];
        curr.kstack[1] := r0[top + 1];
      }
      r0[top] := next.kstack[0];
      r0[top + 1] := next.kstack[1];
    }

    /** The page loop of LoadProgram, into a new table. */
    method LoadPages(plan: Plan, pages: nat) returns (table: array<Pte>, ok: bool)
      modifies this`free
      ensures fresh(table) && Fill(free, table[..], ok) == LoadTable(old(free), plan, Unmapped(pages), 0)
    {
      table := new Pte[pages](_ => Pte(false, 0, 0));
      assert table[..] == Unmapped(pages);
      var i := 0;
      while i < pages
        invariant 0 <= i <= pages
        invariant LoadTable(free, plan, table[..], i) == LoadTable(old(free), plan, Unmapped(pages), 0)
      {
        if |free| < 3 {
          free := [];
          return table, false;
        }
        ghost var was := table[..];
        var f1, f2, f3 := free[0], free[1], free[2];
        free := free[3..];
        if i > plan.text && i < plan.data {
          table[i] := Pte(true, READ + WRITE, f1);
        } else if i < plan.dataEnd {
          table[i] := Pte(true, READ + WRITE, f2);
        } else if i >= plan.stackLow {
          table[i] := Pte(true, READ + WRITE, f3);
        } else {
          table[i] := table[i].(valid := false, prot := 0);
        }
        assert table[..] == was[i := PlanEntry(plan, was[i], i, f1, f2, f3)];
        i := i + 1;
      }
      ok := true;
    }

    /** free_page_frame over every valid page of the old region 1: pages that pass the check are
        unmapped and their frames queued, the others stay. */
    method ReleaseOld(table: array<Pte>, checked: nat -> bool)
      modifies this`free, table
      ensures free == old(free) + Released(old(table[..]), checked)
      ensures forall k :: 0 <= k < table.Length ==> table[k] == AfterRelease(old(table[k]), checked(k))
    {
      ghost var was := table[..];
      var i := 0;
      while i < table.Length
        invariant 0 <= i <= table.Length && free == old(free) + Released(was[..i], checked)
        invariant table[i..] == was[i..]
        invariant forall k :: 0 <= k < i ==> table[k] == AfterRelease(was[k], checked(k))
      {
        assert was[..i + 1][..i] == was[..i] && table[i] == was[i];
        if table[i].valid && checked(i) {
          var frame := table[i].pfn;
          table[i] := table[i].(valid := false, prot := 0);
          free := free + [frame];
        }
        assert table[i + 1..] == was[i + 1..];
        i := i + 1;
      }
      assert was[..i] == was;
    }

    /** The table part of LoadProgram on process pcb: all that ExecStep says. */
    method LoadProgram(pcb: Pcb, plan: Plan, checked: nat -> bool) returns (ok: bool)
      requires pcb.table != null
      modifies this`free, pcb.table
      ensures var r := LoadTable(old(free), plan, Unmapped(pcb.table.Length), 0);
              && ok == r.ok
              && free == (if r.ok then r.free + Released(old(pcb.table[..]), checked) else r.free)
              && pcb.table[..] == (if r.ok then Executable(r.table, plan) else old(pcb.table[..]))
      ensures ok <==> |old(free)| >= 3 * pcb.table.Length
      ensures ok ==> Tables.ProgramTable(pcb.table[..], plan) && Tables.ProgramFrames(pcb.table[..], plan, old(free))
    {
      ghost var r, was := LoadTable(free, plan, Unmapped(pcb.table.Length), 0), pcb.table[..];
      LoadTakesThree(free, plan, Unmapped(pcb.table.Length), 0);
      var pages: array<Pte>;
      pages, ok := LoadPages(plan, pcb.table.Length);
      assert Fill(free, pages[..], ok) == r;
      if !ok {
        return;
      }
      ReleaseOld(pcb.table, checked);
      assert free == r.free + Released(was, checked);
      var i := 0;
      while i < pages.Length
        modifies pcb.table
        invariant 0 <= i <= pages.Length && pcb.table[..i] == pages[..i]
      {
        pcb.table[i] := pages[i];
        i := i + 1;
      }
      assert pcb.table[..] == pages[..];
      MakeExecutable(pcb.table, plan);
      Tables.ExecutableTable(old(free), plan, pcb.table.Length);
    }

    /** Text pages lose write permission and gain execute permission. */
    method MakeExecutable(table: array<Pte>, plan: Plan)
      modifies table
      ensures table[..] == Executable(old(table[..]), plan)
    {
      ghost var was := table[..];
      var i := plan.text;
      while i < plan.data && i < table.Length
        invariant plan.text <= i
        invariant forall k :: 0 <= k < table.Length && k < i ==> table[k] == Executable(was, plan)[k]
        invariant forall k :: i <= k < table.Length ==> table[k] == was[k]
      {
        if table[i].valid {
          table[i] := table[i].(prot := EXEC + READ);
        }
        i := i + 1;
      }
    }
  }
}
