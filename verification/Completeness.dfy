/** The manual leaves nothing open: from one state, one page describes one next state. */
module Completeness {
  import opened Types
  import opened Kernel
  import opened Protocols
  import opened Invariant
  import opened Manual
  import opened Outcomes

  lemma SameBlocks(a: map<Pid, Pcb>, b: map<Pid, Pcb>)
    requires a.Keys == b.Keys && forall p :: p in a ==> a[p] == b[p]
    ensures a == b
  {
  }

  lemma SameAnswer(s: State, a: State, b: State, c: Pid, rc: int)
    requires c in s.w.procs && Answers(s, a, c, rc) && Answers(s, b, c, rc)
    ensures a.q == b.q && a.w.procs == b.w.procs
  {
    SameBlocks(a.w.procs, b.w.procs);
  }

  lemma SameSleep(s: State, a: State, b: State, c: Pid, r: Resume)
    requires c in s.w.procs && Sleeps(s, a, c, r) && Sleeps(s, b, c, r)
    ensures a.q == b.q && a.w.procs == b.w.procs
  {
    SameBlocks(a.w.procs, b.w.procs);
  }

  // -------------------------------------------------------------- processes

  lemma SameFork(s: State, a: State, b: State, c: Pid, child: Pid, framesLeft: bool)
    requires c in s.w.procs && child !in s.w.procs
    requires ForkPage(s, a, c, child, framesLeft) && ForkPage(s, b, c, child, framesLeft)
    ensures a == b
  {
    SameBlocks(a.w.procs, b.w.procs);
  }

  lemma SameExit(s: State, a: State, b: State, c: Pid)
    requires HasParent(s.w.procs, c) && ExitPage(s, a, c) && ExitPage(s, b, c)
    ensures a == b
  {
    SameBlocks(a.w.procs, b.w.procs);
  }

  lemma SameWait(s: State, a: State, b: State, c: Pid)
    requires c in s.w.procs && WaitPage(s, a, c) && WaitPage(s, b, c)
    ensures a == b
  {
    SameBlocks(a.w.procs, b.w.procs);
  }

  lemma SameDelay(s: State, a: State, b: State, c: Pid, n: int)
    requires c in s.w.procs && DelayPage(s, a, c, n) && DelayPage(s, b, c, n)
    ensures a == b
  {
    SameBlocks(a.w.procs, b.w.procs);
  }

  // ------------------------------------------------------------------ locks

  lemma SameLockCalls(s: State, a: State, b: State, c: Pid, id: int)
    requires c in s.w.procs
    ensures LockNewPage(s, a, c) && LockNewPage(s, b, c) ==> a == b
    ensures AcquirePage(s, a, c, id) && AcquirePage(s, b, c, id) ==> a == b
  {
    if (LockNewPage(s, a, c) && LockNewPage(s, b, c)) || (AcquirePage(s, a, c, id) && AcquirePage(s, b, c, id)) {
      SameBlocks(a.w.procs, b.w.procs);
    }
  }

  lemma SameRelease(s: State, a: State, b: State, c: Pid, id: int)
    requires c in s.w.procs && ReleasePage(s, a, c, id) && ReleasePage(s, b, c, id)
    ensures a == b
  {
    SameBlocks(a.w.procs, b.w.procs);
  }

  // ------------------------------------------------------------------ pipes

  lemma SamePipeNew(s: State, a: State, b: State, c: Pid)
    requires c in s.w.procs && PipeNewPage(s, a, c) && PipeNewPage(s, b, c)
    ensures a == b
  {
    SameBlocks(a.w.procs, b.w.procs);
  }

  lemma NoneBefore(before: seq<Pid>, after: seq<Pid>, p: Pid, i: int)
    requires RemovedAt(before, after, p, i)
    ensures forall k :: 0 <= k < i ==> before[k] != p
  {
    forall k | 0 <= k < i ensures before[k] != p {
      assert before[..i][k] == before[k];
    }
  }

  lemma SameRemoved(before: seq<Pid>, a: seq<Pid>, b: seq<Pid>, p: Pid)
    requires RemovedOnce(before, a, p) && RemovedOnce(before, b, p)
    ensures a == b
  {
    if p in before {
      var i: int :| RemovedAt(before, a, p, i);
      var j: int :| RemovedAt(before, b, p, j);
      NoneBefore(before, a, p, i);
      NoneBefore(before, b, p, j);
    }
  }

  lemma SamePipeWrite(s: State, a: State, b: State, c: Pid, id: int, msg: Bytes)
    requires c in s.w.procs && id in s.w.pipes
    requires PipeWritePage(s, a, c, id, msg) && PipeWritePage(s, b, c, id, msg)
    ensures a == b
  {
    SameBlocks(a.w.procs, b.w.procs);
    if |s.w.pipes[id].bytes| + |msg| <= s.w.cfg.pipeLen {
      SameRemoved(s.w.pipes[id].writers, a.w.pipes[id].writers, b.w.pipes[id].writers, c);
    }
  }

  lemma SamePipeRead(s: State, a: State, b: State, c: Pid, id: int, len: nat, calls: bool)
    requires c in s.w.procs && id in s.w.pipes
    requires PipeReadPage(s, a, c, id, len, calls) && PipeReadPage(s, b, c, id, len, calls)
    ensures a == b
  {
    SameBlocks(a.w.procs, b.w.procs);
  }

  // -------------------------------------------------------------- terminals

  lemma SameSend(s: State, a: State, b: State, c: Pid, t: nat, msg: Bytes, start: nat)
    requires c in s.w.procs && t < |s.w.ttys| && SendPage(s, a, c, t, msg, start) && SendPage(s, b, c, t, msg, start)
    ensures a == b
  {
    SameBlocks(a.w.procs, b.w.procs);
  }

  lemma SameTtyWrite(s: State, a: State, b: State, c: Pid, t: nat, msg: Bytes)
    requires c in s.w.procs && t < |s.w.ttys| && TtyWritePage(s, a, c, t, msg) && TtyWritePage(s, b, c, t, msg)
    ensures a == b
  {
    if s.w.ttys[t].available {
      SameSend(s, a, b, c, t, msg, 0);
    } else {
      SameSleep(s, a, b, c, WriteWait(t, msg));
    }
  }

  lemma SameTtyRead(s: State, a: State, b: State, c: Pid, t: nat, len: nat)
    requires c in s.w.procs && t < |s.w.ttys| && TtyReadPage(s, a, c, t, len) && TtyReadPage(s, b, c, t, len)
    ensures a == b
  {
    SameBlocks(a.w.procs, b.w.procs);
  }

  // ------------------------------------------------------------------ traps

  lemma SameTransmit(s: State, a: State, b: State, t: nat)
    requires t < |s.w.ttys| && TransmitPage(s, a, t) && TransmitPage(s, b, t)
    ensures a == b
  {
    SameBlocks(a.w.procs, b.w.procs);
  }

  lemma SameRest(procs: map<Pid, Pcb>, readers: seq<Pid>, line: Bytes, a: Bytes, b: Bytes)
    requires BeyondAll(procs, readers, line, a) && BeyondAll(procs, readers, line, b)
    ensures a == b
  {
    var n, x, y := |line|, |line| - |a|, |line| - |b|;
    if readers != [] {
      var p :| p in readers && Attained(procs, p, n, x);
      var q :| q in readers && Attained(procs, q, n, y);
      assert Covered(procs, p, n, y) && Covered(procs, q, n, x);
    }
  }

  lemma SameReceive(s: State, a: State, b: State, t: nat, line: Bytes)
    requires t < |s.w.ttys| && ReceivePage(s, a, t, line) && ReceivePage(s, b, t, line)
    ensures a == b
  {
    if 1 <= |line| <= s.w.cfg.maxLine {
      SameRest(s.w.procs, s.w.ttys[t].readers, line, a.w.ttys[t].unread, b.w.ttys[t].unread);
      SameBlocks(a.w.procs, b.w.procs);
    }
  }

  lemma SameClock(s: State, a: State, b: State, c: Pid)
    requires ClockPage(s, a, c) && ClockPage(s, b, c)
    ensures a == b
  {
    SameBlocks(a.w.procs, b.w.procs);
  }

  // ------------------------------------------------------------- every step

  lemma SameContinue(s: State, a: State, b: State, c: Pid)
    requires c in s.w.procs && Resumable(s.w, s.w.procs[c].resume)
    requires ContinuePage(s, a, c) && ContinuePage(s, b, c)
    ensures a == b
  {
    match s.w.procs[c].resume
    case LockWait(_) => SameAnswer(s, a, b, c, 0);
    case WaitLoop => SameAnswer(s, a, b, c, 0);
    case WriteWait(t, msg) => SameTtyWrite(s, a, b, c, t, msg);
    case Sending(t, msg, start) => SameSend(s, a, b, c, t, msg, start + s.w.cfg.maxLine);
    case ReadWait(_, _) => SameBlocks(a.w.procs, b.w.procs);
    case PipeReading(id, len) => SamePipeRead(s, a, b, c, id, len, false);
    case PipeWriting(id, msg) => SamePipeWrite(s, a, b, c, id, msg);
  }

  lemma PageIsExact(s: State, e: Event, a: State, b: State)
    requires Enabled(s, e) && Page(s, e, a) && Page(s, e, b)
    ensures a == b
  {
    var c := s.q.current.value;
    match e
    case Fork(child, framesLeft) => SameFork(s, a, b, c, child, framesLeft);
    case Exit(_) => SameExit(s, a, b, c);
    case Wait => SameWait(s, a, b, c);
    case Delay(n) => SameDelay(s, a, b, c, n);
    case LockNew => SameLockCalls(s, a, b, c, 0);
    case Acquire(id) => SameLockCalls(s, a, b, c, id);
    case Release(id) => SameRelease(s, a, b, c, id);
    case PipeNew => SamePipeNew(s, a, b, c);
    case PipeWrite(id, msg) =>
      if id !in s.w.pipes || |msg| > s.w.cfg.pipeLen {
        SameAnswer(s, a, b, c, ERROR);
      } else {
        SamePipeWrite(s, a, b, c, id, msg);
      }
    case PipeRead(id, len) =>
      if id !in s.w.pipes { SameAnswer(s, a, b, c, ERROR); } else { SamePipeRead(s, a, b, c, id, len, true); }
    case TtyWrite(t, msg) => SameTtyWrite(s, a, b, c, t, msg);
    case TtyRead(t, len) => SameTtyRead(s, a, b, c, t, len);
    case Continue => SameContinue(s, a, b, c);
    case Clock => SameClock(s, a, b, c);
    case Transmit(t) => SameTransmit(s, a, b, t);
    case Receive(t, line) => SameReceive(s, a, b, t, line);
  }

  /** The step functions and the manual are the same thing: the next state is the one the page describes. */
  lemma StepIsItsPage(s: State, e: Event, s': State)
    requires Inv(s) && Enabled(s, e)
    ensures Page(s, e, s') <==> s' == Apply(s, e)
  {
    StepMeetsPage(s, e);
    if Page(s, e, s') { PageIsExact(s, e, s', Apply(s, e)); }
  }
}
