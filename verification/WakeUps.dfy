/** What a step does to the processes that do not take it: exactly who is woken, and that is all. */
module WakeUps {
  import opened Types
  import opened Kernel
  import opened Placement
  import opened Protocols
  import opened Family
  import opened Invariant
  import opened Exactness
  import opened Runs
  import opened Manual
  import opened Outcomes

  /** p waits for a line. */
  ghost predicate Listens(w: World, p: Pid) {
    exists t :: 0 <= t < |w.ttys| && p in w.ttys[t].readers
  }

  /** The result register, the bytes read and the place where p goes on are as they were; p may have been
      made ready. */
  ghost predicate SameRegisters(s: State, s': State, p: Pid) {
    && p in s.w.procs && p in s'.w.procs
    && s'.w.procs[p].rc == s.w.procs[p].rc && s'.w.procs[p].got == s.w.procs[p].got
    && s'.w.procs[p].resume == s.w.procs[p].resume
    && s'.w.procs[p].state in {s.w.procs[p].state, Ready}
  }

  /** And only somebody who waits for a line gets one. */
  ghost predicate Untouched(s: State, s': State, p: Pid) {
    SameRegisters(s, s', p) && (s'.w.procs[p].line == s.w.procs[p].line || Listens(s.w, p))
  }

  /** Process c takes the step. */
  predicate Takes(s: State, e: Event, c: Pid) {
    s.q.current == Some(c) && (FromUser(e) || e.Continue?)
  }

  lemma PipePagesLeaveOthers(s: State, s': State, c: Pid, id: int, msg: Bytes, len: nat, calls: bool, p: Pid)
    requires c in s.w.procs && id in s.w.pipes && p in s.w.procs && p != c
    requires PipeWritePage(s, s', c, id, msg) || PipeReadPage(s, s', c, id, len, calls)
    ensures Untouched(s, s', p)
  {
  }

  lemma TtyPagesLeaveOthers(s: State, s': State, c: Pid, t: nat, msg: Bytes, start: nat, p: Pid)
    requires c in s.w.procs && t < |s.w.ttys| && p in s.w.procs && p != c
    requires SendPage(s, s', c, t, msg, start) || TtyWritePage(s, s', c, t, msg)
    ensures Untouched(s, s', p)
  {
  }

  lemma ContinueLeavesOthers(s: State, s': State, c: Pid, p: Pid)
    requires c in s.w.procs && Resumable(s.w, s.w.procs[c].resume) && p in s.w.procs && p != c
    requires ContinuePage(s, s', c)
    ensures Untouched(s, s', p)
  {
    match s.w.procs[c].resume
    case WriteWait(t, msg) => TtyPagesLeaveOthers(s, s', c, t, msg, 0, p);
    case Sending(t, msg, start) => TtyPagesLeaveOthers(s, s', c, t, msg, start + s.w.cfg.maxLine, p);
    case PipeReading(id, len) => PipePagesLeaveOthers(s, s', c, id, [], len, false, p);
    case PipeWriting(id, msg) => PipePagesLeaveOthers(s, s', c, id, msg, 0, false, p);
    case _ =>
  }

  lemma CallPagesLeaveOthers(s: State, e: Event, s': State, p: Pid)
    requires Enabled(s, e) && Page(s, e, s') && p in s.w.procs && p != s.q.current.value
    requires e.Wait? || e.Delay? || e.LockNew? || e.Acquire? || e.Release? || e.PipeNew? || e.TtyRead?
    ensures Untouched(s, s', p)
  {
  }

  lemma FamilyPagesLeaveOthers(s: State, e: Event, s': State, p: Pid)
    requires Enabled(s, e) && Page(s, e, s') && p in s.w.procs && p != s.q.current.value && (e.Fork? || e.Exit?)
    ensures Untouched(s, s', p)
  {
  }

  lemma TrapPagesLeaveAll(s: State, e: Event, s': State, p: Pid)
    requires Enabled(s, e) && Page(s, e, s') && p in s.w.procs && (e.Clock? || e.Transmit? || e.Receive?)
    ensures Untouched(s, s', p)
  {
    if e.Receive? && 1 <= |e.line| <= s.w.cfg.maxLine {
      assert p in s.w.ttys[e.t].readers || p !in s.w.ttys[e.t].readers;
    }
  }

  lemma PipeCallsLeaveOthers(s: State, e: Event, s': State, p: Pid)
    requires Enabled(s, e) && Page(s, e, s') && p in s.w.procs && p != s.q.current.value
    requires e.PipeWrite? || e.PipeRead?
    ensures Untouched(s, s', p)
  {
    var c := s.q.current.value;
    match e
    case PipeWrite(id, msg) =>
      if id in s.w.pipes && |msg| <= s.w.cfg.pipeLen { PipePagesLeaveOthers(s, s', c, id, msg, 0, true, p); }
    case PipeRead(id, len) =>
      if id in s.w.pipes { PipePagesLeaveOthers(s, s', c, id, [], len, true, p); }
  }

  lemma PageLeavesOthers(s: State, e: Event, s': State, p: Pid)
    requires Enabled(s, e) && Page(s, e, s') && p in s.w.procs && !Takes(s, e, p)
    ensures Untouched(s, s', p)
  {
    var c := s.q.current.value;
    if e.Clock? || e.Transmit? || e.Receive? {
      TrapPagesLeaveAll(s, e, s', p);
    } else if e.Continue? {
      ContinueLeavesOthers(s, s', c, p);
    } else if e.TtyWrite? {
      TtyPagesLeaveOthers(s, s', c, e.t, e.msg, 0, p);
    } else if e.PipeWrite? || e.PipeRead? {
      PipeCallsLeaveOthers(s, e, s', p);
    } else if e.Fork? || e.Exit? {
      FamilyPagesLeaveOthers(s, e, s', p);
    } else {
      CallPagesLeaveOthers(s, e, s', p);
    }
  }

  /** A step leaves the registers of everybody but the process that takes it; traps leave everybody's. */
  lemma StepLeavesOthers(s: State, e: Event, p: Pid)
    requires Inv(s) && Enabled(s, e) && p in s.w.procs && !Takes(s, e, p)
    ensures Untouched(s, Apply(s, e), p)
  {
    StepMeetsPage(s, e);
    PageLeavesOthers(s, e, Apply(s, e), p);
  }

  // ----------------------------------------------------------- exactly who wakes

  /** The current process ends its message to terminal t. */
  ghost predicate EndsMessage(s: State, e: Event, t: nat)
    requires Enabled(s, e)
  {
    if e.TtyWrite? then e.t == t && e.msg == [] && s.w.ttys[t].available
    else e.Continue? && match s.w.procs[s.q.current.value].resume
      case WriteWait(u, msg) => u == t && msg == [] && s.w.ttys[t].available
      case Sending(u, msg, start) => u == t && start + s.w.cfg.maxLine >= |msg|
      case _ => false
  }

  /** The current process puts its bytes into pipe id. */
  ghost predicate Fills(s: State, e: Event, id: int)
    requires Enabled(s, e)
  {
    && id in s.w.pipes
    && var room := s.w.cfg.pipeLen - |s.w.pipes[id].bytes|;
       if e.PipeWrite? then e.id == id && |e.msg| <= s.w.cfg.pipeLen && |e.msg| <= room
       else e.Continue? && match s.w.procs[s.q.current.value].resume
         case PipeWriting(i, msg) => i == id && |msg| <= room
         case _ => false
  }

  /** The current process takes bytes from pipe id and leaves some. */
  ghost predicate LeavesBytes(s: State, e: Event, id: int)
    requires Enabled(s, e)
  {
    && Drained(s, e) == Some(id) && id in s.w.pipes
    && |s.w.pipes[id].bytes| > if e.PipeRead? then e.len else s.w.procs[s.q.current.value].resume.len
  }

  /** What p is blocked on happens, and p is the one to be woken; or its child exits while its flag is set. */
  ghost predicate Awaited(s: State, e: Event, p: Pid)
    requires Enabled(s, e) && p in s.w.procs
  {
    var c := s.q.current.value;
    || (e.Exit? && s.w.procs[c].parent == Some(p) && s.w.procs[p].waiting)
    || match s.w.procs[p].resume
       case LockWait(id) =>
         e == Release(id) && id in s.w.locks && s.w.locks[id].owner == c && [p] <= s.w.locks[id].waiters
       case WriteWait(t, _) => t < |s.w.ttys| && EndsMessage(s, e, t) && [p] <= s.w.ttys[t].writeQueue
       case Sending(t, _, _) => e == Transmit(t)
       case ReadWait(t, _) => e.Receive? && e.t == t && 1 <= |e.line| <= s.w.cfg.maxLine
       case PipeReading(id, _) =>
         (Fills(s, e, id) || LeavesBytes(s, e, id)) && id in s.w.pipes && [p] <= s.w.pipes[id].readers
       case PipeWriting(id, _) => Drained(s, e) == Some(id)
       case _ => false
  }

  ghost predicate BecomesReady(s: State, s': State, p: Pid) {
    p in s'.w.procs && s'.w.procs[p].state == Ready
  }

  lemma PipeWriteWakes(s: State, s': State, c: Pid, id: int, msg: Bytes, p: Pid)
    requires c in s.w.procs && id in s.w.pipes && Waits(s.w, p) && p != c
    requires PipeWritePage(s, s', c, id, msg)
    ensures BecomesReady(s, s', p) <==>
              |s.w.pipes[id].bytes| + |msg| <= s.w.cfg.pipeLen && [p] <= s.w.pipes[id].readers
  {
  }

  lemma PipeReadWakes(s: State, s': State, c: Pid, id: int, len: nat, calls: bool, p: Pid)
    requires c in s.w.procs && id in s.w.pipes && Waits(s.w, p) && p != c
    requires PipeReadPage(s, s', c, id, len, calls)
    ensures BecomesReady(s, s', p) <==>
              && s.w.pipes[id].bytes != []
              && (p in s.w.pipes[id].writers || (|s.w.pipes[id].bytes| > len && [p] <= s.w.pipes[id].readers))
  {
  }

  lemma SendWakes(s: State, s': State, c: Pid, t: nat, msg: Bytes, start: nat, p: Pid)
    requires c in s.w.procs && t < |s.w.ttys| && Waits(s.w, p) && p != c
    requires SendPage(s, s', c, t, msg, start)
    ensures BecomesReady(s, s', p) <==> start >= |msg| && [p] <= s.w.ttys[t].writeQueue
  {
  }

  /** A blocked process is registered where it waits, and nowhere else. */
  ghost predicate RegisteredWhereItWaits(w: World, p: Pid)
    requires p in w.procs
  {
    var r := w.procs[p].resume;
    && (forall id :: id in w.locks ==> (p in w.locks[id].waiters <==> r == LockWait(id)))
    && (forall id :: id in w.pipes ==>
          && (p in w.pipes[id].writers <==> r.PipeWriting? && r.id == id)
          && (p in w.pipes[id].readers ==> r.PipeReading? && r.id == id))
    && (forall t :: 0 <= t < |w.ttys| ==>
          && (p in w.ttys[t].writeQueue <==> r.WriteWait? && r.t == t)
          && (p in w.ttys[t].readers <==> r.ReadWait? && r.t == t)
          && (w.ttys[t].writer == Some(p) <==> r.Sending? && r.t == t))
  }

  lemma BlockedIsRegistered(w: World, p: Pid)
    requires Protocol(w) && Waits(w, p)
    ensures RegisteredWhereItWaits(w, p)
  {
    assert ProcOk(w, p);
    forall id | id in w.locks ensures p in w.locks[id].waiters <==> w.procs[p].resume == LockWait(id) {
      assert KeyOk(w, LockKey(id));
    }
    forall id | id in w.pipes
      ensures p in w.pipes[id].writers <==> w.procs[p].resume.PipeWriting? && w.procs[p].resume.id == id
      ensures p in w.pipes[id].readers ==> w.procs[p].resume.PipeReading? && w.procs[p].resume.id == id
    {
      assert KeyOk(w, PipeKey(id));
    }
    forall t | 0 <= t < |w.ttys|
      ensures p in w.ttys[t].writeQueue <==> w.procs[p].resume.WriteWait? && w.procs[p].resume.t == t
      ensures p in w.ttys[t].readers <==> w.procs[p].resume.ReadWait? && w.procs[p].resume.t == t
      ensures w.ttys[t].writer == Some(p) <==> w.procs[p].resume.Sending? && w.procs[p].resume.t == t
    {
      assert KeyOk(w, TtyKey(t));
    }
  }

  ghost predicate WokenAsAwaited(s: State, e: Event, s': State, p: Pid)
    requires Enabled(s, e) && p in s.w.procs
  {
    BecomesReady(s, s', p) <==> Awaited(s, e, p)
  }

  /** A blocked process that is not current, with what is known of its registration. */
  ghost predicate Bystander(s: State, p: Pid) {
    Waits(s.w, p) && s.q.current != Some(p) && RegisteredWhereItWaits(s.w, p)
  }

  lemma ExitWakes(s: State, e: Event, s': State, p: Pid)
    requires Enabled(s, e) && Page(s, e, s') && Bystander(s, p) && e.Exit?
    ensures WokenAsAwaited(s, e, s', p)
  {
  }

  lemma FamilyCallsWakeNobody(s: State, e: Event, s': State, p: Pid)
    requires Enabled(s, e) && Page(s, e, s') && Bystander(s, p) && (e.Fork? || e.Wait? || e.Delay?)
    ensures WokenAsAwaited(s, e, s', p)
  {
  }

  lemma QuietCallsWakeNobody(s: State, e: Event, s': State, p: Pid)
    requires Enabled(s, e) && Page(s, e, s') && Bystander(s, p) && (e.LockNew? || e.PipeNew?)
    ensures WokenAsAwaited(s, e, s', p)
  {
  }

  lemma WaitingCallsWakeNobody(s: State, e: Event, s': State, p: Pid)
    requires Enabled(s, e) && Page(s, e, s') && Bystander(s, p) && (e.Acquire? || e.TtyRead?)
    ensures WokenAsAwaited(s, e, s', p)
  {
  }

  lemma ReleaseWakes(s: State, e: Event, s': State, p: Pid)
    requires Enabled(s, e) && Page(s, e, s') && Bystander(s, p) && e.Release?
    ensures WokenAsAwaited(s, e, s', p)
  {
  }

  lemma PipeWriteCallWakes(s: State, e: Event, s': State, p: Pid)
    requires Enabled(s, e) && Page(s, e, s') && Bystander(s, p) && e.PipeWrite?
    ensures WokenAsAwaited(s, e, s', p)
  {
    if e.id in s.w.pipes && |e.msg| <= s.w.cfg.pipeLen {
      PipeWriteWakes(s, s', s.q.current.value, e.id, e.msg, p);
    }
  }

  lemma PipeReadCallWakes(s: State, e: Event, s': State, p: Pid)
    requires Enabled(s, e) && Page(s, e, s') && Bystander(s, p) && e.PipeRead?
    ensures WokenAsAwaited(s, e, s', p)
  {
    if e.id in s.w.pipes { PipeReadWakes(s, s', s.q.current.value, e.id, e.len, true, p); }
  }

  lemma TtyWriteWakes(s: State, e: Event, s': State, p: Pid)
    requires Enabled(s, e) && Page(s, e, s') && Bystander(s, p) && e.TtyWrite?
    ensures WokenAsAwaited(s, e, s', p)
  {
    if s.w.ttys[e.t].available { SendWakes(s, s', s.q.current.value, e.t, e.msg, 0, p); }
  }

  lemma TrapsWake(s: State, e: Event, s': State, p: Pid)
    requires Enabled(s, e) && Page(s, e, s') && Bystander(s, p) && (e.Clock? || e.Transmit? || e.Receive?)
    requires p !in s.q.delayed
    ensures WokenAsAwaited(s, e, s', p)
  {
  }

  lemma ContinuedSendWakes(s: State, s': State, p: Pid)
    requires Enabled(s, Continue) && Page(s, Continue, s') && Bystander(s, p)
    requires var r := s.w.procs[s.q.current.value].resume; r.WriteWait? || r.Sending?
    ensures WokenAsAwaited(s, Continue, s', p)
  {
    var c := s.q.current.value;
    match s.w.procs[c].resume
    case WriteWait(t, msg) => if s.w.ttys[t].available { SendWakes(s, s', c, t, msg, 0, p); }
    case Sending(t, msg, start) => SendWakes(s, s', c, t, msg, start + s.w.cfg.maxLine, p);
  }

  lemma ContinuedReadWakes(s: State, s': State, p: Pid)
    requires Enabled(s, Continue) && Page(s, Continue, s') && Bystander(s, p)
    requires s.w.procs[s.q.current.value].resume.PipeReading?
    ensures WokenAsAwaited(s, Continue, s', p)
  {
    var c := s.q.current.value;
    PipeReadWakes(s, s', c, s.w.procs[c].resume.id, s.w.procs[c].resume.len, false, p);
  }

  lemma ContinuedWriteWakes(s: State, s': State, p: Pid)
    requires Enabled(s, Continue) && Page(s, Continue, s') && Bystander(s, p)
    requires s.w.procs[s.q.current.value].resume.PipeWriting?
    ensures WokenAsAwaited(s, Continue, s', p)
  {
    var c := s.q.current.value;
    PipeWriteWakes(s, s', c, s.w.procs[c].resume.id, s.w.procs[c].resume.msg, p);
  }

  lemma ContinueWakes(s: State, s': State, p: Pid)
    requires Enabled(s, Continue) && Page(s, Continue, s') && Bystander(s, p)
    ensures WokenAsAwaited(s, Continue, s', p)
  {
    var r := s.w.procs[s.q.current.value].resume;
    if r.WriteWait? || r.Sending? {
      ContinuedSendWakes(s, s', p);
    } else if r.PipeReading? {
      ContinuedReadWakes(s, s', p);
    } else if r.PipeWriting? {
      ContinuedWriteWakes(s, s', p);
    }
  }

  lemma ObjectCallsWake(s: State, e: Event, s': State, p: Pid)
    requires Enabled(s, e) && Page(s, e, s') && Bystander(s, p)
    requires e.TtyWrite? || e.PipeWrite? || e.PipeRead? || e.Release?
    ensures WokenAsAwaited(s, e, s', p)
  {
    match e
    case TtyWrite(_, _) => TtyWriteWakes(s, e, s', p);
    case PipeWrite(_, _) => PipeWriteCallWakes(s, e, s', p);
    case PipeRead(_, _) => PipeReadCallWakes(s, e, s', p);
    case Release(_) => ReleaseWakes(s, e, s', p);
  }

  lemma OtherCallsWake(s: State, e: Event, s': State, p: Pid)
    requires Enabled(s, e) && Page(s, e, s') && Bystander(s, p)
    requires FromUser(e) && !e.TtyWrite? && !e.PipeWrite? && !e.PipeRead? && !e.Release?
    ensures WokenAsAwaited(s, e, s', p)
  {
    if e.Exit? {
      ExitWakes(s, e, s', p);
    } else if e.Fork? || e.Wait? || e.Delay? {
      FamilyCallsWakeNobody(s, e, s', p);
    } else if e.Acquire? || e.TtyRead? {
      WaitingCallsWakeNobody(s, e, s', p);
    } else {
      QuietCallsWakeNobody(s, e, s', p);
    }
  }

  lemma PageWakes(s: State, e: Event, s': State, p: Pid)
    requires Enabled(s, e) && Page(s, e, s') && Bystander(s, p) && p !in s.q.delayed
    ensures WokenAsAwaited(s, e, s', p)
  {
    if e.Continue? {
      ContinueWakes(s, s', p);
    } else if !FromUser(e) {
      TrapsWake(s, e, s', p);
    } else if e.TtyWrite? || e.PipeWrite? || e.PipeRead? || e.Release? {
      ObjectCallsWake(s, e, s', p);
    } else {
      OtherCallsWake(s, e, s', p);
    }
  }

  /** No wake-up is spurious and none is missed: a step makes a blocked process ready if and only if it
      is what that process waits for and the process is next in line, or ends a child of it while its
      flag is set. */
  lemma WokenExactly(s: State, e: Event, p: Pid)
    requires Inv(s) && Enabled(s, e) && Waits(s.w, p)
    ensures BecomesReady(s, Apply(s, e), p) <==> Awaited(s, e, p)
  {
    StepMeetsPage(s, e);
    BlockedIsRegistered(s.w, p);
    PageWakes(s, e, Apply(s, e), p);
  }
}
