/** Every safe step leaves each live process in exactly one place, and the protocols intact. */
module Settling {
  import opened Types
  import opened Kernel
  import opened Placement
  import opened Protocols
  import opened Family
  import opened Invariant

  // ---------------------------------------------------- placement, step by step

  lemma ReleaseSettles(s: State, c: Pid, id: int)
    requires Settled(s) && Protocol(s.w) && s.q.current == Some(c) && Calling(s.w, c)
    ensures Settled(ReleaseStep(s, c, id))
  {
    var s' := ReleaseStep(s, c, id);
    assert KeyOk(s.w, LockKey(id));
    if id in s.w.locks && s.w.locks[id].owner == c && s.w.locks[id].waiters != [] {
      var next := s.w.locks[id].waiters[0];
      assert next in s.w.locks[id].waiters;
      WakeSettles(s, [next]);
      ReturnSettles(Wake(s, [next]), s', c);
    } else {
      ReturnSettles(s, s', c);
    }
  }

  lemma AcquireSettles(s: State, c: Pid, id: int)
    requires Settled(s) && s.q.current == Some(c) && c != s.w.cfg.idle && c in s.w.procs
    ensures Settled(AcquireStep(s, c, id))
  {
    if id in s.w.locks && s.w.locks[id].owner != UNLOCKED && s.w.locks[id].owner != c {
      var lock := s.w.locks[id];
      var s1 := s.(w := s.w.(locks := s.w.locks[id := lock.(waiters := lock.waiters + [c])]));
      SleepSettles(s, SetPcb(s1, c, s1.w.procs[c].(state := Blocked, resume := LockWait(id))), c);
    } else {
      ReturnSettles(s, AcquireStep(s, c, id), c);
    }
  }

  lemma DelaySettles(s: State, c: Pid, n: int)
    requires Settled(s) && s.q.current == Some(c) && c != s.w.cfg.idle && c in s.w.procs
    ensures Settled(DelayStep(s, c, n))
  {
    if n > 0 {
      SleepSettles(s, SetPcb(s, c, s.w.procs[c].(delay := n, state := Delayed, rc := 0)), c);
    } else {
      ReturnSettles(s, DelayStep(s, c, n), c);
    }
  }

  lemma CollectSettles(s: State, c: Pid)
    requires Settled(s) && s.q.current == Some(c) && c != s.w.cfg.idle && c in s.w.procs && s.w.procs[c].zombies != {}
    ensures Settled(WaitStep(s, c))
  {
    var s1 := s.(q := s.q.(dead := s.q.dead - s.w.procs[c].zombies));
    assert forall p :: Copies(s1.q, s.w.cfg.idle, p) == Copies(s.q, s.w.cfg.idle, p);
    ReturnSettles(s1, WaitStep(s, c), c);
  }

  lemma WaitingSettles(s: State, c: Pid)
    requires Settled(s) && s.q.current == Some(c) && c != s.w.cfg.idle && c in s.w.procs
    requires s.w.procs[c].zombies == {} && s.w.procs[c].children != {}
    ensures Settled(WaitStep(s, c))
  {
    var me := s.w.procs[c];
    var mine := me.(waiting := true, state := Blocked, resume := WaitLoop);
    SleepSettles(s, SetPcb(s, c, mine), c);
    assert s.w.procs[c := me.(waiting := true)][c := mine] == s.w.procs[c := mine];
  }

  lemma WaitSettles(s: State, c: Pid)
    requires Settled(s) && s.q.current == Some(c) && c != s.w.cfg.idle && c in s.w.procs
    ensures Settled(WaitStep(s, c))
  {
    if s.w.procs[c].zombies != {} {
      CollectSettles(s, c);
    } else if s.w.procs[c].children == {} {
      ReturnSettles(s, WaitStep(s, c), c);
    } else {
      WaitingSettles(s, c);
    }
  }

  // --------------------------------------------------------------- pipes

  lemma PipeWriteLoopSettles(s: State, s0: State, c: Pid, id: int, msg: Bytes)
    requires Settled(s0) && Protocol(s0.w) && OwnStep(s0, s, c) && s.w.procs == s0.w.procs
    requires c != s.w.cfg.idle && id in s.w.pipes && id in s0.w.pipes
    requires s.w.pipes[id].readers == s0.w.pipes[id].readers
    ensures Settled(PipeWriteLoop(s, c, id, msg))
  {
    var pipe := s.w.pipes[id];
    if |msg| + |pipe.bytes| > s.w.cfg.pipeLen {
      SleepSettles(s0, SetPcb(s, c, s.w.procs[c].(state := Blocked, resume := PipeWriting(id, msg))), c);
    } else {
      var ps := Take(pipe.readers, 1);
      PipeCrowd(s0.w, id, 1);
      assert KeyOk(s0.w, PipeKey(id));
      Split(pipe.readers, 1);
      WakeSettles(s0, ps);
      ReturnSettles(Wake(s0, ps), PipeWriteLoop(s, c, id, msg), c);
    }
  }

  lemma PipeReadLoopSettles(s: State, s0: State, c: Pid, id: int, len: nat)
    requires Settled(s0) && Protocol(s0.w) && OwnStep(s0, s, c) && s.w.procs == s0.w.procs
    requires c != s.w.cfg.idle && id in s.w.pipes && id in s0.w.pipes
    requires s.w.pipes[id].bytes != [] ==> s.w.pipes == s0.w.pipes && WritersBlocked(s0.w, id)
    ensures Settled(PipeReadLoop(s, c, id, len))
  {
    var pipe := s.w.pipes[id];
    if pipe.bytes == [] {
      SleepSettles(s0, SetPcb(s, c, s.w.procs[c].(state := Blocked, resume := PipeReading(id, len))), c);
    } else {
      var n := if Drop(pipe.bytes, len) != [] then 1 else 0;
      var ps := Take(pipe.readers, n) + pipe.writers;
      PipeCrowd(s0.w, id, n);
      var s1 := SetPcb(s0, c, s0.w.procs[c].(got := Take(pipe.bytes, len), rc := 0, resume := User));
      ReturnSettles(s0, s1, c);
      WakeSettles(s1, ps);
      var s' := PipeReadLoop(s, c, id, len);
      assert s'.q == Wake(s1, ps).q && s'.w.procs == Wake(s1, ps).w.procs;
    }
  }

  // ------------------------------------------------------------- terminals

  /** The state in which SendFrom calls the scheduler after a chunk. */
  ghost function BeforeChunk(s: State, c: Pid, t: nat, msg: Bytes, start: nat): State
    requires c in s.w.procs && t < |s.w.ttys| && start < |msg|
  {
    var tty := s.w.ttys[t];
    var s1 := SetTty(s, t, tty.(writer := Some(c), pending := true,
                                sent := tty.sent + [Take(msg[start..], s.w.cfg.maxLine)]));
    SetPcb(s1, c, s1.w.procs[c].(state := Blocked, resume := Sending(t, msg, start)))
  }

  /** The state in which SendFrom calls the scheduler to let the next writer in. */
  ghost function BeforeYield(s: State, c: Pid, t: nat, msg: Bytes, start: nat): State
    requires c in s.w.procs && t < |s.w.ttys| && s.w.ttys[t].writeQueue != []
  {
    var tty := s.w.ttys[t];
    var s1 := SetTty(s, t, tty.(available := true, writer := None, done := tty.done + [msg],
                                writeQueue := tty.writeQueue[1..]));
    Return(Wake(s1, [tty.writeQueue[0]]), c, 0)
  }

  lemma SendFromSchedules(s: State, c: Pid, t: nat, msg: Bytes, start: nat)
    requires s.q.current == Some(c) && c in s.w.procs && t < |s.w.ttys|
    ensures start < |msg| ==> SendFrom(s, c, t, msg, start) == Schedule(BeforeChunk(s, c, t, msg, start))
    ensures start >= |msg| && s.w.ttys[t].writeQueue != [] ==>
              SendFrom(s, c, t, msg, start) == Schedule(BeforeYield(s, c, t, msg, start))
  {
  }

  lemma YieldingSettles(s: State, s0: State, c: Pid, t: nat, msg: Bytes, start: nat)
    requires Settled(s0) && Protocol(s0.w) && OwnStep(s0, s, c) && s.w.procs == s0.w.procs
    requires c != s.w.cfg.idle && t < |s.w.ttys| && t < |s0.w.ttys| && start >= |msg|
    requires s.w.ttys[t].writeQueue == s0.w.ttys[t].writeQueue != []
    ensures Settled(Schedule(BeforeYield(s, c, t, msg, start)))
  {
    var next := s0.w.ttys[t].writeQueue[0];
    assert KeyOk(s0.w, TtyKey(t)) && next in s0.w.ttys[t].writeQueue;
    WakeSettles(s0, [next]);
    SleepSettles(Wake(s0, [next]), BeforeYield(s, c, t, msg, start), c);
  }

  lemma SendFromSettles(s: State, s0: State, c: Pid, t: nat, msg: Bytes, start: nat)
    requires Settled(s0) && Protocol(s0.w) && OwnStep(s0, s, c) && s.w.procs == s0.w.procs
    requires c != s.w.cfg.idle && t < |s.w.ttys| && t < |s0.w.ttys|
    requires s.w.ttys[t].writeQueue == s0.w.ttys[t].writeQueue
    ensures Settled(SendFrom(s, c, t, msg, start))
  {
    SendFromSchedules(s, c, t, msg, start);
    if start < |msg| {
      SleepSettles(s0, BeforeChunk(s, c, t, msg, start), c);
    } else if s.w.ttys[t].writeQueue == [] {
      ReturnSettles(s0, SendFrom(s, c, t, msg, start), c);
    } else {
      YieldingSettles(s, s0, c, t, msg, start);
    }
  }

  lemma WriteTopSettles(s: State, c: Pid, t: nat, msg: Bytes)
    requires Settled(s) && Protocol(s.w) && s.q.current == Some(c)
    requires c in s.w.procs && c != s.w.cfg.idle && t < |s.w.ttys|
    ensures Settled(WriteTop(s, c, t, msg))
  {
    var tty := s.w.ttys[t];
    if tty.available {
      SendFromSettles(SetTty(s, t, tty.(available := false, writer := Some(c))), s, c, t, msg, 0);
    } else {
      var s1 := SetTty(s, t, tty.(writeQueue := tty.writeQueue + [c]));
      SleepSettles(s, SetPcb(s1, c, s1.w.procs[c].(state := Blocked, resume := WriteWait(t, msg))), c);
    }
  }

  lemma ReadSettles(s: State, c: Pid, t: nat, len: nat)
    requires Settled(s) && s.q.current == Some(c)
    requires c in s.w.procs && c != s.w.cfg.idle && t < |s.w.ttys|
    ensures Settled(ReadStep(s, c, t, len))
  {
    var tty := s.w.ttys[t];
    if tty.unread == [] {
      var s1 := SetTty(s, t, tty.(readers := if c in tty.readers then tty.readers else [c] + tty.readers));
      SleepSettles(s, SetPcb(s1, c, s1.w.procs[c].(state := Blocked, resume := ReadWait(t, len))), c);
    } else {
      ReturnSettles(s, ReadStep(s, c, t, len), c);
    }
  }

  lemma TransmitSettles(s: State, t: nat)
    requires Settled(s) && Protocol(s.w) && t < |s.w.ttys| && s.w.ttys[t].pending
    ensures Settled(TransmitStep(s, t))
  {
    TransmitKeepsProtocol(s, t);
    WakeSettles(SetTty(s, t, s.w.ttys[t].(pending := false)), [s.w.ttys[t].writer.value]);
  }

  lemma ReceiveSettles(s: State, t: nat, line: Bytes)
    requires Settled(s) && Protocol(s.w) && t < |s.w.ttys|
    ensures Settled(ReceiveStep(s, t, line))
  {
    if 1 <= |line| <= s.w.cfg.maxLine {
      var readers := s.w.ttys[t].readers;
      assert KeyOk(s.w, TtyKey(t));
      WakeSettles(s, readers);
      var s', s1 := ReceiveStep(s, t, line), Wake(s, readers);
      assert s'.q == s1.q;
      SameStatesPlaced(s1.q, s1.w.procs, s'.w.procs, s.w.cfg.idle);
    }
  }

  lemma SameStatesPlaced(q: Queues, procs: map<Pid, Pcb>, procs': map<Pid, Pcb>, idle: Pid)
    requires Placed(q, procs, idle) && procs.Keys == procs'.Keys
    requires forall p :: p in procs ==> procs'[p].state == procs[p].state
    ensures Placed(q, procs', idle)
  {
  }

  // ------------------------------------------------------------- every step

  ghost predicate ResumeSafe(w: World, r: Resume) {
    r.PipeReading? && r.id in w.pipes && w.pipes[r.id].bytes != [] ==> WritersBlocked(w, r.id)
  }

  lemma BackToUserSettles(s: State, c: Pid, rc: int)
    requires Settled(s) && s.q.current == Some(c)
    ensures Settled(Return(s, c, rc))
  {
    ReturnSettles(s, Return(s, c, rc), c);
  }

  lemma ReadResumeSettles(s: State, c: Pid, t: nat)
    requires Settled(s) && s.q.current == Some(c) && t < |s.w.ttys|
    ensures Settled(ReadResume(s, c, t))
  {
    ReturnSettles(s, ReadResume(s, c, t), c);
  }

  lemma ResumedPipeUserSettles(s: State, c: Pid)
    requires Settled(s) && Protocol(s.w) && s.q.current == Some(c)
    requires c in s.w.procs && c != s.w.cfg.idle && Resumable(s.w, s.w.procs[c].resume)
    requires s.w.procs[c].resume.PipeReading? || s.w.procs[c].resume.PipeWriting?
    requires ResumeSafe(s.w, s.w.procs[c].resume)
    ensures Settled(ContinueStep(s, c))
  {
    match s.w.procs[c].resume
    case PipeReading(id, len) => PipeReadLoopSettles(s, s, c, id, len);
    case PipeWriting(id, msg) => PipeWriteLoopSettles(s, s, c, id, msg);
  }

  lemma ContinueSettles(s: State, c: Pid)
    requires Settled(s) && Protocol(s.w) && s.q.current == Some(c)
    requires c in s.w.procs && c != s.w.cfg.idle && Resumable(s.w, s.w.procs[c].resume)
    requires ResumeSafe(s.w, s.w.procs[c].resume)
    ensures Settled(ContinueStep(s, c))
  {
    match s.w.procs[c].resume
    case LockWait(_) =>
      BackToUserSettles(s, c, 0);
      assert ContinueStep(s, c) == Return(s, c, 0);
    case WaitLoop =>
      BackToUserSettles(s, c, 0);
      assert ContinueStep(s, c) == Return(s, c, 0);
    case ReadWait(t, _) =>
      ReadResumeSettles(s, c, t);
      assert ContinueStep(s, c) == ReadResume(s, c, t);
    case WriteWait(t, msg) =>
      WriteTopSettles(s, c, t, msg);
      assert ContinueStep(s, c) == WriteTop(s, c, t, msg);
    case Sending(t, msg, start) =>
      SendFromSettles(s, s, c, t, msg, start + s.w.cfg.maxLine);
      assert ContinueStep(s, c) == SendFrom(s, c, t, msg, start + s.w.cfg.maxLine);
      assert Settled(ContinueStep(s, c));
    case PipeReading(id, len) => ResumedPipeUserSettles(s, c);
    case PipeWriting(id, msg) => ResumedPipeUserSettles(s, c);
  }

  lemma UserStepSettles(s: State, e: Event)
    requires Inv(s) && Enabled(s, e) && Safe(s, e) && FromUser(e)
    ensures Settled(Apply(s, e))
  {
    var c := s.q.current.value;
    match e
    case Fork(child, framesLeft) => ForkSettles(s, c, child, framesLeft);
    case Exit(_) =>
      assert ParentOk(s.w.procs, s.w.cfg, c);
      ExitSettles(s, c);
    case Wait => WaitSettles(s, c);
    case Delay(n) => DelaySettles(s, c, n);
    case LockNew => ReturnSettles(s, LockNewStep(s, c), c);
    case Acquire(id) => AcquireSettles(s, c, id);
    case Release(id) => ReleaseSettles(s, c, id);
    case PipeNew => ReturnSettles(s, PipeNewStep(s, c), c);
    case PipeWrite(id, msg) => PipeWriteSettles(s, c, id, msg);
    case PipeRead(id, len) => PipeReadSettles(s, c, id, len);
    case TtyWrite(t, msg) => WriteTopSettles(s, c, t, msg);
    case TtyRead(t, len) => ReadSettles(s, c, t, len);
  }

  lemma PipeWriteSettles(s: State, c: Pid, id: int, msg: Bytes)
    requires Settled(s) && Protocol(s.w) && s.q.current == Some(c)
    requires c in s.w.procs && c != s.w.cfg.idle
    ensures Settled(PipeWriteStep(s, c, id, msg))
  {
    if id !in s.w.pipes || |msg| > s.w.cfg.pipeLen {
      ReturnSettles(s, PipeWriteStep(s, c, id, msg), c);
    } else {
      var pipe := s.w.pipes[id];
      if |msg| + |pipe.bytes| > s.w.cfg.pipeLen && c !in pipe.writers {
        PipeWriteLoopSettles(SetPipe(s, id, pipe.(writers := [c] + pipe.writers)), s, c, id, msg);
      } else {
        PipeWriteLoopSettles(s, s, c, id, msg);
      }
    }
  }

  lemma PipeReadSettles(s: State, c: Pid, id: int, len: nat)
    requires Settled(s) && Protocol(s.w) && s.q.current == Some(c)
    requires c in s.w.procs && c != s.w.cfg.idle
    requires id in s.w.pipes && s.w.pipes[id].bytes != [] ==> WritersBlocked(s.w, id)
    ensures Settled(PipeReadStep(s, c, id, len))
  {
    if id !in s.w.pipes {
      ReturnSettles(s, PipeReadStep(s, c, id, len), c);
    } else {
      var pipe := s.w.pipes[id];
      if pipe.bytes == [] {
        PipeReadLoopSettles(SetPipe(s, id, pipe.(readers := pipe.readers + [c])), s, c, id, len);
      } else {
        PipeReadLoopSettles(s, s, c, id, len);
      }
    }
  }

  lemma StepSettles(s: State, e: Event)
    requires Inv(s) && Enabled(s, e) && Safe(s, e)
    ensures Settled(Apply(s, e))
  {
    match e
    case Clock => ClockSettles(s);
    case Transmit(t) => TransmitSettles(s, t);
    case Receive(t, line) => ReceiveSettles(s, t, line);
    case Continue =>
      var c := s.q.current.value;
      var r := s.w.procs[c].resume;
      assert r.PipeReading? && s.w.pipes[r.id].bytes != [] ==> Drained(s, Continue) == Some(r.id);
      ContinueSettles(s, c);
    case _ => UserStepSettles(s, e);
  }

  lemma StepKeepsProtocol(s: State, e: Event)
    requires Inv(s) && Enabled(s, e) && Safe(s, e)
    ensures Protocol(Apply(s, e).w)
  {
    var c := s.q.current.value;
    match e
    case Fork(child, framesLeft) => ForkKeepsProtocol(s, c, child, framesLeft);
    case Exit(_) => ExitKeepsProtocol(s, c);
    case Wait => WaitKeepsProtocol(s, c);
    case Delay(n) => DelayKeepsProtocol(s, c, n);
    case LockNew => LockNewKeepsProtocol(s, c);
    case Acquire(id) => AcquireKeepsProtocol(s, c, id);
    case Release(id) => ReleaseKeepsProtocol(s, c, id);
    case PipeNew => PipeNewKeepsProtocol(s, c);
    case PipeWrite(id, msg) => PipeWriteKeepsProtocol(s, c, id, msg);
    case PipeRead(id, len) => PipeReadKeepsProtocol(s, c, id, len);
    case TtyWrite(t, msg) => WriteTopKeepsProtocol(s, c, t, msg);
    case TtyRead(t, len) => ReadKeepsProtocol(s, c, t, len);
    case Continue => ContinueKeepsProtocol(s, c);
    case Clock => ClockKeepsProtocol(s);
    case Transmit(t) => TransmitKeepsProtocol(s, t);
    case Receive(t, line) => ReceiveKeepsProtocol(s, t, line);
  }
}
