/** Only fork and exit change the process tree. */
module Kinship {
  import opened Types
  import opened Kernel
  import opened Placement
  import opened Protocols
  import opened Family
  import opened Invariant

  ghost predicate SameKin(s: State, s': State) {
    SameFamily(s.w.procs, s'.w.procs) && s'.w.cfg == s.w.cfg
  }

  /** c changes nothing about kinship in its own control block; live processes wake. */
  lemma KinUntouched(procs: map<Pid, Pcb>, procs': map<Pid, Pcb>, c: Pid, mine: Pcb, woken: seq<Pid>)
    requires Alive(procs, c) && mine.state != Dead
    requires mine.parent == procs[c].parent && mine.children == procs[c].children && mine.zombies == procs[c].zombies
    requires forall p :: p in woken ==> Alive(procs, p)
    requires procs' == MakeReady(procs[c := mine], woken) || procs' == MakeReady(procs, woken)[c := mine]
      || (procs' == procs[c := mine] && woken == []) || (procs' == MakeReady(procs, woken) && mine == procs[c])
    ensures SameFamily(procs, procs')
  {
  }

  lemma PipeWriteLoopKeepsKin(s: State, c: Pid, id: int, msg: Bytes)
    requires s.q.current == Some(c) && Alive(s.w.procs, c) && id in s.w.pipes && c !in s.w.pipes[id].readers
    requires forall p :: p in Take(s.w.pipes[id].readers, 1) ==> Alive(s.w.procs, p)
    ensures SameKin(s, PipeWriteLoop(s, c, id, msg))
  {
    var pipe, procs' := s.w.pipes[id], PipeWriteLoop(s, c, id, msg).w.procs;
    var woken := if |msg| + |pipe.bytes| > s.w.cfg.pipeLen then [] else Take(pipe.readers, 1);
    KinUntouched(s.w.procs, procs', c, procs'[c], woken);
  }

  lemma PipeReadLoopKeepsKin(s: State, c: Pid, id: int, len: nat)
    requires s.q.current == Some(c) && Alive(s.w.procs, c) && id in s.w.pipes && Protocol(s.w)
    ensures SameKin(s, PipeReadLoop(s, c, id, len))
  {
    assert KeyOk(s.w, PipeKey(id));
    var pipe, procs' := s.w.pipes[id], PipeReadLoop(s, c, id, len).w.procs;
    if pipe.bytes == [] {
      KinUntouched(s.w.procs, procs', c, procs'[c], []);
    } else {
      var n := if Drop(pipe.bytes, len) != [] then 1 else 0;
      PipeCrowd(s.w, id, n);
      var mine := s.w.procs[c].(got := Take(pipe.bytes, len), rc := 0, resume := User);
      KinUntouched(s.w.procs, procs', c, mine, Take(pipe.readers, n) + pipe.writers);
    }
  }

  lemma SendFromKeepsKin(s: State, c: Pid, t: nat, msg: Bytes, start: nat)
    requires s.q.current == Some(c) && Alive(s.w.procs, c) && t < |s.w.ttys|
    requires forall p :: p in s.w.ttys[t].writeQueue ==> Alive(s.w.procs, p) && p != c
    ensures SameKin(s, SendFrom(s, c, t, msg, start))
  {
    var queue, procs' := s.w.ttys[t].writeQueue, SendFrom(s, c, t, msg, start).w.procs;
    if start < |msg| || queue == [] {
      KinUntouched(s.w.procs, procs', c, procs'[c], []);
    } else {
      assert queue[0] in queue;
      KinUntouched(s.w.procs, procs', c, procs'[c], [queue[0]]);
    }
  }

  /** Writers queued for a terminal live, and a process that runs is not among them. */
  lemma QueuedWritersLive(w: World, t: nat, c: Pid)
    requires Protocol(w) && t < |w.ttys| && c in w.procs && w.procs[c].state == Ready
    ensures forall p :: p in w.ttys[t].writeQueue ==> Alive(w.procs, p) && p != c
  {
    assert KeyOk(w, TtyKey(t));
  }

  lemma QueueingKeepsKin(s: State, c: Pid, t: nat, msg: Bytes)
    requires s.q.current == Some(c) && Alive(s.w.procs, c) && t < |s.w.ttys| && !s.w.ttys[t].available
    ensures SameKin(s, WriteTop(s, c, t, msg))
  {
    OwnKin(s, WriteTop(s, c, t, msg), c);
  }

  lemma WriteTopKeepsKin(s: State, c: Pid, t: nat, msg: Bytes)
    requires s.q.current == Some(c) && c in s.w.procs && s.w.procs[c].state == Ready
    requires t < |s.w.ttys| && Protocol(s.w)
    ensures SameKin(s, WriteTop(s, c, t, msg))
  {
    var tty := s.w.ttys[t];
    if tty.available {
      QueuedWritersLive(s.w, t, c);
      var s1 := SetTty(s, t, tty.(available := false, writer := Some(c)));
      SendFromKeepsKin(s1, c, t, msg, 0);
      assert WriteTop(s, c, t, msg) == SendFrom(s1, c, t, msg, 0);
    } else {
      QueueingKeepsKin(s, c, t, msg);
    }
  }

  lemma ResumedPipeUserKeepsKin(s: State, c: Pid)
    requires s.q.current == Some(c) && c in s.w.procs && s.w.procs[c].state == Ready && Protocol(s.w)
    requires Resumable(s.w, s.w.procs[c].resume)
    requires s.w.procs[c].resume.PipeReading? || s.w.procs[c].resume.PipeWriting?
    ensures SameKin(s, ContinueStep(s, c))
  {
    match s.w.procs[c].resume
    case PipeReading(id, len) => PipeReadLoopKeepsKin(s, c, id, len);
    case PipeWriting(id, msg) =>
      PipeCrowd(s.w, id, 1);
      assert KeyOk(s.w, PipeKey(id));
      PipeWriteLoopKeepsKin(s, c, id, msg);
  }

  lemma ResumedSenderKeepsKin(s: State, c: Pid)
    requires s.q.current == Some(c) && c in s.w.procs && s.w.procs[c].state == Ready && Protocol(s.w)
    requires Resumable(s.w, s.w.procs[c].resume)
    requires s.w.procs[c].resume.Sending?
    ensures SameKin(s, ContinueStep(s, c))
  {
    var r := s.w.procs[c].resume;
    QueuedWritersLive(s.w, r.t, c);
    SendFromKeepsKin(s, c, r.t, r.msg, r.start + s.w.cfg.maxLine);
    assert ContinueStep(s, c) == SendFrom(s, c, r.t, r.msg, r.start + s.w.cfg.maxLine);
  }

  lemma ReturnKeepsKin(s: State, c: Pid)
    requires s.q.current == Some(c) && c in s.w.procs && s.w.procs[c].state == Ready && Protocol(s.w)
    requires Resumable(s.w, s.w.procs[c].resume)
    requires s.w.procs[c].resume.LockWait? || s.w.procs[c].resume.WaitLoop? || s.w.procs[c].resume.ReadWait?
    ensures SameKin(s, ContinueStep(s, c))
  {
    OwnKin(s, ContinueStep(s, c), c);
  }

  lemma ContinueKeepsKin(s: State, c: Pid)
    requires s.q.current == Some(c) && c in s.w.procs && s.w.procs[c].state == Ready && Protocol(s.w)
    requires Resumable(s.w, s.w.procs[c].resume)
    ensures SameKin(s, ContinueStep(s, c))
  {
    match s.w.procs[c].resume
    case LockWait(_) => ReturnKeepsKin(s, c);
    case WaitLoop => ReturnKeepsKin(s, c);
    case ReadWait(t, _) => ReturnKeepsKin(s, c);
    case WriteWait(t, msg) => WriteTopKeepsKin(s, c, t, msg);
    case Sending(_, _, _) => ResumedSenderKeepsKin(s, c);
    case PipeReading(_, _) => ResumedPipeUserKeepsKin(s, c);
    case PipeWriting(_, _) => ResumedPipeUserKeepsKin(s, c);
  }

  lemma PipeWriteKeepsKin(s: State, c: Pid, id: int, msg: Bytes)
    requires s.q.current == Some(c) && c in s.w.procs && s.w.procs[c].state == Ready && Protocol(s.w)
    ensures SameKin(s, PipeWriteStep(s, c, id, msg))
  {
    if id in s.w.pipes && |msg| <= s.w.cfg.pipeLen {
      var pipe := s.w.pipes[id];
      PipeCrowd(s.w, id, 1);
      assert KeyOk(s.w, PipeKey(id));
      PipeWriteLoopKeepsKin(s, c, id, msg);
      PipeWriteLoopKeepsKin(SetPipe(s, id, pipe.(writers := [c] + pipe.writers)), c, id, msg);
    }
  }

  lemma PipeReadKeepsKin(s: State, c: Pid, id: int, len: nat)
    requires s.q.current == Some(c) && Alive(s.w.procs, c) && Protocol(s.w)
    ensures SameKin(s, PipeReadStep(s, c, id, len))
  {
    if id in s.w.pipes && s.w.pipes[id].bytes != [] { PipeReadLoopKeepsKin(s, c, id, len); }
  }

  lemma TransmitKeepsKin(s: State, t: nat)
    requires Protocol(s.w) && t < |s.w.ttys| && s.w.ttys[t].pending
    ensures SameKin(s, TransmitStep(s, t))
  {
    TransmitKeepsProtocol(s, t);
    var p := s.w.ttys[t].writer.value;
    KinUntouched(s.w.procs, TransmitStep(s, t).w.procs, p, s.w.procs[p], [p]);
  }

  lemma DeliveryKeepsKin(procs: map<Pid, Pcb>, readers: seq<Pid>, line: Bytes)
    requires forall p :: p in readers ==> Alive(procs, p)
    ensures SameFamily(procs, MakeReady(Deliver(procs, readers, line), readers))
  {
  }

  lemma ReceiveKeepsKin(s: State, t: nat, line: Bytes)
    requires Protocol(s.w) && t < |s.w.ttys|
    ensures SameKin(s, ReceiveStep(s, t, line))
  {
    assert KeyOk(s.w, TtyKey(t));
    var readers := s.w.ttys[t].readers;
    assert forall p :: p in readers ==> Waits(s.w, p);
    if 1 <= |line| <= s.w.cfg.maxLine {
      DeliveryKeepsKin(s.w.procs, readers, line);
      assert ReceiveStep(s, t, line).w.procs == MakeReady(Deliver(s.w.procs, readers, line), readers);
    }
  }

  lemma ClockKeepsKin(s: State)
    requires Settled(s)
    ensures SameKin(s, ClockStep(s))
  {
  }

  lemma ReleaseKeepsKin(s: State, c: Pid, id: int)
    requires Protocol(s.w) && c in s.w.procs && s.w.procs[c].state == Ready
    ensures SameKin(s, ReleaseStep(s, c, id))
  {
    assert KeyOk(s.w, LockKey(id));
    var procs' := ReleaseStep(s, c, id).w.procs;
    if id !in s.w.locks || s.w.locks[id].owner != c || s.w.locks[id].waiters == [] {
      KinUntouched(s.w.procs, procs', c, procs'[c], []);
    } else {
      assert s.w.locks[id].waiters[0] in s.w.locks[id].waiters;
      KinUntouched(s.w.procs, procs', c, procs'[c], [s.w.locks[id].waiters[0]]);
    }
  }

  /** A step after which only c's control block differs, kinship aside. */
  lemma OwnKin(s: State, s': State, c: Pid)
    requires Alive(s.w.procs, c) && s'.w.cfg == s.w.cfg
    requires s'.w.procs.Keys == s.w.procs.Keys
    requires forall p :: p in s.w.procs && p != c ==> s'.w.procs[p] == s.w.procs[p]
    requires Alive(s'.w.procs, c)
    requires var me, me' := s.w.procs[c], s'.w.procs[c];
             me'.parent == me.parent && me'.children == me.children
             && (me'.zombies == me.zombies || me'.zombies == {})
    ensures SameKin(s, s')
  {
  }

  lemma StepKeepsFamily(s: State, e: Event)
    requires Inv(s) && Enabled(s, e)
    ensures FamilyOk(Apply(s, e).w.procs, s.w.cfg)
    ensures Apply(s, e).w.cfg == s.w.cfg
  {
    var c := s.q.current.value;
    match e
    case Fork(child, framesLeft) => ForkKeepsFamily(s, c, child, framesLeft);
    case Exit(_) => ExitKeepsFamily(s, c);
    case _ =>
      StepKeepsKin(s, e);
      SameFamilyOk(s.w.procs, Apply(s, e).w.procs, s.w.cfg);
  }

  lemma WaitKeepsKin(s: State, c: Pid)
    requires s.q.current == Some(c) && Alive(s.w.procs, c)
    ensures SameKin(s, WaitStep(s, c))
  {
    OwnKin(s, WaitStep(s, c), c);
  }

  lemma DelayKeepsKin(s: State, c: Pid, n: int)
    requires s.q.current == Some(c) && Alive(s.w.procs, c)
    ensures SameKin(s, DelayStep(s, c, n))
  {
    OwnKin(s, DelayStep(s, c, n), c);
  }

  lemma LockNewKeepsKin(s: State, c: Pid)
    requires Alive(s.w.procs, c)
    ensures SameKin(s, LockNewStep(s, c))
  {
    OwnKin(s, LockNewStep(s, c), c);
  }

  lemma PipeNewKeepsKin(s: State, c: Pid)
    requires Alive(s.w.procs, c)
    ensures SameKin(s, PipeNewStep(s, c))
  {
    OwnKin(s, PipeNewStep(s, c), c);
  }

  lemma AcquireKeepsKin(s: State, c: Pid, id: int)
    requires s.q.current == Some(c) && Alive(s.w.procs, c)
    ensures SameKin(s, AcquireStep(s, c, id))
  {
    OwnKin(s, AcquireStep(s, c, id), c);
  }

  lemma ReadKeepsKin(s: State, c: Pid, t: nat, len: nat)
    requires s.q.current == Some(c) && Alive(s.w.procs, c) && t < |s.w.ttys|
    ensures SameKin(s, ReadStep(s, c, t, len))
  {
    OwnKin(s, ReadStep(s, c, t, len), c);
  }

  lemma StepKeepsKin(s: State, e: Event)
    requires Inv(s) && Enabled(s, e) && !e.Fork? && !e.Exit?
    ensures SameKin(s, Apply(s, e))
  {
    var c := s.q.current.value;
    match e
    case Release(id) => ReleaseKeepsKin(s, c, id);
    case PipeWrite(id, msg) => PipeWriteKeepsKin(s, c, id, msg);
    case PipeRead(id, len) => PipeReadKeepsKin(s, c, id, len);
    case TtyWrite(t, msg) => WriteTopKeepsKin(s, c, t, msg);
    case Acquire(id) => AcquireKeepsKin(s, c, id);
    case TtyRead(t, len) => ReadKeepsKin(s, c, t, len);
    case Continue => ContinueKeepsKin(s, c);
    case Clock => ClockKeepsKin(s);
    case Transmit(t) => TransmitKeepsKin(s, t);
    case Receive(t, line) => ReceiveKeepsKin(s, t, line);
    case Wait => WaitKeepsKin(s, c);
    case Delay(n) => DelayKeepsKin(s, c, n);
    case LockNew => LockNewKeepsKin(s, c);
    case PipeNew => PipeNewKeepsKin(s, c);
  }
}
