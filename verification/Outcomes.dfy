/** Every step is as its page of the manual says. */
module Outcomes {
  import opened Types
  import opened Kernel
  import opened Placement
  import opened Protocols
  import opened Family
  import opened Invariant
  import opened Exactness
  import opened Manual

  // -------------------------------------------------------------- processes

  /** Where the current process goes. */
  ghost predicate Filed(q: Queues, q': Queues, c: Pid, state: RunState) {
    && q'.blocked == q.blocked + (if state == Blocked then {c} else {})
    && q'.dead == q.dead + (if state == Dead then {c} else {})
    && q'.delayed == (if state == Delayed && c !in q.delayed then [c] else []) + q.delayed
  }

  lemma EnqueueFiles(q: Queues, procs: map<Pid, Pcb>, c: Pid)
    requires q.current == Some(c) && c in procs
    ensures var e := Enqueue(q, procs);
            && Filed(q, e, c, procs[c].state) && e.ready == q.ready + (if procs[c].state == Ready then [c] else [])
            && e.reserve == q.reserve && e.switches == q.switches
  {
  }

  lemma SchedulingRotates(q: Queues, w: World, c: Pid)
    requires q.current == Some(c) && c in w.procs
    ensures var q', state := Dispatch(q, w), w.procs[c].state;
            Rotates(q, q', q.ready + (if state == Ready then [c] else []), w.cfg.idle) && Filed(q, q', c, state)
  {
    if q.ready == [] {
      EnqueueFiles(q, w.procs, c);
    } else {
      var rest := q.(ready := q.ready[1..]);
      var tail := if w.procs[c].state == Ready then [c] else [];
      EnqueueFiles(rest, w.procs, c);
      FrontOf(q.ready, tail);
    }
  }

  lemma FrontOf(line: seq<Pid>, tail: seq<Pid>)
    requires line != []
    ensures (line + tail)[0] == line[0] && (line + tail)[1..] == line[1..] + tail
  {
  }

  lemma SchedulingAfterExit(q: Queues, w: World)
    requires q.current == None
    ensures var q' := Dispatch(q, w);
            && Rotates(q, q', q.ready, w.cfg.idle)
            && q'.blocked == q.blocked && q'.dead == q.dead && q'.delayed == q.delayed
  {
  }

  lemma BlockSleeps(s: State, s0: State, c: Pid, r: Resume)
    requires s.q.current == Some(c) && c in s.w.procs && s0.q == s.q && s0.w.cfg == s.w.cfg
    requires s0.w.procs == s.w.procs
    ensures var s' := Block(s, c, r);
            Sleeps(s0, s', c, r) && s'.w == s.w.(procs := s'.w.procs)
  {
    var s1 := SetPcb(s, c, s.w.procs[c].(state := Blocked, resume := r));
    SchedulingRotates(s1.q, s1.w, c);
    assert s.q.ready + [] == s.q.ready;
    assert s1.q.delayed == [] + s1.q.delayed;
  }

  lemma ForkMeetsPage(s: State, child: Pid, framesLeft: bool)
    requires Inv(s) && Enabled(s, Fork(child, framesLeft))
    ensures ForkPage(s, Apply(s, Fork(child, framesLeft)), s.q.current.value, child, framesLeft)
  {
  }

  lemma ExitMeetsPage(s: State, status: int)
    requires Inv(s) && Enabled(s, Exit(status))
    ensures ExitPage(s, Apply(s, Exit(status)), s.q.current.value)
  {
    var c := s.q.current.value;
    var par := s.w.procs[c].parent.value;
    var s1 := BeforeExitSchedules(s, c);
    ExitBlocks(s, c, s1.w.procs);
    SchedulingAfterExit(s1.q, s1.w);
    assert s1.q.ready == s.q.ready + (if s.w.procs[par].waiting then [par] else []);
  }

  /** Neither the process that dies nor its parent is among those it leaves behind. */
  lemma NotOrphans(s: State, c: Pid)
    requires Inv(s) && s.q.current == Some(c) && Member(s.w.procs, s.w.cfg, c)
    ensures HasParent(s.w.procs, c)
    ensures var lost := s.w.procs[c].children + s.w.procs[c].zombies;
            c !in lost && s.w.procs[c].parent.value !in lost
  {
    var par := s.w.procs[c].parent.value;
    assert ParentOk(s.w.procs, s.w.cfg, c) && OffspringOk(s.w.procs, c);
    if par in s.w.procs[c].children {
      assert s.w.procs[par].parent == Some(c) && Member(s.w.procs, s.w.cfg, par);
      var n: nat :| Rooted(s.w.procs, s.w.cfg.init, c, n);
      NoTwoCycle(s.w.procs, s.w.cfg.init, c, par, n);
    }
  }

  lemma {:induction false} NoTwoCycle(procs: map<Pid, Pcb>, init: Pid, a: Pid, b: Pid, n: nat)
    requires Rooted(procs, init, a, n) && a != init && b != init && a in procs && b in procs
    requires procs[a].parent == Some(b) && procs[b].parent == Some(a)
    ensures false
    decreases n
  {
    NoTwoCycle(procs, init, b, a, n - 1);
  }

  lemma ExitBlocks(s: State, c: Pid, procs': map<Pid, Pcb>)
    requires Inv(s) && s.q.current == Some(c) && Member(s.w.procs, s.w.cfg, c) && HasParent(s.w.procs, c)
    requires procs' == AfterDeath(s.w.procs, s.w.cfg.init, c, s.w.cfg.clears)
    ensures var me, par := s.w.procs[c], s.w.procs[c].parent.value;
            && procs'.Keys == s.w.procs.Keys
            && procs'[c] == me.(state := Dead, waiting := false, children := {}, zombies := {}, resume := User)
            && (forall p :: p in s.w.procs && p != c && p != par ==>
                  procs'[p] == if p in me.children + me.zombies then s.w.procs[p].(parent := Some(s.w.cfg.init))
                               else s.w.procs[p])
            && procs'[par] == (
                 var left := s.w.procs[par].(children := s.w.procs[par].children - {c});
                 if s.w.procs[par].waiting then left.(state := Ready, waiting := !s.w.cfg.clears)
                 else left.(zombies := left.zombies + {c}))
  {
    NotOrphans(s, c);
  }

  lemma WaitSleepsMeetsPage(s: State, c: Pid)
    requires s.q.current == Some(c) && c in s.w.procs && s.w.procs[c].zombies == {} && s.w.procs[c].children != {}
    ensures WaitPage(s, WaitStep(s, c), c)
  {
    var mine := s.w.procs[c].(waiting := true, state := Blocked, resume := WaitLoop);
    var s1 := SetPcb(s, c, mine);
    SchedulingRotates(s1.q, s1.w, c);
    assert WaitStep(s, c) == Schedule(s1);
    assert s.q.ready + [] == s.q.ready && [] + s.q.delayed == s.q.delayed;
    assert Blocks(s.w.procs, s1.w.procs, c, mine, []);
  }

  lemma WaitCollectsMeetsPage(s: State, c: Pid)
    requires s.q.current == Some(c) && c in s.w.procs && (s.w.procs[c].zombies != {} || s.w.procs[c].children == {})
    ensures WaitPage(s, WaitStep(s, c), c)
  {
  }

  lemma WaitMeetsPage(s: State)
    requires Inv(s) && Enabled(s, Wait)
    ensures WaitPage(s, Apply(s, Wait), s.q.current.value)
  {
    var c := s.q.current.value;
    assert Apply(s, Wait) == WaitStep(s, c);
    if s.w.procs[c].zombies == {} && s.w.procs[c].children != {} {
      WaitSleepsMeetsPage(s, c);
    } else {
      WaitCollectsMeetsPage(s, c);
    }
  }

  lemma DelayMeetsPage(s: State, n: int)
    requires Inv(s) && Enabled(s, Delay(n))
    ensures DelayPage(s, Apply(s, Delay(n)), s.q.current.value, n)
  {
    var c := s.q.current.value;
    if n > 0 {
      var s1 := SetPcb(s, c, s.w.procs[c].(delay := n, state := Delayed, rc := 0));
      SchedulingRotates(s1.q, s1.w, c);
      CurrentIsNowhereElse(s.q, s.w.procs, s.w.cfg.idle);
      assert Apply(s, Delay(n)) == Schedule(s1);
      assert s.q.ready + [] == s.q.ready;
    }
  }

  // ------------------------------------------------------------------ locks

  lemma LockNewMeetsPage(s: State)
    requires Inv(s) && Enabled(s, LockNew)
    ensures LockNewPage(s, Apply(s, LockNew), s.q.current.value)
  {
  }

  lemma AcquireMeetsPage(s: State, id: int)
    requires Inv(s) && Enabled(s, Acquire(id))
    ensures AcquirePage(s, Apply(s, Acquire(id)), s.q.current.value, id)
  {
    var c := s.q.current.value;
    if id in s.w.locks && s.w.locks[id].owner != c && s.w.locks[id].owner != UNLOCKED {
      var lock := s.w.locks[id];
      BlockSleeps(s.(w := s.w.(locks := s.w.locks[id := lock.(waiters := lock.waiters + [c])])), s, c, LockWait(id));
    }
  }

  lemma ReleaseMeetsPage(s: State, id: int)
    requires Inv(s) && Enabled(s, Release(id))
    ensures ReleasePage(s, Apply(s, Release(id)), s.q.current.value, id)
  {
    var c := s.q.current.value;
    assert KeyOk(s.w, LockKey(id));
    assert id in s.w.locks && s.w.locks[id].waiters != [] ==> s.w.locks[id].waiters[0] in s.w.locks[id].waiters;
    OwnerMeetsPage(s, c, id);
    assert Apply(s, Release(id)) == ReleaseStep(s, c, id);
  }

  lemma OwnerMeetsPage(s: State, c: Pid, id: int)
    requires c in s.w.procs && s.w.procs[c].resume == User
    requires id in s.w.locks && s.w.locks[id].waiters != [] ==> s.w.locks[id].waiters[0] != s.w.locks[id].owner
    ensures ReleasePage(s, ReleaseStep(s, c, id), c, id)
  {
    assert s.q.ready + [] == s.q.ready && s.q.blocked - Members([]) == s.q.blocked;
  }

  // ------------------------------------------------------------------ pipes

  lemma PipeNewMeetsPage(s: State)
    requires Inv(s) && Enabled(s, PipeNew)
    ensures PipeNewPage(s, Apply(s, PipeNew), s.q.current.value)
  {
  }

  lemma {:induction false} WithoutRemoves(ps: seq<Pid>, p: Pid)
    ensures RemovedOnce(ps, Without(ps, p), p)
  {
    if p !in ps {
      WithoutMissing(ps, p);
    } else if ps[0] == p {
      assert RemovedAt(ps, Without(ps, p), p, 0);
    } else {
      var rest := ps[1..];
      WithoutRemoves(rest, p);
      var i :| RemovedAt(rest, Without(rest, p), p, i);
      RemovedLater(ps, Without(rest, p), p, i);
    }
  }

  lemma RemovedLater(ps: seq<Pid>, after: seq<Pid>, p: Pid, i: int)
    requires ps != [] && ps[0] != p && RemovedAt(ps[1..], after, p, i)
    ensures RemovedAt(ps, [ps[0]] + after, p, i + 1)
  {
    var rest := ps[1..];
    assert ps[..i + 1] == [ps[0]] + rest[..i] && ps[i + 2..] == rest[i + 1..];
    assert ps[i + 1] == rest[i];
  }

  lemma WithoutMissing(ps: seq<Pid>, p: Pid)
    requires p !in ps
    ensures Without(ps, p) == ps
  {
  }

  /** The loop of pipe_write, for a process that registers or has registered. */
  lemma WriteLoopMeetsPage(s: State, c: Pid, id: int, msg: Bytes)
    requires Inv(s) && s.q.current == Some(c) && id in s.w.pipes
    requires |msg| + |s.w.pipes[id].bytes| > s.w.cfg.pipeLen ==> c in s.w.pipes[id].writers
    ensures PipeWritePage(s, PipeWriteLoop(s, c, id, msg), c, id, msg)
  {
    var pipe := s.w.pipes[id];
    if |msg| + |pipe.bytes| > s.w.cfg.pipeLen {
      BlockSleeps(s, s, c, PipeWriting(id, msg));
    } else {
      WriteMeetsPage(s, c, id, msg);
    }
  }

  lemma WriteMeetsPage(s: State, c: Pid, id: int, msg: Bytes)
    requires Inv(s) && s.q.current == Some(c) && id in s.w.pipes
    requires |msg| + |s.w.pipes[id].bytes| <= s.w.cfg.pipeLen
    ensures PipeWritePage(s, PipeWriteLoop(s, c, id, msg), c, id, msg)
  {
    var pipe := s.w.pipes[id];
    assert KeyOk(s.w, PipeKey(id));
    WithoutRemoves(pipe.writers, c);
    if pipe.readers == [] {
      assert Take(pipe.readers, 1) == [] && Drop(pipe.readers, 1) == [];
    } else {
      assert pipe.readers[0] in pipe.readers;
      assert Take(pipe.readers, 1) == [pipe.readers[0]] && Drop(pipe.readers, 1) == pipe.readers[1..];
    }
  }

  lemma PipeWriteMeetsPage(s: State, id: int, msg: Bytes)
    requires Inv(s) && Enabled(s, PipeWrite(id, msg)) && id in s.w.pipes && |msg| <= s.w.cfg.pipeLen
    ensures PipeWritePage(s, Apply(s, PipeWrite(id, msg)), s.q.current.value, id, msg)
  {
    var c := s.q.current.value;
    assert c !in s.w.pipes[id].writers by { assert KeyOk(s.w, PipeKey(id)); }
    if |msg| + |s.w.pipes[id].bytes| > s.w.cfg.pipeLen {
      FullMeetsPage(s, c, id, msg);
    } else {
      WriteMeetsPage(s, c, id, msg);
    }
    assert Apply(s, PipeWrite(id, msg)) == PipeWriteStep(s, c, id, msg);
  }

  lemma FullMeetsPage(s: State, c: Pid, id: int, msg: Bytes)
    requires s.q.current == Some(c) && c in s.w.procs && id in s.w.pipes && |msg| <= s.w.cfg.pipeLen
    requires c !in s.w.pipes[id].writers && |msg| + |s.w.pipes[id].bytes| > s.w.cfg.pipeLen
    ensures PipeWritePage(s, PipeWriteStep(s, c, id, msg), c, id, msg)
  {
    var pipe := s.w.pipes[id];
    BlockSleeps(SetPipe(s, id, pipe.(writers := [c] + pipe.writers)), s, c, PipeWriting(id, msg));
  }

  lemma ReadMeetsPage(s: State, c: Pid, id: int, len: nat, calls: bool)
    requires Inv(s) && s.q.current == Some(c) && id in s.w.pipes && s.w.pipes[id].bytes != []
    requires !s.w.procs[c].resume.PipeWriting?
    ensures PipeReadPage(s, PipeReadLoop(s, c, id, len), c, id, len, calls)
  {
    var pipe := s.w.pipes[id];
    assert KeyOk(s.w, PipeKey(id));
    var n := Min(len, |pipe.bytes|);
    assert Drop(pipe.bytes, len) == pipe.bytes[n..] && Take(pipe.bytes, len) == pipe.bytes[..n];
    if n < |pipe.bytes| && pipe.readers != [] {
      assert pipe.readers[0] in pipe.readers;
      assert Take(pipe.readers, 1) == [pipe.readers[0]] && Drop(pipe.readers, 1) == pipe.readers[1..];
    } else {
      var k := if n < |pipe.bytes| then 1 else 0;
      assert Take(pipe.readers, k) == [] && Drop(pipe.readers, k) == pipe.readers;
    }
  }

  lemma PipeReadMeetsPage(s: State, id: int, len: nat)
    requires Inv(s) && Enabled(s, PipeRead(id, len)) && id in s.w.pipes
    ensures PipeReadPage(s, Apply(s, PipeRead(id, len)), s.q.current.value, id, len, true)
  {
    var c, pipe := s.q.current.value, s.w.pipes[id];
    if pipe.bytes == [] {
      BlockSleeps(SetPipe(s, id, pipe.(readers := pipe.readers + [c])), s, c, PipeReading(id, len));
    } else {
      ReadMeetsPage(s, c, id, len, true);
    }
  }

  // -------------------------------------------------------------- terminals

  /** c, the current process, has taken terminal t, in s; before that, in s0, it was free or c's already. */
  ghost predicate HasTaken(s: State, s0: State, c: Pid, t: nat) {
    && s0.q.current == Some(c) && c in s0.w.procs && s0.w.procs[c].state == Ready
    && t < |s0.w.ttys| && c !in s0.w.ttys[t].writeQueue
    && (s == s0 || s == SetTty(s0, t, s0.w.ttys[t].(available := false, writer := Some(c))))
    && s.w.ttys[t].writer == Some(c) && !s.w.ttys[t].available
  }

  lemma TakesTerminal(s: State, s0: State, c: Pid, t: nat)
    requires Inv(s0) && s0.q.current == Some(c) && t < |s0.w.ttys|
    requires if s0.w.ttys[t].available then s == SetTty(s0, t, s0.w.ttys[t].(available := false, writer := Some(c)))
             else s == s0 && s0.w.ttys[t].writer == Some(c)
    ensures HasTaken(s, s0, c, t)
  {
    assert KeyOk(s0.w, TtyKey(t));
  }

  lemma SendMeetsPage(s: State, s0: State, c: Pid, t: nat, msg: Bytes, start: nat)
    requires HasTaken(s, s0, c, t)
    ensures SendPage(s0, SendFrom(s, c, t, msg, start), c, t, msg, start)
  {
    if start < |msg| {
      ChunkMeetsPage(s, s0, c, t, msg, start);
    } else {
      LastMeetsPage(s, s0, c, t, msg, start);
    }
  }

  lemma ChunkMeetsPage(s: State, s0: State, c: Pid, t: nat, msg: Bytes, start: nat)
    requires HasTaken(s, s0, c, t) && start < |msg|
    ensures SendPage(s0, SendFrom(s, c, t, msg, start), c, t, msg, start)
  {
    var tty, n := s.w.ttys[t], s.w.cfg.maxLine;
    assert Take(msg[start..], n) == msg[start..Min(start + n, |msg|)];
    var s1 := SetTty(s, t, tty.(writer := Some(c), pending := true, sent := tty.sent + [Take(msg[start..], n)]));
    BlockSleeps(s1, s0, c, Sending(t, msg, start));
  }

  /** What the end of a message does with nobody waiting, and with somebody. */
  lemma LastMeetsPage(s: State, s0: State, c: Pid, t: nat, msg: Bytes, start: nat)
    requires HasTaken(s, s0, c, t) && start >= |msg|
    ensures SendPage(s0, SendFrom(s, c, t, msg, start), c, t, msg, start)
  {
    if s0.w.ttys[t].writeQueue != [] {
      YieldMeetsPage(s, s0, c, t, msg, start);
    }
  }

  lemma YieldMeetsPage(s: State, s0: State, c: Pid, t: nat, msg: Bytes, start: nat)
    requires HasTaken(s, s0, c, t) && start >= |msg| && s0.w.ttys[t].writeQueue != []
    ensures SendPage(s0, SendFrom(s, c, t, msg, start), c, t, msg, start)
  {
    var tty, next := s0.w.ttys[t], s0.w.ttys[t].writeQueue[0];
    var s1 := Yielding(s, c, t, msg);
    YieldedBlocks(s, s0, c, t, msg);
    SchedulingRotates(s1.q, s1.w, c);
    assert SendFrom(s, c, t, msg, start) == Schedule(s1);
    assert s1.q.ready == s.q.ready + [next] && [] + s.q.delayed == s.q.delayed;
  }

  /** The last chunk is out, the next writer is woken, and c is about to give up the processor. */
  function Yielding(s: State, c: Pid, t: nat, msg: Bytes): State
    requires c in s.w.procs && t < |s.w.ttys| && s.w.ttys[t].writeQueue != []
  {
    var tty := s.w.ttys[t];
    var rest := tty.(available := true, writer := None, done := tty.done + [msg], writeQueue := tty.writeQueue[1..]);
    Return(Wake(SetTty(s, t, rest), [tty.writeQueue[0]]), c, 0)
  }

  lemma YieldedBlocks(s: State, s0: State, c: Pid, t: nat, msg: Bytes)
    requires HasTaken(s, s0, c, t) && s0.w.ttys[t].writeQueue != []
    ensures var s1, tty, next := Yielding(s, c, t, msg), s0.w.ttys[t], s0.w.ttys[t].writeQueue[0];
            && Blocks(s0.w.procs, s1.w.procs, c, s0.w.procs[c].(rc := 0, resume := User), [next])
            && s1.w.procs[c].state == Ready
            && s1.w == s0.w.(procs := s1.w.procs, ttys := s0.w.ttys[t := tty.(
                 available := true, writer := None, done := tty.done + [msg], writeQueue := tty.writeQueue[1..])])
            && s1.q == s.q.(ready := s.q.ready + [next], blocked := s.q.blocked - Members([next]))
  {
    var next := s0.w.ttys[t].writeQueue[0];
    assert next in s0.w.ttys[t].writeQueue;
    YieldedProcs(s, s0, c, t, msg, next);
  }

  lemma YieldedProcs(s: State, s0: State, c: Pid, t: nat, msg: Bytes, next: Pid)
    requires c in s0.w.procs && s0.w.procs[c].state == Ready && t < |s0.w.ttys| && s.w.procs == s0.w.procs
    requires |s.w.ttys| == |s0.w.ttys| && s.w.ttys[t].writeQueue != []
    requires next == s.w.ttys[t].writeQueue[0] && next != c
    ensures Blocks(s0.w.procs, Yielding(s, c, t, msg).w.procs, c, s0.w.procs[c].(rc := 0, resume := User), [next])
    ensures Yielding(s, c, t, msg).w.procs[c].state == Ready
  {
  }

  lemma WriteTopMeetsPage(s: State, c: Pid, t: nat, msg: Bytes)
    requires Inv(s) && s.q.current == Some(c) && t < |s.w.ttys|
    ensures TtyWritePage(s, WriteTop(s, c, t, msg), c, t, msg)
  {
    var tty := s.w.ttys[t];
    if tty.available {
      var s1 := SetTty(s, t, tty.(available := false, writer := Some(c)));
      TakesTerminal(s1, s, c, t);
      SendMeetsPage(s1, s, c, t, msg, 0);
      assert WriteTop(s, c, t, msg) == SendFrom(s1, c, t, msg, 0);
    } else {
      BlockSleeps(SetTty(s, t, tty.(writeQueue := tty.writeQueue + [c])), s, c, WriteWait(t, msg));
    }
  }

  lemma TtyReadMeetsPage(s: State, t: nat, len: nat)
    requires Inv(s) && Enabled(s, TtyRead(t, len))
    ensures TtyReadPage(s, Apply(s, TtyRead(t, len)), s.q.current.value, t, len)
  {
    var c, tty := s.q.current.value, s.w.ttys[t];
    assert KeyOk(s.w, TtyKey(t)) && c !in tty.readers;
    if tty.unread == [] {
      BlockSleeps(SetTty(s, t, tty.(readers := [c] + tty.readers)), s, c, ReadWait(t, len));
    } else {
      assert Take(tty.unread, len) == tty.unread[..Min(len, |tty.unread|)];
      assert Drop(tty.unread, len) == tty.unread[Min(len, |tty.unread|)..];
    }
  }

  lemma LineMeetsPage(s: State, c: Pid, t: nat)
    requires Inv(s) && s.q.current == Some(c) && t < |s.w.ttys|
    ensures LinePage(s, ReadResume(s, c, t), c)
  {
    assert KeyOk(s.w, TtyKey(t));
    LineIsHandedOver(s, c, t);
  }

  lemma LineIsHandedOver(s: State, c: Pid, t: nat)
    requires c in s.w.procs && t < |s.w.ttys| && c !in s.w.ttys[t].readers
    ensures LinePage(s, ReadResume(s, c, t), c)
  {
    WithoutMissing(s.w.ttys[t].readers, c);
  }

  // ------------------------------------------------------------------ traps

  lemma TransmitMeetsPage(s: State, t: nat)
    requires Inv(s) && Enabled(s, Transmit(t))
    ensures TransmitPage(s, Apply(s, Transmit(t)), t)
  {
    assert KeyOk(s.w, TtyKey(t));
  }

  lemma {:induction false} LongestIsTheMost(procs: map<Pid, Pcb>, readers: seq<Pid>, n: nat)
    requires forall p :: p in readers ==> p in procs && procs[p].resume.ReadWait?
    ensures var taken := Longest(Requests(procs, readers), n);
            && (forall p :: p in readers ==> Covered(procs, p, n, taken))
            && (if readers == [] then taken == 0 else exists p :: p in readers && Attained(procs, p, n, taken))
  {
    var taken := Longest(Requests(procs, readers), n);
    if readers != [] {
      var init, last := readers[..|readers| - 1], readers[|readers| - 1];
      var before := Longest(Requests(procs, init), n);
      LongestIsTheMost(procs, init, n);
      assert Requests(procs, readers)[..|readers| - 1] == Requests(procs, init);
      assert readers == init + [last];
      forall p | p in readers ensures Covered(procs, p, n, taken) {
        if p != last { assert Covered(procs, p, n, before); }
      }
      if taken == Min(procs[last].resume.len, n) {
        assert last in readers && Attained(procs, last, n, taken);
      } else {
        var p :| p in init && Attained(procs, p, n, before);
        assert p in readers && Attained(procs, p, n, taken);
      }
    }
  }

  lemma ReceiveMeetsPage(s: State, t: nat, line: Bytes)
    requires Inv(s) && Enabled(s, Receive(t, line))
    ensures ReceivePage(s, Apply(s, Receive(t, line)), t, line)
  {
    var readers := s.w.ttys[t].readers;
    assert KeyOk(s.w, TtyKey(t));
    forall p | p in readers ensures p in s.w.procs && s.w.procs[p].resume.ReadWait? {
      assert Waits(s.w, p);
    }
    FanOutMeetsPage(s, t, line);
    assert Apply(s, Receive(t, line)) == ReceiveStep(s, t, line);
  }

  /** What the fan-out does to control blocks. */
  ghost predicate FansOut(procs: map<Pid, Pcb>, procs': map<Pid, Pcb>, readers: seq<Pid>, line: Bytes) {
    && procs'.Keys == procs.Keys
    && (forall p :: p in procs && p !in readers ==> procs'[p] == procs[p])
    && (forall p :: p in procs && p in readers ==>
          && procs[p].resume.ReadWait?
          && procs'[p] == procs[p].(state := Ready, line := line[..Min(procs[p].resume.len, |line|)]))
  }

  lemma FanOutMeetsPage(s: State, t: nat, line: Bytes)
    requires t < |s.w.ttys|
    requires forall p :: p in s.w.ttys[t].readers ==> p in s.w.procs && s.w.procs[p].resume.ReadWait?
    ensures ReceivePage(s, ReceiveStep(s, t, line), t, line)
  {
    if 1 <= |line| <= s.w.cfg.maxLine {
      FanOutTerminal(s, t, line);
      RestIsBeyond(s.w.procs, s.w.ttys[t].readers, line);
      FanOutBlocks(s, t, line);
      FanOutPage(s, ReceiveStep(s, t, line), t, line);
    }
  }

  lemma FanOutPage(s: State, s': State, t: nat, line: Bytes)
    requires t < |s.w.ttys| && 1 <= |line| <= s.w.cfg.maxLine && |s'.w.ttys| == |s.w.ttys|
    requires FansOut(s.w.procs, s'.w.procs, s.w.ttys[t].readers, line) && GoesOn(s.q, s'.q, s.w.ttys[t].readers)
    requires FannedOut(s, s', t)
    requires BeyondAll(s.w.procs, s.w.ttys[t].readers, line, s'.w.ttys[t].unread)
    ensures ReceivePage(s, s', t, line)
  {
  }

  /** Nothing else has changed but that nobody waits any more. */
  ghost predicate FannedOut(s: State, s': State, t: nat)
    requires t < |s.w.ttys| == |s'.w.ttys|
  {
    var tty := s.w.ttys[t];
    s'.w == s.w.(procs := s'.w.procs, ttys := s.w.ttys[t := tty.(readers := [], unread := s'.w.ttys[t].unread)])
  }

  lemma FanOutBlocks(s: State, t: nat, line: Bytes)
    requires t < |s.w.ttys| && 1 <= |line| <= s.w.cfg.maxLine
    requires forall p :: p in s.w.ttys[t].readers ==> p in s.w.procs && s.w.procs[p].resume.ReadWait?
    ensures FansOut(s.w.procs, ReceiveStep(s, t, line).w.procs, s.w.ttys[t].readers, line)
  {
    var readers := s.w.ttys[t].readers;
    DeliveredBlocks(s.w.procs, readers, line);
    assert ReceiveStep(s, t, line).w.procs == MakeReady(Deliver(s.w.procs, readers, line), readers);
  }

  lemma RestIsBeyond(procs: map<Pid, Pcb>, readers: seq<Pid>, line: Bytes)
    requires forall p :: p in readers ==> p in procs && procs[p].resume.ReadWait?
    ensures BeyondAll(procs, readers, line, Drop(line, Longest(Requests(procs, readers), |line|)))
  {
    var n, taken := |line|, Longest(Requests(procs, readers), |line|);
    LongestIsTheMost(procs, readers, n);
    forall p | p in readers ensures Covered(procs, p, n, taken) {}
    CutIsBeyond(procs, readers, line, taken);
  }

  lemma CutIsBeyond(procs: map<Pid, Pcb>, readers: seq<Pid>, line: Bytes, taken: nat)
    requires taken <= |line| && forall p :: p in readers ==> Covered(procs, p, |line|, taken)
    requires if readers == [] then taken == 0 else exists p :: p in readers && Attained(procs, p, |line|, taken)
    ensures BeyondAll(procs, readers, line, Drop(line, taken))
  {
    var rest := Drop(line, taken);
    assert |line| - |rest| == taken;
    if readers != [] {
      var p :| p in readers && Attained(procs, p, |line|, taken);
      assert Attained(procs, p, |line|, |line| - |rest|);
    }
  }

  lemma FanOutTerminal(s: State, t: nat, line: Bytes)
    requires t < |s.w.ttys| && 1 <= |line| <= s.w.cfg.maxLine
    ensures var tty, s' := s.w.ttys[t], ReceiveStep(s, t, line);
            && GoesOn(s.q, s'.q, tty.readers) && |s'.w.ttys| == |s.w.ttys| && FannedOut(s, s', t)
            && s'.w.ttys[t].unread == Drop(line, Longest(Requests(s.w.procs, tty.readers), |line|))
  {
  }

  lemma DeliveredBlocks(procs: map<Pid, Pcb>, readers: seq<Pid>, line: Bytes)
    requires forall p :: p in readers ==> p in procs && procs[p].resume.ReadWait?
    ensures FansOut(procs, MakeReady(Deliver(procs, readers, line), readers), readers, line)
  {
  }

  lemma {:induction false} DueIsExpired(procs: map<Pid, Pcb>, ps: seq<Pid>)
    ensures Due(procs, ps, true) == Expired(procs, ps) && Due(procs, ps, false) == Unexpired(procs, ps)
  {
    if ps != [] {
      var init, p := ps[..|ps| - 1], ps[|ps| - 1];
      assert ps == init + [p];
      DueIsExpired(procs, init);
      ExpirySnoc(procs, init, p);
    }
  }

  lemma ClockMeetsPage(s: State)
    requires Inv(s) && Enabled(s, Clock)
    ensures ClockPage(s, Apply(s, Clock), s.q.current.value)
  {
    var c := s.q.current.value;
    CurrentIsNowhereElse(s.q, s.w.procs, s.w.cfg.idle);
    TickMeetsPage(s, c);
    assert Apply(s, Clock) == ClockStep(s);
  }

  lemma TickMeetsPage(s: State, c: Pid)
    requires s.q.current == Some(c) && c in s.w.procs && s.w.procs[c].state == Ready && c !in s.q.delayed
    ensures ClockPage(s, ClockStep(s), c)
  {
    var s1 := AfterTick(s);
    DueIsExpired(s.w.procs, s.q.delayed);
    SchedulingRotates(s1.q, s1.w, c);
    assert [] + s1.q.delayed == s1.q.delayed;
  }

  // ------------------------------------------------------------- every step

  lemma ContinueReadMeetsPage(s: State, c: Pid, id: int, len: nat)
    requires Inv(s) && s.q.current == Some(c) && id in s.w.pipes && s.w.procs[c].resume == PipeReading(id, len)
    ensures PipeReadPage(s, PipeReadLoop(s, c, id, len), c, id, len, false)
  {
    if s.w.pipes[id].bytes == [] {
      BlockSleeps(s, s, c, PipeReading(id, len));
    } else {
      ReadMeetsPage(s, c, id, len, false);
    }
  }

  lemma ContinueQueuedMeetsPage(s: State, c: Pid)
    requires Inv(s) && s.q.current == Some(c) && Resumable(s.w, s.w.procs[c].resume)
    requires s.w.procs[c].resume.WriteWait?
    ensures ContinuePage(s, ContinueStep(s, c), c)
  {
    var r := s.w.procs[c].resume;
    WriteTopMeetsPage(s, c, r.t, r.msg);
    assert ContinueStep(s, c) == WriteTop(s, c, r.t, r.msg);
  }

  lemma SenderHasTaken(s: State, c: Pid, t: nat, msg: Bytes, last: nat)
    requires Inv(s) && s.q.current == Some(c) && s.w.procs[c].resume == Sending(t, msg, last)
    ensures HasTaken(s, s, c, t)
  {
    assert ProcOk(s.w, c);
    assert KeyOk(s.w, TtyKey(t));
  }

  lemma ContinueSendingMeetsPage(s: State, c: Pid, t: nat, msg: Bytes, last: nat)
    requires HasTaken(s, s, c, t) && s.w.procs[c].resume == Sending(t, msg, last)
    ensures ContinuePage(s, ContinueStep(s, c), c)
  {
    var next := last + s.w.cfg.maxLine;
    SendMeetsPage(s, s, c, t, msg, next);
    assert ContinueStep(s, c) == SendFrom(s, c, t, msg, next);
  }

  lemma ContinuePipeMeetsPage(s: State, c: Pid)
    requires Inv(s) && s.q.current == Some(c) && Resumable(s.w, s.w.procs[c].resume)
    requires s.w.procs[c].resume.PipeReading? || s.w.procs[c].resume.PipeWriting?
    ensures ContinuePage(s, ContinueStep(s, c), c)
  {
    var r := s.w.procs[c].resume;
    if r.PipeReading? {
      ContinueReadMeetsPage(s, c, r.id, r.len);
    } else {
      assert ProcOk(s.w, c);
      WriteLoopMeetsPage(s, c, r.id, r.msg);
    }
  }

  lemma ContinueHomeMeetsPage(s: State, c: Pid)
    requires Inv(s) && s.q.current == Some(c) && Resumable(s.w, s.w.procs[c].resume)
    requires s.w.procs[c].resume.LockWait? || s.w.procs[c].resume.WaitLoop? || s.w.procs[c].resume.ReadWait?
    ensures ContinuePage(s, ContinueStep(s, c), c)
  {
    if s.w.procs[c].resume.ReadWait? { LineMeetsPage(s, c, s.w.procs[c].resume.t); }
  }

  lemma ContinueMeetsPage(s: State)
    requires Inv(s) && Enabled(s, Continue)
    ensures ContinuePage(s, Apply(s, Continue), s.q.current.value)
  {
    var c := s.q.current.value;
    var r := s.w.procs[c].resume;
    if r.WriteWait? {
      ContinueQueuedMeetsPage(s, c);
    } else if r.Sending? {
      SenderHasTaken(s, c, r.t, r.msg, r.start);
      ContinueSendingMeetsPage(s, c, r.t, r.msg, r.start);
    } else if r.PipeReading? || r.PipeWriting? {
      ContinuePipeMeetsPage(s, c);
    } else {
      ContinueHomeMeetsPage(s, c);
    }
    assert Apply(s, Continue) == ContinueStep(s, c);
  }

  /** Every step of the kernel, safe or not, is as its page says. */
  lemma StepMeetsPage(s: State, e: Event)
    requires Inv(s) && Enabled(s, e)
    ensures Page(s, e, Apply(s, e))
  {
    match e
    case Fork(child, framesLeft) => ForkMeetsPage(s, child, framesLeft);
    case Exit(status) => ExitMeetsPage(s, status);
    case Wait => WaitMeetsPage(s);
    case Delay(n) => DelayMeetsPage(s, n);
    case LockNew => LockNewMeetsPage(s);
    case Acquire(id) => AcquireMeetsPage(s, id);
    case Release(id) => ReleaseMeetsPage(s, id);
    case PipeNew => PipeNewMeetsPage(s);
    case PipeWrite(id, msg) =>
      if id in s.w.pipes && |msg| <= s.w.cfg.pipeLen { PipeWriteMeetsPage(s, id, msg); }
    case PipeRead(id, len) =>
      if id in s.w.pipes { PipeReadMeetsPage(s, id, len); }
    case TtyWrite(t, msg) => WriteTopMeetsPage(s, s.q.current.value, t, msg);
    case TtyRead(t, len) => TtyReadMeetsPage(s, t, len);
    case Continue => ContinueMeetsPage(s);
    case Clock => ClockMeetsPage(s);
    case Transmit(t) => TransmitMeetsPage(s, t);
    case Receive(t, line) => ReceiveMeetsPage(s, t, line);
  }
}
