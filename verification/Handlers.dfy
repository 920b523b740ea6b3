/**
 * The handlers in the shape of the source: globals updated in place, one statement
 * after the other, loops where the source walks a list. Each is proved to do exactly
 * what its step function says. A handler that calls the scheduler in the middle ends
 * there; its continuation is the handler's next segment.
 */
module Handlers {
  import opened Types
  import opened Kernel

  class Machine {
    const cfg: Config
    var current: Option<Pid>
    var ready: seq<Pid>
    var blocked: set<Pid>
    var delayed: seq<Pid>
    var dead: set<Pid>
    var reserve: bool
    var procs: map<Pid, Pcb>
    var locks: map<int, Lock>
    var pipes: map<int, Pipe>
    var ttys: seq<Tty>
    var nextId: nat
    ghost var switches: nat
    ghost var releases: map<int, nat>

    ghost function View(): State
      reads this
    {
      State(Queues(current, ready, blocked, delayed, dead, reserve, switches),
            World(cfg, procs, locks, pipes, ttys, nextId, releases))
    }

    /** A process is running and has a control block. */
    ghost predicate Running(c: Pid)
      reads this
    {
      current == Some(c) && c in procs
    }

    constructor (cfg: Config, terminals: nat)
      ensures View() == Boot(cfg, terminals)
    {
      this.cfg := cfg;
      current, ready, blocked, delayed, dead, reserve := Some(cfg.init), [], {}, [], {}, true;
      var blank := Pcb(RunState.Ready, false, 0, None, {}, {}, 0, [], [], User);
      procs := map[cfg.init := blank, cfg.idle := blank];
      locks, pipes, ttys, nextId := map[], map[], seq(terminals, _ => NewTty()), 0;
      switches, releases := 0, map[];
    }

    // ------------------------------------------------------------ scheduler

    method EnqueueCurrentProcess()
      requires current.Some? ==> current.value in procs
      modifies this`ready, this`blocked, this`delayed, this`dead
      ensures View() == old(View()).(q := Enqueue(old(View()).q, old(procs)))
    {
      if current == None {
        return;
      }
      var c := current.value;
      match procs[c].state {
        case Ready => ready := ready + [c];
        case Dead => dead := dead + {c};
        case Blocked => blocked := blocked + {c};
        case Delayed =>
          if c !in delayed {
            delayed := [c] + delayed;
          }
      }
    }

    method ScheduleNextProcess()
      requires current.Some? ==> current.value in procs
      modifies this`current, this`ready, this`blocked, this`delayed, this`dead, this`reserve, this`switches
      ensures View() == Schedule(old(View()))
    {
      if ready == [] {
        switches := switches + 1;
        EnqueueCurrentProcess();
        if ready == [] {
          current, reserve := Some(cfg.idle), false;
        } else {
          ready := ready[1..];
        }
      } else {
        SwitchToNext();
      }
    }

    /** The round-robin half: pop the next process before filing the current one. */
    method SwitchToNext()
      requires ready != [] && (current.Some? ==> current.value in procs)
      modifies this`current, this`ready, this`blocked, this`delayed, this`dead, this`switches
      ensures View() == Schedule(old(View()))
    {
      switches := switches + 1;
      var next := ready[0];
      ready := ready[1..];
      EnqueueCurrentProcess();
      current := Some(next);
    }

    /** Set the result register and go back to user mode. */
    method ReturnToUser(c: Pid, rc: int)
      requires c in procs
      modifies this`procs
      ensures View() == Return(old(View()), c, rc)
    {
      procs := procs[c := procs[c].(rc := rc, resume := User)];
    }

    /** The current process blocks and gives up the processor. */
    method BlockCurrent(c: Pid, r: Resume)
      requires Running(c)
      modifies this
      ensures View() == Block(old(View()), c, r)
    {
      procs := procs[c := procs[c].(state := RunState.Blocked, resume := r)];
      ScheduleNextProcess();
    }

    /** READY, out of the blocked set, onto the ready queue. */
    method WakeUp(p: Pid)
      modifies this`procs, this`blocked, this`ready
      ensures View() == Wake(old(View()), [p])
    {
      if p in procs {
        procs := procs[p := procs[p].(state := RunState.Ready)];
      }
      blocked := blocked - {p};
      ready := ready + [p];
      assert procs == MakeReady(old(procs), [p]);
    }

    /** Wake the processes of a list, front to back. */
    method WakeList(ps: seq<Pid>)
      modifies this`procs, this`blocked, this`ready
      ensures View() == Wake(old(View()), ps)
    {
      var i := 0;
      assert MakeReady(procs, []) == procs;
      while i < |ps|
        invariant 0 <= i <= |ps|
        invariant View() == Wake(old(View()), ps[..i])
      {
        WakeUp(ps[i]);
        assert ps[..i + 1] == ps[..i] + [ps[i]];
        WakeOneMore(old(View()), ps[..i], ps[i]);
        i := i + 1;
      }
      assert ps[..i] == ps;
    }

    // ------------------------------------------------------------ processes

    method ForkHandler(c: Pid, child: Pid, framesLeft: bool)
      requires Running(c) && child !in procs
      modifies this`procs, this`ready
      ensures View() == ForkStep(old(View()), c, child, framesLeft)
    {
      var numProcesses := |delayed| + |blocked| + |ready|;
      if c == cfg.idle || c == cfg.init {
        numProcesses := numProcesses + 2;
      } else {
        numProcesses := numProcesses + 3;
      }
      if numProcesses >= MAX_PROCESSES || !framesLeft {
        ReturnToUser(c, ERROR);
        return;
      }
      procs := procs[child := NewPcb(c)];
      procs := procs[c := procs[c].(children := procs[c].children + {child})];
      ready := ready + [child];
      procs := procs[c := procs[c].(rc := child, resume := User)];
      assert procs == AfterBirth(old(procs), c, child);
    }

    /** pcbOrphanChildren: walk the children and the zombies, pointing each at init. */
    method OrphanChildren(c: Pid)
      requires c in procs
      modifies this`procs
      ensures procs == Orphan(old(procs), old(procs)[c].children + old(procs)[c].zombies, cfg.init)
    {
      ghost var lost := procs[c].children + procs[c].zombies;
      var left := procs[c].children + procs[c].zombies;
      while left != {}
        invariant left <= lost
        invariant procs == Orphan(old(procs), lost - left, cfg.init)
        decreases |left|
      {
        var p :| p in left;
        if p in procs {
          procs := procs[p := procs[p].(parent := Some(cfg.init))];
        }
        left := left - {p};
      }
    }

    method ExitHandler(c: Pid)
      requires Running(c) && HasParent(procs, c)
      modifies this
      ensures View() == ExitStep(old(View()), c)
    {
      var par := procs[c].parent.value;
      OrphanChildren(c);
      procs := procs[c := procs[c].(state := RunState.Dead, waiting := false, children := {}, zombies := {},
                                    resume := User)];
      var pp := procs[par].(children := procs[par].children - {c});
      if pp.waiting {
        procs := procs[par := pp.(state := RunState.Ready, waiting := !cfg.clears)];
        ready := ready + [par];
        blocked := blocked - {par};
      } else {
        procs := procs[par := pp.(zombies := pp.zombies + {c})];
        dead := dead + {c};
      }
      current := None;
      assert View() == BeforeExitSchedules(old(View()), c);
      ScheduleNextProcess();
    }

    method WaitHandler(c: Pid)
      requires Running(c)
      modifies this
      ensures View() == WaitStep(old(View()), c)
    {
      if procs[c].zombies != {} {
        dead := dead - procs[c].zombies;
        procs := procs[c := procs[c].(zombies := {})];
        ReturnToUser(c, 0);
      } else if procs[c].children == {} {
        ReturnToUser(c, ERROR);
      } else {
        procs := procs[c := procs[c].(waiting := true)];
        BlockCurrent(c, WaitLoop);
      }
    }

    method DelayHandler(c: Pid, clockTicks: int)
      requires Running(c)
      modifies this
      ensures View() == DelayStep(old(View()), c, clockTicks)
    {
      if clockTicks == 0 {
        ReturnToUser(c, 0);
      } else if clockTicks < 0 {
        ReturnToUser(c, ERROR);
      } else {
        procs := procs[c := procs[c].(delay := clockTicks, state := RunState.Delayed, rc := 0)];
        ScheduleNextProcess();
      }
    }

    /** The body of the clock walk: one tick for p, which leaves the list at zero. */
    method TickOne(p: Pid)
      requires p in procs
      modifies this`procs, this`delayed, this`ready
      ensures procs == old(procs)[p := old(procs)[p].(
                delay := old(procs)[p].delay - 1,
                state := if Expires(old(procs), p) then RunState.Ready else old(procs)[p].state)]
      ensures delayed == if Expires(old(procs), p) then Without(old(delayed), p) else old(delayed)
      ensures ready == old(ready) + if Expires(old(procs), p) then [p] else []
    {
      var pcb := procs[p].(delay := procs[p].delay - 1);
      if pcb.delay > 0 {
        procs := procs[p := pcb];
      } else {
        delayed := Without(delayed, p);
        procs := procs[p := pcb.(state := RunState.Ready)];
        ready := ready + [p];
      }
    }

    method VisitDelayed(ghost was: map<Pid, Pcb>, walk: seq<Pid>, i: nat, ghost ready0: seq<Pid>)
      requires i < |walk| && Distinct(walk) && walk[i] in was
      requires Walked(procs, delayed, ready, was, walk, i, ready0)
      modifies this`procs, this`delayed, this`ready
      ensures Walked(procs, delayed, ready, was, walk, i + 1, ready0)
    {
      ClockWalkStep(was, walk, i);
      TickOne(walk[i]);
    }

    /** The clock walk: the list loses entries while it is walked. */
    method WalkDelayed()
      requires Distinct(delayed) && forall p :: p in delayed ==> p in procs
      modifies this`procs, this`delayed, this`ready
      ensures Walked(procs, delayed, ready, old(procs), old(delayed), |old(delayed)|, old(ready))
    {
      var walk := delayed;
      ghost var was, ready0 := procs, ready;
      NothingWalked(procs, delayed, ready);
      var i := 0;
      while i < |walk|
        modifies this`procs, this`delayed, this`ready
        invariant 0 <= i <= |walk| && Walked(procs, delayed, ready, was, walk, i, ready0)
      {
        assert walk[i] in walk;
        VisitDelayed(was, walk, i, ready0);
        i := i + 1;
      }
    }

    method TrapClockHandler()
      requires current.Some? ==> current.value in procs
      requires Distinct(delayed) && forall p :: p in delayed ==> p in procs
      modifies this
      ensures View() == ClockStep(old(View()))
    {
      WalkDelayed();
      assert old(delayed)[..|old(delayed)|] == old(delayed) && old(delayed)[|old(delayed)|..] == [];
      assert View() == AfterTick(old(View()));
      ScheduleNextProcess();
    }

    // ---------------------------------------------------------------- locks

    method LockNew(c: Pid)
      requires Running(c)
      modifies this
      ensures View() == LockNewStep(old(View()), c)
    {
      if |locks| >= MAX_LOCKS {
        ReturnToUser(c, ERROR);
      } else {
        var id := nextId;
        nextId := nextId + 1;
        locks := locks[id := Lock(UNLOCKED, [])];
        releases := releases[id := 0];
        ReturnToUser(c, id);
      }
    }

    method AcquireLockHandler(c: Pid, id: int)
      requires Running(c)
      modifies this
      ensures View() == AcquireStep(old(View()), c, id)
    {
      if id !in locks {
        ReturnToUser(c, ERROR);
      } else if locks[id].owner == UNLOCKED {
        locks := locks[id := locks[id].(owner := c)];
        ReturnToUser(c, 0);
      } else if locks[id].owner == c {
        ReturnToUser(c, ERROR);
      } else {
        locks := locks[id := locks[id].(waiters := locks[id].waiters + [c])];
        BlockCurrent(c, LockWait(id));
      }
    }

    method ReleaseLockHandler(c: Pid, id: int)
      requires Running(c)
      modifies this
      ensures View() == ReleaseStep(old(View()), c, id)
    {
      if id !in locks || locks[id].owner != c {
        ReturnToUser(c, ERROR);
        return;
      }
      releases := releases[id := Releases(old(View()).w, id) + 1];
      if locks[id].waiters == [] {
        locks := locks[id := locks[id].(owner := UNLOCKED)];
        ReturnToUser(c, 0);
      } else {
        var next := locks[id].waiters[0];
        locks := locks[id := Lock(next, locks[id].waiters[1..])];
        WakeUp(next);
        ReturnToUser(c, 0);
      }
    }

    // ---------------------------------------------------------------- pipes

    method PipeNew(c: Pid)
      requires Running(c)
      modifies this
      ensures View() == PipeNewStep(old(View()), c)
    {
      if |pipes| >= MAX_PIPES {
        ReturnToUser(c, ERROR);
      } else {
        var id := nextId;
        nextId := nextId + 1;
        pipes := pipes[id := Pipe([], [], [], [], [])];
        ReturnToUser(c, id);
      }
    }

    /** The loop of pipe_write, from its test to the next scheduler call. */
    method PipeWriteSegment(c: Pid, id: int, msg: Bytes)
      requires Running(c) && id in pipes
      modifies this
      ensures View() == PipeWriteLoop(old(View()), c, id, msg)
    {
      var pipe := pipes[id];
      if |msg| + |pipe.bytes| > cfg.pipeLen {
        BlockCurrent(c, PipeWriting(id, msg));
        return;
      }
      pipe := pipe.(writers := Without(pipe.writers, c));
      pipe := pipe.(bytes := pipe.bytes + msg, written := pipe.written + msg);
      var nextReader := Take(pipe.readers, 1);
      pipes := pipes[id := pipe.(readers := Drop(pipe.readers, 1))];
      WakeList(nextReader);
      ReturnToUser(c, 0);
    }

    method PipeWriteHandler(c: Pid, id: int, msg: Bytes)
      requires Running(c)
      modifies this
      ensures View() == PipeWriteStep(old(View()), c, id, msg)
    {
      if id !in pipes || |msg| > cfg.pipeLen {
        ReturnToUser(c, ERROR);
        return;
      }
      if |msg| + |pipes[id].bytes| > cfg.pipeLen && c !in pipes[id].writers {
        pipes := pipes[id := pipes[id].(writers := [c] + pipes[id].writers)];
      }
      PipeWriteSegment(c, id, msg);
    }

    /** The loop of pipe_read, from its test to the next scheduler call. */
    method PipeReadSegment(c: Pid, id: int, len: nat)
      requires Running(c) && id in pipes
      modifies this
      ensures View() == PipeReadLoop(old(View()), c, id, len)
    {
      var pipe := pipes[id];
      if pipe.bytes == [] {
        BlockCurrent(c, PipeReading(id, len));
        return;
      }
      var got := Take(pipe.bytes, len);
      procs := procs[c := procs[c].(got := got, rc := 0, resume := User)];
      pipe := pipe.(bytes := Drop(pipe.bytes, len), taken := pipe.taken + got);
      var nextReader: seq<Pid> := [];
      if pipe.bytes != [] {
        nextReader := Take(pipe.readers, 1);
        pipe := pipe.(readers := Drop(pipe.readers, 1));
      }
      pipes := pipes[id := pipe];
      WakeList(nextReader + pipe.writers);
    }

    method PipeReadHandler(c: Pid, id: int, len: nat)
      requires Running(c)
      modifies this
      ensures View() == PipeReadStep(old(View()), c, id, len)
    {
      if id !in pipes {
        ReturnToUser(c, ERROR);
        return;
      }
      if pipes[id].bytes == [] {
        pipes := pipes[id := pipes[id].(readers := pipes[id].readers + [c])];
      }
      PipeReadSegment(c, id, len);
    }

    // ------------------------------------------------------------ terminals

    /** TtyWriteHandler from the availability test on. */
    method TtyWriteTop(c: Pid, t: nat, msg: Bytes)
      requires Running(c) && t < |ttys|
      modifies this
      ensures View() == WriteTop(old(View()), c, t, msg)
    {
      if !ttys[t].available {
        ttys := ttys[t := ttys[t].(writeQueue := ttys[t].writeQueue + [c])];
        BlockCurrent(c, WriteWait(t, msg));
      } else {
        ttys := ttys[t := ttys[t].(writer := Some(c), available := false)];
        TtySendFrom(c, t, msg, 0);
      }
    }

    /** One turn of the chunk loop: transmit and block, or leave the loop and finish. */
    method TtySendFrom(c: Pid, t: nat, msg: Bytes, start: nat)
      requires Running(c) && t < |ttys|
      modifies this
      ensures View() == SendFrom(old(View()), c, t, msg, start)
    {
      if start < |msg| {
        var size := Min(|msg| - start, cfg.maxLine);
        ttys := ttys[t := ttys[t].(writer := Some(c), pending := true,
                                   sent := ttys[t].sent + [msg[start..][..size]])];
        BlockCurrent(c, Sending(t, msg, start));
        return;
      }
      ttys := ttys[t := ttys[t].(available := true, writer := None, done := ttys[t].done + [msg])];
      if ttys[t].writeQueue != [] {
        var next := ttys[t].writeQueue[0];
        ttys := ttys[t := ttys[t].(writeQueue := ttys[t].writeQueue[1..])];
        WakeUp(next);
        ReturnToUser(c, 0);
        ScheduleNextProcess();
      } else {
        ReturnToUser(c, 0);
      }
    }

    method TrapTTYTransmitHandler(t: nat)
      requires t < |ttys|
      modifies this
      ensures View() == TransmitStep(old(View()), t)
    {
      ttys := ttys[t := ttys[t].(pending := false)];
      if ttys[t].writer == None {
        ttys := ttys[t := ttys[t].(available := true)];
      } else {
        WakeUp(ttys[t].writer.value);
      }
    }

    method TtyReadHandler(c: Pid, t: nat, len: nat)
      requires Running(c) && t < |ttys|
      modifies this
      ensures View() == ReadStep(old(View()), c, t, len)
    {
      if ttys[t].unread != [] {
        if 1 <= len <= cfg.maxLine {
          procs := procs[c := procs[c].(got := Take(ttys[t].unread, len))];
          ttys := ttys[t := ttys[t].(unread := Drop(ttys[t].unread, len))];
        }
        ReturnToUser(c, 0);
      } else {
        if c !in ttys[t].readers {
          ttys := ttys[t := ttys[t].(readers := [c] + ttys[t].readers)];
        }
        assert ttys == old(View()).w.ttys[t := ttys[t]];
        BlockCurrent(c, ReadWait(t, len));
      }
    }

    /** The end of TtyReadHandler, once the scheduler comes back: hand over the line and deregister. */
    method TtyReadFinish(c: Pid, t: nat)
      requires c in procs && t < |ttys|
      modifies this`procs, this`ttys
      ensures View() == ReadResume(old(View()), c, t)
    {
      procs := procs[c := procs[c].(got := procs[c].line)];
      ttys := ttys[t := ttys[t].(readers := Without(ttys[t].readers, c))];
      ReturnToUser(c, 0);
    }

    /** The body of the reader walk: copy, mark ready, move to the ready queue. */
    method GiveLine(p: Pid, line: Bytes) returns (numBytes: nat)
      requires p in procs
      modifies this`procs, this`blocked, this`ready
      ensures numBytes == Min(Requested(old(procs), p), |line|)
      ensures procs == old(procs)[p := old(procs)[p].(line := line[..numBytes], state := RunState.Ready)]
      ensures blocked == old(blocked) - {p} && ready == old(ready) + [p]
    {
      numBytes := Min(Requested(procs, p), |line|);
      procs := procs[p := procs[p].(line := line[..numBytes], state := RunState.Ready)];
      blocked := blocked - {p};
      ready := ready + [p];
    }

    /** The reader walk of tty_handle_received. */
    method WalkReaders(readers: seq<Pid>, line: Bytes) returns (maxRead: nat)
      requires Distinct(readers) && forall p :: p in readers ==> p in procs
      modifies this`procs, this`blocked, this`ready
      ensures maxRead == Longest(Requests(old(procs), readers), |line|)
      ensures procs == MakeReady(Deliver(old(procs), readers, line), readers)
      ensures blocked == old(blocked) - Members(readers) && ready == old(ready) + readers
    {
      maxRead := 0;
      var i := 0;
      while i < |readers|
        modifies this`procs, this`blocked, this`ready
        invariant 0 <= i <= |readers|
        invariant procs == MakeReady(Deliver(old(procs), readers[..i], line), readers[..i])
        invariant ready == old(ready) + readers[..i]
        invariant blocked == old(blocked) - Members(readers[..i])
        invariant maxRead == Longest(Requests(old(procs), readers[..i]), |line|)
      {
        ReaderWalkStep(old(procs), readers, i, line);
        var numBytes := GiveLine(readers[i], line);
        maxRead := Max(maxRead, numBytes);
        i := i + 1;
      }
      assert readers[..i] == readers;
    }

    method TrapTTYReceiveHandler(t: nat, line: Bytes)
      requires t < |ttys|
      requires Distinct(ttys[t].readers) && forall p :: p in ttys[t].readers ==> p in procs
      modifies this
      ensures View() == ReceiveStep(old(View()), t, line)
    {
      if |line| < 1 || |line| > cfg.maxLine {
        return;
      }
      var maxRead := WalkReaders(ttys[t].readers, line);
      ttys := ttys[t := ttys[t].(readers := [], unread := Drop(line, maxRead))];
    }
  }

  // ------------------------------------------------------- facts for the loops

  lemma WakeOneMore(s: State, ps: seq<Pid>, p: Pid)
    ensures Wake(Wake(s, ps), [p]) == Wake(s, ps + [p])
  {
    var a, b := Wake(Wake(s, ps), [p]), Wake(s, ps + [p]);
    assert a.w.procs == b.w.procs;
    assert a.q.blocked == b.q.blocked;
    assert a.q.ready == b.q.ready;
  }

  lemma TickOneMore(procs: map<Pid, Pcb>, ps: seq<Pid>, p: Pid)
    requires p in procs && p !in ps
    ensures Tick(procs, ps + [p]) == Tick(procs, ps)[p := procs[p].(
              delay := procs[p].delay - 1,
              state := if Expires(procs, p) then RunState.Ready else procs[p].state)]
  {
  }

  lemma DeliverOneMore(procs: map<Pid, Pcb>, ps: seq<Pid>, p: Pid, line: Bytes)
    requires p in procs && p !in ps
    ensures MakeReady(Deliver(procs, ps + [p], line), ps + [p]) == MakeReady(Deliver(procs, ps, line), ps)[
              p := procs[p].(line := Take(line, Requested(procs, p)), state := RunState.Ready)]
    ensures Members(ps + [p]) == Members(ps) + {p}
  {
  }

  /** The containers once the first i entries of the delayed list have been visited. */
  ghost predicate Walked(procs: map<Pid, Pcb>, delayed: seq<Pid>, ready: seq<Pid>,
                         was: map<Pid, Pcb>, walk: seq<Pid>, i: nat, ready0: seq<Pid>) {
    && i <= |walk| && procs == Tick(was, walk[..i])
    && delayed == Unexpired(was, walk[..i]) + walk[i..]
    && ready == ready0 + Expired(was, walk[..i])
  }

  lemma NothingWalked(procs: map<Pid, Pcb>, walk: seq<Pid>, ready: seq<Pid>)
    ensures Walked(procs, walk, ready, procs, walk, 0, ready)
  {
  }

  lemma ReaderWalkStep(procs: map<Pid, Pcb>, readers: seq<Pid>, i: nat, line: Bytes)
    requires i < |readers| && Distinct(readers) && readers[i] in procs
    ensures var p, procs1 := readers[i], MakeReady(Deliver(procs, readers[..i], line), readers[..i]);
            && p in procs1 && Requested(procs1, p) == Requested(procs, p)
            && procs1[p := procs1[p].(line := Take(line, Requested(procs, p)), state := RunState.Ready)]
               == MakeReady(Deliver(procs, readers[..i + 1], line), readers[..i + 1])
            && Members(readers[..i]) + {p} == Members(readers[..i + 1])
            && readers[..i + 1] == readers[..i] + [p]
            && Longest(Requests(procs, readers[..i + 1]), |line|)
               == Max(Longest(Requests(procs, readers[..i]), |line|), Min(Requested(procs, p), |line|))
  {
    var p := readers[i];
    assert readers[..i + 1] == readers[..i] + [p];
    assert Requests(procs, readers[..i + 1]) == Requests(procs, readers[..i]) + [Requested(procs, p)];
    assert Requests(procs, readers[..i + 1])[..i] == Requests(procs, readers[..i]);
    DeliverOneMore(procs, readers[..i], p, line);
  }

  /** Visiting walk[i] takes the three containers from the first i entries to i + 1. */
  lemma ListStep(procs: map<Pid, Pcb>, walk: seq<Pid>, i: nat)
    requires i < |walk| && Distinct(walk)
    ensures var delayed1 := Unexpired(procs, walk[..i]) + walk[i..];
            (if Expires(procs, walk[i]) then Without(delayed1, walk[i]) else delayed1)
            == Unexpired(procs, walk[..i + 1]) + walk[i + 1..]
    ensures Expired(procs, walk[..i + 1])
         == Expired(procs, walk[..i]) + if Expires(procs, walk[i]) then [walk[i]] else []
  {
    var p := walk[i];
    assert walk[..i + 1] == walk[..i] + [p];
    assert walk[i..] == [p] + walk[i + 1..];
    UnexpiredSubset(procs, walk[..i]);
    RemoveAfter(Unexpired(procs, walk[..i]), walk[i..], p);
    ExpirySnoc(procs, walk[..i], p);
  }

  lemma ClockWalkStep(procs: map<Pid, Pcb>, walk: seq<Pid>, i: nat)
    requires i < |walk| && Distinct(walk) && walk[i] in procs
    ensures var p, procs1 := walk[i], Tick(procs, walk[..i]);
            var delayed1 := Unexpired(procs, walk[..i]) + walk[i..];
            && p in procs1 && Expires(procs1, p) == Expires(procs, p)
            && procs1[p := procs1[p].(delay := procs1[p].delay - 1,
                                      state := if Expires(procs1, p) then RunState.Ready else procs1[p].state)]
               == Tick(procs, walk[..i + 1])
            && (if Expires(procs, p) then Without(delayed1, p) else delayed1)
               == Unexpired(procs, walk[..i + 1]) + walk[i + 1..]
            && Expired(procs, walk[..i + 1]) == Expired(procs, walk[..i]) + if Expires(procs, p) then [p] else []
  {
    var p := walk[i];
    assert walk[..i + 1] == walk[..i] + [p] && p !in walk[..i];
    ListStep(procs, walk, i);
    TickOneMore(procs, walk[..i], p);
  }

  lemma UnexpiredSubset(procs: map<Pid, Pcb>, ps: seq<Pid>)
    ensures forall p :: p in Unexpired(procs, ps) ==> p in ps
  {
  }

  lemma {:induction false} RemoveAfter(head: seq<Pid>, tail: seq<Pid>, p: Pid)
    requires p !in head && tail != [] && tail[0] == p
    ensures Without(head + tail, p) == head + tail[1..]
  {
    if head == [] {
      assert head + tail == tail;
    } else {
      var all := head + tail;
      RemoveAfter(head[1..], tail, p);
      assert all[0] == head[0] && all[1..] == head[1..] + tail;
      assert [head[0]] + (head[1..] + tail[1..]) == head + tail[1..];
    }
  }
}
