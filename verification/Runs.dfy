/** Properties of whole runs of the kernel. */
module Runs {
  import opened Types
  import opened Kernel
  import opened Placement
  import opened Protocols
  import opened Family
  import opened Invariant
  import opened Settling
  import opened Kinship
  import opened Exactness

  /** states[i + 1] follows from states[i] by es[i]. */
  ghost predicate Run(states: seq<State>, es: seq<Event>) {
    && |states| == |es| + 1
    && forall i :: 0 <= i < |es| ==> StepAt(states, es, i)
  }

  ghost predicate StepAt(states: seq<State>, es: seq<Event>, i: nat)
    requires i < |es| < |states|
  {
    Enabled(states[i], es[i]) && states[i + 1] == Apply(states[i], es[i])
  }

  ghost predicate SafeRun(states: seq<State>, es: seq<Event>) {
    Run(states, es) && forall i :: 0 <= i < |es| ==> SafeAt(states, es, i)
  }

  ghost predicate SafeAt(states: seq<State>, es: seq<Event>, i: nat)
    requires i < |es| < |states|
  {
    Enabled(states[i], es[i]) && Safe(states[i], es[i])
  }

  lemma RunStep(states: seq<State>, es: seq<Event>, i: nat)
    requires Run(states, es) && i < |es|
    ensures Enabled(states[i], es[i]) && states[i + 1] == Apply(states[i], es[i])
  {
    assert StepAt(states, es, i);
  }

  lemma SafeStep(states: seq<State>, es: seq<Event>, i: nat)
    requires SafeRun(states, es) && i < |es|
    ensures Enabled(states[i], es[i]) && Safe(states[i], es[i]) && states[i + 1] == Apply(states[i], es[i])
  {
    assert StepAt(states, es, i) && SafeAt(states, es, i);
  }

  lemma {:induction false} InvThroughout(states: seq<State>, es: seq<Event>, i: nat)
    requires SafeRun(states, es) && Inv(states[0]) && i <= |es|
    ensures Inv(states[i])
  {
    if i > 0 {
      InvThroughout(states, es, i - 1);
      InvAt(states, es, i - 1);
    }
  }

  lemma InvAt(states: seq<State>, es: seq<Event>, k: nat)
    requires SafeRun(states, es) && k < |es| && Inv(states[k])
    ensures Inv(states[k + 1])
  {
    SafeStep(states, es, k);
    StepIsExact(states[k], es[k]);
    assert states[k + 1] == Apply(states[k], es[k]);
  }

  /** With the flag reset on wake-up, no exit is ever unsafe. */
  lemma ClearedExitsAreSafe(s: State, e: Event)
    requires Inv(s) && Enabled(s, e) && s.w.cfg.clears && e.Exit?
    ensures Safe(s, e)
  {
    var par := s.w.procs[s.q.current.value].parent.value;
    NeverStuck(s);
    assert ProcOk(s.w, par);
  }

  ghost predicate DrainsBlocked(states: seq<State>, es: seq<Event>, j: nat)
    requires Run(states, es) && j < |es|
  {
    RunStep(states, es, j);
    var drained := Drained(states[j], es[j]);
    drained.Some? ==> WritersBlocked(states[j].w, drained.value)
  }

  /** So in the intended kernel only pipe reads need watching. */
  lemma {:induction false} ClearedRunsKeepInv(states: seq<State>, es: seq<Event>, i: nat)
    requires Run(states, es) && Inv(states[0]) && states[0].w.cfg.clears && i <= |es|
    requires forall j :: 0 <= j < |es| ==> DrainsBlocked(states, es, j)
    ensures Inv(states[i]) && states[i].w.cfg == states[0].w.cfg
  {
    if i > 0 {
      ClearedRunsKeepInv(states, es, i - 1);
      ClearedStepKeepsInv(states, es, i - 1);
    }
  }

  lemma ClearedStepKeepsInv(states: seq<State>, es: seq<Event>, k: nat)
    requires Run(states, es) && k < |es| && Inv(states[k]) && states[k].w.cfg.clears && DrainsBlocked(states, es, k)
    ensures Inv(states[k + 1]) && states[k + 1].w.cfg == states[k].w.cfg
  {
    var s, e := states[k], es[k];
    RunStep(states, es, k);
    if e.Exit? { ClearedExitsAreSafe(s, e); }
    StepIsExact(s, e);
    StepKeepsFamily(s, e);
    assert states[k + 1] == Apply(s, e);
  }

  // ------------------------------------------------------------ round robin

  /** Either nobody called the scheduler and processes were only added at the back, or
      the scheduler was called once and served the front. */
  ghost predicate Served(q: Queues, q': Queues) {
    || (q'.switches == q.switches && q.ready <= q'.ready)
    || (q'.switches == q.switches + 1
        && (q.ready != [] ==> q'.current == Some(q.ready[0]) && q.ready[1..] <= q'.ready))
  }

  lemma DispatchServes(q0: Queues, q: Queues, w: World)
    requires q0.ready <= q.ready && q.switches == q0.switches
    requires q.current.Some? ==> q.current.value in w.procs
    ensures Served(q0, Dispatch(q, w))
  {
    if q0.ready != [] {
      assert q.ready[1..] == q0.ready[1..] + q.ready[|q0.ready|..];
      assert q0.ready[1..] <= q.ready[1..] <= Enqueue(q.(ready := q.ready[1..]), w.procs).ready;
    }
  }

  lemma SendFromServes(s: State, c: Pid, t: nat, msg: Bytes, start: nat)
    requires s.q.current == Some(c) && c in s.w.procs && t < |s.w.ttys|
    ensures Served(s.q, SendFrom(s, c, t, msg, start).q)
  {
    SendFromSchedules(s, c, t, msg, start);
    if start < |msg| {
      var s1 := BeforeChunk(s, c, t, msg, start);
      DispatchServes(s.q, s1.q, s1.w);
    } else if s.w.ttys[t].writeQueue != [] {
      var s1 := BeforeYield(s, c, t, msg, start);
      DispatchServes(s.q, s1.q, s1.w);
    }
  }

  lemma BlockServes(s: State, c: Pid, r: Resume)
    requires s.q.current == Some(c) && c in s.w.procs
    ensures Served(s.q, Block(s, c, r).q)
  {
    var s1 := SetPcb(s, c, s.w.procs[c].(state := Blocked, resume := r));
    DispatchServes(s.q, s1.q, s1.w);
  }

  lemma WriteTopServes(s: State, c: Pid, t: nat, msg: Bytes)
    requires s.q.current == Some(c) && c in s.w.procs && t < |s.w.ttys|
    ensures Served(s.q, WriteTop(s, c, t, msg).q)
  {
    var tty := s.w.ttys[t];
    if tty.available {
      SendFromServes(SetTty(s, t, tty.(available := false, writer := Some(c))), c, t, msg, 0);
    } else {
      BlockServes(SetTty(s, t, tty.(writeQueue := tty.writeQueue + [c])), c, WriteWait(t, msg));
    }
  }

  lemma PipeLoopsServe(s: State, c: Pid, id: int, msg: Bytes, len: nat)
    requires s.q.current == Some(c) && c in s.w.procs && id in s.w.pipes
    ensures Served(s.q, PipeWriteLoop(s, c, id, msg).q)
    ensures Served(s.q, PipeReadLoop(s, c, id, len).q)
  {
    BlockServes(s, c, PipeWriting(id, msg));
    BlockServes(s, c, PipeReading(id, len));
  }

  lemma PipeCallsServe(s: State, c: Pid, id: int, msg: Bytes, len: nat)
    requires s.q.current == Some(c) && c in s.w.procs
    ensures Served(s.q, PipeWriteStep(s, c, id, msg).q)
    ensures Served(s.q, PipeReadStep(s, c, id, len).q)
  {
    if id in s.w.pipes {
      var pipe := s.w.pipes[id];
      PipeLoopsServe(s, c, id, msg, len);
      PipeLoopsServe(SetPipe(s, id, pipe.(writers := [c] + pipe.writers)), c, id, msg, len);
      PipeLoopsServe(SetPipe(s, id, pipe.(readers := pipe.readers + [c])), c, id, msg, len);
    }
  }

  lemma ContinueServes(s: State, c: Pid)
    requires s.q.current == Some(c) && c in s.w.procs && Resumable(s.w, s.w.procs[c].resume)
    ensures Served(s.q, ContinueStep(s, c).q)
  {
    match s.w.procs[c].resume
    case LockWait(_) =>
    case WaitLoop =>
    case ReadWait(_, _) =>
    case WriteWait(t, msg) => WriteTopServes(s, c, t, msg);
    case Sending(t, msg, start) => SendFromServes(s, c, t, msg, start + s.w.cfg.maxLine);
    case PipeReading(id, len) => PipeLoopsServe(s, c, id, [], len);
    case PipeWriting(id, msg) => PipeLoopsServe(s, c, id, msg, 0);
  }

  lemma AcquireServes(s: State, c: Pid, id: int)
    requires s.q.current == Some(c) && c in s.w.procs
    ensures Served(s.q, AcquireStep(s, c, id).q)
  {
    if id in s.w.locks {
      var lock := s.w.locks[id];
      BlockServes(s.(w := s.w.(locks := s.w.locks[id := lock.(waiters := lock.waiters + [c])])), c, LockWait(id));
    }
  }

  lemma ReadServes(s: State, c: Pid, t: nat, len: nat)
    requires s.q.current == Some(c) && c in s.w.procs && t < |s.w.ttys|
    ensures Served(s.q, ReadStep(s, c, t, len).q)
  {
    var tty := s.w.ttys[t];
    BlockServes(SetTty(s, t, tty.(readers := if c in tty.readers then tty.readers else [c] + tty.readers)),
                c, ReadWait(t, len));
  }

  lemma WaitAndDelayServe(s: State, c: Pid, n: int)
    requires s.q.current == Some(c) && c in s.w.procs
    ensures Served(s.q, WaitStep(s, c).q) && Served(s.q, DelayStep(s, c, n).q)
  {
    BlockServes(SetPcb(s, c, s.w.procs[c].(waiting := true)), c, WaitLoop);
    var s1 := SetPcb(s, c, s.w.procs[c].(delay := n, state := Delayed, rc := 0));
    DispatchServes(s.q, s1.q, s1.w);
  }

  lemma ExitServes(s: State, c: Pid)
    requires s.q.current == Some(c) && HasParent(s.w.procs, c)
    ensures Served(s.q, ExitStep(s, c).q)
  {
    var s1 := BeforeExitSchedules(s, c);
    DispatchServes(s.q, s1.q, s1.w);
  }

  /** No step of any kind overtakes the ready queue. */
  lemma StepServes(s: State, e: Event)
    requires Enabled(s, e)
    ensures Served(s.q, Apply(s, e).q)
  {
    var c := s.q.current.value;
    match e
    case Fork(child, framesLeft) =>
    case Exit(_) => ExitServes(s, c);
    case Wait => WaitAndDelayServe(s, c, 0);
    case Delay(n) => WaitAndDelayServe(s, c, n);
    case LockNew =>
    case Acquire(id) => AcquireServes(s, c, id);
    case Release(id) =>
    case PipeNew =>
    case PipeWrite(id, msg) => PipeCallsServe(s, c, id, msg, 0);
    case PipeRead(id, len) => PipeCallsServe(s, c, id, [], len);
    case TtyWrite(t, msg) => WriteTopServes(s, c, t, msg);
    case TtyRead(t, len) => ReadServes(s, c, t, len);
    case Continue => ContinueServes(s, c);
    case Clock =>
      var s1 := AfterTick(s);
      DispatchServes(s.q, s1.q, s1.w);
    case Transmit(t) =>
    case Receive(t, line) =>
  }

  /** In a run of queue states that are all served in order, index k moves up. */
  lemma {:induction false} IndexMovesUp(states: seq<State>, k: nat, i: nat)
    requires i < |states| && k < |states[0].q.ready|
    requires forall j :: 0 <= j < |states| - 1 ==> Served(states[j].q, states[j + 1].q)
    requires states[i].q.switches <= states[0].q.switches + k
    ensures var calls := states[i].q.switches - states[0].q.switches;
            && 0 <= calls && k - calls < |states[i].q.ready|
            && states[i].q.ready[k - calls] == states[0].q.ready[k]
  {
    if i > 0 {
      assert Served(states[i - 1].q, states[i].q);
      IndexMovesUp(states, k, i - 1);
    }
  }

  /** Round robin: the process at index k of the ready queue moves up one place with
      each scheduler call, whatever else happens, and the call after the k-th one
      makes it current. */
  lemma RoundRobin(states: seq<State>, es: seq<Event>, k: nat, i: nat)
    requires Run(states, es) && k < |states[0].q.ready| && i <= |es|
    requires states[i].q.switches <= states[0].q.switches + k
    ensures var calls := states[i].q.switches - states[0].q.switches;
            && 0 <= calls && k - calls < |states[i].q.ready|
            && states[i].q.ready[k - calls] == states[0].q.ready[k]
    ensures i < |es| && states[i + 1].q.switches == states[0].q.switches + k + 1 ==>
              states[i + 1].q.current == Some(states[0].q.ready[k])
  {
    forall j | 0 <= j < |states| - 1 ensures Served(states[j].q, states[j + 1].q) {
      RunStep(states, es, j);
      StepServes(states[j], es[j]);
    }
    IndexMovesUp(states, k, i);
    if i < |es| { assert Served(states[i].q, states[i + 1].q); }
  }

  /** With nobody ready, the scheduler goes back to a ready current process, else to idle. */
  lemma EmptyReadyQueue(q: Queues, w: World)
    requires q.ready == [] && (q.current.Some? ==> q.current.value in w.procs)
    ensures Dispatch(q, w).current ==
      if q.current.Some? && w.procs[q.current.value].state == Ready then q.current else Some(w.cfg.idle)
  {
  }

  // ---------------------------------------------------------------- locks

  /** The part of the world that locks are made of. */
  ghost predicate LocksAlone(w: World, w': World) {
    w'.locks == w.locks && w'.releases == w.releases
  }

  /** A step at lock id: a successful release hands over to the first waiter; any other
      step leaves owner and waiters, save that it may add waiters at the back or give
      an unlocked lock to someone. */
  ghost predicate LockStep(w: World, w': World, id: int)
    requires id in w.locks
  {
    && id in w'.locks
    && var lock, lock' := w.locks[id], w'.locks[id];
       || (Releases(w', id) == Releases(w, id) && lock.waiters <= lock'.waiters
           && (lock.owner != UNLOCKED ==> lock'.owner == lock.owner))
       || (Releases(w', id) == Releases(w, id) + 1
           && (if lock.waiters == [] then lock'.owner == UNLOCKED
               else lock'.owner == lock.waiters[0] && lock'.waiters == lock.waiters[1..]))
  }

  lemma TtyStepsLeaveLocks(s: State, c: Pid, t: nat, msg: Bytes, start: nat)
    requires s.q.current == Some(c) && c in s.w.procs && t < |s.w.ttys|
    ensures LocksAlone(s.w, WriteTop(s, c, t, msg).w)
    ensures LocksAlone(s.w, SendFrom(s, c, t, msg, start).w)
  {
  }

  lemma PipeStepsLeaveLocks(s: State, c: Pid, id: int, msg: Bytes, len: nat)
    requires s.q.current == Some(c) && c in s.w.procs
    ensures LocksAlone(s.w, PipeWriteStep(s, c, id, msg).w)
    ensures LocksAlone(s.w, PipeReadStep(s, c, id, len).w)
    ensures id in s.w.pipes ==> LocksAlone(s.w, PipeWriteLoop(s, c, id, msg).w)
    ensures id in s.w.pipes ==> LocksAlone(s.w, PipeReadLoop(s, c, id, len).w)
  {
  }

  lemma ContinueLeavesLocks(s: State, c: Pid)
    requires s.q.current == Some(c) && c in s.w.procs && Resumable(s.w, s.w.procs[c].resume)
    ensures LocksAlone(s.w, ContinueStep(s, c).w)
  {
    match s.w.procs[c].resume
    case WriteWait(t, msg) => TtyStepsLeaveLocks(s, c, t, msg, 0);
    case Sending(t, msg, start) => TtyStepsLeaveLocks(s, c, t, msg, start + s.w.cfg.maxLine);
    case PipeReading(id, len) => PipeStepsLeaveLocks(s, c, id, [], len);
    case PipeWriting(id, msg) => PipeStepsLeaveLocks(s, c, id, msg, 0);
    case _ =>
  }

  lemma OthersLeaveLocks(s: State, e: Event)
    requires Enabled(s, e) && !e.LockNew? && !e.Acquire? && !e.Release?
    ensures LocksAlone(s.w, Apply(s, e).w)
  {
    var c := s.q.current.value;
    match e
    case PipeWrite(id, msg) => PipeStepsLeaveLocks(s, c, id, msg, 0);
    case PipeRead(id, len) => PipeStepsLeaveLocks(s, c, id, [], len);
    case TtyWrite(t, msg) => TtyStepsLeaveLocks(s, c, t, msg, 0);
    case Continue => ContinueLeavesLocks(s, c);
    case _ => RestLeaveLocks(s, e);
  }

  lemma RestLeaveLocks(s: State, e: Event)
    requires Enabled(s, e)
    requires e.Fork? || e.Exit? || e.Wait? || e.Delay? || e.PipeNew? || e.TtyRead?
          || e.Clock? || e.Transmit? || e.Receive?
    ensures LocksAlone(s.w, Apply(s, e).w)
  {
    if FromUser(e) {
      UserCallsLeaveLocks(s, e);
    } else {
      TrapsLeaveLocks(s, e);
    }
  }

  lemma UserCallsLeaveLocks(s: State, e: Event)
    requires Enabled(s, e) && (e.Fork? || e.Exit? || e.Wait? || e.Delay? || e.PipeNew? || e.TtyRead?)
    ensures LocksAlone(s.w, Apply(s, e).w)
  {
    if e.Exit? { ExitLeavesLocks(s, e); }
  }

  lemma ExitLeavesLocks(s: State, e: Event)
    requires Enabled(s, e) && e.Exit?
    ensures LocksAlone(s.w, Apply(s, e).w)
  {
  }

  lemma TrapsLeaveLocks(s: State, e: Event)
    requires Enabled(s, e) && (e.Clock? || e.Transmit? || e.Receive?)
    ensures LocksAlone(s.w, Apply(s, e).w)
  {
  }

  lemma NewLockMovesNone(s: State, c: Pid, id: int)
    requires s.q.current == Some(c) && c in s.w.procs && id in s.w.locks && s.w.nextId !in s.w.locks
    ensures LockStep(s.w, LockNewStep(s, c).w, id)
  {
  }

  lemma AcquireMovesLock(s: State, c: Pid, asked: int, id: int)
    requires s.q.current == Some(c) && c in s.w.procs && id in s.w.locks
    ensures LockStep(s.w, AcquireStep(s, c, asked).w, id)
  {
  }

  lemma ReleaseMovesLock(s: State, c: Pid, asked: int, id: int)
    requires s.q.current == Some(c) && c in s.w.procs && id in s.w.locks
    requires s.w.locks[id].owner == UNLOCKED ==> s.w.locks[id].waiters == []
    ensures LockStep(s.w, ReleaseStep(s, c, asked).w, id)
  {
  }

  lemma StepMovesLock(s: State, e: Event, id: int)
    requires Inv(s) && Enabled(s, e) && id in s.w.locks
    ensures LockStep(s.w, Apply(s, e).w, id)
  {
    assert KeyOk(s.w, LockKey(id));
    var c := s.q.current.value;
    match e
    case LockNew =>
      assert KeyOk(s.w, LockKey(s.w.nextId));
      NewLockMovesNone(s, c, id);
      assert Apply(s, e) == LockNewStep(s, c);
    case Acquire(asked) =>
      AcquireMovesLock(s, c, asked, id);
      assert Apply(s, e) == AcquireStep(s, c, asked);
    case Release(asked) =>
      ReleaseMovesLock(s, c, asked, id);
      assert Apply(s, e) == ReleaseStep(s, c, asked);
    case _ => OthersLeaveLocks(s, e);
  }

  lemma {:induction false} WaiterMovesUp(states: seq<State>, id: int, k: nat, i: nat)
    requires i < |states| && id in states[0].w.locks && k < |states[0].w.locks[id].waiters|
    requires forall j :: 0 <= j < |states| - 1 && id in states[j].w.locks ==>
               LockStep(states[j].w, states[j + 1].w, id)
    requires Releases(states[i].w, id) <= Releases(states[0].w, id) + k
    ensures var given := Releases(states[i].w, id) - Releases(states[0].w, id);
            && 0 <= given && id in states[i].w.locks && k - given < |states[i].w.locks[id].waiters|
            && states[i].w.locks[id].waiters[k - given] == states[0].w.locks[id].waiters[k]
  {
    if i > 0 {
      LockPersists(states, id, i - 1);
      assert LockStep(states[i - 1].w, states[i].w, id);
      WaiterMovesUp(states, id, k, i - 1);
    }
  }

  lemma {:induction false} LockPersists(states: seq<State>, id: int, i: nat)
    requires i < |states| && id in states[0].w.locks
    requires forall j :: 0 <= j < |states| - 1 && id in states[j].w.locks ==>
               LockStep(states[j].w, states[j + 1].w, id)
    ensures id in states[i].w.locks
  {
    if i > 0 { LockPersists(states, id, i - 1); }
  }

  /** Locks are first in, first out: the waiter at index k owns the lock after exactly
      k + 1 successful releases, and moves up one place with each of them. */
  lemma LockFifo(states: seq<State>, es: seq<Event>, id: int, k: nat, i: nat)
    requires SafeRun(states, es) && Inv(states[0]) && i <= |es|
    requires id in states[0].w.locks && k < |states[0].w.locks[id].waiters|
    requires Releases(states[i].w, id) <= Releases(states[0].w, id) + k
    ensures var given := Releases(states[i].w, id) - Releases(states[0].w, id);
            && 0 <= given && id in states[i].w.locks && k - given < |states[i].w.locks[id].waiters|
            && states[i].w.locks[id].waiters[k - given] == states[0].w.locks[id].waiters[k]
    ensures i < |es| && Releases(states[i + 1].w, id) == Releases(states[0].w, id) + k + 1 ==>
              id in states[i + 1].w.locks
              && states[i + 1].w.locks[id].owner == states[0].w.locks[id].waiters[k]
  {
    forall j | 0 <= j < |states| - 1 && id in states[j].w.locks
      ensures LockStep(states[j].w, states[j + 1].w, id)
    {
      InvThroughout(states, es, j);
      SafeStep(states, es, j);
      StepMovesLock(states[j], es[j], id);
    }
    WaiterMovesUp(states, id, k, i);
    if i < |es| { assert LockStep(states[i].w, states[i + 1].w, id); }
  }

  /** Lock safety in every state of a safe run: an unlocked lock has no waiters, the
      owner does not wait, waiters sit in the blocked set (so the pop on release finds
      them), and whoever is about to return from Acquire owns the lock. */
  lemma LockSafety(s: State, id: int)
    requires Inv(s) && id in s.w.locks
    ensures var lock := s.w.locks[id];
            && (lock.owner == UNLOCKED ==> lock.waiters == [])
            && (forall p :: p in lock.waiters ==> p != lock.owner && p in s.q.blocked)
            && Distinct(lock.waiters)
    ensures var c := s.q.current.value;
            s.w.procs[c].resume == LockWait(id) ==> s.w.locks[id].owner == c
  {
    assert KeyOk(s.w, LockKey(id));
    assert ProcOk(s.w, s.q.current.value);
    forall p | p in s.w.locks[id].waiters ensures p in s.q.blocked {
      assert Waits(s.w, p);
      PlaceOf(s.q, s.w.procs, s.w.cfg.idle, p);
    }
  }

  /** Acquire reports success, now or on resumption, only to the owner. */
  lemma AcquireSucceedsForOwner(s: State, e: Event, id: int)
    requires Inv(s) && Enabled(s, e)
    requires || (e == Acquire(id) && Apply(s, e).w.procs[s.q.current.value].resume == User
                 && Apply(s, e).w.procs[s.q.current.value].rc == 0)
             || (e == Continue && s.w.procs[s.q.current.value].resume == LockWait(id))
    ensures id in Apply(s, e).w.locks && Apply(s, e).w.locks[id].owner == s.q.current.value
  {
    assert ProcOk(s.w, s.q.current.value);
  }
}
