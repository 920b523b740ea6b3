/** A delayed process sleeps for exactly as many clock traps as it asked for. */
module Delays {
  import opened Types
  import opened Kernel
  import opened Placement
  import opened Protocols
  import opened Family
  import opened Invariant
  import opened Settling
  import opened Kinship
  import opened Exactness
  import opened Runs

  ghost predicate Asleep(s: State, p: Pid, n: int) {
    p in s.q.delayed && p in s.w.procs && s.w.procs[p].state == Delayed && s.w.procs[p].delay == n
  }

  /** Nothing happened to p's sleep. */
  ghost predicate Undisturbed(s: State, s': State, p: Pid) {
    && p in s.w.procs && p in s'.w.procs
    && s'.w.procs[p].state == s.w.procs[p].state && s'.w.procs[p].delay == s.w.procs[p].delay
  }

  ghost predicate Sleeper(s: State, p: Pid) {
    p in s.w.procs && s.w.procs[p].state == Delayed && s.q.current != Some(p)
  }

  lemma SendingSparesSleepers(s: State, c: Pid, t: nat, msg: Bytes, start: nat, p: Pid)
    requires s.q.current == Some(c) && c in s.w.procs && t < |s.w.ttys| && Sleeper(s, p)
    requires forall q :: q in s.w.ttys[t].writeQueue ==> Waits(s.w, q)
    ensures Undisturbed(s, SendFrom(s, c, t, msg, start), p)
  {
    var queue := s.w.ttys[t].writeQueue;
    if queue != [] { assert queue[0] in queue; }
  }

  lemma WritingSparesSleepers(s: State, c: Pid, t: nat, msg: Bytes, p: Pid)
    requires s.q.current == Some(c) && c in s.w.procs && t < |s.w.ttys| && Protocol(s.w) && Sleeper(s, p)
    ensures Undisturbed(s, WriteTop(s, c, t, msg), p)
  {
    assert KeyOk(s.w, TtyKey(t));
    var tty := s.w.ttys[t];
    if tty.available {
      SendingSparesSleepers(SetTty(s, t, tty.(available := false, writer := Some(c))), c, t, msg, 0, p);
    }
  }

  lemma PipeWriteSparesSleepers(s: State, c: Pid, id: int, msg: Bytes, p: Pid)
    requires s.q.current == Some(c) && c in s.w.procs && Sleeper(s, p)
    requires id in s.w.pipes ==> forall q :: q in Take(s.w.pipes[id].readers, 1) ==> Waits(s.w, q)
    ensures Undisturbed(s, PipeWriteStep(s, c, id, msg), p)
    ensures id in s.w.pipes ==> Undisturbed(s, PipeWriteLoop(s, c, id, msg), p)
  {
  }

  lemma PipeReadSparesSleepers(s: State, c: Pid, id: int, len: nat, p: Pid)
    requires s.q.current == Some(c) && c in s.w.procs && id in s.w.pipes && Sleeper(s, p)
    requires s.w.pipes[id].bytes != [] ==>
      p !in s.w.pipes[id].writers && forall q :: q in Take(s.w.pipes[id].readers, 1) ==> Waits(s.w, q)
    ensures Undisturbed(s, PipeReadLoop(s, c, id, len), p)
  {
    var pipe := s.w.pipes[id];
    if pipe.bytes != [] {
      var n := if Drop(pipe.bytes, len) != [] then 1 else 0;
      assert forall q :: q in Take(pipe.readers, n) ==> q in Take(pipe.readers, 1);
    }
  }

  lemma PipeCrowdIsBlocked(s: State, id: int, p: Pid)
    requires Inv(s) && id in s.w.pipes && Sleeper(s, p)
    ensures p !in s.w.pipes[id].writers
    ensures forall q :: q in Take(s.w.pipes[id].readers, 1) ==> Waits(s.w, q)
  {
    PipeCrowd(s.w, id, 1);
    assert KeyOk(s.w, PipeKey(id));
    assert ProcOk(s.w, p);
  }

  lemma ContinueSparesSleepers(s: State, c: Pid, p: Pid)
    requires Inv(s) && s.q.current == Some(c) && Resumable(s.w, s.w.procs[c].resume) && Sleeper(s, p)
    ensures Undisturbed(s, ContinueStep(s, c), p)
  {
    match s.w.procs[c].resume
    case WriteWait(t, msg) => WritingSparesSleepers(s, c, t, msg, p);
    case Sending(t, msg, start) =>
      assert KeyOk(s.w, TtyKey(t));
      SendingSparesSleepers(s, c, t, msg, start + s.w.cfg.maxLine, p);
    case PipeReading(id, len) =>
      PipeCrowdIsBlocked(s, id, p);
      PipeReadSparesSleepers(s, c, id, len, p);
    case PipeWriting(id, msg) =>
      PipeCrowdIsBlocked(s, id, p);
      PipeWriteSparesSleepers(s, c, id, msg, p);
    case _ =>
  }

  lemma PipeReadCallSparesSleepers(s: State, c: Pid, id: int, len: nat, p: Pid)
    requires Inv(s) && s.q.current == Some(c) && Sleeper(s, p)
    ensures Undisturbed(s, PipeReadStep(s, c, id, len), p)
  {
    if id in s.w.pipes {
      PipeCrowdIsBlocked(s, id, p);
      if s.w.pipes[id].bytes != [] { PipeReadSparesSleepers(s, c, id, len, p); }
    }
  }

  lemma TrapsSpareSleepers(s: State, e: Event, p: Pid)
    requires Inv(s) && Enabled(s, e) && (e.Transmit? || e.Receive?) && Sleeper(s, p)
    ensures Undisturbed(s, Apply(s, e), p)
  {
    match e
    case Transmit(t) => TransmitKeepsProtocol(s, t);
    case Receive(t, line) =>
      assert KeyOk(s.w, TtyKey(t));
      assert p !in s.w.ttys[t].readers;
  }

  lemma ExitSparesSleepers(s: State, c: Pid, p: Pid)
    requires Inv(s) && s.q.current == Some(c) && c != s.w.cfg.idle && HasParent(s.w.procs, c) && Sleeper(s, p)
    requires var par := s.w.procs[c].parent.value; s.w.procs[par].waiting ==> s.w.procs[par].state == Blocked
    ensures Undisturbed(s, ExitStep(s, c), p)
  {
    ExitStates(s.w.procs, s.w.cfg.init, c, s.w.cfg.clears);
  }

  lemma ReleaseSparesSleepers(s: State, c: Pid, id: int, p: Pid)
    requires Inv(s) && s.q.current == Some(c) && Sleeper(s, p)
    ensures Undisturbed(s, ReleaseStep(s, c, id), p)
  {
    assert KeyOk(s.w, LockKey(id));
    if id in s.w.locks && s.w.locks[id].waiters != [] {
      assert s.w.locks[id].waiters[0] in s.w.locks[id].waiters;
    }
  }

  lemma SleepingCallsSpareSleepers(s: State, e: Event, p: Pid)
    requires Enabled(s, e) && Sleeper(s, p) && (e.Wait? || e.Delay? || e.Acquire? || e.TtyRead?)
    ensures Undisturbed(s, Apply(s, e), p)
  {
    if e.TtyRead? || e.Acquire? {
      BlockingCallsSpareSleepers(s, e, p);
    }
  }

  lemma BlockingCallsSpareSleepers(s: State, e: Event, p: Pid)
    requires Enabled(s, e) && Sleeper(s, p) && (e.Acquire? || e.TtyRead?)
    ensures Undisturbed(s, Apply(s, e), p)
  {
  }

  lemma QuickCallsSpareSleepers(s: State, e: Event, p: Pid)
    requires Enabled(s, e) && Sleeper(s, p) && (e.Fork? || e.LockNew? || e.PipeNew?)
    ensures Undisturbed(s, Apply(s, e), p)
  {
  }

  lemma StepSparesSleepers(s: State, e: Event, p: Pid)
    requires Inv(s) && Enabled(s, e) && Safe(s, e) && !e.Clock? && Sleeper(s, p)
    ensures Undisturbed(s, Apply(s, e), p)
  {
    var c := s.q.current.value;
    match e
    case Exit(_) => ExitSparesSleepers(s, c, p);
    case PipeWrite(id, msg) =>
      if id in s.w.pipes { PipeCrowdIsBlocked(s, id, p); }
      PipeWriteSparesSleepers(s, c, id, msg, p);
    case PipeRead(id, len) => PipeReadCallSparesSleepers(s, c, id, len, p);
    case TtyWrite(t, msg) => WritingSparesSleepers(s, c, t, msg, p);
    case Continue => ContinueSparesSleepers(s, c, p);
    case Transmit(_) => TrapsSpareSleepers(s, e, p);
    case Receive(_, _) => TrapsSpareSleepers(s, e, p);
    case Release(id) => ReleaseSparesSleepers(s, c, id, p);
    case Fork(_, _) => QuickCallsSpareSleepers(s, e, p);
    case LockNew => QuickCallsSpareSleepers(s, e, p);
    case PipeNew => QuickCallsSpareSleepers(s, e, p);
    case _ => SleepingCallsSpareSleepers(s, e, p);
  }

  /** Between clock traps a delayed process stays where it is. */
  lemma AsleepBetweenTicks(s: State, e: Event, p: Pid, n: int)
    requires Inv(s) && Enabled(s, e) && Safe(s, e) && !e.Clock? && Asleep(s, p, n)
    ensures Asleep(Apply(s, e), p, n)
  {
    var s' := Apply(s, e);
    StepSparesSleepers(s, e, p);
    StepIsExact(s, e);
    PlaceOf(s'.q, s'.w.procs, s'.w.cfg.idle, p);
  }

  /** Ready to run: in the ready queue, or already picked by the scheduler. */
  ghost predicate Runnable(s: State, p: Pid) {
    && p in s.w.procs && s.w.procs[p].state == Ready
    && (p in s.q.ready || s.q.current == Some(p)) && p !in s.q.delayed
  }

  /** One clock trap: the count goes down by one, and at zero the process is made ready. */
  lemma TickCounts(s: State, p: Pid, n: int)
    requires Inv(s) && Asleep(s, p, n)
    ensures var s' := ClockStep(s);
            && (n > 1 ==> Asleep(s', p, n - 1))
            && (n <= 1 ==> Runnable(s', p))
  {
    var s' := ClockStep(s);
    ClockSettles(s);
    if s'.q.current == Some(p) {
      CurrentIsNowhereElse(s'.q, s'.w.procs, s'.w.cfg.idle);
    } else {
      PlaceOf(s'.q, s'.w.procs, s'.w.cfg.idle, p);
    }
    assert p in s'.q.delayed ==> s'.w.procs[p].state == Delayed;
  }

  /** The clock traps among the first i events. */
  ghost function Ticks(es: seq<Event>, i: nat): (n: nat)
    requires i <= |es|
    ensures n <= i
  {
    if i == 0 then 0 else Ticks(es, i - 1) + if es[i - 1].Clock? then 1 else 0
  }

  /** A process asleep with n ticks to go is still asleep until n clock traps have
      come, and the n-th one makes it ready. */
  lemma {:induction false} WakesOnTheNthTick(states: seq<State>, es: seq<Event>, p: Pid, n: int, i: nat)
    requires SafeRun(states, es) && Inv(states[0]) && i <= |es|
    requires n > 0 && Asleep(states[0], p, n) && Ticks(es, i) < n
    ensures Asleep(states[i], p, n - Ticks(es, i))
    ensures i < |es| && Ticks(es, i + 1) == n ==> Runnable(states[i + 1], p)
  {
    if i > 0 {
      WakesOnTheNthTick(states, es, p, n, i - 1);
      SleepStep(states, es, p, n - Ticks(es, i - 1), i - 1);
    }
    if i < |es| { SleepStep(states, es, p, n - Ticks(es, i), i); }
  }

  lemma SleepStep(states: seq<State>, es: seq<Event>, p: Pid, n: int, i: nat)
    requires SafeRun(states, es) && Inv(states[0]) && i < |es| && Asleep(states[i], p, n)
    ensures !es[i].Clock? ==> Asleep(states[i + 1], p, n)
    ensures es[i].Clock? && n > 1 ==> Asleep(states[i + 1], p, n - 1)
    ensures es[i].Clock? && n <= 1 ==> Runnable(states[i + 1], p)
  {
    InvThroughout(states, es, i);
    SafeStep(states, es, i);
    if es[i].Clock? {
      TickCounts(states[i], p, n);
    } else {
      AsleepBetweenTicks(states[i], es[i], p, n);
    }
  }

  /** Delay(n) with n > 0 puts the caller to sleep for n ticks; 0 returns at once and a
      negative count is an error. */
  lemma DelayFallsAsleep(s: State, n: int)
    requires Inv(s) && Enabled(s, Delay(n))
    ensures var c, s' := s.q.current.value, Apply(s, Delay(n));
            && (n > 0 ==> Asleep(s', c, n))
            && (n <= 0 ==> s'.q == s.q && s'.w.procs[c].rc == if n == 0 then 0 else ERROR)
  {
    var c, s' := s.q.current.value, Apply(s, Delay(n));
    if n > 0 {
      DelaySettles(s, c, n);
      assert s'.w.procs[c].state == Delayed;
      PlaceOf(s'.q, s'.w.procs, s'.w.cfg.idle, c);
    }
  }

  /** The clock walk: every delayed process loses one tick, exactly the expired ones
      move to the ready queue in list order, the others keep their places. */
  lemma ClockWalk(s: State)
    requires Inv(s)
    ensures var s1 := AfterTick(s);
            && s1.q.ready == s.q.ready + Expired(s.w.procs, s.q.delayed)
            && (forall p :: p in s1.q.delayed <==> p in s.q.delayed && s.w.procs[p].delay > 1)
            && (forall p :: p in s.q.delayed ==> s1.w.procs[p].delay == s.w.procs[p].delay - 1)
            && (forall p :: p in s.w.procs && p !in s.q.delayed ==> s1.w.procs[p] == s.w.procs[p])
  {
    ExpiryParts(s.w.procs, s.q.delayed);
  }
}
