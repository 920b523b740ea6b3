/**
 * The machine of the handlers, driven by events: each event runs the code that the kernel runs for it,
 * which does what the step function says and keeps the invariant.
 */
module Dispatcher {
  import opened Types
  import opened Kernel
  import opened Placement
  import opened Protocols
  import opened Invariant
  import opened Exactness
  import opened Runs
  import opened Handlers
  import opened Manual
  import opened Outcomes

  lemma {:induction false} TwiceInCounts(ps: seq<Pid>, i: nat, j: nat)
    requires i < j < |ps| && ps[i] == ps[j]
    ensures multiset(ps)[ps[i]] >= 2
  {
    assert ps == ps[..j] + [ps[j]] + ps[j + 1..];
    assert ps[..j][i] == ps[i] && ps[i] in ps[..j];
    assert multiset(ps) == multiset(ps[..j]) + multiset([ps[j]]) + multiset(ps[j + 1..]);
  }

  /** What the clock's walk relies on. */
  lemma DelayedOnce(q: Queues, procs: map<Pid, Pcb>, idle: Pid)
    requires Placed(q, procs, idle)
    ensures Distinct(q.delayed) && forall p :: p in q.delayed ==> p in procs
  {
    forall i, j | 0 <= i < j < |q.delayed| ensures q.delayed[i] != q.delayed[j] {
      assert Copies(q, idle, q.delayed[i]) <= 1;
      if q.delayed[i] == q.delayed[j] { TwiceInCounts(q.delayed, i, j); }
    }
  }

  /** What the fan-out of a line relies on. */
  lemma ReadersOnce(w: World, t: nat)
    requires Protocol(w) && t < |w.ttys|
    ensures Distinct(w.ttys[t].readers) && forall p :: p in w.ttys[t].readers ==> p in w.procs
  {
    assert KeyOk(w, TtyKey(t));
    assert forall p :: p in w.ttys[t].readers ==> Waits(w, p);
  }

  /** The current process goes on where it gave up the processor. */
  method GoOn(m: Machine, c: Pid)
    requires m.Running(c) && Resumable(m.View().w, m.procs[c].resume)
    modifies m
    ensures m.View() == ContinueStep(old(m.View()), c)
  {
    match m.procs[c].resume {
      case LockWait(_) => m.ReturnToUser(c, 0);
      case WaitLoop => m.ReturnToUser(c, 0);
      case WriteWait(t, msg) => m.TtyWriteTop(c, t, msg);
      case Sending(t, msg, start) => m.TtySendFrom(c, t, msg, start + m.cfg.maxLine);
      case ReadWait(t, _) => m.TtyReadFinish(c, t);
      case PipeReading(id, len) => m.PipeReadSegment(c, id, len);
      case PipeWriting(id, msg) => m.PipeWriteSegment(c, id, msg);
    }
  }

  /** A system call of the current process. */
  method Call(m: Machine, c: Pid, e: Event)
    requires m.Running(c) && Enabled(m.View(), e) && FromUser(e)
    modifies m
    ensures m.View() == Apply(old(m.View()), e)
  {
    match e {
      case Fork(child, framesLeft) => m.ForkHandler(c, child, framesLeft);
      case Exit(_) => m.ExitHandler(c);
      case Wait => m.WaitHandler(c);
      case Delay(n) => m.DelayHandler(c, n);
      case LockNew => m.LockNew(c);
      case Acquire(id) => m.AcquireLockHandler(c, id);
      case Release(id) => m.ReleaseLockHandler(c, id);
      case PipeNew => m.PipeNew(c);
      case PipeWrite(id, msg) => m.PipeWriteHandler(c, id, msg);
      case PipeRead(id, len) => m.PipeReadHandler(c, id, len);
      case TtyWrite(t, msg) => m.TtyWriteTop(c, t, msg);
      case TtyRead(t, len) => m.TtyReadHandler(c, t, len);
    }
  }

  /** One event: the code that runs for it does what the step function says, and keeps the invariant. */
  method Step(m: Machine, e: Event)
    requires Inv(m.View()) && Enabled(m.View(), e) && Safe(m.View(), e)
    modifies m
    ensures m.View() == Apply(old(m.View()), e) && Inv(m.View())
    ensures Page(old(m.View()), e, m.View())
  {
    ghost var s := m.View();
    var c := m.current.value;
    match e {
      case Continue => GoOn(m, c);
      case Clock =>
        DelayedOnce(s.q, s.w.procs, s.w.cfg.idle);
        m.TrapClockHandler();
      case Transmit(t) => m.TrapTTYTransmitHandler(t);
      case Receive(t, line) =>
        ReadersOnce(s.w, t);
        m.TrapTTYReceiveHandler(t, line);
      case _ => Call(m, c, e);
    }
    StepIsExact(s, e);
    StepMeetsPage(s, e);
  }

  /** Any safe run, carried out by the handlers from boot on. */
  method Replay(cfg: Config, terminals: nat, es: seq<Event>, ghost states: seq<State>) returns (m: Machine)
    requires cfg.init != cfg.idle && cfg.maxLine > 0
    requires SafeRun(states, es) && states[0] == Boot(cfg, terminals)
    ensures fresh(m) && m.View() == states[|es|] && Inv(m.View())
  {
    m := new Machine(cfg, terminals);
    InvAtBoot(cfg, terminals);
    var i := 0;
    while i < |es|
      invariant 0 <= i <= |es| && m.View() == states[i] && Inv(m.View())
    {
      SafeStep(states, es, i);
      Step(m, es[i]);
      i := i + 1;
    }
  }
}
