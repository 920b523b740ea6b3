/** A child that exits is recorded, kept, and collected once. */
module Zombies {
  import opened Types
  import opened Kernel
  import opened Placement
  import opened Protocols
  import opened Family
  import opened Invariant
  import opened Exactness
  import opened Runs
  import opened Manual
  import opened Outcomes
  import opened WakeUps
  import opened Calls
  import opened WaitCalls

  /** A child that exits while its parent is not waiting becomes a zombie of the parent and is kept. */
  lemma ExitIsRecorded(s: State, status: int)
    requires Inv(s) && Enabled(s, Exit(status))
    ensures var s', c := Apply(s, Exit(status)), s.q.current.value;
            var par := s.w.procs[c].parent.value;
            && s.w.procs[c].parent.Some? && par in s.w.procs && par in s'.w.procs && c !in s'.w.procs[par].children
            && if s.w.procs[par].waiting
               then s'.w.procs[par].state == Ready && s'.w.procs[par].zombies == s.w.procs[par].zombies
               else s'.w.procs[par].zombies == s.w.procs[par].zombies + {c} && s'.q.dead == s.q.dead + {c}
  {
    StepMeetsPage(s, Exit(status));
  }

  ghost predicate KeepsZombies(s: State, s': State, p: Pid) {
    p in s.w.procs && p in s'.w.procs && s.w.procs[p].zombies <= s'.w.procs[p].zombies
  }

  lemma PipePagesKeepZombies(s: State, s': State, c: Pid, id: int, msg: Bytes, len: nat, calls: bool, p: Pid)
    requires c in s.w.procs && id in s.w.pipes && p in s.w.procs
    requires PipeWritePage(s, s', c, id, msg) || PipeReadPage(s, s', c, id, len, calls)
    ensures KeepsZombies(s, s', p)
  {
  }

  lemma TtyPagesKeepZombies(s: State, s': State, c: Pid, t: nat, msg: Bytes, start: nat, p: Pid)
    requires c in s.w.procs && t < |s.w.ttys| && p in s.w.procs
    requires SendPage(s, s', c, t, msg, start) || TtyWritePage(s, s', c, t, msg)
    ensures KeepsZombies(s, s', p)
  {
  }

  lemma ContinueKeepsZombies(s: State, s': State, p: Pid)
    requires Enabled(s, Continue) && Page(s, Continue, s') && p in s.w.procs
    ensures KeepsZombies(s, s', p)
  {
    var c := s.q.current.value;
    match s.w.procs[c].resume
    case WriteWait(t, msg) => TtyPagesKeepZombies(s, s', c, t, msg, 0, p);
    case Sending(t, msg, start) => TtyPagesKeepZombies(s, s', c, t, msg, start + s.w.cfg.maxLine, p);
    case PipeReading(id, len) => PipePagesKeepZombies(s, s', c, id, [], len, false, p);
    case PipeWriting(id, msg) => PipePagesKeepZombies(s, s', c, id, msg, 0, false, p);
    case _ =>
  }

  lemma CallsKeepZombies(s: State, e: Event, s': State, p: Pid)
    requires Enabled(s, e) && Page(s, e, s') && p in s.w.procs
    requires e.Delay? || e.LockNew? || e.Acquire? || e.Release? || e.PipeNew? || e.TtyRead?
    ensures KeepsZombies(s, s', p)
  {
  }

  lemma FamilyKeepsZombies(s: State, e: Event, s': State, p: Pid)
    requires Enabled(s, e) && Page(s, e, s') && p in s.w.procs
    requires e.Fork? || ((e.Wait? || e.Exit?) && s.q.current != Some(p))
    ensures KeepsZombies(s, s', p)
  {
  }

  lemma TrapsKeepZombies(s: State, e: Event, s': State, p: Pid)
    requires Enabled(s, e) && Page(s, e, s') && p in s.w.procs && (e.Clock? || e.Transmit? || e.Receive?)
    ensures KeepsZombies(s, s', p)
  {
    if e.Receive? && 1 <= |e.line| <= s.w.cfg.maxLine {
      assert p in s.w.ttys[e.t].readers || p !in s.w.ttys[e.t].readers;
    }
  }

  lemma PipeCallsKeepZombies(s: State, e: Event, s': State, p: Pid)
    requires Enabled(s, e) && Page(s, e, s') && p in s.w.procs && (e.PipeWrite? || e.PipeRead?)
    ensures KeepsZombies(s, s', p)
  {
    var c := s.q.current.value;
    match e
    case PipeWrite(id, msg) =>
      if id in s.w.pipes && |msg| <= s.w.cfg.pipeLen { PipePagesKeepZombies(s, s', c, id, msg, 0, true, p); }
    case PipeRead(id, len) =>
      if id in s.w.pipes { PipePagesKeepZombies(s, s', c, id, [], len, true, p); }
  }

  lemma PageKeepsZombies(s: State, e: Event, s': State, p: Pid)
    requires Enabled(s, e) && Page(s, e, s') && p in s.w.procs
    requires !(s.q.current == Some(p) && (e.Wait? || e.Exit?))
    ensures KeepsZombies(s, s', p)
  {
    if e.Continue? {
      ContinueKeepsZombies(s, s', p);
    } else if !FromUser(e) {
      TrapsKeepZombies(s, e, s', p);
    } else if e.Fork? || e.Wait? || e.Exit? {
      FamilyKeepsZombies(s, e, s', p);
    } else if e.TtyWrite? {
      TtyPagesKeepZombies(s, s', s.q.current.value, e.t, e.msg, 0, p);
    } else if e.PipeWrite? || e.PipeRead? {
      PipeCallsKeepZombies(s, e, s', p);
    } else {
      CallsKeepZombies(s, e, s', p);
    }
  }

  /** No step but its own Wait or exit takes a zombie from a process. */
  lemma ZombiesStay(s: State, e: Event, p: Pid)
    requires Inv(s) && Enabled(s, e) && p in s.w.procs && !(s.q.current == Some(p) && (e.Wait? || e.Exit?))
    ensures KeepsZombies(s, Apply(s, e), p)
  {
    StepMeetsPage(s, e);
    PageKeepsZombies(s, e, Apply(s, e), p);
  }

  /** z is a zombie of p. */
  ghost predicate IsZombieOf(s: State, z: Pid, p: Pid) {
    p in s.w.procs && z in s.w.procs[p].zombies
  }

  ghost predicate TakesNone(s: State, e: Event, p: Pid) {
    s.q.current != Some(p) || !(e.Wait? || e.Exit?)
  }

  lemma ZombieAt(states: seq<State>, es: seq<Event>, p: Pid, z: Pid, k: nat)
    requires SafeRun(states, es) && Inv(states[0]) && k < |es| && IsZombieOf(states[k], z, p)
    requires TakesNone(states[k], es[k], p)
    ensures IsZombieOf(states[k + 1], z, p)
  {
    GoodStep(states, es, k);
    ZombiesStay(states[k], es[k], p);
  }

  lemma {:induction false} ZombieWaits(states: seq<State>, es: seq<Event>, p: Pid, z: Pid, i: nat, j: nat)
    requires SafeRun(states, es) && Inv(states[0]) && i <= j <= |es| && IsZombieOf(states[i], z, p)
    requires forall k :: i <= k < j ==> TakesNone(states[k], es[k], p)
    ensures IsZombieOf(states[j], z, p)
    decreases j
  {
    if i < j {
      var n := j - 1;
      ZombieWaits(states, es, p, z, i, n);
      ZombieAt(states, es, p, z, n);
      assert n + 1 == j;
    }
  }

  /** A child that exits while its parent is not waiting is collected by the parent's next Wait, however much
      later: that call returns 0 and the child is gone from the zombies and from the dead. */
  lemma NextWaitCollects(states: seq<State>, es: seq<Event>, c: Pid, p: Pid, i: nat, j: nat)
    requires SafeRun(states, es) && Inv(states[0]) && i < j < |es| && es[i].Exit? && states[i].q.current == Some(c)
    requires p in states[i].w.procs && c in states[i].w.procs
    requires states[i].w.procs[c].parent == Some(p) && !states[i].w.procs[p].waiting
    requires es[j] == Wait && states[j].q.current == Some(p)
    requires forall k :: i < k < j ==> TakesNone(states[k], es[k], p)
    ensures IsZombieOf(states[j], c, p)
    ensures p in states[j + 1].w.procs && states[j + 1].w.procs[p].rc == 0
    ensures !IsZombieOf(states[j + 1], c, p) && c !in states[j + 1].q.dead
  {
    GoodStep(states, es, i);
    ExitIsRecorded(states[i], es[i].status);
    ZombieWaits(states, es, p, c, i + 1, j);
    GoodStep(states, es, j);
    WaitStarts(states[j], p);
  }
}
