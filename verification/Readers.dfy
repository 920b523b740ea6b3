/**
 * Pipe readers and their wake-ups. A reader woken to a pipe that somebody has emptied meanwhile goes
 * back to sleep without being put back among the readers, so a later write does not wake it. That is
 * the only way in which a reader is forgotten.
 */
module Readers {
  import opened Types
  import opened Kernel
  import opened Placement
  import opened Protocols
  import opened Family
  import opened Invariant
  import opened Exactness
  import opened Runs
  import opened PipeData

  /** p is blocked in a read of some pipe. */
  ghost predicate Sleeps(w: World, p: Pid) {
    p in w.procs && w.procs[p].state == Blocked && w.procs[p].resume.PipeReading?
  }

  ghost predicate IsRegistered(w: World, p: Pid)
    requires Sleeps(w, p)
  {
    var id := w.procs[p].resume.id;
    id in w.pipes && p in w.pipes[id].readers
  }

  /** Every blocked reader is among the readers of its pipe, where the next write finds it. */
  ghost predicate Registered(w: World) {
    forall p :: Sleeps(w, p) ==> IsRegistered(w, p)
  }

  /** The step that forgets a reader: it goes on and finds its pipe empty again. */
  predicate Oversleeps(s: State, e: Event)
    requires Enabled(s, e)
  {
    && e.Continue?
    && var r := s.w.procs[s.q.current.value].resume;
       r.PipeReading? && s.w.pipes[r.id].bytes == []
  }

  predicate InPipeCall(r: Resume) {
    r.PipeReading? || r.PipeWriting?
  }

  /** Nobody falls asleep on a pipe, nobody who is about to read goes away, and no pipe changes. */
  ghost predicate PipesUndisturbed(w: World, w': World) {
    && w'.cfg == w.cfg
    && (forall p :: Waits(w', p) && InPipeCall(w'.procs[p].resume) ==>
          Waits(w, p) && w'.procs[p].resume == w.procs[p].resume)
    && (forall p :: p in w.procs && w.procs[p].state == Ready && w.procs[p].resume.PipeReading? ==>
          p in w'.procs && w'.procs[p].state == Ready && w'.procs[p].resume == w.procs[p].resume)
    && (forall id :: id in w.pipes ==>
          id in w'.pipes && w'.pipes[id].readers == w.pipes[id].readers && w'.pipes[id].bytes == w.pipes[id].bytes)
    && (forall id :: id in w'.pipes && id !in w.pipes ==> w'.pipes[id].readers == [])
  }

  lemma UndisturbedKeepsRegistered(w: World, w': World)
    requires Registered(w) && PipesUndisturbed(w, w')
    ensures Registered(w')
  {
    forall p | Sleeps(w', p) ensures IsRegistered(w', p) {
      assert Waits(w', p);
      assert IsRegistered(w, p);
    }
  }

  // ------------------------------------------------------- steps without a pipe

  /** A step that changes the caller, which has nothing to do with a pipe, and may make others ready. */
  lemma OwnChangeLeavesPipes(w: World, w': World, c: Pid)
    requires w'.pipes == w.pipes && w'.procs.Keys == w.procs.Keys && w'.cfg == w.cfg && c in w.procs
    requires !InPipeCall(w.procs[c].resume) && !InPipeCall(w'.procs[c].resume)
    requires forall p :: p in w.procs && p != c ==>
               w'.procs[p].resume == w.procs[p].resume && w'.procs[p].state in {w.procs[p].state, Ready}
    ensures PipesUndisturbed(w, w')
  {
  }

  lemma ForkLeavesPipes(s: State, c: Pid, child: Pid, framesLeft: bool)
    requires c in s.w.procs && child !in s.w.procs && s.w.procs[c].resume == User
    ensures PipesUndisturbed(s.w, ForkStep(s, c, child, framesLeft).w)
  {
  }

  lemma WaitLeavesPipes(s: State, c: Pid)
    requires s.q.current == Some(c) && c in s.w.procs && s.w.procs[c].resume == User
    ensures PipesUndisturbed(s.w, WaitStep(s, c).w)
  {
    OwnChangeLeavesPipes(s.w, WaitStep(s, c).w, c);
  }

  lemma DelayLeavesPipes(s: State, c: Pid, n: int)
    requires s.q.current == Some(c) && c in s.w.procs && s.w.procs[c].resume == User
    ensures PipesUndisturbed(s.w, DelayStep(s, c, n).w)
  {
    OwnChangeLeavesPipes(s.w, DelayStep(s, c, n).w, c);
  }

  lemma LockNewLeavesPipes(s: State, c: Pid)
    requires c in s.w.procs && s.w.procs[c].resume == User
    ensures PipesUndisturbed(s.w, LockNewStep(s, c).w)
  {
    OwnChangeLeavesPipes(s.w, LockNewStep(s, c).w, c);
  }

  lemma AcquireLeavesPipes(s: State, c: Pid, id: int)
    requires s.q.current == Some(c) && c in s.w.procs && s.w.procs[c].resume == User
    ensures PipesUndisturbed(s.w, AcquireStep(s, c, id).w)
  {
    OwnChangeLeavesPipes(s.w, AcquireStep(s, c, id).w, c);
  }

  lemma ReleaseLeavesPipes(s: State, c: Pid, id: int)
    requires s.q.current == Some(c) && c in s.w.procs && s.w.procs[c].resume == User
    ensures PipesUndisturbed(s.w, ReleaseStep(s, c, id).w)
  {
    OwnChangeLeavesPipes(s.w, ReleaseStep(s, c, id).w, c);
  }

  lemma TtyReadLeavesPipes(s: State, c: Pid, t: nat, len: nat)
    requires s.q.current == Some(c) && c in s.w.procs && s.w.procs[c].resume == User && t < |s.w.ttys|
    ensures PipesUndisturbed(s.w, ReadStep(s, c, t, len).w)
  {
    OwnChangeLeavesPipes(s.w, ReadStep(s, c, t, len).w, c);
  }

  lemma PipeNewLeavesPipes(s: State, c: Pid)
    requires Protocol(s.w) && s.q.current == Some(c) && c in s.w.procs && s.w.procs[c].resume == User
    ensures PipesUndisturbed(s.w, PipeNewStep(s, c).w)
  {
    assert KeyOk(s.w, PipeKey(s.w.nextId));
  }

  lemma ExitLeavesPipes(s: State, e: Event)
    requires Enabled(s, e) && e.Exit?
    ensures PipesUndisturbed(s.w, Apply(s, e).w)
  {
    var c := s.q.current.value;
    ExitStates(s.w.procs, s.w.cfg.init, c, s.w.cfg.clears);
  }

  lemma TrapsLeavePipes(s: State, e: Event)
    requires Enabled(s, e) && (e.Clock? || e.Transmit? || e.Receive?)
    ensures PipesUndisturbed(s.w, Apply(s, e).w)
  {
    if e.Receive? { ReceiveLeavesPipes(s, e.t, e.line); }
  }

  lemma ReceiveLeavesPipes(s: State, t: nat, line: Bytes)
    requires t < |s.w.ttys|
    ensures PipesUndisturbed(s.w, ReceiveStep(s, t, line).w)
  {
  }

  lemma ChunkLeavesPipes(s: State, c: Pid, t: nat, msg: Bytes, start: nat)
    requires s.q.current == Some(c) && c in s.w.procs && !InPipeCall(s.w.procs[c].resume) && t < |s.w.ttys|
    requires start < |msg|
    ensures PipesUndisturbed(s.w, SendFrom(s, c, t, msg, start).w)
  {
    OwnChangeLeavesPipes(s.w, SendFrom(s, c, t, msg, start).w, c);
  }

  lemma LastChunkLeavesPipes(s: State, c: Pid, t: nat, msg: Bytes, start: nat)
    requires s.q.current == Some(c) && c in s.w.procs && !InPipeCall(s.w.procs[c].resume) && t < |s.w.ttys|
    requires start >= |msg|
    ensures PipesUndisturbed(s.w, SendFrom(s, c, t, msg, start).w)
  {
    OwnChangeLeavesPipes(s.w, SendFrom(s, c, t, msg, start).w, c);
  }

  lemma SendingLeavesPipes(s: State, c: Pid, t: nat, msg: Bytes, start: nat)
    requires s.q.current == Some(c) && c in s.w.procs && !InPipeCall(s.w.procs[c].resume) && t < |s.w.ttys|
    ensures PipesUndisturbed(s.w, SendFrom(s, c, t, msg, start).w)
  {
    if start < |msg| {
      ChunkLeavesPipes(s, c, t, msg, start);
    } else {
      LastChunkLeavesPipes(s, c, t, msg, start);
    }
  }

  lemma WritingLeavesPipes(s: State, c: Pid, t: nat, msg: Bytes)
    requires s.q.current == Some(c) && c in s.w.procs && !InPipeCall(s.w.procs[c].resume) && t < |s.w.ttys|
    ensures PipesUndisturbed(s.w, WriteTop(s, c, t, msg).w)
  {
    if s.w.ttys[t].available {
      var s1 := SetTty(s, t, s.w.ttys[t].(available := false, writer := Some(c)));
      assert WriteTop(s, c, t, msg) == SendFrom(s1, c, t, msg, 0);
      SendingLeavesPipes(s1, c, t, msg, 0);
    }
  }

  // ---------------------------------------------------------------- pipe steps

  lemma WriteKeepsRegistered(s: State, c: Pid, id: int, msg: Bytes)
    requires Registered(s.w) && s.q.current == Some(c) && c in s.w.procs && id in s.w.pipes
    ensures Registered(PipeWriteLoop(s, c, id, msg).w)
  {
    var w' := PipeWriteLoop(s, c, id, msg).w;
    var readers := s.w.pipes[id].readers;
    assert readers == Take(readers, 1) + Drop(readers, 1);
    forall p | Sleeps(w', p) ensures IsRegistered(w', p) {
      assert IsRegistered(s.w, p);
    }
  }

  lemma ReadKeepsRegistered(s: State, c: Pid, id: int, len: nat)
    requires Registered(s.w) && s.q.current == Some(c) && c in s.w.procs && id in s.w.pipes
    requires s.w.pipes[id].bytes != []
    ensures Registered(PipeReadLoop(s, c, id, len).w)
  {
    var w', pipe := PipeReadLoop(s, c, id, len).w, s.w.pipes[id];
    var n := if Drop(pipe.bytes, len) != [] then 1 else 0;
    assert pipe.readers == Take(pipe.readers, n) + Drop(pipe.readers, n);
    forall p | Sleeps(w', p) ensures IsRegistered(w', p) {
      assert IsRegistered(s.w, p);
    }
  }

  /** A first read of an empty pipe registers before it blocks. */
  lemma FirstReadKeepsRegistered(s: State, c: Pid, id: int, len: nat)
    requires Registered(s.w) && s.q.current == Some(c) && c in s.w.procs
    ensures Registered(PipeReadStep(s, c, id, len).w)
  {
    var w' := PipeReadStep(s, c, id, len).w;
    if id in s.w.pipes && s.w.pipes[id].bytes != [] {
      ReadKeepsRegistered(s, c, id, len);
    } else {
      forall p | Sleeps(w', p) ensures IsRegistered(w', p) {
        if p != c { assert IsRegistered(s.w, p); }
      }
    }
  }

  lemma FirstWriteKeepsRegistered(s: State, c: Pid, id: int, msg: Bytes)
    requires Registered(s.w) && s.q.current == Some(c) && c in s.w.procs && s.w.procs[c].resume == User
    ensures Registered(PipeWriteStep(s, c, id, msg).w)
  {
    if id in s.w.pipes {
      var pipe := s.w.pipes[id];
      var s1 := SetPipe(s, id, pipe.(writers := [c] + pipe.writers));
      UndisturbedKeepsRegistered(s.w, s1.w);
      WriteKeepsRegistered(s, c, id, msg);
      WriteKeepsRegistered(s1, c, id, msg);
    }
    if id !in s.w.pipes || |msg| > s.w.cfg.pipeLen {
      UndisturbedKeepsRegistered(s.w, PipeWriteStep(s, c, id, msg).w);
    }
  }

  lemma BackToUserLeavesPipes(s: State, c: Pid)
    requires c in s.w.procs && Resumable(s.w, s.w.procs[c].resume) && s.q.current == Some(c)
    requires var r := s.w.procs[c].resume; r.LockWait? || r.WaitLoop? || r.ReadWait?
    ensures PipesUndisturbed(s.w, ContinueStep(s, c).w)
  {
    OwnChangeLeavesPipes(s.w, ContinueStep(s, c).w, c);
  }

  /** Going on anywhere but in a pipe. */
  lemma ContinueLeavesPipes(s: State, c: Pid)
    requires Enabled(s, Continue) && s.q.current == Some(c) && !InPipeCall(s.w.procs[c].resume)
    ensures PipesUndisturbed(s.w, ContinueStep(s, c).w)
  {
    var s', r := ContinueStep(s, c), s.w.procs[c].resume;
    if r.WriteWait? {
      WritingLeavesPipes(s, c, r.t, r.msg);
      assert s' == WriteTop(s, c, r.t, r.msg);
    } else if r.Sending? {
      SendingLeavesPipes(s, c, r.t, r.msg, r.start + s.w.cfg.maxLine);
      assert s' == SendFrom(s, c, r.t, r.msg, r.start + s.w.cfg.maxLine);
    } else {
      BackToUserLeavesPipes(s, c);
    }
  }

  lemma ContinueKeepsRegistered(s: State, c: Pid)
    requires Registered(s.w) && Enabled(s, Continue) && s.q.current == Some(c) && !Oversleeps(s, Continue)
    ensures Registered(ContinueStep(s, c).w)
  {
    var s', r := ContinueStep(s, c), s.w.procs[c].resume;
    if r.PipeReading? {
      ReadKeepsRegistered(s, c, r.id, r.len);
      assert s' == PipeReadLoop(s, c, r.id, r.len);
    } else if r.PipeWriting? {
      WriteKeepsRegistered(s, c, r.id, r.msg);
      assert s' == PipeWriteLoop(s, c, r.id, r.msg);
    } else {
      ContinueLeavesPipes(s, c);
      UndisturbedKeepsRegistered(s.w, s'.w);
    }
  }

  /** A reader that goes on to an empty pipe is forgotten: it was ready, so it was not registered. */
  lemma OversleepingForgets(s: State, e: Event)
    requires Inv(s) && Enabled(s, e) && Oversleeps(s, e)
    ensures var c := s.q.current.value; Sleeps(Apply(s, e).w, c) && !IsRegistered(Apply(s, e).w, c)
  {
    var c := s.q.current.value;
    var id := s.w.procs[c].resume.id;
    assert KeyOk(s.w, PipeKey(id));
    assert c in s.w.pipes[id].readers ==> Waits(s.w, c);
  }

  /** Steps of processes that are not in the kernel, other than on pipes. */
  lemma UserStepsLeavePipes(s: State, e: Event)
    requires Inv(s) && Enabled(s, e) && FromUser(e) && !e.PipeRead? && !e.PipeWrite?
    ensures PipesUndisturbed(s.w, Apply(s, e).w)
  {
    var c := s.q.current.value;
    match e
    case Fork(child, framesLeft) =>
      ForkLeavesPipes(s, c, child, framesLeft);
      assert Apply(s, e) == ForkStep(s, c, child, framesLeft);
    case Exit(_) => ExitLeavesPipes(s, e);
    case Acquire(id) =>
      AcquireLeavesPipes(s, c, id);
      assert Apply(s, e) == AcquireStep(s, c, id);
    case Release(id) =>
      ReleaseLeavesPipes(s, c, id);
      assert Apply(s, e) == ReleaseStep(s, c, id);
    case PipeNew =>
      PipeNewLeavesPipes(s, c);
      assert Apply(s, e) == PipeNewStep(s, c);
    case TtyWrite(t, msg) =>
      WritingLeavesPipes(s, c, t, msg);
      assert Apply(s, e) == WriteTop(s, c, t, msg);
    case TtyRead(t, len) =>
      TtyReadLeavesPipes(s, c, t, len);
      assert Apply(s, e) == ReadStep(s, c, t, len);
    case Wait =>
      WaitLeavesPipes(s, c);
      assert Apply(s, e) == WaitStep(s, c);
    case Delay(n) =>
      DelayLeavesPipes(s, c, n);
      assert Apply(s, e) == DelayStep(s, c, n);
    case LockNew =>
      LockNewLeavesPipes(s, c);
      assert Apply(s, e) == LockNewStep(s, c);
  }

  /** Every other step keeps all blocked readers registered, whether it is safe or not. */
  lemma StepKeepsRegistered(s: State, e: Event)
    requires Inv(s) && Enabled(s, e) && Registered(s.w) && !Oversleeps(s, e)
    ensures Registered(Apply(s, e).w)
  {
    var c := s.q.current.value;
    match e
    case PipeWrite(id, msg) =>
      FirstWriteKeepsRegistered(s, c, id, msg);
      assert Apply(s, e) == PipeWriteStep(s, c, id, msg);
    case PipeRead(id, len) =>
      FirstReadKeepsRegistered(s, c, id, len);
      assert Apply(s, e) == PipeReadStep(s, c, id, len);
    case Continue =>
      ContinueKeepsRegistered(s, c);
      assert Apply(s, e) == ContinueStep(s, c);
    case _ =>
      if FromUser(e) { UserStepsLeavePipes(s, e); } else { TrapsLeavePipes(s, e); }
      UndisturbedKeepsRegistered(s.w, Apply(s, e).w);
  }

  /** The exact law: a step keeps every blocked reader registered if and only if it is not that step. */
  lemma ReadersAreExact(s: State, e: Event)
    requires Inv(s) && Enabled(s, e) && Registered(s.w)
    ensures Registered(Apply(s, e).w) <==> !Oversleeps(s, e)
  {
    if Oversleeps(s, e) {
      OversleepingForgets(s, e);
    } else {
      StepKeepsRegistered(s, e);
    }
  }

  // ------------------------------------------------------------------------ runs

  /** A run in which no woken reader finds its pipe empty. */
  ghost predicate AttentiveRun(states: seq<State>, es: seq<Event>) {
    SafeRun(states, es) && forall i :: 0 <= i < |es| ==> AttentiveAt(states, es, i)
  }

  ghost predicate AttentiveAt(states: seq<State>, es: seq<Event>, i: nat)
    requires i < |es| < |states|
  {
    Enabled(states[i], es[i]) && !Oversleeps(states[i], es[i])
  }

  lemma {:induction false} RegisteredThroughout(states: seq<State>, es: seq<Event>, i: nat)
    requires AttentiveRun(states, es) && Inv(states[0]) && Registered(states[0].w) && i <= |es|
    ensures Registered(states[i].w)
  {
    if i > 0 {
      RegisteredThroughout(states, es, i - 1);
      RegisteredAt(states, es, i - 1);
    }
  }

  lemma RegisteredAt(states: seq<State>, es: seq<Event>, k: nat)
    requires AttentiveRun(states, es) && Inv(states[0]) && k < |es| && Registered(states[k].w)
    ensures Registered(states[k + 1].w)
  {
    var s, e := states[k], es[k];
    InvThroughout(states, es, k);
    SafeStep(states, es, k);
    assert AttentiveAt(states, es, k);
    StepKeepsRegistered(s, e);
    assert states[k + 1] == Apply(s, e);
  }

  /** No lost wake-up for readers: where all are registered, a write that fits finds a blocked
      reader, the one registered longest, and makes it ready. */
  lemma WriteWakesAReader(s: State, c: Pid, id: int, msg: Bytes, p: Pid)
    requires Inv(s) && Registered(s.w) && s.q.current == Some(c) && id in s.w.pipes
    requires |msg| + |s.w.pipes[id].bytes| <= s.w.cfg.pipeLen
    requires Sleeps(s.w, p) && s.w.procs[p].resume.id == id
    ensures var s' := PipeWriteLoop(s, c, id, msg);
            && s.w.pipes[id].readers != []
            && var first := s.w.pipes[id].readers[0];
               Sleeps(s.w, first) && first in s'.q.ready && first in s'.w.procs && s'.w.procs[first].state == Ready
  {
    assert IsRegistered(s.w, p);
    assert KeyOk(s.w, PipeKey(id));
    var first := s.w.pipes[id].readers[0];
    assert first in s.w.pipes[id].readers && first in Take(s.w.pipes[id].readers, 1);
    assert Waits(s.w, first);
  }
}
