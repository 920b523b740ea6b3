/** Writes to a pipe and reads from one, from call to return. */
module PipeCalls {
  import opened Types
  import opened Kernel
  import opened Placement
  import opened Protocols
  import opened Family
  import opened Invariant
  import opened Exactness
  import opened Runs
  import opened Manual
  import opened Outcomes
  import opened WakeUps
  import opened Calls

  /** The bytes that enter pipe id at its end. */
  ghost function Added(id: int): (State, State) -> Bytes {
    (s: State, s': State) =>
      if id in s.w.pipes && id in s'.w.pipes then Grown(s.w.pipes[id].bytes, s'.w.pipes[id].bytes) else []
  }

  /** The bytes that leave pipe id at its front. */
  ghost function Taken(id: int): (State, State) -> Bytes {
    (s: State, s': State) =>
      if id in s.w.pipes && id in s'.w.pipes && |s'.w.pipes[id].bytes| <= |s.w.pipes[id].bytes|
      then s.w.pipes[id].bytes[..|s.w.pipes[id].bytes| - |s'.w.pipes[id].bytes|] else []
  }

  /** c is at a write of msg to pipe id: it calls or goes on. */
  ghost predicate WritesPipe(s: State, e: Event, c: Pid, id: int, msg: Bytes) {
    && Inv(s) && Enabled(s, e) && s.q.current == Some(c)
    && ((e == PipeWrite(id, msg) && id in s.w.pipes && |msg| <= s.w.cfg.pipeLen)
        || (e == Continue && s.w.procs[c].resume == PipeWriting(id, msg)))
  }

  /** It adds its message whole, or nothing and stays. */
  lemma WriterAdds(s: State, e: Event, c: Pid, id: int, msg: Bytes)
    requires WritesPipe(s, e, c, id, msg)
    ensures var s' := Apply(s, e);
            c in s'.w.procs && if s'.w.procs[c].resume == User
            then s'.w.procs[c].rc == 0 && Added(id)(s, s') == msg
            else s'.w.procs[c].resume == PipeWriting(id, msg) && Added(id)(s, s') == []
  {
    StepMeetsPage(s, e);
    WritePageAdds(s, Apply(s, e), c, id, msg);
  }

  lemma WritePageAdds(s: State, s': State, c: Pid, id: int, msg: Bytes)
    requires c in s.w.procs && id in s.w.pipes && PipeWritePage(s, s', c, id, msg)
    ensures c in s'.w.procs
    ensures if s'.w.procs[c].resume == User then s'.w.procs[c].rc == 0 && Added(id)(s, s') == msg
            else s'.w.procs[c].resume == PipeWriting(id, msg) && Added(id)(s, s') == []
  {
    var a, b := s.w.pipes[id].bytes, s'.w.pipes[id].bytes;
    assert Grown(a, b) == b[|a|..];
    assert Added(id)(s, s') == Grown(a, b);
    if s'.w.procs[c].resume == User {
      assert b == a + msg && b[|a|..] == msg;
    } else {
      assert b == a && b[|a|..] == [];
    }
  }

  /** c is at a read of pipe id. */
  ghost predicate ReadsPipe(s: State, e: Event, c: Pid, id: int, len: nat) {
    && Inv(s) && Enabled(s, e) && s.q.current == Some(c)
    && ((e == PipeRead(id, len) && id in s.w.pipes) || (e == Continue && s.w.procs[c].resume == PipeReading(id, len)))
  }

  ghost predicate TakesFront(s: State, s': State, c: Pid, id: int, len: nat) {
    && c in s'.w.procs && id in s.w.pipes && id in s'.w.pipes
    && var got := s'.w.procs[c].got;
       && Taken(id)(s, s') == got && |got| == Min(len, |s.w.pipes[id].bytes|) && s.w.pipes[id].bytes != []
       && s.w.pipes[id].bytes == got + s'.w.pipes[id].bytes
  }

  /** It takes the front of what there is, or nothing and stays. */
  lemma ReaderTakes(s: State, e: Event, c: Pid, id: int, len: nat)
    requires ReadsPipe(s, e, c, id, len)
    ensures var s' := Apply(s, e);
            c in s'.w.procs && if s'.w.procs[c].resume == User
            then s'.w.procs[c].rc == 0 && TakesFront(s, s', c, id, len)
            else s'.w.procs[c].resume == PipeReading(id, len) && Taken(id)(s, s') == []
  {
    StepMeetsPage(s, e);
    ReadPageTakes(s, Apply(s, e), c, id, len, e.PipeRead?);
  }

  lemma ReadPageTakes(s: State, s': State, c: Pid, id: int, len: nat, calls: bool)
    requires c in s.w.procs && id in s.w.pipes && PipeReadPage(s, s', c, id, len, calls)
    ensures c in s'.w.procs
    ensures if s'.w.procs[c].resume == User then s'.w.procs[c].rc == 0 && TakesFront(s, s', c, id, len)
            else s'.w.procs[c].resume == PipeReading(id, len) && Taken(id)(s, s') == []
  {
    var a, b := s.w.pipes[id].bytes, s'.w.pipes[id].bytes;
    assert a == [] ==> b == a;
    assert a != [] ==> a == a[..Min(len, |a|)] + b;
  }

  /** One step of a write. */
  lemma WriterWorks(states: seq<State>, es: seq<Event>, c: Pid, i: nat, id: int, msg: Bytes, k: nat)
    requires SafeRun(states, es) && Inv(states[0]) && i <= k < |es| && es[i] == PipeWrite(id, msg)
    requires id in states[i].w.pipes && |msg| <= states[i].w.cfg.pipeLen
    requires Works(states, es, c, i, PipeWriting(id, msg), k)
    ensures c in states[k + 1].w.procs
    ensures var now := Added(id)(states[k], states[k + 1]);
            if states[k + 1].w.procs[c].resume == User then states[k + 1].w.procs[c].rc == 0 && now == msg
            else states[k + 1].w.procs[c].resume == PipeWriting(id, msg) && now == []
  {
    GoodStep(states, es, k);
    WriterAdds(states[k], es[k], c, id, msg);
  }

  /** A step of a write in progress that is not its last. */
  lemma WriterWaits(states: seq<State>, es: seq<Event>, c: Pid, i: nat, j: nat, id: int, msg: Bytes, k: nat)
    requires CallOf(states, es, c, i, j) && es[i] == PipeWrite(id, msg) && i <= k < j - 1
    requires id in states[i].w.pipes && |msg| <= states[i].w.cfg.pipeLen
    ensures states[i + 1].w.procs[c].resume == PipeWriting(id, msg)
    ensures StillNothing(states, es, c, Added(id), k)
  {
    var r := PipeWriting(id, msg);
    CallWorks(states, es, c, i, j, r);
    WriterWorks(states, es, c, i, id, msg, i);
    if k > i && Takes(states[k], es[k], c) {
      WaiterWorks(states, es, c, i, j, r, k);
      NotYetBack(states, es, c, i, j, k);
      WriterWorks(states, es, c, i, id, msg, k);
    }
  }

  /** The last step of a write. */
  lemma WriterEnds(states: seq<State>, es: seq<Event>, c: Pid, i: nat, j: nat, id: int, msg: Bytes)
    requires CallOf(states, es, c, i, j) && es[i] == PipeWrite(id, msg)
    requires id in states[i].w.pipes && |msg| <= states[i].w.cfg.pipeLen
    ensures Takes(states[j - 1], es[j - 1], c) && Added(id)(states[j - 1], states[j]) == msg
    ensures states[j].w.procs[c].rc == 0
  {
    var k, r := j - 1, PipeWriting(id, msg);
    CallWorks(states, es, c, i, j, r);
    if k > i {
      WriterWaits(states, es, c, i, j, id, msg, i);
      WaiterWorks(states, es, c, i, j, r, k);
    }
    NotYetBack(states, es, c, i, j, k);
    WriterWorks(states, es, c, i, id, msg, k);
  }

  lemma RefusedPipeCall(s: State, e: Event)
    requires Inv(s) && Enabled(s, e)
    requires (e.PipeWrite? && (e.id !in s.w.pipes || |e.msg| > s.w.cfg.pipeLen)) || (e.PipeRead? && e.id !in s.w.pipes)
    ensures var s', c := Apply(s, e), s.q.current.value;
            && InUserMode(s', c) && s'.w.procs[c].rc == ERROR && s'.q == s.q && s'.w == s.w.(procs := s'.w.procs)
  {
    StepMeetsPage(s, e);
  }

  /** A write to a pipe, however often it has to wait: refused with an error at once, or, when it returns 0,
      its process has added exactly the message it was given, in one piece. */
  lemma PipeWriteAddsItsMessage(states: seq<State>, es: seq<Event>, c: Pid, i: nat, j: nat, id: int, msg: Bytes)
    requires CallOf(states, es, c, i, j) && es[i] == PipeWrite(id, msg)
    ensures if id in states[i].w.pipes && |msg| <= states[i].w.cfg.pipeLen
            then By(states, es, c, Added(id), i, j) == Added(id)(states[j - 1], states[j]) == msg
                 && states[j].w.procs[c].rc == 0
            else Refused(states, c, i, j)
  {
    if id in states[i].w.pipes && |msg| <= states[i].w.cfg.pipeLen {
      WriterEnds(states, es, c, i, j, id, msg);
      forall k | i <= k < j - 1 ensures StillNothing(states, es, c, Added(id), k) {
        WriterWaits(states, es, c, i, j, id, msg, k);
      }
      MovesOnce(states, es, c, Added(id), i, j);
    } else {
      GoodStep(states, es, i);
      RefusedPipeCall(states[i], es[i]);
      NotYetBack(states, es, c, i, j, i);
    }
  }

  lemma ReaderWorks(states: seq<State>, es: seq<Event>, c: Pid, i: nat, id: int, len: nat, k: nat)
    requires SafeRun(states, es) && Inv(states[0]) && i <= k < |es| && es[i] == PipeRead(id, len)
    requires id in states[i].w.pipes && Works(states, es, c, i, PipeReading(id, len), k)
    ensures c in states[k + 1].w.procs
    ensures if states[k + 1].w.procs[c].resume == User
            then states[k + 1].w.procs[c].rc == 0 && TakesFront(states[k], states[k + 1], c, id, len)
            else states[k + 1].w.procs[c].resume == PipeReading(id, len) && Taken(id)(states[k], states[k + 1]) == []
  {
    GoodStep(states, es, k);
    ReaderTakes(states[k], es[k], c, id, len);
  }

  lemma ReaderWaits(states: seq<State>, es: seq<Event>, c: Pid, i: nat, j: nat, id: int, len: nat, k: nat)
    requires CallOf(states, es, c, i, j) && es[i] == PipeRead(id, len) && i <= k < j - 1 && id in states[i].w.pipes
    ensures states[i + 1].w.procs[c].resume == PipeReading(id, len)
    ensures StillNothing(states, es, c, Taken(id), k)
  {
    var r := PipeReading(id, len);
    CallWorks(states, es, c, i, j, r);
    ReaderWorks(states, es, c, i, id, len, i);
    if k > i && Takes(states[k], es[k], c) {
      WaiterWorks(states, es, c, i, j, r, k);
      NotYetBack(states, es, c, i, j, k);
      ReaderWorks(states, es, c, i, id, len, k);
    }
  }

  lemma ReaderEnds(states: seq<State>, es: seq<Event>, c: Pid, i: nat, j: nat, id: int, len: nat)
    requires CallOf(states, es, c, i, j) && es[i] == PipeRead(id, len) && id in states[i].w.pipes
    ensures Takes(states[j - 1], es[j - 1], c)
    ensures states[j].w.procs[c].rc == 0 && TakesFront(states[j - 1], states[j], c, id, len)
  {
    var k, r := j - 1, PipeReading(id, len);
    CallWorks(states, es, c, i, j, r);
    if k > i {
      ReaderWaits(states, es, c, i, j, id, len, i);
      WaiterWorks(states, es, c, i, j, r, k);
    }
    NotYetBack(states, es, c, i, j, k);
    ReaderWorks(states, es, c, i, id, len, k);
  }

  /** A read from a pipe, however often it has to wait: when it returns 0, its process has taken as many
      bytes as it asked for, or all there were, off the front, at once, and they are what it got. */
  lemma PipeReadGetsWhatItTakes(states: seq<State>, es: seq<Event>, c: Pid, i: nat, j: nat, id: int, len: nat)
    requires CallOf(states, es, c, i, j) && es[i] == PipeRead(id, len)
    ensures if id in states[i].w.pipes
            then By(states, es, c, Taken(id), i, j) == states[j].w.procs[c].got
                 && states[j].w.procs[c].rc == 0 && TakesFront(states[j - 1], states[j], c, id, len)
            else Refused(states, c, i, j)
  {
    if id in states[i].w.pipes {
      ReaderEnds(states, es, c, i, j, id, len);
      forall k | i <= k < j - 1 ensures StillNothing(states, es, c, Taken(id), k) {
        ReaderWaits(states, es, c, i, j, id, len, k);
      }
      MovesOnce(states, es, c, Taken(id), i, j);
    } else {
      GoodStep(states, es, i);
      RefusedPipeCall(states[i], es[i]);
      NotYetBack(states, es, c, i, j, i);
    }
  }
}
