/** Writes to a terminal, from call to return: the message goes out whole and once. */
module WriteCalls {
  import opened Types
  import opened Kernel
  import opened Placement
  import opened Protocols
  import opened Family
  import opened Invariant
  import opened Exactness
  import opened Runs
  import opened Manual
  import opened Outcomes
  import opened WakeUps
  import opened Calls

  /** The chunks transmitted to terminal t. */
  ghost function Sent(t: nat): (State, State) -> seq<Bytes> {
    (s: State, s': State) => if t < |s.w.ttys| == |s'.w.ttys| then Grown(s.w.ttys[t].sent, s'.w.ttys[t].sent) else []
  }

  /** The messages finished on terminal t. */
  ghost function Done(t: nat): (State, State) -> seq<Bytes> {
    (s: State, s': State) => if t < |s.w.ttys| == |s'.w.ttys| then Grown(s.w.ttys[t].done, s'.w.ttys[t].done) else []
  }

  /** So far sent has gone out of msg and its process is still at it; done is what it has finished. */
  ghost predicate Midway(s: State, c: Pid, t: nat, msg: Bytes, sent: seq<Bytes>, done: seq<Bytes>) {
    && c in s.w.procs && done == []
    && match s.w.procs[c].resume
       case WriteWait(u, m) => u == t && m == msg && sent == []
       case Sending(u, m, start) => u == t && m == msg && Flat(sent) == Take(msg, start + s.w.cfg.maxLine)
       case _ => false
  }

  /** All of msg has gone out, once, and the call has returned 0. */
  ghost predicate Through(s: State, c: Pid, msg: Bytes, sent: seq<Bytes>, done: seq<Bytes>) {
    InUserMode(s, c) && s.w.procs[c].rc == 0 && done == [msg] && Flat(sent) == msg
  }

  lemma ChunkJoins(sent: seq<Bytes>, msg: Bytes, start: nat, n: nat)
    requires start < |msg| && Flat(sent) == Take(msg, start)
    ensures Flat(sent + [msg[start..Min(start + n, |msg|)]]) == Take(msg, start + n)
  {
    FlatSnoc(sent, msg[start..Min(start + n, |msg|)]);
  }

  lemma PageSends(s: State, s': State, c: Pid, t: nat, msg: Bytes, start: nat)
    requires c in s.w.procs && t < |s.w.ttys| && SendPage(s, s', c, t, msg, start)
    ensures Sent(t)(s, s') == if start < |msg| then [msg[start..Min(start + s.w.cfg.maxLine, |msg|)]] else []
    ensures Done(t)(s, s') == if start < |msg| then [] else [msg]
  {
  }

  lemma OneChunkMoves(s: State, s': State, c: Pid, t: nat, msg: Bytes, start: nat, sent: seq<Bytes>, now: seq<Bytes>)
    requires c in s.w.procs && t < |s.w.ttys| && SendPage(s, s', c, t, msg, start)
    requires Flat(sent) == Take(msg, start) && start < |msg| && now == Sent(t)(s, s')
    ensures Midway(s', c, t, msg, sent + now, [])
  {
    PageSends(s, s', c, t, msg, start);
    ChunkJoins(sent, msg, start, s.w.cfg.maxLine);
  }

  lemma LastChunkMoves(s: State, s': State, c: Pid, t: nat, msg: Bytes, start: nat, sent: seq<Bytes>)
    requires c in s.w.procs && t < |s.w.ttys| && SendPage(s, s', c, t, msg, start)
    requires Flat(sent) == Take(msg, start) && start >= |msg|
    ensures Through(s', c, msg, sent, [msg])
  {
  }

  lemma ChunkMoves(s: State, s': State, c: Pid, t: nat, msg: Bytes, start: nat, sent: seq<Bytes>)
    requires c in s.w.procs && t < |s.w.ttys| && SendPage(s, s', c, t, msg, start)
    requires Flat(sent) == Take(msg, start)
    ensures var sent', done' := sent + Sent(t)(s, s'), Done(t)(s, s');
            Midway(s', c, t, msg, sent', done') || Through(s', c, msg, sent', done')
  {
    PageSends(s, s', c, t, msg, start);
    if start < |msg| {
      OneChunkMoves(s, s', c, t, msg, start, sent, Sent(t)(s, s'));
    } else {
      LastChunkMoves(s, s', c, t, msg, start, sent);
      assert sent + [] == sent;
    }
  }

  lemma WriteMoves(s: State, s': State, c: Pid, t: nat, msg: Bytes)
    requires c in s.w.procs && t < |s.w.ttys| && TtyWritePage(s, s', c, t, msg)
    ensures Midway(s', c, t, msg, Sent(t)(s, s'), Done(t)(s, s')) || Through(s', c, msg, Sent(t)(s, s'), Done(t)(s, s'))
  {
    if s.w.ttys[t].available {
      ChunkMoves(s, s', c, t, msg, 0, []);
      assert [] + Sent(t)(s, s') == Sent(t)(s, s');
    } else {
      assert Sent(t)(s, s') == [] && Done(t)(s, s') == [];
    }
  }

  lemma OwnStepMoves(s: State, s': State, c: Pid, t: nat, msg: Bytes, sent: seq<Bytes>)
    requires Enabled(s, Continue) && Page(s, Continue, s') && s.q.current == Some(c)
    requires Midway(s, c, t, msg, sent, [])
    ensures var sent', done' := sent + Sent(t)(s, s'), Done(t)(s, s');
            Midway(s', c, t, msg, sent', done') || Through(s', c, msg, sent', done')
  {
    match s.w.procs[c].resume
    case WriteWait(_, _) =>
      WriteMoves(s, s', c, t, msg);
      assert [] + Sent(t)(s, s') == Sent(t)(s, s');
    case Sending(_, _, start) => ChunkMoves(s, s', c, t, msg, start + s.w.cfg.maxLine, sent);
  }

  ghost predicate WriteAt(states: seq<State>, es: seq<Event>, c: Pid, i: nat, k: nat, t: nat, msg: Bytes)
    requires k <= |es| < |states|
  {
    var sent, done := By(states, es, c, Sent(t), i, k), By(states, es, c, Done(t), i, k);
    Midway(states[k], c, t, msg, sent, done) || Through(states[k], c, msg, sent, done)
  }

  lemma WriteStarts(states: seq<State>, es: seq<Event>, c: Pid, i: nat, t: nat, msg: Bytes)
    requires i < |es| < |states| && Takes(states[i], es[i], c) && c in states[i].w.procs
    requires t < |states[i].w.ttys| && TtyWritePage(states[i], states[i + 1], c, t, msg)
    ensures WriteAt(states, es, c, i, i + 1, t, msg)
  {
    WriteMoves(states[i], states[i + 1], c, t, msg);
    FirstStep(states, es, c, Sent(t), i);
    FirstStep(states, es, c, Done(t), i);
  }

  lemma OthersMoveNothing(s: State, s': State, c: Pid, t: nat, msg: Bytes, sent: seq<Bytes>, done: seq<Bytes>)
    requires SameRegisters(s, s', c) && s'.w.cfg == s.w.cfg && Midway(s, c, t, msg, sent, done)
    ensures Midway(s', c, t, msg, sent + [], done + [])
  {
    assert sent + [] == sent && done + [] == done;
  }

  lemma WriteNext(states: seq<State>, es: seq<Event>, c: Pid, i: nat, k: nat, t: nat, msg: Bytes)
    requires SafeRun(states, es) && Inv(states[0]) && i < k < |es|
    requires WriteAt(states, es, c, i, k, t, msg) && InKernel(states[k], c)
    ensures WriteAt(states, es, c, i, k + 1, t, msg)
  {
    var s, s', e := states[k], states[k + 1], es[k];
    var sent, done := By(states, es, c, Sent(t), i, k), By(states, es, c, Done(t), i, k);
    StepOf(states, es, k);
    if Takes(s, e, c) {
      OwnStepMoves(s, s', c, t, msg, sent);
      assert done + Done(t)(s, s') == Done(t)(s, s');
    } else {
      OthersStep(states, es, c, k);
      ConfigStays(s, e);
      OthersMoveNothing(s, s', c, t, msg, sent, done);
    }
  }

  /** If the call is well on its way in states[k], so it is one step later. */
  ghost predicate WriteCarries(states: seq<State>, es: seq<Event>, c: Pid, i: nat, k: nat, t: nat, msg: Bytes)
    requires k < |es| < |states|
  {
    WriteAt(states, es, c, i, k, t, msg) ==> WriteAt(states, es, c, i, k + 1, t, msg)
  }

  lemma {:induction false} WriteSoFar(states: seq<State>, es: seq<Event>, c: Pid, i: nat, j: nat, t: nat, msg: Bytes)
    requires i < j <= |es| < |states| && WriteAt(states, es, c, i, i + 1, t, msg)
    requires forall k :: i < k < j ==> WriteCarries(states, es, c, i, k, t, msg)
    ensures WriteAt(states, es, c, i, j, t, msg)
    decreases j
  {
    var n := j - 1;
    if n > i {
      WriteSoFar(states, es, c, i, n, t, msg);
      assert WriteCarries(states, es, c, i, n, t, msg);
    }
    assert n + 1 == j;
  }

  lemma WriteCarriesOn(states: seq<State>, es: seq<Event>, c: Pid, i: nat, j: nat, t: nat, msg: Bytes, k: nat)
    requires CallOf(states, es, c, i, j) && i < k < j
    ensures WriteCarries(states, es, c, i, k, t, msg)
  {
    assert InKernel(states[k], c);
    if WriteAt(states, es, c, i, k, t, msg) { WriteNext(states, es, c, i, k, t, msg); }
  }

  /** A write to a terminal, however long it takes and whoever else writes: when it returns, with 0, what
      its process has transmitted in between is the message it was given, and it counts as done once. */
  lemma WriteSendsItsMessage(states: seq<State>, es: seq<Event>, c: Pid, i: nat, j: nat, t: nat, msg: Bytes)
    requires CallOf(states, es, c, i, j) && es[i] == TtyWrite(t, msg)
    ensures Flat(By(states, es, c, Sent(t), i, j)) == msg && By(states, es, c, Done(t), i, j) == [msg]
    ensures states[j].w.procs[c].rc == 0
  {
    StepOf(states, es, i);
    WriteStarts(states, es, c, i, t, msg);
    forall k | i < k < j ensures WriteCarries(states, es, c, i, k, t, msg) {
      WriteCarriesOn(states, es, c, i, j, t, msg, k);
    }
    WriteSoFar(states, es, c, i, j, t, msg);
  }
}
