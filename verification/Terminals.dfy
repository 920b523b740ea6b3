/** Terminal output and input, in every state the kernel can reach safely. */
module Terminals {
  import opened Types
  import opened Kernel
  import opened Placement
  import opened Protocols
  import opened Family
  import opened Invariant
  import opened Settling
  import opened Kinship
  import opened Exactness
  import opened Runs

  /** The part of the current writer's message that has been handed to terminal t. */
  ghost function InProgress(w: World, t: nat): Bytes
    requires t < |w.ttys|
  {
    match w.ttys[t].writer
    case None => []
    case Some(p) =>
      if p in w.procs && w.procs[p].resume.Sending?
      then Take(w.procs[p].resume.msg, w.procs[p].resume.start + w.cfg.maxLine) else []
  }

  /** However writers interleave, what a terminal has been sent is whole messages
      followed by a prefix of the current writer's message, in chunks of at most
      TERMINAL_MAX_LINE bytes. */
  lemma OutputIsWholeMessages(states: seq<State>, es: seq<Event>, i: nat, t: nat)
    requires SafeRun(states, es) && Inv(states[0]) && i <= |es| && t < |states[i].w.ttys|
    ensures var tty := states[i].w.ttys[t];
            && Flat(tty.sent) == Flat(tty.done) + InProgress(states[i].w, t)
            && (forall j :: 0 <= j < |tty.sent| ==> 0 < |tty.sent[j]| <= states[i].w.cfg.maxLine)
            && (tty.available <==> tty.writer.None?)
  {
    InvThroughout(states, es, i);
    assert KeyOk(states[i].w, TtyKey(t));
  }

  /** At most one process is between the first and the last chunk on a terminal. */
  lemma OneSender(s: State, t: nat, p: Pid, q: Pid)
    requires Inv(s) && Alive(s.w.procs, p) && Alive(s.w.procs, q)
    requires s.w.procs[p].resume.Sending? && s.w.procs[p].resume.t == t
    requires s.w.procs[q].resume.Sending? && s.w.procs[q].resume.t == t
    ensures p == q && t < |s.w.ttys| && s.w.ttys[t].writer == Some(p)
  {
    assert ProcOk(s.w, p) && ProcOk(s.w, q);
  }

  /** A message is recorded as done only once every byte of it has gone out; nothing
      that was sent or done is ever taken back. */
  lemma FinishedMeansSent(s: State, c: Pid, t: nat, msg: Bytes, last: nat)
    requires Inv(s) && t < |s.w.ttys| && s.q.current == Some(c) && s.w.procs[c].resume == Sending(t, msg, last)
    ensures ProgressFrom(s, c, t, msg, last + s.w.cfg.maxLine)
  {
    SenderMaySend(s, c, t, msg, last);
    SentUpTo(s.w, c, t, msg, last + s.w.cfg.maxLine);
    GrowsByOneChunk(s, c, t, msg, last + s.w.cfg.maxLine);
  }

  lemma SenderMaySend(s: State, c: Pid, t: nat, msg: Bytes, last: nat)
    requires Inv(s) && t < |s.w.ttys| && s.q.current == Some(c) && s.w.procs[c].resume == Sending(t, msg, last)
    ensures Protocol(s.w) && MaySend(s.w, c, t, msg, last + s.w.cfg.maxLine)
  {
  }

  ghost predicate ProgressFrom(s: State, c: Pid, t: nat, msg: Bytes, start: nat)
    requires s.q.current == Some(c) && c in s.w.procs && t < |s.w.ttys|
  {
    var tty, tty' := s.w.ttys[t], SendFrom(s, c, t, msg, start).w.ttys[t];
    if start >= |msg|
    then tty'.done == tty.done + [msg] && tty'.sent == tty.sent && Flat(tty.sent) == Flat(tty.done) + msg
    else tty'.done == tty.done && tty.sent <= tty'.sent
         && Flat(tty'.sent) == Flat(tty.done) + Take(msg, start + s.w.cfg.maxLine)
  }

  lemma SentChunk(s: State, c: Pid, t: nat, msg: Bytes, start: nat)
    requires s.q.current == Some(c) && c in s.w.procs && t < |s.w.ttys|
    ensures var tty, tty' := s.w.ttys[t], SendFrom(s, c, t, msg, start).w.ttys[t];
            if start >= |msg| then tty'.done == tty.done + [msg] && tty'.sent == tty.sent
            else tty'.done == tty.done && tty'.sent == tty.sent + [Take(msg[start..], s.w.cfg.maxLine)]
  {
  }

  lemma GrowsByOneChunk(s: State, c: Pid, t: nat, msg: Bytes, start: nat)
    requires s.q.current == Some(c) && c in s.w.procs && t < |s.w.ttys|
    requires Flat(s.w.ttys[t].sent) == Flat(s.w.ttys[t].done) + Take(msg, start)
    ensures ProgressFrom(s, c, t, msg, start)
  {
    SentChunk(s, c, t, msg, start);
    if start < |msg| {
      OneMoreChunk(s.w.ttys[t].sent, s.w.ttys[t].done, msg, start, s.w.cfg.maxLine);
    }
  }

  /** No lost wake-up: while writers queue for a terminal, either somebody holds it or
      a writer taken off the queue is about to look again. */
  lemma NoLostWakeUp(s: State, t: nat)
    requires Inv(s) && t < |s.w.ttys| && s.w.ttys[t].writeQueue != []
    ensures || s.w.ttys[t].writer.Some?
            || (exists p: Pid :: Rechecks(s.w, t, p) && (p in s.q.ready || s.q.current == Some(p)))
    ensures Distinct(s.w.ttys[t].writeQueue)
    ensures forall p :: p in s.w.ttys[t].writeQueue ==> p in s.q.blocked
  {
    assert KeyOk(s.w, TtyKey(t));
    forall p | p in s.w.ttys[t].writeQueue ensures p in s.q.blocked {
      assert Waits(s.w, p);
      PlaceOf(s.q, s.w.procs, s.w.cfg.idle, p);
    }
    if s.w.ttys[t].writer.None? {
      var p: Pid :| Rechecks(s.w, t, p);
      if s.q.current != Some(p) { PlaceOf(s.q, s.w.procs, s.w.cfg.idle, p); }
    }
  }

  // ----------------------------------------------------------------- input

  lemma {:induction false} LongestCovers(requests: seq<nat>, n: nat)
    ensures forall k :: 0 <= k < |requests| ==> Min(requests[k], n) <= Longest(requests, n)
    ensures requests == [] ==> Longest(requests, n) == 0
    ensures requests != [] ==> exists k :: 0 <= k < |requests| && Longest(requests, n) == Min(requests[k], n)
  {
    if requests != [] {
      var last := |requests| - 1;
      LongestCovers(requests[..last], n);
      if Longest(requests, n) != Min(requests[last], n) {
        var k :| 0 <= k < last && Longest(requests[..last], n) == Min(requests[..last][k], n);
        assert Longest(requests, n) == Min(requests[k], n);
      }
    }
  }

  /** A received line goes to every waiting reader, each getting the prefix it asked
      for and being made ready; the terminal keeps exactly what lies beyond the longest
      of these prefixes. Waiting readers mean there was nothing unread before. */
  lemma LineFansOut(s: State, t: nat, line: Bytes)
    requires Inv(s) && t < |s.w.ttys| && 1 <= |line| <= s.w.cfg.maxLine
    ensures var readers := s.w.ttys[t].readers;
            var s' := ReceiveStep(s, t, line);
            && (readers != [] ==> s.w.ttys[t].unread == [])
            && (forall p :: p in readers ==>
                  && p in s'.q.ready && p in s.w.procs && p in s'.w.procs
                  && s.w.procs[p].resume.ReadWait?
                  && s'.w.procs[p].line == Take(line, s.w.procs[p].resume.len))
            && s'.w.ttys[t].readers == []
            && s'.w.ttys[t].unread == Drop(line, Longest(Requests(s.w.procs, readers), |line|))
  {
    assert KeyOk(s.w, TtyKey(t));
    forall p | p in s.w.ttys[t].readers ensures p in s.w.procs && s.w.procs[p].resume.ReadWait? {
      assert Waits(s.w, p);
    }
  }

  // ------------------------------------------- reads between two received lines

  /** Nothing happens to what is unread on any terminal. */
  ghost predicate UnreadAlone(w: World, w': World) {
    |w'.ttys| == |w.ttys| && w'.cfg == w.cfg
    && forall t :: 0 <= t < |w.ttys| ==> w'.ttys[t].unread == w.ttys[t].unread
  }

  lemma SendingLeavesUnread(s: State, c: Pid, t: nat, msg: Bytes, start: nat)
    requires s.q.current == Some(c) && c in s.w.procs && t < |s.w.ttys|
    ensures UnreadAlone(s.w, SendFrom(s, c, t, msg, start).w)
  {
  }

  lemma WritingLeavesUnread(s: State, c: Pid, t: nat, msg: Bytes)
    requires s.q.current == Some(c) && c in s.w.procs && t < |s.w.ttys|
    ensures UnreadAlone(s.w, WriteTop(s, c, t, msg).w)
  {
    if s.w.ttys[t].available {
      var s1 := SetTty(s, t, s.w.ttys[t].(available := false, writer := Some(c)));
      assert WriteTop(s, c, t, msg) == SendFrom(s1, c, t, msg, 0);
      SendingLeavesUnread(s1, c, t, msg, 0);
    }
  }

  lemma PipesLeaveUnread(s: State, c: Pid, id: int, msg: Bytes, len: nat)
    requires s.q.current == Some(c) && c in s.w.procs
    ensures UnreadAlone(s.w, PipeWriteStep(s, c, id, msg).w)
    ensures UnreadAlone(s.w, PipeReadStep(s, c, id, len).w)
    ensures id in s.w.pipes ==> UnreadAlone(s.w, PipeWriteLoop(s, c, id, msg).w)
    ensures id in s.w.pipes ==> UnreadAlone(s.w, PipeReadLoop(s, c, id, len).w)
  {
  }

  lemma ContinueLeavesUnread(s: State, c: Pid)
    requires s.q.current == Some(c) && c in s.w.procs && Resumable(s.w, s.w.procs[c].resume)
    ensures UnreadAlone(s.w, ContinueStep(s, c).w)
  {
    match s.w.procs[c].resume
    case WriteWait(t, msg) => WritingLeavesUnread(s, c, t, msg);
    case Sending(t, msg, start) => SendingLeavesUnread(s, c, t, msg, start + s.w.cfg.maxLine);
    case PipeReading(id, len) => PipesLeaveUnread(s, c, id, [], len);
    case PipeWriting(id, msg) => PipesLeaveUnread(s, c, id, msg, 0);
    case _ =>
  }

  lemma ExitLeavesUnread(s: State, e: Event)
    requires Enabled(s, e) && e.Exit?
    ensures UnreadAlone(s.w, Apply(s, e).w)
  {
  }

  lemma QuietStepsLeaveUnread(s: State, e: Event)
    requires Enabled(s, e)
    requires e.Fork? || e.Wait? || e.Delay? || e.LockNew? || e.PipeNew? || e.Clock? || e.Transmit?
    ensures UnreadAlone(s.w, Apply(s, e).w)
  {
  }

  lemma LockCallsLeaveUnread(s: State, e: Event)
    requires Enabled(s, e) && (e.Acquire? || e.Release?)
    ensures UnreadAlone(s.w, Apply(s, e).w)
  {
  }

  lemma OthersLeaveUnread(s: State, e: Event)
    requires Enabled(s, e) && !e.TtyRead? && !e.Receive?
    ensures UnreadAlone(s.w, Apply(s, e).w)
  {
    var c := s.q.current.value;
    match e
    case PipeWrite(id, msg) => PipesLeaveUnread(s, c, id, msg, 0);
    case PipeRead(id, len) => PipesLeaveUnread(s, c, id, [], len);
    case TtyWrite(t, msg) => WritingLeavesUnread(s, c, t, msg);
    case Continue => ContinueLeavesUnread(s, c);
    case Exit(_) => ExitLeavesUnread(s, e);
    case Acquire(_) => LockCallsLeaveUnread(s, e);
    case Release(_) => LockCallsLeaveUnread(s, e);
    case _ => QuietStepsLeaveUnread(s, e);
  }

  /** What step e hands to a process from what is unread on terminal t: only a read of t in range does. */
  ghost function Handed(s: State, e: Event, t: nat): Bytes
    requires Enabled(s, e) && t < |s.w.ttys|
  {
    if e.TtyRead? && e.t == t && InRange(s.w, e.len) && s.w.ttys[t].unread != []
    then Apply(s, e).w.procs[s.q.current.value].got
    else []
  }

  /** Whatever a step hands over is the front of what was unread, and the rest stays. */
  lemma StepHandsOver(s: State, e: Event, t: nat)
    requires Enabled(s, e) && t < |s.w.ttys| && !(e.Receive? && e.t == t)
    ensures t < |Apply(s, e).w.ttys|
    ensures Handed(s, e, t) + Apply(s, e).w.ttys[t].unread == s.w.ttys[t].unread
  {
    if e.TtyRead? {
      ReadHandsOver(s, s.q.current.value, e.t, e.len, t);
      assert Apply(s, e) == ReadStep(s, s.q.current.value, e.t, e.len);
    } else if e.Receive? {
      OtherTerminalsKeep(s, e.t, e.line, t);
    } else {
      OthersLeaveUnread(s, e);
    }
  }

  lemma ReadHandsOver(s: State, c: Pid, t: nat, len: nat, u: nat)
    requires s.q.current == Some(c) && c in s.w.procs && t < |s.w.ttys| && u < |s.w.ttys|
    ensures var s' := ReadStep(s, c, t, len);
            && |s'.w.ttys| == |s.w.ttys|
            && if u == t && InRange(s.w, len) && s.w.ttys[t].unread != []
               then c in s'.w.procs && s'.w.procs[c].got + s'.w.ttys[t].unread == s.w.ttys[t].unread
                    && |s'.w.procs[c].got| == Min(len, |s.w.ttys[t].unread|)
               else s'.w.ttys[u].unread == s.w.ttys[u].unread
  {
    assert s.w.ttys[t].unread == Take(s.w.ttys[t].unread, len) + Drop(s.w.ttys[t].unread, len);
  }

  lemma OtherTerminalsKeep(s: State, t: nat, line: Bytes, u: nat)
    requires t < |s.w.ttys| && u < |s.w.ttys| && u != t
    ensures |ReceiveStep(s, t, line).w.ttys| == |s.w.ttys|
    ensures ReceiveStep(s, t, line).w.ttys[u].unread == s.w.ttys[u].unread
  {
  }

  /** No step adds or removes a terminal. */
  lemma TerminalsStay(s: State, e: Event)
    requires Enabled(s, e)
    ensures |Apply(s, e).w.ttys| == |s.w.ttys|
  {
    if e.TtyRead? {
      assert Apply(s, e) == ReadStep(s, s.q.current.value, e.t, e.len);
    } else if e.Receive? {
      assert Apply(s, e) == ReceiveStep(s, e.t, e.line);
    } else {
      OthersLeaveUnread(s, e);
    }
  }

  lemma {:induction false} TerminalsInRun(states: seq<State>, es: seq<Event>, i: nat)
    requires Run(states, es) && i <= |es|
    ensures |states[i].w.ttys| == |states[0].w.ttys|
  {
    if i > 0 {
      TerminalsInRun(states, es, i - 1);
      RunStep(states, es, i - 1);
      TerminalsStay(states[i - 1], es[i - 1]);
    }
  }

  /** No line comes for terminal t in the steps from i to j. */
  ghost predicate NoLine(es: seq<Event>, t: nat, i: nat, j: nat)
    requires j <= |es|
  {
    forall k :: i <= k < j ==> !(es[k].Receive? && es[k].t == t)
  }

  ghost function HandedAt(states: seq<State>, es: seq<Event>, t: nat, k: nat): Bytes
    requires Run(states, es) && k < |es| && t < |states[0].w.ttys|
  {
    TerminalsInRun(states, es, k);
    RunStep(states, es, k);
    Handed(states[k], es[k], t)
  }

  ghost function UnreadAt(states: seq<State>, es: seq<Event>, t: nat, k: nat): Bytes
    requires Run(states, es) && k <= |es| && t < |states[0].w.ttys|
  {
    TerminalsInRun(states, es, k);
    states[k].w.ttys[t].unread
  }

  lemma HandedOverAt(states: seq<State>, es: seq<Event>, t: nat, k: nat)
    requires Run(states, es) && k < |es| && t < |states[0].w.ttys| && !(es[k].Receive? && es[k].t == t)
    ensures HandedAt(states, es, t, k) + UnreadAt(states, es, t, k + 1) == UnreadAt(states, es, t, k)
  {
    TerminalsInRun(states, es, k);
    RunStep(states, es, k);
    StepHandsOver(states[k], es[k], t);
  }

  /** What the reads of terminal t got in the steps from i to j, one piece a step. */
  ghost function HandedIn(states: seq<State>, es: seq<Event>, t: nat, i: nat, j: nat): (pieces: seq<Bytes>)
    requires Run(states, es) && i <= j <= |es| && t < |states[0].w.ttys|
    ensures |pieces| == j - i
  {
    seq(j - i, k requires 0 <= k < j - i => HandedAt(states, es, t, i + k))
  }

  ghost predicate Peels(pieces: seq<Bytes>, unread: seq<Bytes>, k: nat)
    requires k < |pieces| && |unread| == |pieces| + 1
  {
    pieces[k] + unread[k + 1] == unread[k]
  }

  lemma {:induction false} PeelsAdd(pieces: seq<Bytes>, unread: seq<Bytes>)
    requires |unread| == |pieces| + 1 && forall k :: 0 <= k < |pieces| ==> Peels(pieces, unread, k)
    ensures Flat(pieces) + unread[|pieces|] == unread[0]
  {
    if pieces != [] {
      var n := |pieces| - 1;
      var init, before := pieces[..n], unread[..n + 1];
      forall k | 0 <= k < n ensures Peels(init, before, k) {
        assert Peels(pieces, unread, k);
      }
      PeelsAdd(init, before);
      assert Peels(pieces, unread, n);
      assert Flat(pieces) + unread[n + 1] == Flat(init) + (pieces[n] + unread[n + 1]);
    }
  }

  /** Between two lines for a terminal, over any run, the reads get consecutive pieces of what the first one
      left: put together, and followed by what is unread at the end, they are that. */
  lemma ReadsRebuildTheLine(states: seq<State>, es: seq<Event>, t: nat, i: nat, j: nat)
    requires Run(states, es) && i <= j <= |es| && t < |states[0].w.ttys| && NoLine(es, t, i, j)
    ensures Flat(HandedIn(states, es, t, i, j)) + UnreadAt(states, es, t, j) == UnreadAt(states, es, t, i)
  {
    var pieces := HandedIn(states, es, t, i, j);
    var unread := seq(j - i + 1, k requires 0 <= k <= j - i => UnreadAt(states, es, t, i + k));
    forall k | 0 <= k < j - i ensures Peels(pieces, unread, k) {
      HandedOverAt(states, es, t, i + k);
    }
    PeelsAdd(pieces, unread);
  }
}
