/** Pipes are byte streams, in every run at all. */
module PipeData {
  import opened Types
  import opened Kernel
  import opened Placement
  import opened Protocols
  import opened Invariant
  import opened Settling
  import opened Kinship
  import opened Exactness
  import opened Runs

  /** Everything written is everything taken followed by what is in the buffer. */
  ghost predicate StreamOk(w: World, id: int)
    requires id in w.pipes
  {
    var pipe := w.pipes[id];
    pipe.written == pipe.taken + pipe.bytes && |pipe.bytes| <= w.cfg.pipeLen
  }

  ghost predicate StreamsOk(w: World) {
    forall id :: id in w.pipes ==> StreamOk(w, id)
  }

  ghost predicate PipesAlone(w: World, w': World) {
    w'.pipes == w.pipes && w'.cfg == w.cfg
  }

  lemma TtyStepsLeavePipes(s: State, c: Pid, t: nat, msg: Bytes, start: nat)
    requires s.q.current == Some(c) && c in s.w.procs && t < |s.w.ttys|
    ensures PipesAlone(s.w, WriteTop(s, c, t, msg).w)
    ensures PipesAlone(s.w, SendFrom(s, c, t, msg, start).w)
  {
  }

  lemma CallsLeavePipes(s: State, e: Event)
    requires Enabled(s, e)
    requires e.Wait? || e.Delay? || e.LockNew? || e.Acquire? || e.Release?
    ensures PipesAlone(s.w, Apply(s, e).w)
  {
  }

  lemma RestLeavePipes(s: State, e: Event)
    requires Enabled(s, e)
    requires e.Fork? || e.Exit? || e.TtyRead? || e.Clock? || e.Transmit? || e.Receive?
    ensures PipesAlone(s.w, Apply(s, e).w)
  {
  }

  lemma PipeLoopsKeepStreams(s: State, c: Pid, id: int, msg: Bytes, len: nat)
    requires s.q.current == Some(c) && c in s.w.procs && id in s.w.pipes && StreamsOk(s.w)
    ensures StreamsOk(PipeWriteLoop(s, c, id, msg).w) && PipeWriteLoop(s, c, id, msg).w.cfg == s.w.cfg
    ensures StreamsOk(PipeReadLoop(s, c, id, len).w) && PipeReadLoop(s, c, id, len).w.cfg == s.w.cfg
  {
    var bytes := s.w.pipes[id].bytes;
    assert bytes == Take(bytes, len) + Drop(bytes, len);
  }

  lemma PipeCallsKeepStreams(s: State, c: Pid, id: int, msg: Bytes, len: nat)
    requires s.q.current == Some(c) && c in s.w.procs && StreamsOk(s.w)
    ensures StreamsOk(PipeWriteStep(s, c, id, msg).w) && PipeWriteStep(s, c, id, msg).w.cfg == s.w.cfg
    ensures StreamsOk(PipeReadStep(s, c, id, len).w) && PipeReadStep(s, c, id, len).w.cfg == s.w.cfg
  {
    if id in s.w.pipes {
      var pipe := s.w.pipes[id];
      PipeLoopsKeepStreams(s, c, id, msg, len);
      PipeLoopsKeepStreams(SetPipe(s, id, pipe.(writers := [c] + pipe.writers)), c, id, msg, len);
      PipeLoopsKeepStreams(SetPipe(s, id, pipe.(readers := pipe.readers + [c])), c, id, msg, len);
    }
  }

  lemma ContinueKeepsStreams(s: State, c: Pid)
    requires s.q.current == Some(c) && c in s.w.procs && Resumable(s.w, s.w.procs[c].resume) && StreamsOk(s.w)
    ensures StreamsOk(ContinueStep(s, c).w) && ContinueStep(s, c).w.cfg == s.w.cfg
  {
    match s.w.procs[c].resume
    case WriteWait(t, msg) => TtyStepsLeavePipes(s, c, t, msg, 0);
    case Sending(t, msg, start) => TtyStepsLeavePipes(s, c, t, msg, start + s.w.cfg.maxLine);
    case PipeReading(id, len) => PipeLoopsKeepStreams(s, c, id, [], len);
    case PipeWriting(id, msg) => PipeLoopsKeepStreams(s, c, id, msg, 0);
    case _ =>
  }

  lemma StepKeepsStreams(s: State, e: Event)
    requires Enabled(s, e) && StreamsOk(s.w)
    ensures StreamsOk(Apply(s, e).w)
  {
    var c := s.q.current.value;
    match e
    case PipeNew =>
    case PipeWrite(id, msg) => PipeCallsKeepStreams(s, c, id, msg, 0);
    case PipeRead(id, len) => PipeCallsKeepStreams(s, c, id, [], len);
    case TtyWrite(t, msg) => TtyStepsLeavePipes(s, c, t, msg, 0);
    case Continue => ContinueKeepsStreams(s, c);
    case Fork(_, _) => RestLeavePipes(s, e);
    case Exit(_) => RestLeavePipes(s, e);
    case TtyRead(_, _) => RestLeavePipes(s, e);
    case Clock => RestLeavePipes(s, e);
    case Transmit(_) => RestLeavePipes(s, e);
    case Receive(_, _) => RestLeavePipes(s, e);
    case _ => CallsLeavePipes(s, e);
  }

  /** Over any run, safe or not, a pipe delivers the bytes written to it, in order,
      without loss, and never holds more than PIPE_BUFFER_LEN of them. */
  lemma {:induction false} PipesAreStreams(states: seq<State>, es: seq<Event>, i: nat, id: int)
    requires Run(states, es) && StreamsOk(states[0].w) && i <= |es|
    ensures StreamsOk(states[i].w)
    ensures id in states[i].w.pipes ==> StreamOk(states[i].w, id)
  {
    if i > 0 {
      PipesAreStreams(states, es, i - 1, id);
      RunStep(states, es, i - 1);
      StepKeepsStreams(states[i - 1], es[i - 1]);
    }
  }

  /** What a read hands over is what leaves the front of the buffer, and a write that
      does not block appends its whole message at once. */
  lemma ReadsAndWritesMoveWholeMessages(s: State, id: int, msg: Bytes, len: nat)
    requires Inv(s) && FromUserMode(s) && id in s.w.pipes && StreamOk(s.w, id)
    ensures var c, pipe := s.q.current.value, s.w.pipes[id];
            && (pipe.bytes != [] ==>
                  var s' := PipeReadStep(s, c, id, len);
                  && s'.w.procs[c].got + s'.w.pipes[id].bytes == pipe.bytes
                  && |s'.w.procs[c].got| == Min(len, |pipe.bytes|))
            && (|msg| + |pipe.bytes| <= s.w.cfg.pipeLen ==>
                  PipeWriteStep(s, c, id, msg).w.pipes[id].bytes == pipe.bytes + msg)
  {
    var bytes := s.w.pipes[id].bytes;
    assert bytes == Take(bytes, len) + Drop(bytes, len);
  }

  ghost predicate FromUserMode(s: State) {
    s.q.current.Some? && s.q.current.value in s.w.procs && s.w.procs[s.q.current.value].resume == User
  }
}
