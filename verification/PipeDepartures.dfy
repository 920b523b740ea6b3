/**
 * Where pipes leave the rails: on any machine running the code as it is, runs from boot after which a
 * writer is in two places at once, or a reader sleeps although there is something to read.
 */
module PipeDepartures {
  import opened Types
  import opened Kernel
  import opened Placement
  import opened Protocols
  import opened Invariant
  import opened Exactness
  import opened Runs
  import opened Readers
  import opened Departures

  // ------------------------------------------------------ a writer queued twice

  lemma MakePipe(s: State) returns (s': State)
    requires WithChildren(s, [], {}) && s.w.pipes == map[] && s.w.nextId == 0
    ensures Next(s, PipeNew, s') && WithChildren(s', [], {}) && s'.w.cfg == s.w.cfg
    ensures s'.w.pipes == map[0 := Pipe([], [], [], [], [])]
  {
    s' := Apply(s, PipeNew);
  }

  /** Pipe 0 holds these bytes, nobody reads, and these processes wait to write. */
  ghost predicate PipeHolds(s: State, bytes: Bytes, writers: seq<Pid>) {
    0 in s.w.pipes && s.w.pipes[0].bytes == bytes && s.w.pipes[0].readers == [] && s.w.pipes[0].writers == writers
  }

  lemma FillPipe(s: State, all: Bytes) returns (s': State)
    requires WithChildren(s, [], {}) && s.w.pipes == map[0 := Pipe([], [], [], [], [])] && |all| == s.w.cfg.pipeLen
    ensures Next(s, PipeWrite(0, all), s') && WithChildren(s', [], {}) && PipeHolds(s', all, [])
    ensures s'.w.cfg == s.w.cfg
  {
    s' := Apply(s, PipeWrite(0, all));
    assert [] + all == all;
    assert MakeReady(s.w.procs, []) == s.w.procs;
  }

  lemma WriterBlocks(s: State, all: Bytes, msg: Bytes) returns (s': State)
    requires WithChildren(s, [2], {2}) && PipeHolds(s, all, []) && 0 < |msg| <= s.w.cfg.pipeLen == |all|
    ensures Next(s, PipeWrite(0, msg), s')
    ensures && s'.w.cfg == s.w.cfg && s'.q.current == Some(2) && s'.q.ready == []
            && 1 in s'.w.procs && 2 in s'.w.procs && s'.w.procs[2].resume == User && PipeHolds(s', all, [1])
  {
    s' := Apply(s, PipeWrite(0, msg));
    assert [1] + s.w.pipes[0].writers == [1];
  }

  lemma ReadOneByte(s: State, bytes: Bytes) returns (s': State)
    requires AsWritten(s.w.cfg) && s.q.current == Some(2) && 1 in s.w.procs && 2 in s.w.procs
    requires s.w.procs[2].resume == User && PipeHolds(s, bytes, [1]) && bytes != []
    ensures Next(s, PipeRead(0, 1), s') && s'.w.cfg == s.w.cfg && s'.q.current == Some(2)
    ensures s'.q.ready == s.q.ready + [1] && 1 in s'.w.procs && 2 in s'.w.procs
    ensures s'.w.procs[2].resume == User && PipeHolds(s', bytes[1..], [1])
  {
    var pipe, rest := s.w.pipes[0], bytes[1..];
    assert Drop(pipe.bytes, 1) == rest;
    assert Take(pipe.readers, if rest != [] then 1 else 0) + pipe.writers == [1];
    assert Drop(pipe.readers, if rest != [] then 1 else 0) == [];
    s' := Apply(s, PipeRead(0, 1));
  }

  lemma ReadyTwice(s: State)
    requires s.q.ready == [1, 1]
    ensures Copies(s.q, 0, 1) >= 2
  {
  }

  lemma TwoReads(s4: State, bytes: Bytes) returns (s5: State, s6: State)
    requires AsWritten(s4.w.cfg) && s4.q.current == Some(2) && s4.q.ready == []
    requires 1 in s4.w.procs && 2 in s4.w.procs && s4.w.procs[2].resume == User
    requires PipeHolds(s4, bytes, [1]) && |bytes| >= 2
    ensures Next(s4, PipeRead(0, 1), s5) && Next(s5, PipeRead(0, 1), s6)
    ensures Copies(s6.q, 0, 1) >= 2 && s6.w.cfg.idle == 0
  {
    s5 := ReadOneByte(s4, bytes);
    s6 := ReadOneByte(s5, bytes[1..]);
    ReadyTwice(s6);
  }

  lemma PipeRun(s0: State, all: Bytes) returns (states: seq<State>, es: seq<Event>)
    requires WithChildren(s0, [], {}) && s0.w.pipes == map[] && s0.w.nextId == 0 && |all| == s0.w.cfg.pipeLen
    ensures es == [PipeNew, PipeWrite(0, all)] && Run(states, es) && states[0] == s0
    ensures WithChildren(states[2], [], {}) && PipeHolds(states[2], all, []) && states[2].w.cfg == s0.w.cfg
  {
    var s1 := MakePipe(s0);
    var s2 := FillPipe(s1, all);
    states, es := [s0, s1, s2], [PipeNew, PipeWrite(0, all)];
    TwoSteps(states, es);
  }

  lemma ForkRun(s: State) returns (states: seq<State>, es: seq<Event>)
    requires WithChildren(s, [], {})
    ensures es == [Fork(2, true)] && Run(states, es) && states[0] == s
    ensures WithChildren(states[1], [2], {2}) && states[1].w.pipes == s.w.pipes && states[1].w.cfg == s.w.cfg
  {
    var s' := NextFork(s, [], {}, 2);
    assert [] + [2] == [2] && {} + {2} == {2};
    states, es := [s, s'], [Fork(2, true)];
    Chain(states, es);
  }

  lemma FirstHalf(s0: State, all: Bytes) returns (states: seq<State>, es: seq<Event>)
    requires WithChildren(s0, [], {}) && s0.w.pipes == map[] && s0.w.nextId == 0 && |all| == s0.w.cfg.pipeLen
    ensures es == [PipeNew, PipeWrite(0, all), Fork(2, true)] && Run(states, es) && states[0] == s0
    ensures WithChildren(states[3], [2], {2}) && PipeHolds(states[3], all, []) && states[3].w.cfg == s0.w.cfg
  {
    var first, es1 := PipeRun(s0, all);
    var second, es2 := ForkRun(first[2]);
    Join(first, es1, second, es2);
    states, es := first + second[1..], es1 + es2;
  }

  lemma SecondHalf(s3: State, all: Bytes, msg: Bytes) returns (states: seq<State>, es: seq<Event>)
    requires WithChildren(s3, [2], {2}) && PipeHolds(s3, all, [])
    requires |all| == s3.w.cfg.pipeLen >= 2 && 0 < |msg| <= |all|
    ensures es == [PipeWrite(0, msg), PipeRead(0, 1), PipeRead(0, 1)]
    ensures Run(states, es) && states[0] == s3
    ensures Copies(states[3].q, 0, 1) >= 2 && states[3].w.cfg.idle == 0
  {
    var s4 := WriterBlocks(s3, all, msg);
    var s5, s6 := TwoReads(s4, all);
    states, es := [s3, s4, s5, s6], [PipeWrite(0, msg), PipeRead(0, 1), PipeRead(0, 1)];
    ThreeSteps(states, es);
  }

  /** A process reads twice from a full pipe before the writer it woke has run: the writer is in the
      ready queue twice. With pipes of one byte the second read would find the pipe empty. */
  lemma SecondReadDoublesWriter(cfg: Config, terminals: nat, all: Bytes, msg: Bytes)
    returns (states: seq<State>, es: seq<Event>)
    requires AsWritten(cfg) && |all| == cfg.pipeLen >= 2 && 0 < |msg| <= cfg.pipeLen
    ensures es == [PipeNew, PipeWrite(0, all), Fork(2, true), PipeWrite(0, msg), PipeRead(0, 1), PipeRead(0, 1)]
    ensures Run(states, es) && states[0] == Boot(cfg, terminals) && Inv(states[0])
    ensures Copies(states[6].q, 0, 1) >= 2 && !Inv(states[6])
  {
    BootState(cfg, terminals);
    var first, es1 := FirstHalf(Boot(cfg, terminals), all);
    var second, es2 := SecondHalf(first[3], all, msg);
    Join(first, es1, second, es2);
    states, es := first + second[1..], es1 + es2;
    NotTwice(states[6], 0, 1);
  }

  // -------------------------------------------------------- a reader forgotten

  /** init, 1, and its child 2, which is in user mode, share pipe 0; no writer is registered. */
  ghost predicate Scene(s: State, current: Pid, ready: seq<Pid>, one: RunState, resume: Resume,
                        bytes: Bytes, readers: seq<Pid>) {
    && AsWritten(s.w.cfg) && s.w.cfg.pipeLen > 0
    && s.q.current == Some(current) && s.q.ready == ready && s.q.delayed == []
    && 1 in s.w.procs && 2 in s.w.procs && s.w.procs[2].state == Ready && s.w.procs[2].resume == User
    && s.w.procs[1].state == one && s.w.procs[1].resume == resume
    && 0 in s.w.pipes && s.w.pipes[0].bytes == bytes
    && s.w.pipes[0].readers == readers && s.w.pipes[0].writers == []
  }

  ghost predicate SafeNext(s: State, e: Event, s': State) {
    Next(s, e, s') && Safe(s, e)
  }

  lemma FirstReaderSleeps(s: State) returns (s': State)
    requires Scene(s, 1, [2], Ready, User, [], [])
    ensures SafeNext(s, PipeRead(0, 1), s') && Scene(s', 2, [], Blocked, PipeReading(0, 1), [], [1])
  {
    s' := Apply(s, PipeRead(0, 1));
    assert [] + [1] == [1];
  }

  lemma WriterWakesIt(s: State, b: Byte) returns (s': State)
    requires Scene(s, 2, [], Blocked, PipeReading(0, 1), [], [1])
    ensures SafeNext(s, PipeWrite(0, [b]), s') && Scene(s', 2, [1], Ready, PipeReading(0, 1), [b], [])
  {
    s' := Apply(s, PipeWrite(0, [b]));
    assert [] + [b] == [b] && Take([1], 1) == [1] && Drop([1], 1) == [] && [] + [1] == [1];
  }

  lemma SecondReaderTakesIt(s: State, b: Byte) returns (s': State)
    requires Scene(s, 2, [1], Ready, PipeReading(0, 1), [b], [])
    ensures SafeNext(s, PipeRead(0, 1), s') && Scene(s', 2, [1], Ready, PipeReading(0, 1), [], [])
    ensures s'.w.procs[2].got == [b]
  {
    s' := Apply(s, PipeRead(0, 1));
    assert Take([b], 1) == [b] && Drop([b], 1) == [] && [1] + [] == [1];
  }

  lemma ClockTurns(s: State) returns (s': State)
    requires Scene(s, 2, [1], Ready, PipeReading(0, 1), [], [])
    ensures SafeNext(s, Clock, s') && Scene(s', 1, [2], Ready, PipeReading(0, 1), [], [])
  {
    s' := Apply(s, Clock);
    assert [1] + [] == [1] && [1][1..] == [] && [] + [2] == [2];
  }

  lemma ReaderSleepsAgain(s: State) returns (s': State)
    requires Scene(s, 1, [2], Ready, PipeReading(0, 1), [], [])
    ensures Enabled(s, Continue) && Oversleeps(s, Continue)
    ensures SafeNext(s, Continue, s') && Scene(s', 2, [], Blocked, PipeReading(0, 1), [], [])
  {
    s' := Apply(s, Continue);
  }

  lemma NextWriteWakesNobody(s: State, b: Byte) returns (s': State)
    requires Scene(s, 2, [], Blocked, PipeReading(0, 1), [], [])
    ensures SafeNext(s, PipeWrite(0, [b]), s') && Scene(s', 2, [], Blocked, PipeReading(0, 1), [b], [])
  {
    s' := Apply(s, PipeWrite(0, [b]));
    assert [] + [b] == [b];
  }

  lemma ThreeSafeSteps(states: seq<State>, es: seq<Event>)
    requires |es| == 3 && |states| == 4
    requires SafeNext(states[0], es[0], states[1]) && SafeNext(states[1], es[1], states[2])
    requires SafeNext(states[2], es[2], states[3])
    ensures SafeRun(states, es)
  {
    ThreeSteps(states, es);
  }

  lemma SafeJoin(states: seq<State>, es: seq<Event>, more: seq<State>, moreEs: seq<Event>)
    requires SafeRun(states, es) && SafeRun(more, moreEs) && states[|es|] == more[0]
    ensures SafeRun(states + more[1..], es + moreEs)
  {
    Join(states, es, more, moreEs);
    var all, allEs := states + more[1..], es + moreEs;
    forall i | 0 <= i < |allEs| ensures SafeAt(all, allEs, i) {
      if i < |es| {
        SafeStep(states, es, i);
      } else {
        SafeStep(more, moreEs, i - |es|);
        assert all[i] == more[i - |es|] && allEs[i] == moreEs[i - |es|];
      }
    }
  }

  lemma MakeBoth(s0: State) returns (s1: State, s2: State)
    requires WithChildren(s0, [], {}) && s0.w.pipes == map[] && s0.w.nextId == 0 && s0.w.cfg.pipeLen > 0
    ensures SafeNext(s0, PipeNew, s1) && SafeNext(s1, Fork(2, true), s2)
    ensures Scene(s2, 1, [2], Ready, User, [], [])
  {
    s1 := MakePipe(s0);
    s2 := ForkBeside(s1);
  }

  lemma ForkBeside(s1: State) returns (s2: State)
    requires WithChildren(s1, [], {}) && s1.w.pipes == map[0 := Pipe([], [], [], [], [])] && s1.w.cfg.pipeLen > 0
    ensures SafeNext(s1, Fork(2, true), s2) && Scene(s2, 1, [2], Ready, User, [], [])
  {
    s2 := NextFork(s1, [], {}, 2);
    assert [] + [2] == [2] && {} + {2} == {2};
  }

  lemma TwoSafeSteps(states: seq<State>, es: seq<Event>)
    requires |es| == 2 && |states| == 3
    requires SafeNext(states[0], es[0], states[1]) && SafeNext(states[1], es[1], states[2])
    ensures SafeRun(states, es)
  {
    TwoSteps(states, es);
  }

  /** init makes a pipe and a child. */
  lemma MakersRun(s0: State) returns (states: seq<State>, es: seq<Event>)
    requires WithChildren(s0, [], {}) && s0.w.pipes == map[] && s0.w.nextId == 0 && s0.w.cfg.pipeLen > 0
    ensures es == [PipeNew, Fork(2, true)] && SafeRun(states, es) && states[0] == s0
    ensures Scene(states[2], 1, [2], Ready, User, [], [])
  {
    var s1, s2 := MakeBoth(s0);
    states, es := [s0, s1, s2], [PipeNew, Fork(2, true)];
    TwoSafeSteps(states, es);
  }

  /** init reads from the empty pipe; the child writes a byte and takes it back. */
  lemma ByteRun(s: State, b: Byte) returns (states: seq<State>, es: seq<Event>)
    requires Scene(s, 1, [2], Ready, User, [], [])
    ensures es == [PipeRead(0, 1), PipeWrite(0, [b]), PipeRead(0, 1)] && SafeRun(states, es) && states[0] == s
    ensures Scene(states[3], 2, [1], Ready, PipeReading(0, 1), [], [])
  {
    var s1 := FirstReaderSleeps(s);
    var s2 := WriterWakesIt(s1, b);
    var s3 := SecondReaderTakesIt(s2, b);
    states, es := [s, s1, s2, s3], [PipeRead(0, 1), PipeWrite(0, [b]), PipeRead(0, 1)];
    ThreeSafeSteps(states, es);
  }

  /** The clock turns to init, which goes back to sleep, and a later write does not wake it. */
  lemma SleepRun(s: State, b: Byte) returns (states: seq<State>, es: seq<Event>)
    requires Scene(s, 2, [1], Ready, PipeReading(0, 1), [], [])
    ensures es == [Clock, Continue, PipeWrite(0, [b])] && SafeRun(states, es) && states[0] == s
    ensures Scene(states[3], 2, [], Blocked, PipeReading(0, 1), [b], [])
  {
    var s1 := ClockTurns(s);
    var s2 := ReaderSleepsAgain(s1);
    var s3 := NextWriteWakesNobody(s2, b);
    states, es := [s, s1, s2, s3], [Clock, Continue, PipeWrite(0, [b])];
    ThreeSafeSteps(states, es);
  }

  /** A woken reader finds that a second one has taken the byte, sleeps again, and sleeps on through a
      later write: there is a byte in the pipe, it is blocked reading, and nobody knows of it. All the
      steps are safe ones. */
  lemma WokenReaderSleepsOn(cfg: Config, terminals: nat, b: Byte) returns (states: seq<State>, es: seq<Event>)
    requires AsWritten(cfg) && cfg.pipeLen > 0
    ensures es == [PipeNew, Fork(2, true)] + [PipeRead(0, 1), PipeWrite(0, [b]), PipeRead(0, 1)]
                + [Clock, Continue, PipeWrite(0, [b])]
    ensures SafeRun(states, es) && states[0] == Boot(cfg, terminals) && Inv(states[0]) && Registered(states[0].w)
    ensures Inv(states[8]) && 0 in states[8].w.pipes && states[8].w.pipes[0].bytes == [b]
    ensures Sleeps(states[8].w, 1) && states[8].w.procs[1].resume.id == 0 && !Registered(states[8].w)
  {
    BootState(cfg, terminals);
    var first, es1 := MakersRun(Boot(cfg, terminals));
    var second, es2 := ByteRun(first[2], b);
    var third, es3 := SleepRun(second[3], b);
    SafeJoin(first, es1, second, es2);
    SafeJoin(first + second[1..], es1 + es2, third, es3);
    states, es := first + second[1..] + third[1..], es1 + es2 + es3;
    InvThroughout(states, es, 8);
    assert states[8] == third[3];
    assert Sleeps(states[8].w, 1) && !IsRegistered(states[8].w, 1);
  }
}
