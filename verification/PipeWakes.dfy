/**
 * No lost wake-ups on pipes: whoever sleeps on a pipe either could not go on, or somebody who is
 * ready will see to it. No blocked writer's message fits; and where bytes are unread while readers
 * are registered, a reader of that pipe is ready to take them.
 */
module PipeWakes {
  import opened Types
  import opened Kernel
  import opened Placement
  import opened Protocols
  import opened Family
  import opened Invariant
  import opened Exactness
  import opened Runs
  import opened PipeData
  import opened Readers

  ghost predicate Unfit(w: World, p: Pid)
    requires p in w.procs && w.procs[p].resume.PipeWriting?
  {
    var r := w.procs[p].resume;
    r.id in w.pipes && |r.msg| + |w.pipes[r.id].bytes| > w.cfg.pipeLen
  }

  ghost predicate NoWriterFits(w: World) {
    forall p :: Waits(w, p) && w.procs[p].resume.PipeWriting? ==> Unfit(w, p)
  }

  /** p was woken in a read of pipe id and has not gone on yet. */
  ghost predicate AboutToRead(w: World, id: int, p: Pid) {
    && p in w.procs && w.procs[p].state == Ready
    && w.procs[p].resume.PipeReading? && w.procs[p].resume.id == id
  }

  ghost predicate Attended(w: World, id: int)
    requires id in w.pipes
  {
    w.pipes[id].bytes != [] && w.pipes[id].readers != [] ==> exists p :: AboutToRead(w, id, p)
  }

  ghost predicate AllAttended(w: World) {
    forall id :: id in w.pipes ==> Attended(w, id)
  }

  // --------------------------------------------------------- steps without a pipe

  lemma UndisturbedKeepsWriters(w: World, w': World)
    requires NoWriterFits(w) && PipesUndisturbed(w, w')
    ensures NoWriterFits(w')
  {
    forall p | Waits(w', p) && w'.procs[p].resume.PipeWriting? ensures Unfit(w', p) {
      assert Waits(w, p) && Unfit(w, p);
    }
  }

  lemma UndisturbedKeepsAttended(w: World, w': World)
    requires AllAttended(w) && PipesUndisturbed(w, w')
    ensures AllAttended(w')
  {
    forall id | id in w'.pipes ensures Attended(w', id) {
      if id in w.pipes && w.pipes[id].bytes != [] && w.pipes[id].readers != [] {
        assert Attended(w, id);
        var p :| AboutToRead(w, id, p);
        assert AboutToRead(w', id, p);
      }
    }
  }

  // ------------------------------------------------------------------- writers

  /** A write makes the pipe fuller, and a writer blocks only where its message does not fit. */
  lemma WriteKeepsWriters(s: State, c: Pid, id: int, msg: Bytes)
    requires NoWriterFits(s.w) && s.q.current == Some(c) && c in s.w.procs && id in s.w.pipes
    ensures NoWriterFits(PipeWriteLoop(s, c, id, msg).w)
  {
    var w' := PipeWriteLoop(s, c, id, msg).w;
    forall p | Waits(w', p) && w'.procs[p].resume.PipeWriting? ensures Unfit(w', p) {
      if p != c { assert Waits(s.w, p) && Unfit(s.w, p); }
    }
  }

  lemma FirstWriteKeepsWriters(s: State, c: Pid, id: int, msg: Bytes)
    requires NoWriterFits(s.w) && s.q.current == Some(c) && c in s.w.procs && s.w.procs[c].resume == User
    ensures NoWriterFits(PipeWriteStep(s, c, id, msg).w)
  {
    var s' := PipeWriteStep(s, c, id, msg);
    if id !in s.w.pipes || |msg| > s.w.cfg.pipeLen {
      UndisturbedKeepsWriters(s.w, s'.w);
    } else {
      var pipe := s.w.pipes[id];
      var s1 := SetPipe(s, id, pipe.(writers := [c] + pipe.writers));
      assert PipesUndisturbed(s.w, s1.w);
      UndisturbedKeepsWriters(s.w, s1.w);
      WriteKeepsWriters(s, c, id, msg);
      WriteKeepsWriters(s1, c, id, msg);
    }
  }

  /** A read that takes anything wakes every writer of its pipe, and all blocked ones are registered. */
  lemma ReadKeepsWriters(s: State, c: Pid, id: int, len: nat)
    requires NoWriterFits(s.w) && Protocol(s.w) && s.q.current == Some(c) && c in s.w.procs && id in s.w.pipes
    ensures NoWriterFits(PipeReadLoop(s, c, id, len).w)
  {
    var w' := PipeReadLoop(s, c, id, len).w;
    forall p | Waits(w', p) && w'.procs[p].resume.PipeWriting? ensures Unfit(w', p) {
      assert p != c && Waits(s.w, p) && Unfit(s.w, p);
      assert ProcOk(s.w, p);
    }
  }

  lemma FirstReadKeepsWriters(s: State, c: Pid, id: int, len: nat)
    requires NoWriterFits(s.w) && Protocol(s.w) && s.q.current == Some(c) && c in s.w.procs
    ensures NoWriterFits(PipeReadStep(s, c, id, len).w)
  {
    var w' := PipeReadStep(s, c, id, len).w;
    if id in s.w.pipes && s.w.pipes[id].bytes != [] {
      ReadKeepsWriters(s, c, id, len);
    } else {
      forall p | Waits(w', p) && w'.procs[p].resume.PipeWriting? ensures Unfit(w', p) {
        assert p != c && Waits(s.w, p) && Unfit(s.w, p);
      }
    }
  }

  // ------------------------------------------------------------------- readers

  /** The registered readers of a pipe sleep in a read of it. */
  ghost predicate ReadersSleep(w: World) {
    forall id, p :: id in w.pipes && p in w.pipes[id].readers ==>
      Sleeps(w, p) && w.procs[p].resume.id == id
  }

  lemma ProtocolReadersSleep(w: World)
    requires Protocol(w)
    ensures ReadersSleep(w)
  {
    forall id, p | id in w.pipes && p in w.pipes[id].readers ensures Sleeps(w, p) && w.procs[p].resume.id == id {
      assert KeyOk(w, PipeKey(id));
      assert Waits(w, p);
    }
  }

  /** A write readies the first registered reader. */
  lemma WriteKeepsAttended(s: State, c: Pid, id: int, msg: Bytes)
    requires AllAttended(s.w) && ReadersSleep(s.w) && s.q.current == Some(c) && id in s.w.pipes
    requires c in s.w.procs && !s.w.procs[c].resume.PipeReading?
    ensures AllAttended(PipeWriteLoop(s, c, id, msg).w)
  {
    var w', readers := PipeWriteLoop(s, c, id, msg).w, s.w.pipes[id].readers;
    forall j | j in w'.pipes ensures Attended(w', j) {
      assert Attended(s.w, j);
      if j == id && |msg| + |s.w.pipes[id].bytes| <= s.w.cfg.pipeLen {
        if readers != [] {
          assert readers[0] in readers && readers[0] in Take(readers, 1);
          assert AboutToRead(w', id, readers[0]);
        }
      } else if s.w.pipes[j].bytes != [] && s.w.pipes[j].readers != [] {
        var p :| AboutToRead(s.w, j, p);
        assert AboutToRead(w', j, p);
      }
    }
  }

  lemma RegisteringDisturbsNobody(s: State, id: int, writers: seq<Pid>)
    requires ReadersSleep(s.w) && id in s.w.pipes
    ensures var w' := SetPipe(s, id, s.w.pipes[id].(writers := writers)).w;
            PipesUndisturbed(s.w, w') && ReadersSleep(w')
  {
    var w' := SetPipe(s, id, s.w.pipes[id].(writers := writers)).w;
    forall j, p | j in w'.pipes && p in w'.pipes[j].readers ensures Sleeps(w', p) && w'.procs[p].resume.id == j {
      assert p in s.w.pipes[j].readers && Sleeps(s.w, p);
    }
  }

  lemma FirstWriteKeepsAttended(s: State, c: Pid, id: int, msg: Bytes)
    requires AllAttended(s.w) && ReadersSleep(s.w) && s.q.current == Some(c)
    requires c in s.w.procs && s.w.procs[c].resume == User
    ensures AllAttended(PipeWriteStep(s, c, id, msg).w)
  {
    var s' := PipeWriteStep(s, c, id, msg);
    if id !in s.w.pipes || |msg| > s.w.cfg.pipeLen {
      UndisturbedKeepsAttended(s.w, s'.w);
    } else {
      var writers := [c] + s.w.pipes[id].writers;
      var s1 := SetPipe(s, id, s.w.pipes[id].(writers := writers));
      RegisteringDisturbsNobody(s, id, writers);
      UndisturbedKeepsAttended(s.w, s1.w);
      WriteKeepsAttended(s, c, id, msg);
      WriteKeepsAttended(s1, c, id, msg);
      assert s' in {PipeWriteLoop(s, c, id, msg), PipeWriteLoop(s1, c, id, msg)};
    }
  }

  /** A reader that leaves bytes behind readies the next one. */
  lemma ReadKeepsAttended(s: State, c: Pid, id: int, len: nat)
    requires AllAttended(s.w) && ReadersSleep(s.w) && s.q.current == Some(c) && id in s.w.pipes
    requires c in s.w.procs && s.w.procs[c].state == Ready
    requires s.w.procs[c].resume.PipeReading? ==> s.w.procs[c].resume.id == id
    ensures AllAttended(PipeReadLoop(s, c, id, len).w)
  {
    var w', readers := PipeReadLoop(s, c, id, len).w, s.w.pipes[id].readers;
    forall j | j in w'.pipes ensures Attended(w', j) {
      assert Attended(s.w, j);
      if j == id {
        if Drop(s.w.pipes[id].bytes, len) != [] && |readers| > 1 {
          assert readers[0] in readers && readers[1] in readers && readers[0] in Take(readers, 1);
          assert AboutToRead(w', id, readers[0]);
        }
      } else if s.w.pipes[j].bytes != [] && s.w.pipes[j].readers != [] {
        var p :| AboutToRead(s.w, j, p);
        assert AboutToRead(w', j, p);
      }
    }
  }

  lemma FirstReadKeepsAttended(s: State, c: Pid, id: int, len: nat)
    requires AllAttended(s.w) && ReadersSleep(s.w) && s.q.current == Some(c)
    requires c in s.w.procs && s.w.procs[c].resume == User && s.w.procs[c].state == Ready
    ensures AllAttended(PipeReadStep(s, c, id, len).w)
  {
    var w' := PipeReadStep(s, c, id, len).w;
    if id in s.w.pipes && s.w.pipes[id].bytes != [] {
      ReadKeepsAttended(s, c, id, len);
    } else {
      forall j | j in w'.pipes ensures Attended(w', j) {
        assert Attended(s.w, j);
        if w'.pipes[j].bytes != [] && w'.pipes[j].readers != [] {
          var p :| AboutToRead(s.w, j, p);
          assert AboutToRead(w', j, p);
        }
      }
    }
  }

  // ---------------------------------------------------------------- every step

  ghost predicate NoWakeUpLost(w: World) {
    NoWriterFits(w) && AllAttended(w)
  }

  lemma UndisturbedLosesNone(w: World, w': World)
    requires NoWakeUpLost(w) && PipesUndisturbed(w, w')
    ensures NoWakeUpLost(w')
  {
    UndisturbedKeepsWriters(w, w');
    UndisturbedKeepsAttended(w, w');
  }

  lemma ContinueLosesNone(s: State, c: Pid)
    requires NoWakeUpLost(s.w) && Inv(s) && Enabled(s, Continue) && s.q.current == Some(c)
    ensures NoWakeUpLost(ContinueStep(s, c).w)
  {
    var s', r := ContinueStep(s, c), s.w.procs[c].resume;
    ProtocolReadersSleep(s.w);
    if r.PipeReading? {
      ReadKeepsWriters(s, c, r.id, r.len);
      ReadKeepsAttended(s, c, r.id, r.len);
      assert s' == PipeReadLoop(s, c, r.id, r.len);
    } else if r.PipeWriting? {
      WriteKeepsWriters(s, c, r.id, r.msg);
      WriteKeepsAttended(s, c, r.id, r.msg);
      assert s' == PipeWriteLoop(s, c, r.id, r.msg);
    } else {
      ContinueLeavesPipes(s, c);
      UndisturbedLosesNone(s.w, s'.w);
    }
  }

  lemma PipeCallLosesNone(s: State, c: Pid, id: int, msg: Bytes, len: nat)
    requires NoWakeUpLost(s.w) && Protocol(s.w) && s.q.current == Some(c)
    requires c in s.w.procs && s.w.procs[c].resume == User && s.w.procs[c].state == Ready
    ensures NoWakeUpLost(PipeWriteStep(s, c, id, msg).w) && NoWakeUpLost(PipeReadStep(s, c, id, len).w)
  {
    ProtocolReadersSleep(s.w);
    FirstWriteKeepsWriters(s, c, id, msg);
    FirstWriteKeepsAttended(s, c, id, msg);
    FirstReadKeepsWriters(s, c, id, len);
    FirstReadKeepsAttended(s, c, id, len);
  }

  /** Every step the kernel can take, safe or not, loses no wake-up of either kind. */
  lemma StepLosesNone(s: State, e: Event)
    requires Inv(s) && Enabled(s, e) && NoWakeUpLost(s.w)
    ensures NoWakeUpLost(Apply(s, e).w)
  {
    var c, s' := s.q.current.value, Apply(s, e);
    match e
    case PipeWrite(id, msg) =>
      PipeCallLosesNone(s, c, id, msg, 0);
      assert s' == PipeWriteStep(s, c, id, msg);
    case PipeRead(id, len) =>
      PipeCallLosesNone(s, c, id, [], len);
      assert s' == PipeReadStep(s, c, id, len);
    case Continue =>
      ContinueLosesNone(s, c);
      assert s' == ContinueStep(s, c);
    case _ =>
      if FromUser(e) { UserStepsLeavePipes(s, e); } else { TrapsLeavePipes(s, e); }
      UndisturbedLosesNone(s.w, s'.w);
  }

  // ---------------------------------------------------------------------- runs

  /** No safe run from boot ever loses a wake-up. */
  lemma {:induction false} NoneLostThroughout(states: seq<State>, es: seq<Event>, i: nat)
    requires SafeRun(states, es) && Inv(states[0]) && NoWakeUpLost(states[0].w) && i <= |es|
    ensures NoWakeUpLost(states[i].w)
  {
    if i > 0 {
      NoneLostThroughout(states, es, i - 1);
      NoneLostAt(states, es, i - 1);
    }
  }

  lemma NoneLostAt(states: seq<State>, es: seq<Event>, k: nat)
    requires SafeRun(states, es) && Inv(states[0]) && k < |es| && NoWakeUpLost(states[k].w)
    ensures NoWakeUpLost(states[k + 1].w)
  {
    InvThroughout(states, es, k);
    SafeStep(states, es, k);
    StepLosesNone(states[k], es[k]);
    assert states[k + 1] == Apply(states[k], es[k]);
  }

  /** From boot on: a process asleep in a pipe write has a message that does not fit, so its pipe
      holds something; and if a reader of the pipe is registered as well, then another reader is
      ready and will free room. Nobody sleeps on a pipe on which he could go on. */
  lemma PipesNeverStall(cfg: Config, terminals: nat, states: seq<State>, es: seq<Event>, i: nat, p: Pid)
    requires cfg.init != cfg.idle && cfg.maxLine > 0
    requires SafeRun(states, es) && states[0] == Boot(cfg, terminals) && i <= |es|
    requires Waits(states[i].w, p) && states[i].w.procs[p].resume.PipeWriting?
    ensures Unfit(states[i].w, p)
    ensures var pipe := states[i].w.pipes[states[i].w.procs[p].resume.id];
            && pipe.bytes != []
            && (pipe.readers != [] ==>
                  exists reader :: AboutToRead(states[i].w, states[i].w.procs[p].resume.id, reader))
  {
    InvAtBoot(cfg, terminals);
    assert NoWakeUpLost(states[0].w);
    NoneLostThroughout(states, es, i);
    InvThroughout(states, es, i);
    assert Unfit(states[i].w, p) && ProcOk(states[i].w, p);
    assert Attended(states[i].w, states[i].w.procs[p].resume.id);
  }
}
