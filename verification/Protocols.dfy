/**
 * What the blocking protocols keep. Every clause is about control blocks and
 * objects only, so the scheduler cannot disturb it.
 */
module Protocols {
  import opened Types
  import opened Kernel

  /** What is known of a live process from the place where it will resume. */
  ghost predicate ProcOk(w: World, p: Pid)
    requires p in w.procs
  {
    && ResumeOk(w, p)
    && (w.cfg.clears && w.procs[p].waiting ==> w.procs[p].state == Blocked && w.procs[p].resume == WaitLoop)
  }

  ghost predicate ResumeOk(w: World, p: Pid)
    requires p in w.procs
  {
    var pcb := w.procs[p];
    match pcb.resume
    case User => pcb.state != Blocked
    case WaitLoop => pcb.state == Ready || pcb.state == Blocked
    case LockWait(id) =>
      && id in w.locks
      && (|| (pcb.state == Blocked && p in w.locks[id].waiters)
          || (pcb.state == Ready && w.locks[id].owner == p))
    case WriteWait(t, msg) =>
      && t < |w.ttys|
      && (pcb.state == Ready || (pcb.state == Blocked && p in w.ttys[t].writeQueue))
    case Sending(t, msg, start) =>
      && t < |w.ttys| && start < |msg|
      && w.ttys[t].writer == Some(p)
      && pcb.state == (if w.ttys[t].pending then Blocked else Ready)
    case ReadWait(t, len) =>
      && t < |w.ttys|
      && (pcb.state == Ready || (pcb.state == Blocked && p in w.ttys[t].readers))
    case PipeReading(id, len) =>
      id in w.pipes && (pcb.state == Ready || pcb.state == Blocked)
    case PipeWriting(id, msg) =>
      && id in w.pipes && (pcb.state == Ready || pcb.state == Blocked)
      && |msg| <= w.cfg.pipeLen && p in w.pipes[id].writers
  }

  ghost predicate Waits(w: World, p: Pid) {
    p in w.procs && w.procs[p].state == Blocked
  }

  ghost predicate LockOk(w: World, id: int)
    requires id in w.locks
  {
    var lock := w.locks[id];
    && Distinct(lock.waiters)
    && (forall p :: p in lock.waiters ==> Waits(w, p) && w.procs[p].resume == LockWait(id) && p != lock.owner)
    && (lock.owner == UNLOCKED ==> lock.waiters == [])
  }

  /** The bytes of msg handed over once the chunk at start has been transmitted. */
  function SentSoFar(msg: Bytes, start: nat, maxLine: nat): Bytes {
    Take(msg, start + maxLine)
  }

  ghost predicate WriterOk(w: World, t: nat)
    requires t < |w.ttys|
  {
    var tty := w.ttys[t];
    match tty.writer
    case None => tty.available && !tty.pending && Flat(tty.sent) == Flat(tty.done)
    case Some(p) =>
      && !tty.available
      && Alive(w.procs, p)
      && w.procs[p].resume.Sending? && w.procs[p].resume.t == t
      && Flat(tty.sent) == Flat(tty.done)
           + SentSoFar(w.procs[p].resume.msg, w.procs[p].resume.start, w.cfg.maxLine)
  }

  ghost predicate QueuesOk(w: World, t: nat)
    requires t < |w.ttys|
  {
    var tty := w.ttys[t];
    && Distinct(tty.writeQueue) && Distinct(tty.readers)
    && (forall p :: p in tty.writeQueue ==>
          Waits(w, p) && w.procs[p].resume.WriteWait? && w.procs[p].resume.t == t)
    && (forall p :: p in tty.readers ==>
          Waits(w, p) && w.procs[p].resume.ReadWait? && w.procs[p].resume.t == t)
  }

  ghost predicate TtyOk(w: World, t: nat)
    requires t < |w.ttys|
  {
    var tty := w.ttys[t];
    && WriterOk(w, t) && QueuesOk(w, t)
    && (tty.readers != [] ==> tty.unread == [])
    && (forall i :: 0 <= i < |tty.sent| ==> 0 < |tty.sent[i]| <= w.cfg.maxLine)
  }

  /** p was taken off a write queue and is going to look at the terminal again. */
  ghost predicate Rechecks(w: World, t: nat, p: Pid) {
    && p in w.procs && w.procs[p].state == Ready
    && w.procs[p].resume.WriteWait? && w.procs[p].resume.t == t
  }

  ghost predicate NoLostWriter(w: World, t: nat)
    requires t < |w.ttys|
  {
    w.ttys[t].writeQueue != [] && w.ttys[t].available ==> exists p :: Rechecks(w, t, p)
  }

  ghost predicate PipeOk(w: World, id: int)
    requires id in w.pipes
  {
    var pipe := w.pipes[id];
    && Distinct(pipe.readers) && Distinct(pipe.writers)
    && (forall p :: p in pipe.readers ==>
          Waits(w, p) && w.procs[p].resume.PipeReading? && w.procs[p].resume.id == id)
    && (forall p :: p in pipe.writers ==>
          Alive(w.procs, p) && w.procs[p].resume.PipeWriting? && w.procs[p].resume.id == id)
  }

  /** The object a process deals with, if any. */
  datatype Key = Nothing | LockKey(id: int) | PipeKey(id: int) | TtyKey(t: nat)

  function KeyOf(r: Resume): Key {
    match r
    case User => Nothing
    case WaitLoop => Nothing
    case LockWait(id) => LockKey(id)
    case WriteWait(t, _) => TtyKey(t)
    case Sending(t, _, _) => TtyKey(t)
    case ReadWait(t, _) => TtyKey(t)
    case PipeReading(id, _) => PipeKey(id)
    case PipeWriting(id, _) => PipeKey(id)
  }

  ghost predicate KeyOk(w: World, k: Key) {
    match k
    case Nothing => true
    case LockKey(id) => id in w.locks ==> id < w.nextId && LockOk(w, id)
    case PipeKey(id) => id in w.pipes ==> id < w.nextId && PipeOk(w, id)
    case TtyKey(t) => t < |w.ttys| ==> TtyOk(w, t) && NoLostWriter(w, t)
  }

  ghost predicate Protocol(w: World) {
    && w.cfg.maxLine > 0
    && (forall p :: Alive(w.procs, p) ==> ProcOk(w, p))
    && (forall k :: KeyOk(w, k))
  }

  // ------------------------------------------------------------- framing

  ghost predicate SameObject(w: World, w': World, k: Key) {
    match k
    case Nothing => true
    case LockKey(id) => (id in w.locks <==> id in w'.locks) && (id in w.locks ==> w.locks[id] == w'.locks[id])
    case PipeKey(id) => (id in w.pipes <==> id in w'.pipes) && (id in w.pipes ==> w.pipes[id] == w'.pipes[id])
    case TtyKey(t) => t < |w.ttys| ==> t < |w'.ttys| && w.ttys[t] == w'.ttys[t]
  }

  ghost predicate SameProc(w: World, w': World, p: Pid) {
    && (p in w.procs <==> p in w'.procs)
    && (p in w.procs ==>
          && w.procs[p].state == w'.procs[p].state && w.procs[p].resume == w'.procs[p].resume
          && w.procs[p].waiting == w'.procs[p].waiting)
  }

  /** A step on object k by the processes in touched leaves every other object alone. */
  ghost predicate OnlyTouches(w: World, w': World, touched: set<Pid>, k: Key) {
    && w.cfg == w'.cfg && w.nextId <= w'.nextId && |w.ttys| == |w'.ttys|
    && (forall j :: j != k ==> SameObject(w, w', j))
    && (forall p :: p !in touched ==> SameProc(w, w', p))
    && (forall p :: p in touched && Alive(w.procs, p) ==>
          KeyOf(w.procs[p].resume) == Nothing || KeyOf(w.procs[p].resume) == k)
  }

  lemma OtherObjectsOk(w: World, w': World, touched: set<Pid>, k: Key, j: Key)
    requires Protocol(w) && OnlyTouches(w, w', touched, k) && j != k
    ensures KeyOk(w', j)
  {
    assert KeyOk(w, j) && SameObject(w, w', j);
    match j
    case Nothing =>
    case LockKey(id) => if id in w.locks { SameWaiters(w, w', touched, k, j, w.locks[id].waiters); }
    case PipeKey(id) =>
      if id in w.pipes {
        SameWaiters(w, w', touched, k, j, w.pipes[id].readers);
        SameWaiters(w, w', touched, k, j, w.pipes[id].writers);
      }
    case TtyKey(t) => if t < |w.ttys| { OtherTerminalsOk(w, w', touched, k, t); }
  }

  lemma OtherTerminalsOk(w: World, w': World, touched: set<Pid>, k: Key, t: nat)
    requires Protocol(w) && OnlyTouches(w, w', touched, k) && TtyKey(t) != k && t < |w.ttys|
    ensures KeyOk(w', TtyKey(t))
  {
    var j, tty := TtyKey(t), w.ttys[t];
    assert KeyOk(w, j) && SameObject(w, w', j);
    SameWaiters(w, w', touched, k, j, tty.writeQueue);
    SameWaiters(w, w', touched, k, j, tty.readers);
    if tty.writer.Some? { SameWaiters(w, w', touched, k, j, [tty.writer.value]); }
    if tty.writeQueue != [] && tty.available {
      var p :| Rechecks(w, t, p);
      SameWaiters(w, w', touched, k, j, [p]);
      assert Rechecks(w', t, p);
    }
  }

  lemma SameWaiters(w: World, w': World, touched: set<Pid>, k: Key, j: Key, ps: seq<Pid>)
    requires OnlyTouches(w, w', touched, k) && j != k && j != Nothing
    requires forall p :: p in ps ==> Alive(w.procs, p) && KeyOf(w.procs[p].resume) == j
    ensures forall p :: p in ps ==> SameProc(w, w', p)
  {
  }

  ghost predicate DealsWith(w: World, p: Pid, k: Key) {
    k != Nothing && p in w.procs && KeyOf(w.procs[p].resume) == k
  }

  /** So only object k and the processes that deal with it need a proof. */
  lemma Frame(w: World, w': World, touched: set<Pid>, k: Key)
    requires Protocol(w) && OnlyTouches(w, w', touched, k)
    requires KeyOk(w, k) ==> KeyOk(w', k)
    requires forall p :: Alive(w'.procs, p) && (p in touched || DealsWith(w', p, k)) ==>
               (Alive(w.procs, p) ==> ProcOk(w, p)) ==> ProcOk(w', p)
    ensures Protocol(w')
  {
    forall j ensures KeyOk(w', j) {
      assert KeyOk(w, k);
      if j != k { OtherObjectsOk(w, w', touched, k, j); }
    }
    forall p | Alive(w'.procs, p) ensures ProcOk(w', p) {
      if p !in touched && !DealsWith(w', p, k) {
        assert SameProc(w, w', p) && SameObject(w, w', KeyOf(w.procs[p].resume));
        assert ProcOk(w, p);
      }
    }
  }

  /** A process that deals with no object before or after disturbs nothing. */
  lemma QuietStep(w: World, w': World, c: Pid)
    requires Protocol(w) && OnlyTouches(w, w', {c}, Nothing) && c in w'.procs
    requires || (w'.procs[c].resume == User && w'.procs[c].state != Blocked)
             || (w'.procs[c].resume == WaitLoop && w'.procs[c].state == Blocked)
    requires c in w.procs && w.procs[c].state == Ready
    requires w'.procs[c].waiting == w.procs[c].waiting || w'.procs[c].resume == WaitLoop
    ensures Protocol(w')
  {
    Frame(w, w', {c}, Nothing);
  }

  // --------------------------------------------------------------- locks

  /** A process in user mode, about to make a call. */
  ghost predicate Calling(w: World, c: Pid) {
    c in w.procs && w.procs[c].resume == User && w.procs[c].state == Ready
  }

  lemma TakeLock(w: World, w': World, c: Pid, id: int)
    requires Protocol(w) && Calling(w, c) && id in w.locks && w.locks[id].owner == UNLOCKED
    requires w' == w.(locks := w.locks[id := w.locks[id].(owner := c)],
                      procs := w.procs[c := w.procs[c].(rc := 0)])
    ensures Protocol(w')
  {
    Frame(w, w', {c}, LockKey(id));
  }

  lemma QueueOnLock(w: World, w': World, c: Pid, id: int)
    requires Protocol(w) && Calling(w, c) && id in w.locks
    requires w.locks[id].owner != UNLOCKED && w.locks[id].owner != c
    requires w' == w.(locks := w.locks[id := w.locks[id].(waiters := w.locks[id].waiters + [c])],
                      procs := w.procs[c := w.procs[c].(state := Blocked, resume := LockWait(id))])
    ensures Protocol(w')
  {
    Frame(w, w', {c}, LockKey(id));
  }

  lemma AcquireKeepsProtocol(s: State, c: Pid, id: int)
    requires Protocol(s.w) && s.q.current == Some(c) && Calling(s.w, c)
    ensures Protocol(AcquireStep(s, c, id).w)
  {
    var w' := AcquireStep(s, c, id).w;
    if id !in s.w.locks || s.w.locks[id].owner == c {
      QuietStep(s.w, w', c);
    } else if s.w.locks[id].owner == UNLOCKED {
      TakeLock(s.w, w', c, id);
    } else {
      QueueOnLock(s.w, w', c, id);
    }
  }

  /** w' is w after c has released lock id to its first waiter. */
  ghost predicate HandsOver(w: World, w': World, c: Pid, id: int) {
    && Calling(w, c) && id in w.locks && w.locks[id].owner == c && w.locks[id].waiters != []
    && var first := w.locks[id].waiters[0];
       && w'.procs == MakeReady(w.procs, [first])[c := w.procs[c].(rc := 0, resume := User)]
       && w' == w.(procs := w'.procs, releases := w'.releases,
                   locks := w.locks[id := Lock(first, w.locks[id].waiters[1..])])
  }

  lemma HandOverTouches(w: World, w': World, c: Pid, id: int)
    requires Protocol(w) && HandsOver(w, w', c, id)
    ensures OnlyTouches(w, w', {c, w.locks[id].waiters[0]}, LockKey(id))
  {
    assert KeyOk(w, LockKey(id));
    assert Waits(w, w.locks[id].waiters[0]);
  }

  lemma HandOverLockOk(w: World, w': World, c: Pid, id: int)
    requires Protocol(w) && HandsOver(w, w', c, id)
    ensures KeyOk(w', LockKey(id))
  {
    assert KeyOk(w, LockKey(id));
    var waiters := w.locks[id].waiters;
    Split(waiters, 1);
    assert Take(waiters, 1) == [waiters[0]] && Drop(waiters, 1) == waiters[1..];
  }

  lemma HandOverProcsOk(w: World, w': World, c: Pid, id: int, p: Pid)
    requires Protocol(w) && HandsOver(w, w', c, id)
    requires Alive(w'.procs, p) && (p in {c, w.locks[id].waiters[0]} || DealsWith(w', p, LockKey(id)))
    ensures ProcOk(w', p)
  {
    assert KeyOk(w, LockKey(id)) && ProcOk(w, p);
    var waiters := w.locks[id].waiters;
    Split(waiters, 1);
    assert Take(waiters, 1) == [waiters[0]] && Drop(waiters, 1) == waiters[1..];
  }

  lemma HandOver(w: World, w': World, c: Pid, id: int)
    requires Protocol(w) && HandsOver(w, w', c, id)
    ensures Protocol(w')
  {
    var touched := {c, w.locks[id].waiters[0]};
    HandOverTouches(w, w', c, id);
    HandOverLockOk(w, w', c, id);
    forall p | Alive(w'.procs, p) && (p in touched || DealsWith(w', p, LockKey(id))) ensures ProcOk(w', p) {
      HandOverProcsOk(w, w', c, id, p);
    }
    Frame(w, w', touched, LockKey(id));
  }

  lemma ReleaseKeepsProtocol(s: State, c: Pid, id: int)
    requires Protocol(s.w) && Calling(s.w, c)
    ensures Protocol(ReleaseStep(s, c, id).w)
  {
    var w, w' := s.w, ReleaseStep(s, c, id).w;
    if id !in w.locks || w.locks[id].owner != c {
      QuietStep(w, w', c);
    } else if w.locks[id].waiters == [] {
      Frame(w, w', {c}, LockKey(id));
    } else {
      HandOver(w, w', c, id);
    }
  }

  lemma LockNewKeepsProtocol(s: State, c: Pid)
    requires Protocol(s.w) && Calling(s.w, c)
    ensures Protocol(LockNewStep(s, c).w)
  {
    if |s.w.locks| >= MAX_LOCKS {
      QuietStep(s.w, LockNewStep(s, c).w, c);
    } else {
      assert KeyOk(s.w, LockKey(s.w.nextId));
      Frame(s.w, LockNewStep(s, c).w, {c}, LockKey(s.w.nextId));
    }
  }

  // --------------------------------------------------------------- pipes

  lemma PipeNewKeepsProtocol(s: State, c: Pid)
    requires Protocol(s.w) && Calling(s.w, c)
    ensures Protocol(PipeNewStep(s, c).w)
  {
    if |s.w.pipes| >= MAX_PIPES {
      QuietStep(s.w, PipeNewStep(s, c).w, c);
    } else {
      assert KeyOk(s.w, PipeKey(s.w.nextId));
      Frame(s.w, PipeNewStep(s, c).w, {c}, PipeKey(s.w.nextId));
    }
  }

  lemma WithoutMembers(ps: seq<Pid>, c: Pid)
    requires Distinct(ps)
    ensures Distinct(Without(ps, c))
    ensures forall p :: p in Without(ps, c) <==> p in ps && p != c
    ensures c !in ps ==> Without(ps, c) == ps
  {
    if ps != [] {
      var rest := ps[1..];
      assert ps == [ps[0]] + rest;
      assert ps[0] !in rest;
      assert Distinct(rest) by { Split(ps, 1); assert Drop(ps, 1) == rest; }
      WithoutMembers(rest, c);
      if ps[0] != c { Prepend(ps[0], Without(rest, c)); }
    }
  }

  lemma Prepend(p: Pid, ps: seq<Pid>)
    requires Distinct(ps) && p !in ps
    ensures Distinct([p] + ps)
  {
  }

  /** Cutting a queue without repetitions gives two that share nothing. */
  lemma Split(ps: seq<Pid>, n: nat)
    requires Distinct(ps)
    ensures Distinct(Take(ps, n)) && Distinct(Drop(ps, n))
    ensures forall p :: p in ps <==> p in Take(ps, n) || p in Drop(ps, n)
    ensures forall p :: !(p in Take(ps, n) && p in Drop(ps, n))
  {
    assert ps == Take(ps, n) + Drop(ps, n);
  }

  /** c may use pipe id: it is making a call, or resuming one on that pipe. */
  ghost predicate OnPipe(w: World, c: Pid, id: int) {
    && id in w.pipes && c in w.procs && w.procs[c].state == Ready
    && (KeyOf(w.procs[c].resume) == Nothing || KeyOf(w.procs[c].resume) == PipeKey(id))
  }

  /** w' is w after c has appended msg and the first reader has been woken. */
  ghost predicate Fills(w: World, w': World, c: Pid, id: int, msg: Bytes) {
    && OnPipe(w, c, id)
    && var pipe := w.pipes[id];
       var pipe' := pipe.(bytes := pipe.bytes + msg, written := pipe.written + msg,
                          writers := Without(pipe.writers, c), readers := Drop(pipe.readers, 1));
       w' == w.(pipes := w.pipes[id := pipe'],
                procs := MakeReady(w.procs, Take(pipe.readers, 1))[c := w.procs[c].(rc := 0, resume := User)])
  }

  lemma FilledQueues(pipe: Pipe, c: Pid)
    requires Distinct(pipe.readers) && Distinct(pipe.writers)
    ensures Distinct(Without(pipe.writers, c)) && Distinct(Drop(pipe.readers, 1))
    ensures forall p :: p in Without(pipe.writers, c) ==> p in pipe.writers && p != c
    ensures forall p :: p in Drop(pipe.readers, 1) ==> p in pipe.readers && p !in Take(pipe.readers, 1)
  {
    WithoutMembers(pipe.writers, c);
    Split(pipe.readers, 1);
  }

  lemma FilledReadersOk(w: World, w': World, c: Pid, id: int, msg: Bytes, p: Pid)
    requires Protocol(w) && Fills(w, w', c, id, msg) && p in w'.pipes[id].readers
    ensures Waits(w', p) && w'.procs[p].resume.PipeReading? && w'.procs[p].resume.id == id
  {
    assert KeyOk(w, PipeKey(id));
    FilledQueues(w.pipes[id], c);
  }

  lemma FilledWritersOk(w: World, w': World, c: Pid, id: int, msg: Bytes, p: Pid)
    requires Protocol(w) && Fills(w, w', c, id, msg) && p in w'.pipes[id].writers
    ensures Alive(w'.procs, p) && w'.procs[p].resume.PipeWriting? && w'.procs[p].resume.id == id
  {
    assert KeyOk(w, PipeKey(id));
    FilledQueues(w.pipes[id], c);
  }

  lemma FilledPipeOk(w: World, w': World, c: Pid, id: int, msg: Bytes)
    requires Protocol(w) && Fills(w, w', c, id, msg)
    ensures KeyOk(w', PipeKey(id))
  {
    assert KeyOk(w, PipeKey(id));
    FilledQueues(w.pipes[id], c);
    forall p | p in w'.pipes[id].readers
      ensures Waits(w', p) && w'.procs[p].resume.PipeReading? && w'.procs[p].resume.id == id
    {
      FilledReadersOk(w, w', c, id, msg, p);
    }
    forall p | p in w'.pipes[id].writers
      ensures Alive(w'.procs, p) && w'.procs[p].resume.PipeWriting? && w'.procs[p].resume.id == id
    {
      FilledWritersOk(w, w', c, id, msg, p);
    }
  }

  lemma FilledProcsOk(w: World, w': World, c: Pid, id: int, msg: Bytes, p: Pid)
    requires Protocol(w) && Fills(w, w', c, id, msg)
    requires Alive(w'.procs, p) && (p == c || p in Take(w.pipes[id].readers, 1) || DealsWith(w', p, PipeKey(id)))
    ensures ProcOk(w', p)
  {
    assert KeyOk(w, PipeKey(id)) && ProcOk(w, p);
    WithoutMembers(w.pipes[id].writers, c);
  }

  lemma PipeFills(w: World, w': World, c: Pid, id: int, msg: Bytes)
    requires Protocol(w) && Fills(w, w', c, id, msg)
    ensures Protocol(w')
  {
    var readers := w.pipes[id].readers;
    assert KeyOk(w, PipeKey(id));
    Split(readers, 1);
    FilledPipeOk(w, w', c, id, msg);
    var touched := {c} + Members(Take(readers, 1));
    forall p | Alive(w'.procs, p) && (p in touched || DealsWith(w', p, PipeKey(id))) ensures ProcOk(w', p) {
      FilledProcsOk(w, w', c, id, msg, p);
    }
    Frame(w, w', touched, PipeKey(id));
  }

  /** w' is w after c has found the pipe too full and registered as a writer. */
  ghost predicate BlocksOnFull(w: World, w': World, c: Pid, id: int, msg: Bytes) {
    && OnPipe(w, c, id) && |msg| <= w.cfg.pipeLen
    && (w.procs[c].resume.PipeWriting? || w.procs[c].resume == User)
    && var pipe := w.pipes[id];
       w' == w.(procs := w.procs[c := w.procs[c].(state := Blocked, resume := PipeWriting(id, msg))],
                pipes := w.pipes[id := pipe.(writers := if c in pipe.writers then pipe.writers else [c] + pipe.writers)])
  }

  lemma FullPipeOk(w: World, w': World, c: Pid, id: int, msg: Bytes)
    requires Protocol(w) && BlocksOnFull(w, w', c, id, msg)
    ensures KeyOk(w', PipeKey(id)) && OnlyTouches(w, w', {c}, PipeKey(id))
  {
    assert KeyOk(w, PipeKey(id)) && ProcOk(w, c);
  }

  lemma FullPipeProcsOk(w: World, w': World, c: Pid, id: int, msg: Bytes, p: Pid)
    requires Protocol(w) && BlocksOnFull(w, w', c, id, msg)
    requires Alive(w'.procs, p) && (p == c || DealsWith(w', p, PipeKey(id)))
    ensures ProcOk(w', p)
  {
    assert KeyOk(w, PipeKey(id)) && ProcOk(w, p);
    var writers := w.pipes[id].writers;
    assert forall x :: x in writers ==> x in [c] + writers;
  }

  lemma PipeBlocksWriter(w: World, w': World, c: Pid, id: int, msg: Bytes)
    requires Protocol(w) && BlocksOnFull(w, w', c, id, msg)
    ensures Protocol(w')
  {
    FullPipeOk(w, w', c, id, msg);
    forall p | Alive(w'.procs, p) && (p in {c} || DealsWith(w', p, PipeKey(id))) ensures ProcOk(w', p) {
      FullPipeProcsOk(w, w', c, id, msg, p);
    }
    Frame(w, w', {c}, PipeKey(id));
  }

  lemma PipeBlocksReader(w: World, w': World, c: Pid, id: int, len: nat)
    requires Protocol(w) && OnPipe(w, c, id)
    requires w.procs[c].resume.PipeReading? || w.procs[c].resume == User
    requires w'.procs == w.procs[c := w.procs[c].(state := Blocked, resume := PipeReading(id, len))]
    requires var pipe := w.pipes[id];
             w' == w.(procs := w'.procs, pipes := w.pipes[id := pipe.(
               readers := if w.procs[c].resume == User then pipe.readers + [c] else pipe.readers)])
    ensures Protocol(w')
  {
    Frame(w, w', {c}, PipeKey(id));
  }

  /** w' is w after c has taken bytes and the first n readers and all writers were woken. */
  ghost predicate Drains(w: World, w': World, c: Pid, id: int, n: nat, got: Bytes) {
    && OnPipe(w, c, id) && !w.procs[c].resume.PipeWriting? && id in w'.pipes
    && var pipe, pipe' := w.pipes[id], w'.pipes[id];
       && pipe'.readers == Drop(pipe.readers, n) && pipe'.writers == pipe.writers
       && var mine := w.procs[c].(got := got, rc := 0, resume := User);
          w' == w.(pipes := w.pipes[id := pipe'],
                   procs := MakeReady(w.procs[c := mine], Take(pipe.readers, n) + pipe.writers))
  }

  lemma DrainedPipeOk(w: World, w': World, c: Pid, id: int, n: nat, got: Bytes)
    requires Protocol(w) && Drains(w, w', c, id, n, got)
    ensures KeyOk(w', PipeKey(id))
  {
    assert KeyOk(w, PipeKey(id));
    Split(w.pipes[id].readers, n);
  }

  lemma DrainTouches(w: World, w': World, c: Pid, id: int, n: nat, got: Bytes)
    requires Protocol(w) && Drains(w, w', c, id, n, got)
    ensures OnlyTouches(w, w', {c} + Members(Take(w.pipes[id].readers, n) + w.pipes[id].writers), PipeKey(id))
  {
    assert KeyOk(w, PipeKey(id));
  }

  lemma PipeDrains(w: World, w': World, c: Pid, id: int, n: nat, got: Bytes)
    requires Protocol(w) && Drains(w, w', c, id, n, got)
    ensures Protocol(w')
  {
    var touched := {c} + Members(Take(w.pipes[id].readers, n) + w.pipes[id].writers);
    DrainTouches(w, w', c, id, n, got);
    DrainedPipeOk(w, w', c, id, n, got);
    forall p | Alive(w'.procs, p) && (p in touched || DealsWith(w', p, PipeKey(id))) ensures ProcOk(w', p) {
      DrainedProcsOk(w, w', c, id, n, got, p);
    }
    Frame(w, w', touched, PipeKey(id));
  }

  lemma DrainedProcsOk(w: World, w': World, c: Pid, id: int, n: nat, got: Bytes, p: Pid)
    requires Protocol(w) && Drains(w, w', c, id, n, got) && Alive(w'.procs, p)
    requires p == c || p in Take(w.pipes[id].readers, n) + w.pipes[id].writers || DealsWith(w', p, PipeKey(id))
    ensures ProcOk(w', p)
  {
    assert KeyOk(w, PipeKey(id)) && ProcOk(w, p);
  }

  lemma PipeWriteLoopKeepsProtocol(s: State, c: Pid, id: int, msg: Bytes)
    requires Protocol(s.w) && s.q.current == Some(c) && OnPipe(s.w, c, id) && |msg| <= s.w.cfg.pipeLen
    requires s.w.procs[c].resume.PipeWriting?
    ensures Protocol(PipeWriteLoop(s, c, id, msg).w)
  {
    var w' := PipeWriteLoop(s, c, id, msg).w;
    assert ProcOk(s.w, c);
    if |msg| + |s.w.pipes[id].bytes| > s.w.cfg.pipeLen {
      PipeBlocksWriter(s.w, w', c, id, msg);
    } else {
      assert KeyOk(s.w, PipeKey(id));
      PipeFills(s.w, w', c, id, msg);
    }
  }

  lemma PipeWriteKeepsProtocol(s: State, c: Pid, id: int, msg: Bytes)
    requires Protocol(s.w) && s.q.current == Some(c) && Calling(s.w, c)
    ensures Protocol(PipeWriteStep(s, c, id, msg).w)
  {
    var w' := PipeWriteStep(s, c, id, msg).w;
    if id !in s.w.pipes || |msg| > s.w.cfg.pipeLen {
      QuietStep(s.w, w', c);
    } else {
      assert KeyOk(s.w, PipeKey(id));
      if |msg| + |s.w.pipes[id].bytes| > s.w.cfg.pipeLen {
        PipeBlocksWriter(s.w, w', c, id, msg);
      } else {
        PipeFills(s.w, w', c, id, msg);
      }
    }
  }

  lemma PipeReadLoopKeepsProtocol(s: State, c: Pid, id: int, len: nat)
    requires Protocol(s.w) && s.q.current == Some(c) && OnPipe(s.w, c, id)
    requires s.w.procs[c].resume.PipeReading? || s.w.pipes[id].bytes != []
    requires !s.w.procs[c].resume.PipeWriting?
    ensures Protocol(PipeReadLoop(s, c, id, len).w)
  {
    var pipe := s.w.pipes[id];
    var w' := PipeReadLoop(s, c, id, len).w;
    if pipe.bytes == [] {
      PipeBlocksReader(s.w, w', c, id, len);
    } else {
      var rest := Drop(pipe.bytes, len);
      var n := if rest != [] then 1 else 0;
      PipeDrains(s.w, w', c, id, n, Take(pipe.bytes, len));
    }
  }

  lemma PipeReadKeepsProtocol(s: State, c: Pid, id: int, len: nat)
    requires Protocol(s.w) && s.q.current == Some(c) && Calling(s.w, c)
    ensures Protocol(PipeReadStep(s, c, id, len).w)
  {
    var w' := PipeReadStep(s, c, id, len).w;
    if id !in s.w.pipes {
      QuietStep(s.w, w', c);
    } else if s.w.pipes[id].bytes == [] {
      PipeBlocksReader(s.w, w', c, id, len);
    } else {
      PipeReadLoopKeepsProtocol(s, c, id, len);
    }
  }

  // ------------------------------------------------------------ terminals

  /** c may transmit msg from byte start on: it finds the terminal free and starts,
      or it is the writer and its previous chunk has gone out. */
  ghost predicate MaySend(w: World, c: Pid, t: nat, msg: Bytes, start: nat) {
    && t < |w.ttys| && c in w.procs && w.procs[c].state == Ready
    && (|| (w.ttys[t].available && start == 0 && !w.procs[c].resume.Sending?
            && (KeyOf(w.procs[c].resume) == Nothing || KeyOf(w.procs[c].resume) == TtyKey(t)))
        || (w.procs[c].resume.Sending? && w.procs[c].resume == Sending(t, msg, w.procs[c].resume.start)
            && start == w.procs[c].resume.start + w.cfg.maxLine))
  }

  lemma SentUpTo(w: World, c: Pid, t: nat, msg: Bytes, start: nat)
    requires Protocol(w) && MaySend(w, c, t, msg, start)
    ensures Flat(w.ttys[t].sent) == Flat(w.ttys[t].done) + Take(msg, start)
    ensures !w.ttys[t].pending
    ensures w.ttys[t].writer == if w.procs[c].resume.Sending? then Some(c) else None
    ensures KeyOf(w.procs[c].resume) == Nothing || KeyOf(w.procs[c].resume) == TtyKey(t)
  {
    assert KeyOk(w, TtyKey(t)) && ProcOk(w, c);
  }

  /** w' is w after c has handed over the chunk of msg at start. */
  ghost predicate Transmits(w: World, w': World, c: Pid, t: nat, msg: Bytes, start: nat) {
    && MaySend(w, c, t, msg, start) && start < |msg|
    && w' == w.(procs := w.procs[c := w.procs[c].(state := Blocked, resume := Sending(t, msg, start))],
                ttys := w.ttys[t := w.ttys[t].(
                  available := false, writer := Some(c), pending := true,
                  sent := w.ttys[t].sent + [Take(msg[start..], w.cfg.maxLine)])])
  }

  lemma OneMoreChunk(sent: seq<Bytes>, done: seq<Bytes>, msg: Bytes, start: nat, maxLine: nat)
    requires start < |msg| && Flat(sent) == Flat(done) + Take(msg, start)
    ensures Flat(sent + [Take(msg[start..], maxLine)]) == Flat(done) + Take(msg, start + maxLine)
  {
    var chunk := Take(msg[start..], maxLine);
    FlatSnoc(sent, chunk);
    assert Take(msg, start) + chunk == Take(msg, start + maxLine);
  }

  lemma TransmittingWriterOk(w: World, w': World, c: Pid, t: nat, msg: Bytes, start: nat)
    requires Protocol(w) && Transmits(w, w', c, t, msg, start)
    ensures WriterOk(w', t)
  {
    SentUpTo(w, c, t, msg, start);
    OneMoreChunk(w.ttys[t].sent, w.ttys[t].done, msg, start, w.cfg.maxLine);
  }

  lemma TransmittingTtyOk(w: World, w': World, c: Pid, t: nat, msg: Bytes, start: nat)
    requires Protocol(w) && Transmits(w, w', c, t, msg, start)
    ensures KeyOk(w', TtyKey(t))
  {
    assert KeyOk(w, TtyKey(t));
    TransmittingWriterOk(w, w', c, t, msg, start);
  }

  lemma TransmittingProcsOk(w: World, w': World, c: Pid, t: nat, msg: Bytes, start: nat, p: Pid)
    requires Protocol(w) && Transmits(w, w', c, t, msg, start)
    requires Alive(w'.procs, p) && (p == c || DealsWith(w', p, TtyKey(t)))
    ensures ProcOk(w', p)
  {
    assert KeyOk(w, TtyKey(t)) && ProcOk(w, p);
    SentUpTo(w, c, t, msg, start);
  }

  lemma TransmitTouches(w: World, w': World, c: Pid, t: nat, msg: Bytes, start: nat)
    requires Protocol(w) && Transmits(w, w', c, t, msg, start)
    ensures OnlyTouches(w, w', {c}, TtyKey(t))
  {
    SentUpTo(w, c, t, msg, start);
  }

  lemma SendChunk(w: World, w': World, c: Pid, t: nat, msg: Bytes, start: nat)
    requires Protocol(w) && Transmits(w, w', c, t, msg, start)
    ensures Protocol(w')
  {
    TransmitTouches(w, w', c, t, msg, start);
    TransmittingTtyOk(w, w', c, t, msg, start);
    forall p | Alive(w'.procs, p) && (p in {c} || DealsWith(w', p, TtyKey(t))) ensures ProcOk(w', p) {
      TransmittingProcsOk(w, w', c, t, msg, start, p);
    }
    Frame(w, w', {c}, TtyKey(t));
  }

  /** w' is w after c has written all of msg and the first queued writer was woken. */
  ghost predicate Finishes(w: World, w': World, c: Pid, t: nat, msg: Bytes, start: nat) {
    && MaySend(w, c, t, msg, start) && start >= |msg|
    && var queue := w.ttys[t].writeQueue;
       w' == w.(procs := MakeReady(w.procs, Take(queue, 1))[c := w.procs[c].(rc := 0, resume := User)],
                ttys := w.ttys[t := w.ttys[t].(
                  available := true, writer := None, done := w.ttys[t].done + [msg],
                  writeQueue := Drop(queue, 1))])
  }

  lemma FinishedIsRechecked(w: World, w': World, c: Pid, t: nat, msg: Bytes, start: nat)
    requires Protocol(w) && Finishes(w, w', c, t, msg, start)
    ensures NoLostWriter(w', t)
  {
    assert KeyOk(w, TtyKey(t));
    var queue := w.ttys[t].writeQueue;
    if queue != [] {
      assert queue[0] in Take(queue, 1);
      assert Rechecks(w', t, queue[0]);
    }
  }

  lemma FinishedQueuesOk(w: World, w': World, c: Pid, t: nat, msg: Bytes, start: nat)
    requires Protocol(w) && Finishes(w, w', c, t, msg, start)
    ensures QueuesOk(w', t) && NoLostWriter(w', t)
  {
    assert KeyOk(w, TtyKey(t));
    Split(w.ttys[t].writeQueue, 1);
    FinishedIsRechecked(w, w', c, t, msg, start);
  }

  lemma FinishedTtyOk(w: World, w': World, c: Pid, t: nat, msg: Bytes, start: nat)
    requires Protocol(w) && Finishes(w, w', c, t, msg, start)
    ensures KeyOk(w', TtyKey(t))
  {
    assert KeyOk(w, TtyKey(t));
    SentUpTo(w, c, t, msg, start);
    FlatSnoc(w.ttys[t].done, msg);
    assert Take(msg, start) == msg;
    FinishedQueuesOk(w, w', c, t, msg, start);
  }

  lemma FinishedProcsOk(w: World, w': World, c: Pid, t: nat, msg: Bytes, start: nat, p: Pid)
    requires Protocol(w) && Finishes(w, w', c, t, msg, start)
    requires Alive(w'.procs, p) && (p == c || DealsWith(w', p, TtyKey(t)))
    ensures ProcOk(w', p)
  {
    assert KeyOk(w, TtyKey(t)) && ProcOk(w, p);
    SentUpTo(w, c, t, msg, start);
    Split(w.ttys[t].writeQueue, 1);
  }

  lemma FinishTouchesTheirs(w: World, w': World, c: Pid, t: nat, msg: Bytes, start: nat)
    requires Protocol(w) && Finishes(w, w', c, t, msg, start)
    ensures forall p :: p in {c} + Members(Take(w.ttys[t].writeQueue, 1)) && Alive(w.procs, p) ==>
              KeyOf(w.procs[p].resume) == Nothing || KeyOf(w.procs[p].resume) == TtyKey(t)
  {
    assert KeyOk(w, TtyKey(t));
    SentUpTo(w, c, t, msg, start);
    Split(w.ttys[t].writeQueue, 1);
  }

  lemma FinishTouches(w: World, w': World, c: Pid, t: nat, msg: Bytes, start: nat)
    requires Protocol(w) && Finishes(w, w', c, t, msg, start)
    ensures OnlyTouches(w, w', {c} + Members(Take(w.ttys[t].writeQueue, 1)), TtyKey(t))
  {
    FinishTouchesTheirs(w, w', c, t, msg, start);
  }

  lemma SendDone(w: World, w': World, c: Pid, t: nat, msg: Bytes, start: nat)
    requires Protocol(w) && Finishes(w, w', c, t, msg, start)
    ensures Protocol(w')
  {
    var touched := {c} + Members(Take(w.ttys[t].writeQueue, 1));
    FinishTouches(w, w', c, t, msg, start);
    FinishedTtyOk(w, w', c, t, msg, start);
    forall p | Alive(w'.procs, p) && (p in touched || DealsWith(w', p, TtyKey(t))) ensures ProcOk(w', p) {
      WokenDealsWith(w, w', c, t, msg, start, p);
      FinishedProcsOk(w, w', c, t, msg, start, p);
    }
    Frame(w, w', touched, TtyKey(t));
  }

  /** The writer taken off the queue still deals with the terminal. */
  lemma WokenDealsWith(w: World, w': World, c: Pid, t: nat, msg: Bytes, start: nat, p: Pid)
    requires Protocol(w) && Finishes(w, w', c, t, msg, start)
    requires p in {c} + Members(Take(w.ttys[t].writeQueue, 1)) || DealsWith(w', p, TtyKey(t))
    ensures p == c || DealsWith(w', p, TtyKey(t))
  {
    assert KeyOk(w, TtyKey(t));
    Split(w.ttys[t].writeQueue, 1);
  }

  lemma SendingChunkTransmits(s: State, s0: State, c: Pid, t: nat, msg: Bytes, start: nat)
    requires MaySend(s0.w, c, t, msg, start) && s.q.current == Some(c) && start < |msg|
    requires s == SetTty(s0, t, s0.w.ttys[t].(available := false, writer := Some(c)))
    ensures Transmits(s0.w, SendFrom(s, c, t, msg, start).w, c, t, msg, start)
  {
  }

  lemma SendingLastFinishes(s: State, s0: State, c: Pid, t: nat, msg: Bytes, start: nat)
    requires Protocol(s0.w) && MaySend(s0.w, c, t, msg, start) && s.q.current == Some(c) && start >= |msg|
    requires s == SetTty(s0, t, s0.w.ttys[t].(available := false, writer := Some(c)))
    ensures Finishes(s0.w, SendFrom(s, c, t, msg, start).w, c, t, msg, start)
  {
    var queue := s0.w.ttys[t].writeQueue;
    assert KeyOk(s0.w, TtyKey(t));
    if queue == [] {
      assert MakeReady(s.w.procs, []) == s.w.procs;
    } else {
      assert Take(queue, 1) == [queue[0]];
      assert c !in queue;
    }
  }

  lemma SendFromKeepsProtocol(s: State, s0: State, c: Pid, t: nat, msg: Bytes, start: nat)
    requires Protocol(s0.w) && MaySend(s0.w, c, t, msg, start) && s.q.current == Some(c)
    requires s == SetTty(s0, t, s0.w.ttys[t].(available := false, writer := Some(c)))
    ensures Protocol(SendFrom(s, c, t, msg, start).w)
  {
    var w' := SendFrom(s, c, t, msg, start).w;
    if start < |msg| {
      SendingChunkTransmits(s, s0, c, t, msg, start);
      SendChunk(s0.w, w', c, t, msg, start);
    } else {
      SendingLastFinishes(s, s0, c, t, msg, start);
      SendDone(s0.w, w', c, t, msg, start);
    }
  }

  /** w' is w after c has found terminal t held and queued for it. */
  ghost predicate QueuesToWrite(w: World, w': World, c: Pid, t: nat, msg: Bytes) {
    && t < |w.ttys| && !w.ttys[t].available && c in w.procs && w.procs[c].state == Ready
    && (w.procs[c].resume == User || w.procs[c].resume == WriteWait(t, msg))
    && w' == w.(procs := w.procs[c := w.procs[c].(state := Blocked, resume := WriteWait(t, msg))],
                ttys := w.ttys[t := w.ttys[t].(writeQueue := w.ttys[t].writeQueue + [c])])
  }

  lemma QueuedTtyOk(w: World, w': World, c: Pid, t: nat, msg: Bytes)
    requires Protocol(w) && QueuesToWrite(w, w', c, t, msg)
    ensures KeyOk(w', TtyKey(t))
  {
    assert KeyOk(w, TtyKey(t));
  }

  lemma QueuedProcsOk(w: World, w': World, c: Pid, t: nat, msg: Bytes, p: Pid)
    requires Protocol(w) && QueuesToWrite(w, w', c, t, msg)
    requires Alive(w'.procs, p) && (p == c || DealsWith(w', p, TtyKey(t)))
    ensures ProcOk(w', p)
  {
    assert ProcOk(w, p);
  }

  lemma QueueWriter(w: World, w': World, c: Pid, t: nat, msg: Bytes)
    requires Protocol(w) && QueuesToWrite(w, w', c, t, msg)
    ensures Protocol(w')
  {
    QueuedTtyOk(w, w', c, t, msg);
    forall p | Alive(w'.procs, p) && (p in {c} || DealsWith(w', p, TtyKey(t))) ensures ProcOk(w', p) {
      QueuedProcsOk(w, w', c, t, msg, p);
    }
    Frame(w, w', {c}, TtyKey(t));
  }

  lemma WriteTopKeepsProtocol(s: State, c: Pid, t: nat, msg: Bytes)
    requires Protocol(s.w) && s.q.current == Some(c) && t < |s.w.ttys|
    requires c in s.w.procs && s.w.procs[c].state == Ready
    requires s.w.procs[c].resume == User || s.w.procs[c].resume == WriteWait(t, msg)
    ensures Protocol(WriteTop(s, c, t, msg).w)
  {
    var tty := s.w.ttys[t];
    if tty.available {
      var s1 := SetTty(s, t, tty.(available := false, writer := Some(c)));
      SendFromKeepsProtocol(s1, s, c, t, msg, 0);
    } else {
      QueueWriter(s.w, WriteTop(s, c, t, msg).w, c, t, msg);
    }
  }

  lemma SendingKeepsProtocol(s: State, c: Pid, t: nat, msg: Bytes, last: nat)
    requires Protocol(s.w) && s.q.current == Some(c) && t < |s.w.ttys|
    requires c in s.w.procs && s.w.procs[c].state == Ready && s.w.procs[c].resume == Sending(t, msg, last)
    ensures Protocol(SendFrom(s, c, t, msg, last + s.w.cfg.maxLine).w)
  {
    assert KeyOk(s.w, TtyKey(t)) && ProcOk(s.w, c);
    assert s.w.ttys[t := s.w.ttys[t].(available := false, writer := Some(c))] == s.w.ttys;
    SendFromKeepsProtocol(s, s, c, t, msg, last + s.w.cfg.maxLine);
  }

  /** The writers of t do not notice what c, who is none of them, does. */
  lemma WritersUndisturbed(w: World, w': World, c: Pid, t: nat)
    requires t < |w.ttys| == |w'.ttys| && NoLostWriter(w, t) && !Rechecks(w, t, c)
    requires w.ttys[t].writeQueue == w'.ttys[t].writeQueue && w.ttys[t].available == w'.ttys[t].available
    requires forall p :: p != c ==> SameProc(w, w', p)
    ensures NoLostWriter(w', t)
  {
    if w.ttys[t].writeQueue != [] && w.ttys[t].available {
      var p :| Rechecks(w, t, p);
      assert SameProc(w, w', p) && Rechecks(w', t, p);
    }
  }

  /** w' is w after c has found nothing to read on terminal t and registered. */
  ghost predicate QueuesToRead(w: World, w': World, c: Pid, t: nat, len: nat) {
    && Calling(w, c) && t < |w.ttys| && w.ttys[t].unread == []
    && w' == w.(procs := w.procs[c := w.procs[c].(state := Blocked, resume := ReadWait(t, len))],
                ttys := w.ttys[t := w.ttys[t].(readers := [c] + w.ttys[t].readers)])
  }

  lemma RegisteredTtyOk(w: World, w': World, c: Pid, t: nat, len: nat)
    requires Protocol(w) && QueuesToRead(w, w', c, t, len)
    ensures KeyOk(w', TtyKey(t))
  {
    assert KeyOk(w, TtyKey(t));
    WritersUndisturbed(w, w', c, t);
    Prepend(c, w.ttys[t].readers);
  }

  lemma RegisteredProcsOk(w: World, w': World, c: Pid, t: nat, len: nat, p: Pid)
    requires Protocol(w) && QueuesToRead(w, w', c, t, len)
    requires Alive(w'.procs, p) && (p == c || DealsWith(w', p, TtyKey(t)))
    ensures ProcOk(w', p)
  {
    assert ProcOk(w, p);
    assert forall x :: x in w.ttys[t].readers ==> x in [c] + w.ttys[t].readers;
  }

  lemma QueueReader(w: World, w': World, c: Pid, t: nat, len: nat)
    requires Protocol(w) && QueuesToRead(w, w', c, t, len)
    ensures Protocol(w')
  {
    RegisteredTtyOk(w, w', c, t, len);
    forall p | Alive(w'.procs, p) && (p in {c} || DealsWith(w', p, TtyKey(t))) ensures ProcOk(w', p) {
      RegisteredProcsOk(w, w', c, t, len, p);
    }
    Frame(w, w', {c}, TtyKey(t));
  }

  /** A reader picks up its bytes: only `unread` of the terminal changes. */
  ghost predicate PicksUp(w: World, w': World, c: Pid, t: nat) {
    && c in w.procs && w.procs[c].state == Ready && t < |w.ttys| == |w'.ttys|
    && (w.procs[c].resume == User || (w.procs[c].resume.ReadWait? && w.procs[c].resume.t == t))
    && w'.procs.Keys == w.procs.Keys && (forall p :: p in w.procs && p != c ==> w'.procs[p] == w.procs[p])
    && w'.procs[c] == w.procs[c].(rc := w'.procs[c].rc, got := w'.procs[c].got, resume := User)
    && w' == w.(procs := w'.procs, ttys := w.ttys[t := w.ttys[t].(unread := w'.ttys[t].unread)])
    && (w.ttys[t].unread == [] ==> w'.ttys[t].unread == [])
  }

  lemma PickedUpTtyOk(w: World, w': World, c: Pid, t: nat)
    requires Protocol(w) && PicksUp(w, w', c, t)
    ensures KeyOk(w', TtyKey(t))
  {
    assert KeyOk(w, TtyKey(t));
    WritersUndisturbed(w, w', c, t);
  }

  lemma PickedUpProcsOk(w: World, w': World, c: Pid, t: nat, p: Pid)
    requires Protocol(w) && PicksUp(w, w', c, t) && Alive(w'.procs, p) && (p == c || DealsWith(w', p, TtyKey(t)))
    ensures ProcOk(w', p)
  {
    assert ProcOk(w, p);
  }

  lemma ReaderReturns(w: World, w': World, c: Pid, t: nat)
    requires Protocol(w) && PicksUp(w, w', c, t)
    ensures Protocol(w')
  {
    PickedUpTtyOk(w, w', c, t);
    forall p | Alive(w'.procs, p) && (p in {c} || DealsWith(w', p, TtyKey(t))) ensures ProcOk(w', p) {
      PickedUpProcsOk(w, w', c, t, p);
    }
    Frame(w, w', {c}, TtyKey(t));
  }

  lemma ReadKeepsProtocol(s: State, c: Pid, t: nat, len: nat)
    requires Protocol(s.w) && s.q.current == Some(c) && t < |s.w.ttys| && Calling(s.w, c)
    ensures Protocol(ReadStep(s, c, t, len).w)
  {
    var w' := ReadStep(s, c, t, len).w;
    assert KeyOk(s.w, TtyKey(t));
    if s.w.ttys[t].unread == [] {
      QueueReader(s.w, w', c, t, len);
    } else {
      assert s.w.ttys[t := s.w.ttys[t]] == s.w.ttys;
      ReaderReturns(s.w, w', c, t);
    }
  }

  lemma TransmitKeepsProtocol(s: State, t: nat)
    requires Protocol(s.w) && t < |s.w.ttys| && s.w.ttys[t].pending
    ensures Protocol(TransmitStep(s, t).w)
    ensures s.w.ttys[t].writer.Some? && Waits(s.w, s.w.ttys[t].writer.value)
  {
    assert KeyOk(s.w, TtyKey(t));
    var p := s.w.ttys[t].writer.value;
    assert ProcOk(s.w, p);
    Frame(s.w, TransmitStep(s, t).w, {p}, TtyKey(t));
  }

  /** w' is w after every waiting reader was given its part of a line and woken. */
  ghost predicate Delivers(w: World, w': World, t: nat) {
    && t < |w.ttys| == |w'.ttys|
    && w'.procs.Keys == w.procs.Keys
    && (forall p :: p in w.procs ==>
          && w'.procs[p].resume == w.procs[p].resume && w'.procs[p].waiting == w.procs[p].waiting
          && w'.procs[p].state == if p in w.ttys[t].readers then Ready else w.procs[p].state)
    && w' == w.(procs := w'.procs,
                ttys := w.ttys[t := w.ttys[t].(readers := [], unread := w'.ttys[t].unread)])
  }

  lemma DeliveredTtyOk(w: World, w': World, t: nat)
    requires Protocol(w) && Delivers(w, w', t)
    ensures KeyOk(w', TtyKey(t))
  {
    assert KeyOk(w, TtyKey(t));
    if w.ttys[t].writeQueue != [] && w.ttys[t].available {
      var p :| Rechecks(w, t, p);
      assert Rechecks(w', t, p);
    }
  }

  lemma ReaderWakes(w: World, w': World, t: nat)
    requires Protocol(w) && Delivers(w, w', t)
    ensures Protocol(w')
  {
    assert KeyOk(w, TtyKey(t));
    DeliveredTtyOk(w, w', t);
    Frame(w, w', Members(w.ttys[t].readers), TtyKey(t));
  }

  lemma ReceiveKeepsProtocol(s: State, t: nat, line: Bytes)
    requires Protocol(s.w) && t < |s.w.ttys|
    ensures Protocol(ReceiveStep(s, t, line).w)
  {
    if 1 <= |line| <= s.w.cfg.maxLine {
      ReaderWakes(s.w, ReceiveStep(s, t, line).w, t);
    }
  }

  // ------------------------------------------------------------ processes

  lemma ClockKeepsProtocol(s: State)
    requires Protocol(s.w) && (s.q.current.Some? ==> s.q.current.value in s.w.procs)
    requires forall p :: p in s.q.delayed ==> p in s.w.procs && s.w.procs[p].state == Delayed
    ensures Protocol(ClockStep(s).w)
  {
    forall p | p in s.q.delayed ensures s.w.procs[p].resume == User {
      assert ProcOk(s.w, p);
    }
    Frame(s.w, ClockStep(s).w, Members(s.q.delayed), Nothing);
  }

  lemma ForkKeepsProtocol(s: State, c: Pid, child: Pid, framesLeft: bool)
    requires Protocol(s.w) && Calling(s.w, c) && child !in s.w.procs
    ensures Protocol(ForkStep(s, c, child, framesLeft).w)
  {
    Frame(s.w, ForkStep(s, c, child, framesLeft).w, {c, child}, Nothing);
  }

  lemma WaitKeepsProtocol(s: State, c: Pid)
    requires Protocol(s.w) && s.q.current == Some(c) && Calling(s.w, c)
    ensures Protocol(WaitStep(s, c).w)
  {
    QuietStep(s.w, WaitStep(s, c).w, c);
  }

  lemma DelayKeepsProtocol(s: State, c: Pid, n: int)
    requires Protocol(s.w) && s.q.current == Some(c) && Calling(s.w, c)
    ensures Protocol(DelayStep(s, c, n).w)
  {
    QuietStep(s.w, DelayStep(s, c, n).w, c);
  }

  /** p may be made ready although no object expects it. */
  ghost predicate WakeIsHarmless(w: World, p: Pid) {
    && p in w.procs && w.procs[p].state == Blocked
    && match w.procs[p].resume
       case WaitLoop => true
       case PipeWriting(_, _) => true
       case PipeReading(id, _) => id in w.pipes && p !in w.pipes[id].readers
       case _ => false
  }

  /** c dies; with wake, its parent is made ready. */
  ghost predicate DiesIn(w: World, w': World, c: Pid, par: Pid, wake: bool) {
    && Calling(w, c) && par in w.procs && par != c
    && w'.procs.Keys == w.procs.Keys && w'.procs[c].state == Dead
    && (forall p :: p in w.procs && p != c && p != par ==> SameProc(w, w', p))
    && w'.procs[par].waiting == (if wake then !w.cfg.clears else w.procs[par].waiting)
    && w'.procs[par].state == (if wake then Ready else w.procs[par].state)
    && w'.procs[par].resume == w.procs[par].resume && w' == w.(procs := w'.procs)
  }

  lemma QuietDeath(w: World, w': World, c: Pid, par: Pid)
    requires Protocol(w) && DiesIn(w, w', c, par, false)
    ensures Protocol(w')
  {
    Frame(w, w', {c}, Nothing);
  }

  lemma WakingTouches(w: World, w': World, c: Pid, par: Pid)
    requires Protocol(w) && DiesIn(w, w', c, par, true) && WakeIsHarmless(w, par)
    ensures OnlyTouches(w, w', {c, par}, KeyOf(w.procs[par].resume))
  {
  }

  lemma WokenParentOk(w: World, w': World, c: Pid, par: Pid)
    requires Protocol(w) && DiesIn(w, w', c, par, true) && WakeIsHarmless(w, par)
    ensures KeyOk(w', KeyOf(w.procs[par].resume)) && ProcOk(w', par)
  {
    assert KeyOk(w, KeyOf(w.procs[par].resume)) && ProcOk(w, par);
  }

  lemma WakingDeath(w: World, w': World, c: Pid, par: Pid)
    requires Protocol(w) && DiesIn(w, w', c, par, true) && WakeIsHarmless(w, par)
    ensures Protocol(w')
  {
    WakingTouches(w, w', c, par);
    WokenParentOk(w, w', c, par);
    Frame(w, w', {c, par}, KeyOf(w.procs[par].resume));
  }

  lemma ExitKeepsProtocol(s: State, c: Pid)
    requires Protocol(s.w) && s.q.current == Some(c) && Calling(s.w, c) && HasParent(s.w.procs, c)
    requires var par := s.w.procs[c].parent.value;
             s.w.procs[par].waiting ==> WakeIsHarmless(s.w, par)
    ensures Protocol(ExitStep(s, c).w)
  {
    var par := s.w.procs[c].parent.value;
    ExitStates(s.w.procs, s.w.cfg.init, c, s.w.cfg.clears);
    var w' := ExitStep(s, c).w;
    if s.w.procs[par].waiting { WakingDeath(s.w, w', c, par); } else { QuietDeath(s.w, w', c, par); }
  }

  lemma GrantKeepsProtocol(s: State, c: Pid)
    requires Protocol(s.w) && c in s.w.procs && s.w.procs[c].state == Ready
    requires s.w.procs[c].resume.LockWait? || s.w.procs[c].resume.WaitLoop?
    ensures Protocol(Return(s, c, 0).w)
  {
    assert ProcOk(s.w, c);
    Frame(s.w, Return(s, c, 0).w, {c}, KeyOf(s.w.procs[c].resume));
  }

  lemma ReadResumeKeepsProtocol(s: State, c: Pid, t: nat)
    requires Protocol(s.w) && c in s.w.procs && s.w.procs[c].state == Ready && t < |s.w.ttys|
    requires s.w.procs[c].resume.ReadWait? && s.w.procs[c].resume.t == t
    ensures Protocol(ReadResume(s, c, t).w)
  {
    assert KeyOk(s.w, TtyKey(t));
    WithoutMembers(s.w.ttys[t].readers, c);
    ReaderReturns(s.w, ReadResume(s, c, t).w, c, t);
  }

  lemma ContinueKeepsProtocol(s: State, c: Pid)
    requires Protocol(s.w) && s.q.current == Some(c) && c in s.w.procs && s.w.procs[c].state == Ready
    requires Resumable(s.w, s.w.procs[c].resume)
    ensures Protocol(ContinueStep(s, c).w)
  {
    match s.w.procs[c].resume
    case LockWait(id) => GrantKeepsProtocol(s, c);
    case WaitLoop => GrantKeepsProtocol(s, c);
    case WriteWait(t, msg) => WriteTopKeepsProtocol(s, c, t, msg);
    case Sending(t, msg, start) => SendingKeepsProtocol(s, c, t, msg, start);
    case ReadWait(t, _) => ReadResumeKeepsProtocol(s, c, t);
    case PipeReading(id, len) => PipeReadLoopKeepsProtocol(s, c, id, len);
    case PipeWriting(id, msg) =>
      assert ProcOk(s.w, c);
      PipeWriteLoopKeepsProtocol(s, c, id, msg);
  }
}
