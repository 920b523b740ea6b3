/**
 * What every system call, every return from the scheduler and every trap does, in full and without the
 * code: one page for each, about the states before and after. The pages leave nothing open, and every
 * step of the kernel is as its page says.
 */
module Manual {
  import opened Types
  import opened Kernel
  import opened Placement
  import opened Protocols
  import opened Family
  import opened Invariant

  // ------------------------------------------------------------- vocabulary

  /** Control blocks afterwards: c's is mine, those of woken are ready, all others as they were. */
  ghost predicate Blocks(procs: map<Pid, Pcb>, procs': map<Pid, Pcb>, c: Pid, mine: Pcb, woken: seq<Pid>) {
    && procs'.Keys == procs.Keys
    && forall p :: p in procs ==>
         procs'[p] == if p == c then mine else if p in woken then procs[p].(state := Ready) else procs[p]
  }

  /** The caller goes on; woken have moved from the blocked set to the end of the ready queue. */
  ghost predicate GoesOn(q: Queues, q': Queues, woken: seq<Pid>) {
    q' == q.(ready := q.ready + woken, blocked := q.blocked - Members(woken))
  }

  /** The scheduler has been called once, with line waiting for the processor: its front runs, idle if it is empty. */
  ghost predicate Rotates(q: Queues, q': Queues, line: seq<Pid>, idle: Pid) {
    && q'.switches == q.switches + 1
    && if line == []
       then q'.current == Some(idle) && q'.ready == [] && !q'.reserve
       else q'.current == Some(line[0]) && q'.ready == line[1..] && q'.reserve == q.reserve
  }

  /** Nothing but control blocks has changed. */
  ghost predicate ObjectsStay(w: World, w': World) {
    w' == w.(procs := w'.procs)
  }

  /** The caller's result. */
  ghost predicate Answers(s: State, s': State, c: Pid, rc: int)
    requires c in s.w.procs
  {
    Blocks(s.w.procs, s'.w.procs, c, s.w.procs[c].(rc := rc, resume := User), []) && s'.q == s.q
  }

  /** The caller is blocked and will go on at r; the next process runs. */
  ghost predicate Sleeps(s: State, s': State, c: Pid, r: Resume)
    requires c in s.w.procs
  {
    && Blocks(s.w.procs, s'.w.procs, c, s.w.procs[c].(state := Blocked, resume := r), [])
    && Rotates(s.q, s'.q, s.q.ready, s.w.cfg.idle)
    && s'.q.blocked == s.q.blocked + {c} && s'.q.delayed == s.q.delayed && s'.q.dead == s.q.dead
  }

  // -------------------------------------------------------------- processes

  ghost predicate ForkPage(s: State, s': State, c: Pid, child: Pid, framesLeft: bool)
    requires c in s.w.procs
  {
    var live := |s.q.delayed| + |s.q.blocked| + |s.q.ready|;
    && ObjectsStay(s.w, s'.w)
    && if live + (if c in {s.w.cfg.idle, s.w.cfg.init} then 2 else 3) >= MAX_PROCESSES || !framesLeft
       then Answers(s, s', c, ERROR)
       else
         && s'.w.procs.Keys == s.w.procs.Keys + {child}
         && (forall p :: p in s.w.procs && p != c ==> s'.w.procs[p] == s.w.procs[p])
         && s'.w.procs[c] == s.w.procs[c].(rc := child, resume := User, children := s.w.procs[c].children + {child})
         && s'.w.procs[child] == Pcb(state := Ready, waiting := false, delay := 0, parent := Some(c), children := {},
                                     zombies := {}, rc := 0, line := [], got := [], resume := User)
         && GoesOn(s.q, s'.q, [child])
  }

  ghost predicate ExitPage(s: State, s': State, c: Pid)
    requires HasParent(s.w.procs, c)
  {
    var me, par, init := s.w.procs[c], s.w.procs[c].parent.value, s.w.cfg.init;
    var wakes := s.w.procs[par].waiting;
    && ObjectsStay(s.w, s'.w) && s'.w.procs.Keys == s.w.procs.Keys
    && s'.w.procs[c] == me.(state := Dead, waiting := false, children := {}, zombies := {}, resume := User)
    && (forall p :: p in s.w.procs && p != c && p != par ==>
          s'.w.procs[p] == if p in me.children + me.zombies then s.w.procs[p].(parent := Some(init)) else s.w.procs[p])
    && s'.w.procs[par] == (
         var left := s.w.procs[par].(children := s.w.procs[par].children - {c});
         if wakes then left.(state := Ready, waiting := !s.w.cfg.clears) else left.(zombies := left.zombies + {c}))
    && Rotates(s.q, s'.q, s.q.ready + (if wakes then [par] else []), s.w.cfg.idle)
    && s'.q.blocked == s.q.blocked - (if wakes then {par} else {}) && s'.q.delayed == s.q.delayed
    && s'.q.dead == s.q.dead + (if wakes then {} else {c})
  }

  ghost predicate WaitPage(s: State, s': State, c: Pid)
    requires c in s.w.procs
  {
    var me := s.w.procs[c];
    && ObjectsStay(s.w, s'.w)
    && if me.zombies != {} then
         && Blocks(s.w.procs, s'.w.procs, c, me.(zombies := {}, rc := 0, resume := User), [])
         && s'.q == s.q.(dead := s.q.dead - me.zombies)
       else if me.children == {} then Answers(s, s', c, ERROR)
       else
         && Blocks(s.w.procs, s'.w.procs, c, me.(waiting := true, state := Blocked, resume := WaitLoop), [])
         && Rotates(s.q, s'.q, s.q.ready, s.w.cfg.idle)
         && s'.q.blocked == s.q.blocked + {c} && s'.q.delayed == s.q.delayed && s'.q.dead == s.q.dead
  }

  ghost predicate DelayPage(s: State, s': State, c: Pid, n: int)
    requires c in s.w.procs
  {
    && ObjectsStay(s.w, s'.w)
    && if n <= 0 then Answers(s, s', c, if n == 0 then 0 else ERROR) else
         && Blocks(s.w.procs, s'.w.procs, c, s.w.procs[c].(state := Delayed, delay := n, rc := 0), [])
         && Rotates(s.q, s'.q, s.q.ready, s.w.cfg.idle)
         && s'.q.delayed == [c] + s.q.delayed && s'.q.blocked == s.q.blocked && s'.q.dead == s.q.dead
  }

  // ------------------------------------------------------------------ locks

  ghost predicate LockNewPage(s: State, s': State, c: Pid)
    requires c in s.w.procs
  {
    if |s.w.locks| >= MAX_LOCKS then ObjectsStay(s.w, s'.w) && Answers(s, s', c, ERROR) else
      && Answers(s, s', c, s.w.nextId)
      && s'.w == s.w.(procs := s'.w.procs, nextId := s.w.nextId + 1,
                      locks := s.w.locks[s.w.nextId := Lock(owner := UNLOCKED, waiters := [])],
                      releases := s.w.releases[s.w.nextId := 0])
  }

  ghost predicate AcquirePage(s: State, s': State, c: Pid, id: int)
    requires c in s.w.procs
  {
    if id !in s.w.locks || s.w.locks[id].owner == c then ObjectsStay(s.w, s'.w) && Answers(s, s', c, ERROR) else
      var lock := s.w.locks[id];
      if lock.owner == UNLOCKED then
        && Answers(s, s', c, 0)
        && s'.w == s.w.(procs := s'.w.procs, locks := s.w.locks[id := Lock(c, lock.waiters)])
      else
        && Sleeps(s, s', c, LockWait(id))
        && s'.w == s.w.(procs := s'.w.procs, locks := s.w.locks[id := Lock(lock.owner, lock.waiters + [c])])
  }

  ghost predicate ReleasePage(s: State, s': State, c: Pid, id: int)
    requires c in s.w.procs
  {
    if id !in s.w.locks || s.w.locks[id].owner != c then ObjectsStay(s.w, s'.w) && Answers(s, s', c, ERROR) else
      var lock := s.w.locks[id];
      var woken := if lock.waiters == [] then [] else [lock.waiters[0]];
      && Blocks(s.w.procs, s'.w.procs, c, s.w.procs[c].(rc := 0, resume := User), woken)
      && GoesOn(s.q, s'.q, woken)
      && s'.w == s.w.(procs := s'.w.procs, releases := s.w.releases[id := Releases(s.w, id) + 1],
                      locks := s.w.locks[id := if lock.waiters == [] then Lock(UNLOCKED, [])
                                               else Lock(lock.waiters[0], lock.waiters[1..])])
  }

  // ------------------------------------------------------------------ pipes

  ghost predicate PipeNewPage(s: State, s': State, c: Pid)
    requires c in s.w.procs
  {
    if |s.w.pipes| >= MAX_PIPES then ObjectsStay(s.w, s'.w) && Answers(s, s', c, ERROR) else
      && Answers(s, s', c, s.w.nextId)
      && s'.w == s.w.(procs := s'.w.procs, nextId := s.w.nextId + 1,
                      pipes := s.w.pipes[s.w.nextId := Pipe(bytes := [], readers := [], writers := [],
                                                            written := [], taken := [])])
  }

  /** c writes msg to pipe id, at once or on going on: whole, or not yet. */
  ghost predicate PipeWritePage(s: State, s': State, c: Pid, id: int, msg: Bytes)
    requires c in s.w.procs && id in s.w.pipes
  {
    var pipe := s.w.pipes[id];
    if |pipe.bytes| + |msg| > s.w.cfg.pipeLen then
      && Sleeps(s, s', c, PipeWriting(id, msg))
      && s'.w == s.w.(procs := s'.w.procs, pipes := s.w.pipes[id := pipe.(
           writers := if c in pipe.writers then pipe.writers else [c] + pipe.writers)])
    else
      var woken := if pipe.readers == [] then [] else [pipe.readers[0]];
      && Blocks(s.w.procs, s'.w.procs, c, s.w.procs[c].(rc := 0, resume := User), woken)
      && GoesOn(s.q, s'.q, woken) && id in s'.w.pipes
      && s'.w == s.w.(procs := s'.w.procs, pipes := s.w.pipes[id := pipe.(
           bytes := pipe.bytes + msg, written := pipe.written + msg, writers := s'.w.pipes[id].writers,
           readers := if pipe.readers == [] then [] else pipe.readers[1..])])
      && RemovedOnce(pipe.writers, s'.w.pipes[id].writers, c)
  }

  /** after is before with the first p taken out, if there is one. */
  ghost predicate RemovedOnce(before: seq<Pid>, after: seq<Pid>, p: Pid) {
    if p !in before then after == before else exists i :: RemovedAt(before, after, p, i)
  }

  ghost predicate RemovedAt(before: seq<Pid>, after: seq<Pid>, p: Pid, i: int) {
    0 <= i < |before| && before[i] == p && p !in before[..i] && after == before[..i] + before[i + 1..]
  }

  /** c reads up to len bytes from pipe id, or registers if it has just called, and sleeps. */
  ghost predicate PipeReadPage(s: State, s': State, c: Pid, id: int, len: nat, calls: bool)
    requires c in s.w.procs && id in s.w.pipes
  {
    var pipe := s.w.pipes[id];
    if pipe.bytes == [] then
      && Sleeps(s, s', c, PipeReading(id, len))
      && s'.w == s.w.(procs := s'.w.procs, pipes := s.w.pipes[id := pipe.(
           readers := if calls then pipe.readers + [c] else pipe.readers)])
    else
      var n := Min(len, |pipe.bytes|);
      var next := if n < |pipe.bytes| && pipe.readers != [] then [pipe.readers[0]] else [];
      && Blocks(s.w.procs, s'.w.procs, c, s.w.procs[c].(got := pipe.bytes[..n], rc := 0, resume := User),
                next + pipe.writers)
      && GoesOn(s.q, s'.q, next + pipe.writers)
      && s'.w == s.w.(procs := s'.w.procs, pipes := s.w.pipes[id := pipe.(
           bytes := pipe.bytes[n..], taken := pipe.taken + pipe.bytes[..n],
           readers := if next == [] then pipe.readers else pipe.readers[1..])])
  }

  // -------------------------------------------------------------- terminals

  /** c's message from byte start on: the next chunk goes out, or the message is done. */
  ghost predicate SendPage(s: State, s': State, c: Pid, t: nat, msg: Bytes, start: nat)
    requires c in s.w.procs && t < |s.w.ttys|
  {
    var tty := s.w.ttys[t];
    if start < |msg| then
      && Sleeps(s, s', c, Sending(t, msg, start))
      && s'.w == s.w.(procs := s'.w.procs, ttys := s.w.ttys[t := tty.(
           available := false, writer := Some(c), pending := true,
           sent := tty.sent + [msg[start..Min(start + s.w.cfg.maxLine, |msg|)]])])
    else
      var next := if tty.writeQueue == [] then [] else [tty.writeQueue[0]];
      && Blocks(s.w.procs, s'.w.procs, c, s.w.procs[c].(rc := 0, resume := User), next)
      && s'.w == s.w.(procs := s'.w.procs, ttys := s.w.ttys[t := tty.(
           available := true, writer := None, done := tty.done + [msg],
           writeQueue := if next == [] then [] else tty.writeQueue[1..])])
      && if next == [] then s'.q == s.q else
           && Rotates(s.q, s'.q, s.q.ready + next + [c], s.w.cfg.idle)
           && s'.q.blocked == s.q.blocked - Members(next) && s'.q.delayed == s.q.delayed && s'.q.dead == s.q.dead
  }

  /** c wants to write msg: it starts if the terminal is free and queues otherwise. */
  ghost predicate TtyWritePage(s: State, s': State, c: Pid, t: nat, msg: Bytes)
    requires c in s.w.procs && t < |s.w.ttys|
  {
    var tty := s.w.ttys[t];
    if tty.available then SendPage(s, s', c, t, msg, 0) else
      && Sleeps(s, s', c, WriteWait(t, msg))
      && s'.w == s.w.(procs := s'.w.procs, ttys := s.w.ttys[t := tty.(writeQueue := tty.writeQueue + [c])])
  }

  ghost predicate TtyReadPage(s: State, s': State, c: Pid, t: nat, len: nat)
    requires c in s.w.procs && t < |s.w.ttys|
  {
    var tty := s.w.ttys[t];
    if tty.unread == [] then
      && Sleeps(s, s', c, ReadWait(t, len))
      && s'.w == s.w.(procs := s'.w.procs, ttys := s.w.ttys[t := tty.(readers := [c] + tty.readers)])
    else if !(1 <= len <= s.w.cfg.maxLine) then ObjectsStay(s.w, s'.w) && Answers(s, s', c, 0)
    else
      var n := Min(len, |tty.unread|);
      && Blocks(s.w.procs, s'.w.procs, c, s.w.procs[c].(got := tty.unread[..n], rc := 0, resume := User), [])
      && s'.q == s.q
      && s'.w == s.w.(procs := s'.w.procs, ttys := s.w.ttys[t := tty.(unread := tty.unread[n..])])
  }

  /** A reader goes on after its line has come. */
  ghost predicate LinePage(s: State, s': State, c: Pid)
    requires c in s.w.procs
  {
    var me := s.w.procs[c];
    && ObjectsStay(s.w, s'.w) && s'.q == s.q
    && Blocks(s.w.procs, s'.w.procs, c, me.(got := me.line, rc := 0, resume := User), [])
  }

  // ------------------------------------------------------------------ traps

  ghost predicate TransmitPage(s: State, s': State, t: nat)
    requires t < |s.w.ttys|
  {
    var tty := s.w.ttys[t];
    tty.writer.Some? && tty.writer.value in s.w.procs
    && var p := tty.writer.value;
       && Blocks(s.w.procs, s'.w.procs, p, s.w.procs[p].(state := Ready), [])
       && GoesOn(s.q, s'.q, [p])
       && s'.w == s.w.(procs := s'.w.procs, ttys := s.w.ttys[t := tty.(pending := false)])
  }

  /** Every waiting reader gets what it asked for; what lies beyond the longest of these stays. */
  ghost predicate ReceivePage(s: State, s': State, t: nat, line: Bytes)
    requires t < |s.w.ttys|
  {
    var tty := s.w.ttys[t];
    if !(1 <= |line| <= s.w.cfg.maxLine) then s' == s else
      && s'.w.procs.Keys == s.w.procs.Keys
      && (forall p :: p in s.w.procs && p !in tty.readers ==> s'.w.procs[p] == s.w.procs[p])
      && (forall p :: p in s.w.procs && p in tty.readers ==>
            && s.w.procs[p].resume.ReadWait?
            && s'.w.procs[p] == s.w.procs[p].(state := Ready, line := line[..Min(s.w.procs[p].resume.len, |line|)]))
      && GoesOn(s.q, s'.q, tty.readers)
      && |s'.w.ttys| == |s.w.ttys|
      && s'.w == s.w.(procs := s'.w.procs, ttys := s.w.ttys[t := tty.(readers := [], unread := s'.w.ttys[t].unread)])
      && BeyondAll(s.w.procs, tty.readers, line, s'.w.ttys[t].unread)
  }

  /** rest is what is left of line after the longest request of these readers. */
  ghost predicate BeyondAll(procs: map<Pid, Pcb>, readers: seq<Pid>, line: Bytes, rest: Bytes) {
    && |rest| <= |line| && rest == line[|line| - |rest|..]
    && (forall p :: p in readers ==> Covered(procs, p, |line|, |line| - |rest|))
    && if readers == [] then rest == line
       else exists p :: p in readers && Attained(procs, p, |line|, |line| - |rest|)
  }

  ghost predicate Covered(procs: map<Pid, Pcb>, p: Pid, n: nat, taken: nat) {
    p in procs && procs[p].resume.ReadWait? && Min(procs[p].resume.len, n) <= taken
  }

  ghost predicate Attained(procs: map<Pid, Pcb>, p: Pid, n: nat, taken: nat) {
    p in procs && procs[p].resume.ReadWait? && Min(procs[p].resume.len, n) == taken
  }

  /** Every sleeper loses a tick; those at zero line up, in list order, before the interrupted process. */
  ghost predicate ClockPage(s: State, s': State, c: Pid) {
    && ObjectsStay(s.w, s'.w) && s'.w.procs.Keys == s.w.procs.Keys
    && (forall p :: p in s.w.procs && p !in s.q.delayed ==> s'.w.procs[p] == s.w.procs[p])
    && (forall p :: p in s.w.procs && p in s.q.delayed ==>
          s'.w.procs[p] == s.w.procs[p].(delay := s.w.procs[p].delay - 1,
                                         state := if s.w.procs[p].delay <= 1 then Ready else s.w.procs[p].state))
    && Rotates(s.q, s'.q, s.q.ready + Due(s.w.procs, s.q.delayed, true) + [c], s.w.cfg.idle)
    && s'.q.delayed == Due(s.w.procs, s.q.delayed, false)
    && s'.q.blocked == s.q.blocked && s'.q.dead == s.q.dead
  }

  /** The sleepers on their last tick, or the others, in order. */
  ghost function Due(procs: map<Pid, Pcb>, ps: seq<Pid>, last: bool): seq<Pid> {
    if ps == [] then [] else
      var p := ps[|ps| - 1];
      Due(procs, ps[..|ps| - 1], last) + if (p in procs && procs[p].delay <= 1) == last then [p] else []
  }

  // ------------------------------------------------------------- the manual

  ghost predicate ContinuePage(s: State, s': State, c: Pid)
    requires c in s.w.procs && Resumable(s.w, s.w.procs[c].resume)
  {
    match s.w.procs[c].resume
    case LockWait(_) => ObjectsStay(s.w, s'.w) && Answers(s, s', c, 0)
    case WaitLoop => ObjectsStay(s.w, s'.w) && Answers(s, s', c, 0)
    case WriteWait(t, msg) => TtyWritePage(s, s', c, t, msg)
    case Sending(t, msg, start) => SendPage(s, s', c, t, msg, start + s.w.cfg.maxLine)
    case ReadWait(_, _) => LinePage(s, s', c)
    case PipeReading(id, len) => PipeReadPage(s, s', c, id, len, false)
    case PipeWriting(id, msg) => PipeWritePage(s, s', c, id, msg)
  }

  ghost predicate Page(s: State, e: Event, s': State)
    requires Enabled(s, e)
  {
    var c := s.q.current.value;
    match e
    case Fork(child, framesLeft) => ForkPage(s, s', c, child, framesLeft)
    case Exit(_) => ExitPage(s, s', c)
    case Wait => WaitPage(s, s', c)
    case Delay(n) => DelayPage(s, s', c, n)
    case LockNew => LockNewPage(s, s', c)
    case Acquire(id) => AcquirePage(s, s', c, id)
    case Release(id) => ReleasePage(s, s', c, id)
    case PipeNew => PipeNewPage(s, s', c)
    case PipeWrite(id, msg) =>
      if id !in s.w.pipes || |msg| > s.w.cfg.pipeLen then ObjectsStay(s.w, s'.w) && Answers(s, s', c, ERROR)
      else PipeWritePage(s, s', c, id, msg)
    case PipeRead(id, len) =>
      if id !in s.w.pipes then ObjectsStay(s.w, s'.w) && Answers(s, s', c, ERROR)
      else PipeReadPage(s, s', c, id, len, true)
    case TtyWrite(t, msg) => TtyWritePage(s, s', c, t, msg)
    case TtyRead(t, len) => TtyReadPage(s, s', c, t, len)
    case Continue => ContinuePage(s, s', c)
    case Clock => ClockPage(s, s', c)
    case Transmit(t) => TransmitPage(s, s', t)
    case Receive(t, line) => ReceivePage(s, s', t, line)
  }
}
