/**
 * The kernel as a step system. Handlers run to completion except where they call
 * the scheduler, so one step is the code between two scheduler calls. What a process
 * still has to do when the scheduler comes back to it sits on its kernel stack; that
 * is the `resume` field of its process control block.
 */
module Kernel {
  import opened Types

  const MAX_PROCESSES := 128
  const MAX_LOCKS := 16
  const MAX_PIPES := 16
  const UNLOCKED := -1

  // ---------------------------------------------------------------- data

  /** RUNNING is declared by the source but never assigned. */
  datatype RunState = Ready | Blocked | Dead | Delayed

  /** Where a process continues when it is dispatched. */
  datatype Resume =
    | User                                          // back to user mode
    | LockWait(id: int)                             // queued on a lock
    | WriteWait(t: nat, msg: Bytes)                 // top of the availability loop
    | Sending(t: nat, msg: Bytes, start: nat)       // after transmitting the chunk at start
    | ReadWait(t: nat, len: nat)                    // waiting for a terminal line
    | WaitLoop                                      // waiting for a child
    | PipeReading(id: int, len: nat)                // loop around an empty pipe
    | PipeWriting(id: int, msg: Bytes)              // loop around a full pipe

  /** rc is the value left in the first user register, got the user's read buffer. */
  datatype Pcb = Pcb(
    state: RunState,
    waiting: bool,
    delay: int,
    parent: Option<Pid>,
    children: set<Pid>,
    zombies: set<Pid>,
    rc: int,
    line: Bytes,
    got: Bytes,
    resume: Resume)

  datatype Lock = Lock(owner: int, waiters: seq<Pid>)

  /** The last three fields record history: an outstanding transmission, the chunks
      handed to the terminal, and the messages written to the end. */
  datatype Tty = Tty(
    available: bool,
    writer: Option<Pid>,
    writeQueue: seq<Pid>,
    readers: seq<Pid>,
    unread: Bytes,
    pending: bool,
    sent: seq<Bytes>,
    done: seq<Bytes>)

  /** written and taken record everything that went in and out. */
  datatype Pipe = Pipe(
    bytes: Bytes,
    readers: seq<Pid>,
    writers: seq<Pid>,
    written: Bytes,
    taken: Bytes)

  /** The scheduler's containers. `delayed` is in list order, newest first. `reserve`
      holds until the idle process has run once. `switches` counts scheduler calls. */
  datatype Queues = Queues(
    current: Option<Pid>,
    ready: seq<Pid>,
    blocked: set<Pid>,
    delayed: seq<Pid>,
    dead: set<Pid>,
    reserve: bool,
    switches: nat)

  /** clears says whether exit resets the `waiting` flag of the parent it wakes. The
      source never does; the intended kernel would. */
  datatype Config = Config(init: Pid, idle: Pid, maxLine: nat, pipeLen: nat, clears: bool)

  /** Control blocks and objects. `releases` counts the successful releases of each
      lock. */
  datatype World = World(
    cfg: Config,
    procs: map<Pid, Pcb>,
    locks: map<int, Lock>,
    pipes: map<int, Pipe>,
    ttys: seq<Tty>,
    nextId: nat,
    releases: map<int, nat>)

  datatype State = State(q: Queues, w: World)

  datatype Event =
    | Fork(child: Pid, framesLeft: bool)
    | Exit(status: int)
    | Wait
    | Delay(clockTicks: int)
    | LockNew
    | Acquire(id: int)
    | Release(id: int)
    | PipeNew
    | PipeWrite(id: int, msg: Bytes)
    | PipeRead(id: int, len: nat)
    | TtyWrite(t: nat, msg: Bytes)
    | TtyRead(t: nat, len: nat)
    | Continue                             // the current process goes on in the kernel
    | Clock
    | Transmit(t: nat)
    | Receive(t: nat, line: Bytes)

  // ------------------------------------------------------------ scheduler

  /** enqueue_current_process: set_insert puts new entries at the head. */
  function Enqueue(q: Queues, procs: map<Pid, Pcb>): Queues
    requires q.current.Some? ==> q.current.value in procs
  {
    if q.current.None? then q else
      var c := q.current.value;
      match procs[c].state
      case Ready => q.(ready := q.ready + [c])
      case Dead => q.(dead := q.dead + {c})
      case Blocked => q.(blocked := q.blocked + {c})
      case Delayed => q.(delayed := if c in q.delayed then q.delayed else [c] + q.delayed)
  }

  /** ScheduleNextProcess. */
  function Dispatch(q: Queues, w: World): Queues
    requires q.current.Some? ==> q.current.value in w.procs
  {
    var n := q.switches + 1;
    if q.ready != [] then
      var next := q.ready[0];
      Enqueue(q.(ready := q.ready[1..]), w.procs).(current := Some(next), switches := n)
    else
      var e := Enqueue(q, w.procs);
      if e.ready != []
      then e.(ready := e.ready[1..], switches := n)
      else e.(current := Some(w.cfg.idle), reserve := false, switches := n)
  }

  function Schedule(s: State): State
    requires s.q.current.Some? ==> s.q.current.value in s.w.procs
  {
    s.(q := Dispatch(s.q, s.w))
  }

  // -------------------------------------------------------- building blocks

  predicate Alive(procs: map<Pid, Pcb>, p: Pid) {
    p in procs && procs[p].state != Dead
  }

  function SetPcb(s: State, p: Pid, pcb: Pcb): State {
    s.(w := s.w.(procs := s.w.procs[p := pcb]))
  }

  /** Return to user mode with the given value. */
  function Return(s: State, c: Pid, rc: int): State
    requires c in s.w.procs
  {
    SetPcb(s, c, s.w.procs[c].(rc := rc, resume := User))
  }

  /** Mark the current process blocked and call the scheduler. */
  function Block(s: State, c: Pid, r: Resume): State
    requires s.q.current == Some(c) && c in s.w.procs
  {
    Schedule(SetPcb(s, c, s.w.procs[c].(state := Blocked, resume := r)))
  }

  /** Mark every process of ps ready. */
  function MakeReady(procs: map<Pid, Pcb>, ps: seq<Pid>): map<Pid, Pcb> {
    map p | p in procs :: if p in ps then procs[p].(state := Ready) else procs[p]
  }

  /** Move the processes of ps, in order, from the blocked set to the ready queue. */
  function Wake(s: State, ps: seq<Pid>): State {
    State(s.q.(ready := s.q.ready + ps, blocked := s.q.blocked - Members(ps)),
          s.w.(procs := MakeReady(s.w.procs, ps)))
  }

  // ------------------------------------------------------------- processes

  /** Fork's estimate of how many processes there would be. */
  function Estimate(s: State, c: Pid): int {
    |s.q.delayed| + |s.q.blocked| + |s.q.ready| +
    (if c == s.w.cfg.idle || c == s.w.cfg.init then 2 else 3)
  }

  function NewPcb(parent: Pid): Pcb {
    Pcb(Ready, false, 0, Some(parent), {}, {}, 0, [], [], User)
  }

  /** The control blocks after c has forked child: its own first register gets the
      child's pid, the child's stays 0. */
  function AfterBirth(procs: map<Pid, Pcb>, c: Pid, child: Pid): map<Pid, Pcb>
    requires c in procs
  {
    procs[c := procs[c].(children := procs[c].children + {child}, rc := child, resume := User)]
         [child := NewPcb(c)]
  }

  function ForkStep(s: State, c: Pid, child: Pid, framesLeft: bool): State
    requires c in s.w.procs && child !in s.w.procs
  {
    if Estimate(s, c) >= MAX_PROCESSES || !framesLeft then Return(s, c, ERROR) else
      State(s.q.(ready := s.q.ready + [child]),
            s.w.(procs := AfterBirth(s.w.procs, c, child)))
  }

  /** pcbOrphanChildren: the children and zombies of a dying process go to init. */
  function Orphan(procs: map<Pid, Pcb>, lost: set<Pid>, init: Pid): map<Pid, Pcb> {
    map p | p in procs :: if p in lost then procs[p].(parent := Some(init)) else procs[p]
  }

  /** The control blocks after c has died. The source never resets `waiting`; clear
      says whether waking the parent resets it. */
  function AfterDeath(procs: map<Pid, Pcb>, init: Pid, c: Pid, clear: bool): map<Pid, Pcb>
    requires HasParent(procs, c)
  {
    var me := procs[c];
    var par := me.parent.value;
    var orphaned := Orphan(procs, me.children + me.zombies, init);
    var gone := orphaned[c].(state := Dead, waiting := false, children := {}, zombies := {}, resume := User);
    var procs1 := orphaned[c := gone];
    var pp := procs1[par].(children := procs1[par].children - {c});
    procs1[par := if pp.waiting then pp.(state := Ready, waiting := !clear)
                  else pp.(zombies := pp.zombies + {c})]
  }

  /** ExitHandler up to the scheduler call that follows it. */
  function BeforeExitSchedules(s: State, c: Pid): State
    requires s.q.current == Some(c) && HasParent(s.w.procs, c)
  {
    var par := s.w.procs[c].parent.value;
    var q := if s.w.procs[par].waiting
             then s.q.(current := None, ready := s.q.ready + [par], blocked := s.q.blocked - {par})
             else s.q.(current := None, dead := s.q.dead + {c});
    State(q, s.w.(procs := AfterDeath(s.w.procs, s.w.cfg.init, c, s.w.cfg.clears)))
  }

  /** Exit changes two states: the caller dies and a waiting parent becomes ready. */
  lemma ExitStates(procs: map<Pid, Pcb>, init: Pid, c: Pid, clear: bool)
    requires HasParent(procs, c)
    ensures var procs' := AfterDeath(procs, init, c, clear);
            var par := procs[c].parent.value;
            && procs'.Keys == procs.Keys && procs'[c].state == Dead
            && (forall p :: p in procs && p != c && p != par ==>
                  && procs'[p].state == procs[p].state && procs'[p].resume == procs[p].resume
                  && procs'[p].waiting == procs[p].waiting)
            && procs'[par].waiting == (if procs[par].waiting then !clear else procs[par].waiting)
            && procs'[par].state == (if procs[par].waiting then Ready else procs[par].state)
            && procs'[par].resume == procs[par].resume
  {
  }

  /** Exit and the scheduler call that follows it. */
  function ExitStep(s: State, c: Pid): State
    requires s.q.current == Some(c) && HasParent(s.w.procs, c)
  {
    Schedule(BeforeExitSchedules(s, c))
  }

  /** WaitHandler: one call collects every zombie. */
  function WaitStep(s: State, c: Pid): State
    requires s.q.current == Some(c) && c in s.w.procs
  {
    var me := s.w.procs[c];
    if me.zombies != {} then
      var s1 := SetPcb(s, c, me.(zombies := {}));
      Return(s1.(q := s1.q.(dead := s1.q.dead - me.zombies)), c, 0)
    else if me.children == {} then Return(s, c, ERROR)
    else Block(SetPcb(s, c, me.(waiting := true)), c, WaitLoop)
  }

  function DelayStep(s: State, c: Pid, n: int): State
    requires s.q.current == Some(c) && c in s.w.procs
  {
    if n == 0 then Return(s, c, 0)
    else if n < 0 then Return(s, c, ERROR)
    else Schedule(SetPcb(s, c, s.w.procs[c].(delay := n, state := Delayed, rc := 0)))
  }

  // ----------------------------------------------------------------- locks

  function LockNewStep(s: State, c: Pid): State
    requires c in s.w.procs
  {
    if |s.w.locks| >= MAX_LOCKS then Return(s, c, ERROR) else
      var id := s.w.nextId;
      Return(s.(w := s.w.(locks := s.w.locks[id := Lock(UNLOCKED, [])], nextId := id + 1,
                          releases := s.w.releases[id := 0])), c, id)
  }

  function AcquireStep(s: State, c: Pid, id: int): State
    requires s.q.current == Some(c) && c in s.w.procs
  {
    if id !in s.w.locks then Return(s, c, ERROR) else
      var lock := s.w.locks[id];
      if lock.owner == UNLOCKED then
        Return(s.(w := s.w.(locks := s.w.locks[id := lock.(owner := c)])), c, 0)
      else if lock.owner == c then Return(s, c, ERROR)
      else
        Block(s.(w := s.w.(locks := s.w.locks[id := lock.(waiters := lock.waiters + [c])])),
              c, LockWait(id))
  }

  function Releases(w: World, id: int): nat {
    if id in w.releases then w.releases[id] else 0
  }

  function ReleaseStep(s: State, c: Pid, id: int): State
    requires c in s.w.procs
  {
    if id !in s.w.locks || s.w.locks[id].owner != c then Return(s, c, ERROR) else
      var lock := s.w.locks[id];
      var counted := s.w.releases[id := Releases(s.w, id) + 1];
      if lock.waiters == [] then
        Return(s.(w := s.w.(locks := s.w.locks[id := lock.(owner := UNLOCKED)],
                            releases := counted)), c, 0)
      else
        var next := lock.waiters[0];
        var s1 := s.(w := s.w.(locks := s.w.locks[id := Lock(next, lock.waiters[1..])],
                               releases := counted));
        Return(Wake(s1, [next]), c, 0)
  }

  // ----------------------------------------------------------------- pipes

  function PipeNewStep(s: State, c: Pid): State
    requires c in s.w.procs
  {
    if |s.w.pipes| >= MAX_PIPES then Return(s, c, ERROR) else
      var id := s.w.nextId;
      Return(s.(w := s.w.(pipes := s.w.pipes[id := Pipe([], [], [], [], [])], nextId := id + 1)), c, id)
  }

  function SetPipe(s: State, id: int, pipe: Pipe): State {
    s.(w := s.w.(pipes := s.w.pipes[id := pipe]))
  }

  function Without(ps: seq<Pid>, p: Pid): seq<Pid> {
    if ps == [] then []
    else if ps[0] == p then ps[1..]
    else [ps[0]] + Without(ps[1..], p)
  }

  /** One pass through the loop of pipe_write. */
  function PipeWriteLoop(s: State, c: Pid, id: int, msg: Bytes): State
    requires s.q.current == Some(c) && c in s.w.procs && id in s.w.pipes
  {
    var pipe := s.w.pipes[id];
    if |msg| + |pipe.bytes| > s.w.cfg.pipeLen then Block(s, c, PipeWriting(id, msg)) else
      var filled := pipe.(bytes := pipe.bytes + msg, written := pipe.written + msg,
                          writers := Without(pipe.writers, c), readers := Drop(pipe.readers, 1));
      Return(Wake(SetPipe(s, id, filled), Take(pipe.readers, 1)), c, 0)
  }

  function PipeWriteStep(s: State, c: Pid, id: int, msg: Bytes): State
    requires s.q.current == Some(c) && c in s.w.procs
  {
    if id !in s.w.pipes || |msg| > s.w.cfg.pipeLen then Return(s, c, ERROR) else
      var pipe := s.w.pipes[id];
      if |msg| + |pipe.bytes| > s.w.cfg.pipeLen && c !in pipe.writers
      then PipeWriteLoop(SetPipe(s, id, pipe.(writers := [c] + pipe.writers)), c, id, msg)
      else PipeWriteLoop(s, c, id, msg)
  }

  /** One pass through the loop of pipe_read. Every registered writer is pushed on the
      ready queue, blocked or not. */
  function PipeReadLoop(s: State, c: Pid, id: int, len: nat): State
    requires s.q.current == Some(c) && c in s.w.procs && id in s.w.pipes
  {
    var pipe := s.w.pipes[id];
    if pipe.bytes == [] then Block(s, c, PipeReading(id, len)) else
      var rest := Drop(pipe.bytes, len);
      var got := Take(pipe.bytes, len);
      var n := if rest != [] then 1 else 0;
      var s1 := SetPipe(s, id, pipe.(bytes := rest, taken := pipe.taken + got,
                                     readers := Drop(pipe.readers, n)));
      var s2 := SetPcb(s1, c, s1.w.procs[c].(got := got, rc := 0, resume := User));
      Wake(s2, Take(pipe.readers, n) + pipe.writers)
  }

  function PipeReadStep(s: State, c: Pid, id: int, len: nat): State
    requires s.q.current == Some(c) && c in s.w.procs
  {
    if id !in s.w.pipes then Return(s, c, ERROR) else
      var pipe := s.w.pipes[id];
      if pipe.bytes == []
      then PipeReadLoop(SetPipe(s, id, pipe.(readers := pipe.readers + [c])), c, id, len)
      else PipeReadLoop(s, c, id, len)
  }

  // ------------------------------------------------------------- terminals

  function SetTty(s: State, t: nat, tty: Tty): State
    requires t < |s.w.ttys|
  {
    s.(w := s.w.(ttys := s.w.ttys[t := tty]))
  }

  /** The availability loop of TtyWriteHandler. */
  function WriteTop(s: State, c: Pid, t: nat, msg: Bytes): State
    requires s.q.current == Some(c) && c in s.w.procs && t < |s.w.ttys|
  {
    var tty := s.w.ttys[t];
    if !tty.available then
      Block(SetTty(s, t, tty.(writeQueue := tty.writeQueue + [c])), c, WriteWait(t, msg))
    else
      SendFrom(SetTty(s, t, tty.(available := false, writer := Some(c))), c, t, msg, 0)
  }

  /** The transmit loop of TtyWriteHandler from byte start on. */
  function SendFrom(s: State, c: Pid, t: nat, msg: Bytes, start: nat): State
    requires s.q.current == Some(c) && c in s.w.procs && t < |s.w.ttys|
  {
    var tty := s.w.ttys[t];
    if start < |msg| then
      var chunk := Take(msg[start..], s.w.cfg.maxLine);
      Block(SetTty(s, t, tty.(writer := Some(c), pending := true, sent := tty.sent + [chunk])),
            c, Sending(t, msg, start))
    else
      var free := tty.(available := true, writer := None, done := tty.done + [msg]);
      if tty.writeQueue == [] then Return(SetTty(s, t, free), c, 0)
      else
        var s1 := Wake(SetTty(s, t, free.(writeQueue := tty.writeQueue[1..])), [tty.writeQueue[0]]);
        Schedule(Return(s1, c, 0))
  }

  /** tty_buffer_consume: requests outside 1..maxLine do nothing. */
  function InRange(w: World, len: nat): bool {
    1 <= len <= w.cfg.maxLine
  }

  function ReadStep(s: State, c: Pid, t: nat, len: nat): State
    requires s.q.current == Some(c) && c in s.w.procs && t < |s.w.ttys|
  {
    var tty := s.w.ttys[t];
    if tty.unread != [] then
      if InRange(s.w, len) then
        var s1 := SetTty(s, t, tty.(unread := Drop(tty.unread, len)));
        Return(SetPcb(s1, c, s1.w.procs[c].(got := Take(tty.unread, len))), c, 0)
      else Return(s, c, 0)
    else
      Block(SetTty(s, t, tty.(readers := if c in tty.readers then tty.readers else [c] + tty.readers)),
            c, ReadWait(t, len))
  }

  /** The rest of TtyReadHandler, once the line has come. */
  function ReadResume(s: State, c: Pid, t: nat): State
    requires c in s.w.procs && t < |s.w.ttys|
  {
    var tty := s.w.ttys[t];
    var s1 := SetTty(s, t, tty.(readers := Without(tty.readers, c)));
    Return(SetPcb(s1, c, s1.w.procs[c].(got := s1.w.procs[c].line)), c, 0)
  }

  function TransmitStep(s: State, t: nat): State
    requires t < |s.w.ttys|
  {
    var tty := s.w.ttys[t];
    if tty.writer.None? then SetTty(s, t, tty.(available := true, pending := false))
    else Wake(SetTty(s, t, tty.(pending := false)), [tty.writer.value])
  }

  function Requested(procs: map<Pid, Pcb>, p: Pid): nat {
    if p in procs && procs[p].resume.ReadWait? then procs[p].resume.len else 0
  }

  /** What the given readers asked for. */
  function Requests(procs: map<Pid, Pcb>, readers: seq<Pid>): (requests: seq<nat>)
    ensures |requests| == |readers|
  {
    seq(|readers|, i requires 0 <= i < |readers| => Requested(procs, readers[i]))
  }

  /** Copy to every reader the prefix it asked for. */
  function Deliver(procs: map<Pid, Pcb>, readers: seq<Pid>, line: Bytes): map<Pid, Pcb> {
    map p | p in procs ::
      if p in readers then procs[p].(line := Take(line, Requested(procs, p))) else procs[p]
  }

  /** tty_handle_received. */
  function ReceiveStep(s: State, t: nat, line: Bytes): State
    requires t < |s.w.ttys|
  {
    if |line| < 1 || |line| > s.w.cfg.maxLine then s else
      var tty := s.w.ttys[t];
      var taken := Longest(Requests(s.w.procs, tty.readers), |line|);
      var s1 := SetTty(s, t, tty.(readers := [], unread := Drop(line, taken)));
      Wake(s1.(w := s1.w.(procs := Deliver(s1.w.procs, tty.readers, line))), tty.readers)
  }

  // ----------------------------------------------------------------- clock

  predicate Expires(procs: map<Pid, Pcb>, p: Pid) {
    p in procs && procs[p].delay - 1 <= 0
  }

  function Expired(procs: map<Pid, Pcb>, ps: seq<Pid>): seq<Pid> {
    if ps == [] then []
    else (if Expires(procs, ps[0]) then [ps[0]] else []) + Expired(procs, ps[1..])
  }

  function Unexpired(procs: map<Pid, Pcb>, ps: seq<Pid>): seq<Pid> {
    if ps == [] then []
    else (if Expires(procs, ps[0]) then [] else [ps[0]]) + Unexpired(procs, ps[1..])
  }

  lemma {:induction false} ExpirySnoc(procs: map<Pid, Pcb>, ps: seq<Pid>, p: Pid)
    ensures Expired(procs, ps + [p]) == Expired(procs, ps) + if Expires(procs, p) then [p] else []
    ensures Unexpired(procs, ps + [p]) == Unexpired(procs, ps) + if Expires(procs, p) then [] else [p]
  {
    if ps != [] {
      ExpirySnoc(procs, ps[1..], p);
      assert (ps + [p])[1..] == ps[1..] + [p];
    }
  }

  function Tick(procs: map<Pid, Pcb>, delayed: seq<Pid>): map<Pid, Pcb> {
    map p | p in procs ::
      if p in delayed then
        procs[p].(delay := procs[p].delay - 1,
                  state := if Expires(procs, p) then Ready else procs[p].state)
      else procs[p]
  }

  /** TrapClockHandler up to its scheduler call. */
  function AfterTick(s: State): State {
    State(
      s.q.(delayed := Unexpired(s.w.procs, s.q.delayed),
           ready := s.q.ready + Expired(s.w.procs, s.q.delayed)),
      s.w.(procs := Tick(s.w.procs, s.q.delayed)))
  }

  function ClockStep(s: State): State
    requires s.q.current.Some? ==> s.q.current.value in s.w.procs
  {
    Schedule(AfterTick(s))
  }

  // ------------------------------------------------------------- all steps

  predicate Resumable(w: World, r: Resume) {
    match r
    case User => false
    case LockWait(_) => true
    case WaitLoop => true
    case WriteWait(t, _) => t < |w.ttys|
    case Sending(t, _, _) => t < |w.ttys|
    case ReadWait(t, _) => t < |w.ttys|
    case PipeReading(id, _) => id in w.pipes
    case PipeWriting(id, _) => id in w.pipes
  }

  function ContinueStep(s: State, c: Pid): State
    requires s.q.current == Some(c) && c in s.w.procs && Resumable(s.w, s.w.procs[c].resume)
  {
    match s.w.procs[c].resume
    case LockWait(_) => Return(s, c, 0)
    case WaitLoop => Return(s, c, 0)
    case WriteWait(t, msg) => WriteTop(s, c, t, msg)
    case Sending(t, msg, start) => SendFrom(s, c, t, msg, start + s.w.cfg.maxLine)
    case ReadWait(t, _) => ReadResume(s, c, t)
    case PipeReading(id, len) => PipeReadLoop(s, c, id, len)
    case PipeWriting(id, msg) => PipeWriteLoop(s, c, id, msg)
  }

  predicate HasParent(procs: map<Pid, Pcb>, c: Pid) {
    && c in procs && procs[c].parent.Some?
    && procs[c].parent.value in procs && procs[c].parent.value != c
  }

  /** Traps, and going on inside the kernel, are not chosen by a user program. */
  predicate FromUser(e: Event) {
    !e.Clock? && !e.Transmit? && !e.Receive? && !e.Continue?
  }

  /** Which steps can happen. The idle process only pauses, init's exit halts the
      machine, fresh pids are unused, and one transmit trap answers one transmission. */
  predicate Enabled(s: State, e: Event) {
    && s.q.current.Some? && s.q.current.value in s.w.procs
    && var c := s.q.current.value;
       && (FromUser(e) ==> c != s.w.cfg.idle && s.w.procs[c].resume == User)
       && match e
          case Fork(child, _) => child !in s.w.procs
          case Exit(_) => c != s.w.cfg.init && HasParent(s.w.procs, c)
          case TtyWrite(t, _) => t < |s.w.ttys|
          case TtyRead(t, _) => t < |s.w.ttys|
          case Transmit(t) => t < |s.w.ttys| && s.w.ttys[t].pending
          case Receive(t, line) => t < |s.w.ttys|
          case Continue => Resumable(s.w, s.w.procs[c].resume)
          case _ => true
  }

  function Apply(s: State, e: Event): State
    requires Enabled(s, e)
  {
    var c := s.q.current.value;
    match e
    case Fork(child, framesLeft) => ForkStep(s, c, child, framesLeft)
    case Exit(_) => ExitStep(s, c)
    case Wait => WaitStep(s, c)
    case Delay(n) => DelayStep(s, c, n)
    case LockNew => LockNewStep(s, c)
    case Acquire(id) => AcquireStep(s, c, id)
    case Release(id) => ReleaseStep(s, c, id)
    case PipeNew => PipeNewStep(s, c)
    case PipeWrite(id, msg) => PipeWriteStep(s, c, id, msg)
    case PipeRead(id, len) => PipeReadStep(s, c, id, len)
    case TtyWrite(t, msg) => WriteTop(s, c, t, msg)
    case TtyRead(t, len) => ReadStep(s, c, t, len)
    case Continue => ContinueStep(s, c)
    case Clock => ClockStep(s)
    case Transmit(t) => TransmitStep(s, t)
    case Receive(t, line) => ReceiveStep(s, t, line)
  }

  function NewTty(): Tty {
    Tty(true, None, [], [], [], false, [], [])
  }

  /** After KernelStart: init is current, idle waits in reserve. */
  function Boot(cfg: Config, terminals: nat): State {
    var blank := Pcb(Ready, false, 0, None, {}, {}, 0, [], [], User);
    State(
      Queues(Some(cfg.init), [], {}, [], {}, true, 0),
      World(cfg, map[cfg.init := blank, cfg.idle := blank], map[], map[],
            seq(terminals, _ => NewTty()), 0, map[]))
  }
}
