/**
 * Processes and frames together. Every process, live or dead, has an address space, numbered in the
 * order of creation. A fork takes the frames of its child or is refused because they are not there;
 * an exit gives frames back; the scheduler's choice of a process switches stacks.
 */
module Joint {
  import opened Types
  import K = Kernel
  import F = Frames
  import KI = Invariant
  import Placement
  import Exactness
  import Kinship
  import Family
  import Capacity
  import Ownership
  import Losses
  import FrameRuns
  import Sharing

  /** numbers says which address space belongs to which process. */
  datatype State = State(s: K.State, m: F.Mem, numbers: map<Pid, nat>)

  /** A step of the kernel other than exit; an exit, while which the kernel heap may grow, from page
      first up to end, before the scheduler runs; a step of the current process's or the kernel's
      memory alone. */
  datatype Event =
    | Call(e: K.Event)
    | Die(status: int, first: nat, end: nat)
    | Memory(step: F.Event)

  // ------------------------------------------------------------------ invariant

  /** Each process has a space of its own, each space a process, and both live or neither. */
  ghost predicate Numbered(procs: map<Pid, K.Pcb>, m: F.Mem, numbers: map<Pid, nat>) {
    && numbers.Keys == procs.Keys
    && (forall p :: p in numbers ==> numbers[p] < |m.spaces|)
    && (forall p :: p in numbers ==> (K.Alive(procs, p) <==> F.Alive(m, numbers[p])))
    && (forall p, q :: p in numbers && q in numbers && p != q ==> numbers[p] != numbers[q])
    && (forall n :: 0 <= n < |m.spaces| ==> n in numbers.Values)
  }

  ghost predicate Runs(q: K.Queues, m: F.Mem, numbers: map<Pid, nat>) {
    q.current.Some? && q.current.value in numbers && m.current == Some(numbers[q.current.value])
  }

  ghost predicate Inv(j: State) {
    && KI.Inv(j.s) && F.Inv(j.m)
    && Numbered(j.s.w.procs, j.m, j.numbers) && Runs(j.s.q, j.m, j.numbers)
    && j.s.w.cfg.init in j.numbers && j.numbers[j.s.w.cfg.init] == 0
  }

  // ---------------------------------------------------------------------- steps

  /** Whether fork finds frames is no longer an input: it does exactly if they are in the queue. */
  ghost predicate Enabled(j: State, ev: Event)
    requires Inv(j)
  {
    match ev
    case Call(e) =>
      && !e.Exit? && K.Enabled(j.s, e) && KI.Safe(j.s, e)
      && (e.Fork? ==> e.framesLeft == Losses.ForkFits(j.m))
    case Die(status, first, end) =>
      && K.Enabled(j.s, K.Exit(status)) && KI.Safe(j.s, K.Exit(status))
      && end <= |j.m.low| - F.KSTACK
    case Memory(e) =>
      F.Enabled(j.m, e) && (e.ExpandHeap? || e.Brk? || e.GrowStack? || e.Exec?)
  }

  /** KCSwitch to process p. */
  ghost function SwitchTo(m: F.Mem, numbers: map<Pid, nat>, p: Option<Pid>): F.Mem {
    if p.Some? && p.value in numbers && numbers[p.value] < |m.spaces|
    then F.SwitchStep(m, numbers[p.value]) else m
  }

  /** Fork leaves the frames alone where its estimate refuses. */
  ghost function ForkFrames(j: State): F.Mem
    requires Inv(j)
  {
    if K.Estimate(j.s, j.s.q.current.value) >= K.MAX_PROCESSES then j.m else F.ForkStep(j.m)
  }

  ghost function Apply(j: State, ev: Event): State
    requires Inv(j) && Enabled(j, ev)
  {
    match ev
    case Call(e) =>
      var s' := K.Apply(j.s, e);
      if e.Fork? then
        var m' := ForkFrames(j);
        State(s', m', if |m'.spaces| > |j.m.spaces| then j.numbers[e.child := |j.m.spaces|] else j.numbers)
      else
        State(s', if s'.q.current == j.s.q.current then j.m else SwitchTo(j.m, j.numbers, s'.q.current), j.numbers)
    case Die(status, first, end) =>
      var s' := K.Apply(j.s, K.Exit(status));
      State(s', SwitchTo(F.HeapStep(F.ExitStep(j.m), first, end), j.numbers, s'.q.current), j.numbers)
    case Memory(e) =>
      j.(m := F.Apply(j.m, e))
  }

  // ------------------------------------------------------ steps and address spaces

  ghost predicate SameSpaces(m: F.Mem, m': F.Mem) {
    |m'.spaces| == |m.spaces| && forall n :: 0 <= n < |m.spaces| ==> (F.Alive(m', n) <==> F.Alive(m, n))
  }

  lemma StillNumbered(procs: map<Pid, K.Pcb>, procs': map<Pid, K.Pcb>, m: F.Mem, m': F.Mem, numbers: map<Pid, nat>)
    requires Numbered(procs, m, numbers) && procs'.Keys == procs.Keys && SameSpaces(m, m')
    requires forall p :: p in procs ==> (K.Alive(procs', p) <==> K.Alive(procs, p))
    ensures Numbered(procs', m', numbers)
  {
    forall p | p in numbers ensures K.Alive(procs', p) <==> F.Alive(m', numbers[p]) {
      assert K.Alive(procs', p) <==> K.Alive(procs, p);
    }
  }

  lemma MemoryKeepsSpaces(m: F.Mem, e: F.Event)
    requires F.Formed(m) && F.Enabled(m, e) && (e.ExpandHeap? || e.Brk? || e.GrowStack? || e.Exec?)
    ensures SameSpaces(m, F.Apply(m, e)) && F.Apply(m, e).current == m.current
  {
    var m' := F.Apply(m, e);
    Ownership.StepFormed(m, e);
    forall n | 0 <= n < |m.spaces| ensures F.Alive(m', n) <==> F.Alive(m, n) {
      if F.Alive(m', n) { Sharing.StaysAlive(m, e, n); }
    }
  }

  lemma SwitchKeepsSpaces(m: F.Mem, next: nat)
    requires F.Formed(m) && F.Alive(m, next)
    ensures SameSpaces(m, F.SwitchStep(m, next)) && F.SwitchStep(m, next).current == Some(next)
  {
    assert F.SwitchStep(m, next).spaces == F.Effective(m);
  }

  lemma SwitchKeepsFrames(m: F.Mem, next: nat)
    requires F.Inv(m) && F.Alive(m, next)
    ensures F.Inv(F.SwitchStep(m, next))
  {
    Ownership.StepKeepsInv(m, F.Switch(next));
    assert F.Apply(m, F.Switch(next)) == F.SwitchStep(m, next);
  }

  /** A switch to a live process keeps the invariant of frames. */
  lemma SwitchKeeps(m: F.Mem, numbers: map<Pid, nat>, p: Pid)
    requires F.Inv(m) && p in numbers && F.Alive(m, numbers[p])
    ensures var m' := SwitchTo(m, numbers, Some(p));
            F.Inv(m') && SameSpaces(m, m') && m'.current == Some(numbers[p])
  {
    SwitchKeepsSpaces(m, numbers[p]);
    SwitchKeepsFrames(m, numbers[p]);
  }

  /** After every step of the kernel the current process is alive. */
  lemma NextLives(s: K.State, e: K.Event)
    requires KI.Inv(s) && K.Enabled(s, e) && KI.Safe(s, e)
    ensures var s' := K.Apply(s, e);
            && KI.Inv(s') && s'.w.cfg == s.w.cfg
            && s'.q.current.Some? && K.Alive(s'.w.procs, s'.q.current.value)
  {
    Exactness.StepIsExact(s, e);
    Kinship.StepKeepsFamily(s, e);
  }

  // ----------------------------------------------------- the invariant, step by step

  /** The child gets the next number. */
  lemma OneMoreNumber(procs: map<Pid, K.Pcb>, procs': map<Pid, K.Pcb>, m: F.Mem, m': F.Mem,
                      numbers: map<Pid, nat>, child: Pid)
    requires Numbered(procs, m, numbers) && child !in procs && procs'.Keys == procs.Keys + {child}
    requires forall p :: p in procs ==> (K.Alive(procs', p) <==> K.Alive(procs, p))
    requires K.Alive(procs', child) && |m'.spaces| == |m.spaces| + 1
    requires m'.spaces[..|m.spaces|] == m.spaces && F.Alive(m', |m.spaces|)
    ensures Numbered(procs', m', numbers[child := |m.spaces|])
  {
    var numbers' := numbers[child := |m.spaces|];
    forall n | 0 <= n < |m'.spaces| ensures n in numbers'.Values {
      if n == |m.spaces| {
        assert numbers'[child] == n;
      } else {
        assert n in numbers.Values;
        var p :| p in numbers && numbers[p] == n;
        assert numbers'[p] == n;
      }
    }
    forall p | p in numbers' ensures K.Alive(procs', p) <==> F.Alive(m', numbers'[p]) {
      if p != child {
        assert K.Alive(procs', p) <==> K.Alive(procs, p);
        assert m'.spaces[numbers[p]] == m.spaces[numbers[p]];
      }
    }
  }

  /** What fork does to processes and what it does to frames agree: it returns a child exactly if the
      estimate allows one and its frames are in the queue, and where they are not the queue is emptied. */
  lemma ForkMeetsFrames(j: State, child: Pid, framesLeft: bool)
    requires Inv(j) && Enabled(j, Call(K.Fork(child, framesLeft)))
    ensures var j' := Apply(j, Call(K.Fork(child, framesLeft)));
            var c := j.s.q.current.value;
            var accepted := K.Estimate(j.s, c) < K.MAX_PROCESSES && Losses.ForkFits(j.m);
            && (if accepted then
                  && j'.s.w.procs[c].rc == child && K.Alive(j'.s.w.procs, child) && F.Alive(j'.m, |j.m.spaces|)
                  && j'.numbers == j.numbers[child := |j.m.spaces|]
                  && j'.m.spaces[..|j.m.spaces|] == j.m.spaces && |j'.m.spaces| == |j.m.spaces| + 1
                else
                  && j'.s.w.procs[c].rc == ERROR && child !in j'.s.w.procs
                  && j'.m == (if K.Estimate(j.s, c) >= K.MAX_PROCESSES then j.m else j.m.(free := []))
                  && j'.numbers == j.numbers)
  {
    var c := j.s.q.current.value;
    assert K.Apply(j.s, K.Fork(child, framesLeft)) == K.ForkStep(j.s, c, child, framesLeft);
    Losses.ForkSucceeds(j.m);
    if K.Estimate(j.s, c) < K.MAX_PROCESSES && Losses.ForkFits(j.m) {
      FrameRuns.ForkAddsChild(j.m);
      FrameRuns.ForkAppends(j.m);
    }
  }

  /** Fork adds a live process, where it is accepted, and changes no other. */
  lemma ForkLives(s: K.State, c: Pid, child: Pid, framesLeft: bool)
    requires c in s.w.procs && child !in s.w.procs
    ensures K.ForkStep(s, c, child, framesLeft).q.current == s.q.current
    ensures var procs' := K.ForkStep(s, c, child, framesLeft).w.procs;
            && (forall p :: p in s.w.procs ==> p in procs' && (K.Alive(procs', p) <==> K.Alive(s.w.procs, p)))
            && (if K.Estimate(s, c) < K.MAX_PROCESSES && framesLeft
                then procs'.Keys == s.w.procs.Keys + {child} && K.Alive(procs', child)
                else procs'.Keys == s.w.procs.Keys)
  {
  }

  lemma ForkNumbers(j: State, child: Pid, framesLeft: bool)
    requires Inv(j) && Enabled(j, Call(K.Fork(child, framesLeft)))
    ensures var j' := Apply(j, Call(K.Fork(child, framesLeft)));
            Numbered(j'.s.w.procs, j'.m, j'.numbers)
  {
    var j', c := Apply(j, Call(K.Fork(child, framesLeft))), j.s.q.current.value;
    ForkMeetsFrames(j, child, framesLeft);
    ForkLives(j.s, c, child, framesLeft);
    assert j'.s == K.ForkStep(j.s, c, child, framesLeft);
    var accepted := K.Estimate(j.s, c) < K.MAX_PROCESSES && Losses.ForkFits(j.m);
    ForkPairs(j.s.w.procs, j'.s.w.procs, j.m, j'.m, j.numbers, j'.numbers, child, accepted);
  }

  lemma ForkPairs(procs: map<Pid, K.Pcb>, procs': map<Pid, K.Pcb>, m: F.Mem, m': F.Mem,
                  numbers: map<Pid, nat>, numbers': map<Pid, nat>, child: Pid, accepted: bool)
    requires Numbered(procs, m, numbers) && child !in procs
    requires forall p :: p in procs ==> p in procs' && (K.Alive(procs', p) <==> K.Alive(procs, p))
    requires if accepted
             then procs'.Keys == procs.Keys + {child} && K.Alive(procs', child) && F.Alive(m', |m.spaces|)
                  && |m'.spaces| == |m.spaces| + 1 && m'.spaces[..|m.spaces|] == m.spaces
                  && numbers' == numbers[child := |m.spaces|]
             else procs'.Keys == procs.Keys && m'.spaces == m.spaces && numbers' == numbers
    ensures Numbered(procs', m', numbers')
  {
    if accepted {
      OneMoreNumber(procs, procs', m, m', numbers, child);
    } else {
      StillNumbered(procs, procs', m, m', numbers);
    }
  }

  lemma ForkKeepsFrames(m: F.Mem)
    requires F.Inv(m) && m.current.Some?
    ensures F.Inv(F.ForkStep(m)) && F.ForkStep(m).current == m.current
  {
    Ownership.StepKeepsInv(m, F.Fork);
    assert F.Apply(m, F.Fork) == F.ForkStep(m);
  }

  lemma ForkKeepsNumbers(j: State, child: Pid, framesLeft: bool)
    requires Inv(j) && Enabled(j, Call(K.Fork(child, framesLeft)))
    ensures var j' := Apply(j, Call(K.Fork(child, framesLeft)));
            forall p :: p in j.numbers ==> p in j'.numbers && j'.numbers[p] == j.numbers[p]
  {
    ForkMeetsFrames(j, child, framesLeft);
    assert child !in j.numbers;
  }

  lemma ForkKeepsRunner(j: State, child: Pid, framesLeft: bool)
    requires Inv(j) && Enabled(j, Call(K.Fork(child, framesLeft)))
    ensures Apply(j, Call(K.Fork(child, framesLeft))).s.q.current == j.s.q.current
  {
    var c := j.s.q.current.value;
    ForkLives(j.s, c, child, framesLeft);
    assert Apply(j, Call(K.Fork(child, framesLeft))).s == K.ForkStep(j.s, c, child, framesLeft);
  }

  lemma ForkKeepsKernel(j: State, child: Pid, framesLeft: bool)
    requires Inv(j) && Enabled(j, Call(K.Fork(child, framesLeft)))
    ensures var j' := Apply(j, Call(K.Fork(child, framesLeft)));
            KI.Inv(j'.s) && j'.s.w.cfg == j.s.w.cfg && F.Inv(j'.m) && j'.m.current == j.m.current
  {
    NextLives(j.s, K.Fork(child, framesLeft));
    ForkKeepsFrames(j.m);
  }

  lemma ForkKeepsInv(j: State, child: Pid, framesLeft: bool)
    requires Inv(j) && Enabled(j, Call(K.Fork(child, framesLeft)))
    ensures Inv(Apply(j, Call(K.Fork(child, framesLeft))))
  {
    ForkNumbers(j, child, framesLeft);
    ForkKeepsNumbers(j, child, framesLeft);
    ForkKeepsRunner(j, child, framesLeft);
    ForkKeepsKernel(j, child, framesLeft);
    Together(j, Apply(j, Call(K.Fork(child, framesLeft))));
  }

  lemma Together(j: State, j': State)
    requires Inv(j) && KI.Inv(j'.s) && F.Inv(j'.m) && Numbered(j'.s.w.procs, j'.m, j'.numbers)
    requires j'.s.q.current == j.s.q.current && j'.m.current == j.m.current && j'.s.w.cfg == j.s.w.cfg
    requires forall p :: p in j.numbers ==> p in j'.numbers && j'.numbers[p] == j.numbers[p]
    ensures Inv(j')
  {
  }

  /** An exit ends the current process and no other. */
  lemma ExitKillsOne(s: K.State, status: int)
    requires KI.Inv(s) && K.Enabled(s, K.Exit(status))
    ensures var c, procs' := s.q.current.value, K.Apply(s, K.Exit(status)).w.procs;
            && procs'.Keys == s.w.procs.Keys
            && forall p :: p in s.w.procs ==> (K.Alive(procs', p) <==> K.Alive(s.w.procs, p) && p != c)
  {
    var c := s.q.current.value;
    Exactness.NeverStuck(s);
    K.ExitStates(s.w.procs, s.w.cfg.init, c, s.w.cfg.clears);
  }

  /** The exiting process's space goes. */
  lemma ExitFrames(m: F.Mem)
    requires F.Inv(m) && F.Enabled(m, F.Exit)
    ensures var m' := F.ExitStep(m);
            && F.Inv(m') && |m'.spaces| == |m.spaces| && m'.low == m.low
            && forall n :: 0 <= n < |m.spaces| ==> (F.Alive(m', n) <==> F.Alive(m, n) && n != m.current.value)
  {
    Ownership.StepKeepsInv(m, F.Exit);
    assert F.Apply(m, F.Exit) == F.ExitStep(m);
  }

  /** Before anybody runs, the heap may take some of its frames. */
  lemma HeapFrames(m: F.Mem, first: nat, end: nat)
    requires F.Inv(m) && end <= |m.low| - F.KSTACK
    ensures F.Inv(F.HeapStep(m, first, end)) && SameSpaces(m, F.HeapStep(m, first, end))
  {
    var e := F.ExpandHeap(first, end);
    Ownership.StepKeepsInv(m, e);
    MemoryKeepsSpaces(m, e);
    assert F.Apply(m, e) == F.HeapStep(m, first, end);
  }

  lemma ExitNumbers(procs: map<Pid, K.Pcb>, procs': map<Pid, K.Pcb>, m: F.Mem, m': F.Mem,
                    numbers: map<Pid, nat>, c: Pid)
    requires Numbered(procs, m, numbers) && c in numbers && procs'.Keys == procs.Keys && |m'.spaces| == |m.spaces|
    requires forall p :: p in procs ==> (K.Alive(procs', p) <==> K.Alive(procs, p) && p != c)
    requires forall n :: 0 <= n < |m.spaces| ==> (F.Alive(m', n) <==> F.Alive(m, n) && n != numbers[c])
    ensures Numbered(procs', m', numbers)
  {
  }

  lemma ExitLeavesFrames(m: F.Mem, first: nat, end: nat)
    requires F.Inv(m) && F.Enabled(m, F.Exit) && end <= |m.low| - F.KSTACK
    ensures var m' := F.HeapStep(F.ExitStep(m), first, end);
            && F.Inv(m') && |m'.spaces| == |m.spaces|
            && forall n :: 0 <= n < |m.spaces| ==> (F.Alive(m', n) <==> F.Alive(m, n) && n != m.current.value)
  {
    ExitFrames(m);
    HeapFrames(F.ExitStep(m), first, end);
  }

  /** Whoever is current goes on with its own stack. */
  lemma SwitchCompletes(s: K.State, m: F.Mem, numbers: map<Pid, nat>)
    requires KI.Inv(s) && F.Inv(m) && Numbered(s.w.procs, m, numbers)
    requires s.q.current.Some? && K.Alive(s.w.procs, s.q.current.value)
    requires s.w.cfg.init in numbers && numbers[s.w.cfg.init] == 0
    ensures Inv(State(s, SwitchTo(m, numbers, s.q.current), numbers))
  {
    SwitchKeeps(m, numbers, s.q.current.value);
    StillNumbered(s.w.procs, s.w.procs, m, SwitchTo(m, numbers, s.q.current), numbers);
  }

  lemma ExitKeepsInv(j: State, status: int, first: nat, end: nat)
    requires Inv(j) && Enabled(j, Die(status, first, end))
    ensures Inv(Apply(j, Die(status, first, end)))
  {
    var s', c := K.Apply(j.s, K.Exit(status)), j.s.q.current.value;
    var m1 := F.HeapStep(F.ExitStep(j.m), first, end);
    NextLives(j.s, K.Exit(status));
    ExitKillsOne(j.s, status);
    assert j.numbers[c] != j.numbers[j.s.w.cfg.init];
    ExitLeavesFrames(j.m, first, end);
    ExitNumbers(j.s.w.procs, s'.w.procs, j.m, m1, j.numbers, c);
    SwitchCompletes(s', m1, j.numbers);
  }

  lemma OtherCallKeepsInv(j: State, e: K.Event)
    requires Inv(j) && Enabled(j, Call(e)) && !e.Fork?
    ensures Inv(Apply(j, Call(e)))
  {
    var s' := K.Apply(j.s, e);
    NextLives(j.s, e);
    Kinship.StepKeepsKin(j.s, e);
    StillNumbered(j.s.w.procs, s'.w.procs, j.m, j.m, j.numbers);
    if s'.q.current != j.s.q.current {
      SwitchCompletes(s', j.m, j.numbers);
    }
  }

  lemma MemoryKeepsInv(j: State, e: F.Event)
    requires Inv(j) && Enabled(j, Memory(e))
    ensures Inv(Apply(j, Memory(e)))
  {
    MemoryKeepsSpaces(j.m, e);
    Ownership.StepKeepsInv(j.m, e);
    StillNumbered(j.s.w.procs, j.s.w.procs, j.m, F.Apply(j.m, e), j.numbers);
  }

  /** Every step keeps processes and address spaces in step, and no frame is shared. */
  lemma StepKeepsInv(j: State, ev: Event)
    requires Inv(j) && Enabled(j, ev)
    ensures Inv(Apply(j, ev))
  {
    match ev
    case Call(e) =>
      if e.Fork? {
        ForkKeepsInv(j, e.child, e.framesLeft);
      } else {
        OtherCallKeepsInv(j, e);
      }
    case Die(status, first, end) => ExitKeepsInv(j, status, first, end);
    case Memory(e) => MemoryKeepsInv(j, e);
  }

  // ----------------------------------------------------------------------- runs

  /** KernelStart: init runs on the boot stack, idle has its three frames and waits in reserve. */
  ghost function Boot(cfg: K.Config, terminals: nat, b: FrameRuns.Bounds, frames: nat, stale: seq<F.Pte>): State
    requires b.Valid() && |FrameRuns.FreeFrames(b, frames)| >= 3
  {
    State(K.Boot(cfg, terminals), F.IdleStep(FrameRuns.Boot(b, frames, stale)), map[cfg.init := 0, cfg.idle := 1])
  }

  lemma BootFrames(b: FrameRuns.Bounds, frames: nat, stale: seq<F.Pte>)
    requires b.Valid() && |stale| == F.KSTACK && |FrameRuns.FreeFrames(b, frames)| >= 3
    ensures var m := F.IdleStep(FrameRuns.Boot(b, frames, stale));
            F.Inv(m) && |m.spaces| == 2 && F.Alive(m, 0) && F.Alive(m, 1) && m.current == Some(0)
  {
    var m0 := FrameRuns.Boot(b, frames, stale);
    FrameRuns.BootIsInv(b, frames, stale);
    Ownership.StepKeepsInv(m0, F.SpawnIdle);
    assert F.Apply(m0, F.SpawnIdle) == F.IdleStep(m0);
  }

  lemma BootNumbers(procs: map<Pid, K.Pcb>, m: F.Mem, init: Pid, idle: Pid)
    requires init != idle && procs.Keys == {init, idle} && K.Alive(procs, init) && K.Alive(procs, idle)
    requires |m.spaces| == 2 && F.Alive(m, 0) && F.Alive(m, 1)
    ensures Numbered(procs, m, map[init := 0, idle := 1])
  {
    var numbers := map[init := 0, idle := 1];
    forall n | 0 <= n < 2 ensures n in numbers.Values {
      assert numbers[if n == 0 then init else idle] == n;
    }
  }

  lemma BootIsInv(cfg: K.Config, terminals: nat, b: FrameRuns.Bounds, frames: nat, stale: seq<F.Pte>)
    requires cfg.init != cfg.idle && cfg.maxLine > 0
    requires b.Valid() && |stale| == F.KSTACK && |FrameRuns.FreeFrames(b, frames)| >= 3
    ensures Inv(Boot(cfg, terminals, b, frames, stale))
  {
    var j := Boot(cfg, terminals, b, frames, stale);
    Exactness.InvAtBoot(cfg, terminals);
    BootFrames(b, frames, stale);
    BootNumbers(j.s.w.procs, j.m, cfg.init, cfg.idle);
  }

  ghost predicate Run(js: seq<State>, evs: seq<Event>) {
    && |js| == |evs| + 1
    && forall i :: 0 <= i < |evs| ==> StepAt(js, evs, i)
  }

  ghost predicate StepAt(js: seq<State>, evs: seq<Event>, i: nat)
    requires i < |evs| < |js|
  {
    Inv(js[i]) ==> Enabled(js[i], evs[i]) && js[i + 1] == Apply(js[i], evs[i])
  }

  lemma InvAt(js: seq<State>, evs: seq<Event>, k: nat)
    requires Run(js, evs) && k < |evs| && Inv(js[k])
    ensures Inv(js[k + 1])
  {
    var j, ev, next := js[k], evs[k], js[k + 1];
    assert StepAt(js, evs, k);
    assert Enabled(j, ev) && next == Apply(j, ev);
    StepKeepsInv(j, ev);
  }

  /** In every state of every run, processes and address spaces agree and no frame is shared. */
  lemma {:induction false} InvThroughout(js: seq<State>, evs: seq<Event>, i: nat)
    requires Run(js, evs) && Inv(js[0]) && i <= |evs|
    ensures Inv(js[i])
  {
    if i > 0 {
      var k := i - 1;
      InvThroughout(js, evs, k);
      InvAt(js, evs, k);
      assert js[k + 1] == js[i];
    }
  }

  /** The address spaces that are in use. */
  ghost function LiveSpaces(m: F.Mem): set<nat> {
    set n | 0 <= n < |m.spaces| && F.Alive(m, n)
  }

  lemma {:induction false} ImageSize(ps: set<Pid>, numbers: map<Pid, nat>, ns: set<nat>)
    requires ps <= numbers.Keys && ns == set p | p in ps :: numbers[p]
    requires forall p, q :: p in ps && q in ps && p != q ==> numbers[p] != numbers[q]
    ensures |ns| == |ps|
  {
    if ps != {} {
      var p :| p in ps;
      var rest := set q | q in ps - {p} :: numbers[q];
      ImageSize(ps - {p}, numbers, rest);
      assert ns == rest + {numbers[p]} && numbers[p] !in rest;
    }
  }

  /** As many address spaces are in use as there are live processes. */
  lemma OneSpaceEach(j: State)
    requires Inv(j)
    ensures |LiveSpaces(j.m)| == |Capacity.Population(j.s.w.procs)|
  {
    var ps := Capacity.Population(j.s.w.procs);
    var image := set p | p in ps :: j.numbers[p];
    forall n ensures n in LiveSpaces(j.m) <==> n in image {
      if n in LiveSpaces(j.m) {
        assert n in j.numbers.Values;
        var p :| p in j.numbers && j.numbers[p] == n;
        assert p in ps;
      }
    }
    assert image == LiveSpaces(j.m);
    ImageSize(ps, j.numbers, image);
  }

  ghost predicate Small(j: State) {
    |Capacity.Population(j.s.w.procs)| <= K.MAX_PROCESSES
  }

  lemma StepStaysSmall(j: State, ev: Event)
    requires Inv(j) && Enabled(j, ev) && Small(j)
    ensures Small(Apply(j, ev))
  {
    match ev
    case Call(e) => Capacity.StepRespectsCapacity(j.s, e);
    case Die(status, _, _) => Capacity.StepRespectsCapacity(j.s, K.Exit(status));
    case Memory(_) =>
  }

  ghost predicate StaysSmall(js: seq<State>, k: nat)
    requires k + 1 < |js|
  {
    Small(js[k]) ==> Small(js[k + 1])
  }

  lemma SmallAt(js: seq<State>, evs: seq<Event>, k: nat)
    requires Run(js, evs) && k < |evs| && Inv(js[0])
    ensures StaysSmall(js, k)
  {
    InvThroughout(js, evs, k);
    var j, ev, next := js[k], evs[k], js[k + 1];
    assert StepAt(js, evs, k);
    assert Enabled(j, ev) && next == Apply(j, ev);
    if Small(j) { StepStaysSmall(j, ev); }
  }

  lemma {:induction false} SmallThroughout(js: seq<State>, i: nat)
    requires i < |js| && Small(js[0]) && forall k :: 0 <= k < |js| - 1 ==> StaysSmall(js, k)
    ensures Small(js[i])
  {
    if i > 0 {
      SmallThroughout(js, i - 1);
      assert StaysSmall(js, i - 1);
    }
  }

  /** From boot, whatever processes and memory do: a process has a live address space exactly while it
      lives, no two share one, the one that runs is the one whose stack region 0 maps, there are never
      more than MAX_PROCESSES, and no frame is used twice. */
  lemma OneMachine(cfg: K.Config, terminals: nat, b: FrameRuns.Bounds, frames: nat, stale: seq<F.Pte>,
                   js: seq<State>, evs: seq<Event>, i: nat)
    requires cfg.init != cfg.idle && cfg.maxLine > 0
    requires b.Valid() && |stale| == F.KSTACK && |FrameRuns.FreeFrames(b, frames)| >= 3
    requires Run(js, evs) && js[0] == Boot(cfg, terminals, b, frames, stale) && i <= |evs|
    ensures Numbered(js[i].s.w.procs, js[i].m, js[i].numbers) && Runs(js[i].s.q, js[i].m, js[i].numbers)
    ensures |LiveSpaces(js[i].m)| == |Capacity.Population(js[i].s.w.procs)| <= K.MAX_PROCESSES
    ensures Sharing.Unshared(js[i].m)
  {
    BootIsInv(cfg, terminals, b, frames, stale);
    InvThroughout(js, evs, i);
    OneSpaceEach(js[i]);
    BootIsSmall(cfg, terminals);
    forall k | 0 <= k < |js| - 1 ensures StaysSmall(js, k) {
      SmallAt(js, evs, k);
    }
    SmallThroughout(js, i);
    RunningUnshared(js[i].m);
  }

  lemma BootIsSmall(cfg: K.Config, terminals: nat)
    requires cfg.init != cfg.idle
    ensures |Capacity.Population(K.Boot(cfg, terminals).w.procs)| == 2
  {
    assert Capacity.Population(K.Boot(cfg, terminals).w.procs) == {cfg.init, cfg.idle};
  }

  lemma RunningUnshared(m: F.Mem)
    requires F.Inv(m) && m.current.Some?
    ensures Sharing.Unshared(m)
  {
    forall f ensures Sharing.AllUses(m)[f] <= 1 {
      assert F.Owned(m)[f] <= 1;
    }
  }
}
