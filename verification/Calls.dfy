/**
 * System calls over whole runs, from the step in which a process makes the call to the one in which it
 * is back in user mode, whatever everybody else does in between.
 */
module Calls {
  import opened Types
  import opened Kernel
  import opened Placement
  import opened Protocols
  import opened Family
  import opened Invariant
  import opened Exactness
  import opened Runs
  import opened Manual
  import opened Outcomes
  import opened WakeUps
  import Kinship

  // ------------------------------------------------------------------ calls

  ghost predicate InKernel(s: State, c: Pid) {
    c in s.w.procs && s.w.procs[c].resume != User
  }

  ghost predicate InUserMode(s: State, c: Pid) {
    c in s.w.procs && s.w.procs[c].resume == User
  }

  /** c makes call es[i] and is back in user mode for the first time in states[j]. */
  ghost predicate CallOf(states: seq<State>, es: seq<Event>, c: Pid, i: nat, j: nat) {
    && SafeRun(states, es) && Inv(states[0]) && i < j <= |es|
    && FromUser(es[i]) && states[i].q.current == Some(c)
    && (forall k :: i < k < j ==> InKernel(states[k], c))
    && InUserMode(states[j], c)
  }

  /** One step of the run, from a state that satisfies the invariant. */
  lemma StepOf(states: seq<State>, es: seq<Event>, k: nat)
    requires SafeRun(states, es) && Inv(states[0]) && k < |es|
    ensures Inv(states[k]) && Enabled(states[k], es[k]) && Page(states[k], es[k], states[k + 1])
    ensures states[k + 1] == Apply(states[k], es[k])
  {
    InvThroughout(states, es, k);
    SafeStep(states, es, k);
    StepMeetsPage(states[k], es[k]);
  }

  /** A process that does not take the step keeps its registers. */
  lemma OthersStep(states: seq<State>, es: seq<Event>, c: Pid, k: nat)
    requires SafeRun(states, es) && Inv(states[0]) && k < |es|
    requires c in states[k].w.procs && !Takes(states[k], es[k], c)
    ensures SameRegisters(states[k], states[k + 1], c)
  {
    StepOf(states, es, k);
    StepLeavesOthers(states[k], es[k], c);
  }

  /** As long as p does not run, its registers stay. */
  lemma {:induction false} RegistersStay(states: seq<State>, es: seq<Event>, p: Pid, i: nat, j: nat)
    requires SafeRun(states, es) && Inv(states[0]) && i <= j <= |es| && p in states[i].w.procs
    requires forall k :: i <= k < j ==> states[k].q.current != Some(p)
    ensures SameRegisters(states[i], states[j], p)
  {
    if i < j {
      RegistersStay(states, es, p, i, j - 1);
      OthersStep(states, es, p, j - 1);
    }
  }

  ghost predicate NewBorn(s: State, c: Pid, child: Pid) {
    && child in s.w.procs && c in s.w.procs && s.w.procs[c].rc == child
    && var born := s.w.procs[child];
       && born.state == Ready && born.resume == User && born.rc == 0
       && born.parent == Some(c) && born.children == born.zombies == {} && !born.waiting && born.delay == 0
  }

  lemma ForkBears(states: seq<State>, es: seq<Event>, i: nat)
    requires SafeRun(states, es) && Inv(states[0]) && i < |es| && es[i].Fork?
    requires es[i].child in states[i + 1].w.procs
    ensures states[i].q.current.Some? && NewBorn(states[i + 1], states[i].q.current.value, es[i].child)
    ensures es[i].child in states[i + 1].q.ready
  {
    StepOf(states, es, i);
  }

  /** Fork returns twice: the child's pid in the caller, and 0 in the child, which has no family of its
      own yet and finds 0 in its register when it first runs. */
  lemma ForkReturnsTwice(states: seq<State>, es: seq<Event>, i: nat, j: nat)
    requires SafeRun(states, es) && Inv(states[0]) && i < j <= |es| && es[i].Fork?
    requires es[i].child in states[i + 1].w.procs
    requires forall k :: i < k < j ==> states[k].q.current != Some(es[i].child)
    ensures states[i].q.current.Some? && NewBorn(states[i + 1], states[i].q.current.value, es[i].child)
    ensures es[i].child in states[i + 1].q.ready
    ensures InUserMode(states[j], es[i].child) && states[j].w.procs[es[i].child].rc == 0
  {
    ForkBears(states, es, i);
    RegistersStay(states, es, es[i].child, i + 1, j);
  }

  lemma DelayLeavesZero(states: seq<State>, es: seq<Event>, c: Pid, i: nat)
    requires SafeRun(states, es) && Inv(states[0]) && i < |es| && es[i].Delay? && es[i].clockTicks > 0
    requires states[i].q.current == Some(c)
    ensures InUserMode(states[i + 1], c) && states[i + 1].w.procs[c].rc == 0
  {
    StepOf(states, es, i);
  }

  /** Delay returns 0 once the sleeper runs again. */
  lemma DelayReturnsZero(states: seq<State>, es: seq<Event>, c: Pid, i: nat, j: nat)
    requires SafeRun(states, es) && Inv(states[0]) && i < j <= |es| && es[i].Delay? && es[i].clockTicks > 0
    requires states[i].q.current == Some(c)
    requires forall k :: i < k < j ==> states[k].q.current != Some(c)
    ensures InUserMode(states[j], c) && states[j].w.procs[c].rc == 0
  {
    DelayLeavesZero(states, es, c, i);
    RegistersStay(states, es, c, i + 1, j);
  }

  // ------------------------------------------- waiting at one place in the kernel

  /** The places at which a process waits until it goes back to user mode. */
  predicate WaitsAt(r: Resume) {
    r.LockWait? || r.WaitLoop? || r.ReadWait? || r.PipeReading? || r.PipeWriting?
  }

  lemma GoesOnOrStays(s: State, s': State, c: Pid)
    requires Enabled(s, Continue) && Page(s, Continue, s') && s.q.current == Some(c) && WaitsAt(s.w.procs[c].resume)
    ensures c in s'.w.procs && s'.w.procs[c].resume in {User, s.w.procs[c].resume}
  {
  }

  lemma StaysPut(states: seq<State>, es: seq<Event>, c: Pid, k: nat, r: Resume)
    requires SafeRun(states, es) && Inv(states[0]) && k < |es| && WaitsAt(r)
    requires c in states[k].w.procs && states[k].w.procs[c].resume == r
    ensures c in states[k + 1].w.procs && states[k + 1].w.procs[c].resume in {User, r}
    ensures states[k + 1].w.procs[c].resume == User ==> es[k] == Continue && states[k].q.current == Some(c)
  {
    StepOf(states, es, k);
    if Takes(states[k], es[k], c) {
      GoesOnOrStays(states[k], states[k + 1], c);
    } else {
      OthersStep(states, es, c, k);
    }
  }

  /** A call that waits at r is there until its last step, in which its process goes on. */
  lemma {:induction false} WaitsInPlace(states: seq<State>, es: seq<Event>, c: Pid, i: nat, j: nat, r: Resume, k: nat)
    requires CallOf(states, es, c, i, j) && WaitsAt(r) && i < k < j && states[i + 1].w.procs[c].resume == r
    ensures states[k].w.procs[c].resume == r
    ensures k == j - 1 ==> es[k] == Continue && states[k].q.current == Some(c)
  {
    if k > i + 1 { WaitsInPlace(states, es, c, i, j, r, k - 1); }
    assert InKernel(states[k], c);
    if k > i + 1 { StaysPut(states, es, c, k - 1, r); }
    StaysPut(states, es, c, k, r);
  }

  // ------------------------------------------------- what a process itself moves

  /** Everything that now finds between the two states of c's own steps from i to j. */
  ghost function By<T>(states: seq<State>, es: seq<Event>, c: Pid, now: (State, State) -> seq<T>, i: nat, j: nat): seq<T>
    requires j <= |es| < |states|
    decreases j
  {
    if j <= i then [] else
    By(states, es, c, now, i, j - 1) + if Takes(states[j - 1], es[j - 1], c) then now(states[j - 1], states[j]) else []
  }

  /** What grows: the part of after beyond before. */
  ghost function Grown<T>(before: seq<T>, after: seq<T>): seq<T> {
    if |before| <= |after| then after[|before|..] else []
  }

  lemma FirstStep<T>(states: seq<State>, es: seq<Event>, c: Pid, now: (State, State) -> seq<T>, i: nat)
    requires i < |es| < |states| && Takes(states[i], es[i], c)
    ensures By(states, es, c, now, i, i + 1) == now(states[i], states[i + 1])
  {
    assert By(states, es, c, now, i, i) == [];
  }

  ghost predicate StillNothing(states: seq<State>, es: seq<Event>, c: Pid, now: (State, State) -> Bytes, k: nat)
    requires k < |es| < |states|
  {
    Takes(states[k], es[k], c) ==> now(states[k], states[k + 1]) == []
  }

  lemma {:induction false} NothingUntil(states: seq<State>, es: seq<Event>, c: Pid, now: (State, State) -> Bytes,
                                        i: nat, j: nat)
    requires i <= j <= |es| < |states| && forall k :: i <= k < j ==> StillNothing(states, es, c, now, k)
    ensures By(states, es, c, now, i, j) == []
    decreases j
  {
    if i < j {
      NothingUntil(states, es, c, now, i, j - 1);
      assert StillNothing(states, es, c, now, j - 1);
    }
  }

  /** What moves in the last step only moves once. */
  lemma MovesOnce(states: seq<State>, es: seq<Event>, c: Pid, now: (State, State) -> Bytes, i: nat, j: nat)
    requires i < j <= |es| < |states| && forall k :: i <= k < j - 1 ==> StillNothing(states, es, c, now, k)
    requires Takes(states[j - 1], es[j - 1], c)
    ensures By(states, es, c, now, i, j) == now(states[j - 1], states[j])
  {
    var last := now(states[j - 1], states[j]);
    NothingUntil(states, es, c, now, i, j - 1);
    assert [] + last == last;
  }

  // --------------------------------------------------------- steps of one call

  lemma GoodStep(states: seq<State>, es: seq<Event>, k: nat)
    requires SafeRun(states, es) && Inv(states[0]) && k < |es|
    ensures Inv(states[k]) && Enabled(states[k], es[k]) && states[k + 1] == Apply(states[k], es[k])
  {
    InvThroughout(states, es, k);
    SafeStep(states, es, k);
  }

  /** Step k of the call is c's, at place r: it waits there, or it is the call itself. */
  ghost predicate Works(states: seq<State>, es: seq<Event>, c: Pid, i: nat, r: Resume, k: nat)
    requires i <= k < |es| < |states|
  {
    && states[k].q.current == Some(c) && c in states[k].w.procs
    && (if k == i then states[i].w.procs[c].resume == User && FromUser(es[i])
        else es[k] == Continue && states[k].w.procs[c].resume == r)
  }

  lemma CallWorks(states: seq<State>, es: seq<Event>, c: Pid, i: nat, j: nat, r: Resume)
    requires CallOf(states, es, c, i, j)
    ensures Works(states, es, c, i, r, i) && Takes(states[i], es[i], c)
    ensures j > i + 1 ==> InKernel(states[i + 1], c)
  {
    StepOf(states, es, i);
  }

  lemma WaiterWorks(states: seq<State>, es: seq<Event>, c: Pid, i: nat, j: nat, r: Resume, k: nat)
    requires CallOf(states, es, c, i, j) && WaitsAt(r) && i < k < j && states[i + 1].w.procs[c].resume == r
    requires k == j - 1 || Takes(states[k], es[k], c)
    ensures Works(states, es, c, i, r, k) && Takes(states[k], es[k], c)
  {
    WaitsInPlace(states, es, c, i, j, r, k);
    assert InKernel(states[k], c);
    if k < j - 1 { StepOf(states, es, k); }
  }

  lemma NotYetBack(states: seq<State>, es: seq<Event>, c: Pid, i: nat, j: nat, k: nat)
    requires CallOf(states, es, c, i, j) && i <= k < j
    ensures k < j - 1 ==> InKernel(states[k + 1], c)
    ensures k == j - 1 ==> InUserMode(states[k + 1], c)
  {
  }

  lemma ConfigStays(s: State, e: Event)
    requires Inv(s) && Enabled(s, e)
    ensures Apply(s, e).w.cfg == s.w.cfg
  {
    Kinship.StepKeepsFamily(s, e);
  }

  /** A refused call: an error at once, and no object has changed. */
  ghost predicate Refused(states: seq<State>, c: Pid, i: nat, j: nat)
    requires i < |states| && j < |states|
  {
    && j == i + 1 && c in states[j].w.procs && states[j].w.procs[c].rc == ERROR
    && states[j].w == states[i].w.(procs := states[j].w.procs) && states[j].q == states[i].q
  }

  lemma GoesBack(s: State, c: Pid)
    requires Inv(s) && Enabled(s, Continue) && s.q.current == Some(c)
    requires var r := s.w.procs[c].resume; r.ReadWait? || r.WaitLoop? || r.LockWait?
    ensures var s' := Apply(s, Continue);
            && InUserMode(s', c) && s'.w.procs[c].rc == 0 && s'.q == s.q && s'.w == s.w.(procs := s'.w.procs)
            && (s.w.procs[c].resume.ReadWait? ==> s'.w.procs[c].got == s.w.procs[c].line)
  {
    StepMeetsPage(s, Continue);
  }

  /** Before its last step, a call that waits for a lock, a line or a child takes none. */
  lemma WaitsUntilTheEnd(states: seq<State>, es: seq<Event>, c: Pid, i: nat, j: nat, r: Resume, k: nat)
    requires CallOf(states, es, c, i, j) && i < k < j && states[i + 1].w.procs[c].resume == r
    requires r.ReadWait? || r.WaitLoop? || r.LockWait?
    ensures k < j - 1 ==> !Takes(states[k], es[k], c)
  {
    if k < j - 1 && Takes(states[k], es[k], c) {
      WaiterWorks(states, es, c, i, j, r, k);
      GoodStep(states, es, k);
      GoesBack(states[k], c);
      NotYetBack(states, es, c, i, j, k);
    }
  }
}
