/** Acquire, Release and Wait, from call to return. */
module WaitCalls {
  import opened Types
  import opened Kernel
  import opened Placement
  import opened Protocols
  import opened Family
  import opened Invariant
  import opened Exactness
  import opened Runs
  import opened Manual
  import opened Outcomes
  import opened WakeUps
  import opened Calls

  lemma AcquireStarts(s: State, e: Event, c: Pid)
    requires Inv(s) && Enabled(s, e) && e.Acquire? && s.q.current == Some(c)
    ensures var s' := Apply(s, e);
            && c in s'.w.procs
            && if e.id !in s.w.locks || s.w.locks[e.id].owner == c
               then InUserMode(s', c) && s'.w.procs[c].rc == ERROR && s'.q == s.q && s'.w == s.w.(procs := s'.w.procs)
               else e.id in s'.w.locks &&
                    if s.w.locks[e.id].owner == UNLOCKED
                    then InUserMode(s', c) && s'.w.procs[c].rc == 0 && s'.w.locks[e.id].owner == c
                    else s'.w.procs[c].resume == LockWait(e.id)
                         && s'.w.locks[e.id].waiters == s.w.locks[e.id].waiters + [c]
  {
    StepMeetsPage(s, e);
  }

  lemma LockIsOurs(states: seq<State>, es: seq<Event>, c: Pid, i: nat, j: nat, id: int)
    requires CallOf(states, es, c, i, j) && states[i + 1].w.procs[c].resume == LockWait(id)
    ensures states[j].w.procs[c].rc == 0 && id in states[j].w.locks && states[j].w.locks[id].owner == c
  {
    var k := j - 1;
    NotYetBack(states, es, c, i, j, i);
    WaitsInPlace(states, es, c, i, j, LockWait(id), k);
    GoodStep(states, es, k);
    GoesBack(states[k], c);
    AcquireSucceedsForOwner(states[k], Continue, id);
  }

  /** Acquire returns an error at once for an unknown lock or one's own; from any other it returns 0, when
      the caller has the lock. */
  lemma AcquireGetsTheLock(states: seq<State>, es: seq<Event>, c: Pid, i: nat, j: nat, id: int)
    requires CallOf(states, es, c, i, j) && es[i] == Acquire(id)
    ensures if id !in states[i].w.locks || states[i].w.locks[id].owner == c then Refused(states, c, i, j)
            else states[j].w.procs[c].rc == 0 && id in states[j].w.locks && states[j].w.locks[id].owner == c
  {
    GoodStep(states, es, i);
    AcquireStarts(states[i], es[i], c);
    if states[i + 1].w.procs[c].resume == LockWait(id) {
      LockIsOurs(states, es, c, i, j, id);
    } else {
      NotYetBack(states, es, c, i, j, i);
    }
  }

  /** In step k a child of c exits. */
  ghost predicate ChildExits(s: State, e: Event, c: Pid) {
    e.Exit? && s.q.current.Some? && s.q.current.value in s.w.procs && s.w.procs[s.q.current.value].parent == Some(c)
  }

  ghost predicate ExitedSince(states: seq<State>, es: seq<Event>, c: Pid, i: nat, k: nat)
    requires k <= |es| < |states|
  {
    exists m :: i < m < k && ChildExits(states[m], es[m], c)
  }

  ghost predicate ParentAt(states: seq<State>, es: seq<Event>, c: Pid, i: nat, k: nat)
    requires k <= |es| < |states|
  {
    && c in states[k].w.procs && states[k].w.procs[c].resume == WaitLoop
    && (Waits(states[k].w, c) || ExitedSince(states, es, c, i, k))
  }

  ghost predicate ParentCarries(states: seq<State>, es: seq<Event>, c: Pid, i: nat, k: nat)
    requires k < |es| < |states|
  {
    ParentAt(states, es, c, i, k) ==> ParentAt(states, es, c, i, k + 1)
  }

  lemma {:induction false} ParentSoFar(states: seq<State>, es: seq<Event>, c: Pid, i: nat, j: nat)
    requires i < j <= |es| < |states| && ParentAt(states, es, c, i, i + 1)
    requires forall k :: i < k < j ==> ParentCarries(states, es, c, i, k)
    ensures ParentAt(states, es, c, i, j)
    decreases j
  {
    var n := j - 1;
    if n > i {
      ParentSoFar(states, es, c, i, n);
      assert ParentCarries(states, es, c, i, n);
    }
    assert n + 1 == j;
  }

  lemma OnlyAChildWakes(s: State, e: Event, c: Pid)
    requires Inv(s) && Enabled(s, e) && c in s.w.procs && s.w.procs[c].resume == WaitLoop && !Takes(s, e, c)
    ensures var s' := Apply(s, e);
            && c in s'.w.procs && s'.w.procs[c].resume == WaitLoop
            && (Waits(s.w, c) ==> Waits(s'.w, c) || ChildExits(s, e, c))
  {
    StepLeavesOthers(s, e, c);
    if Waits(s.w, c) { WokenExactly(s, e, c); }
  }

  lemma ParentCarriesOn(states: seq<State>, es: seq<Event>, c: Pid, i: nat, j: nat, k: nat)
    requires CallOf(states, es, c, i, j) && i < k < j - 1 && states[i + 1].w.procs[c].resume == WaitLoop
    ensures ParentCarries(states, es, c, i, k)
  {
    WaitsUntilTheEnd(states, es, c, i, j, WaitLoop, k);
    GoodStep(states, es, k);
    if ParentAt(states, es, c, i, k) { OnlyAChildWakes(states[k], es[k], c); }
  }

  lemma WaitStarts(s: State, c: Pid)
    requires Inv(s) && Enabled(s, Wait) && s.q.current == Some(c)
    ensures var s', me := Apply(s, Wait), s.w.procs[c];
            && c in s'.w.procs
            && if me.zombies != {} then
                 && InUserMode(s', c) && s'.w.procs[c].rc == 0 && s'.w.procs[c].zombies == {}
                 && s'.q.dead == s.q.dead - me.zombies
               else if me.children == {} then
                 InUserMode(s', c) && s'.w.procs[c].rc == ERROR && s'.q == s.q && s'.w == s.w.(procs := s'.w.procs)
               else s'.w.procs[c].resume == WaitLoop && Waits(s'.w, c)
  {
    StepMeetsPage(s, Wait);
  }

  lemma ParentWakes(states: seq<State>, es: seq<Event>, c: Pid, i: nat, j: nat)
    requires CallOf(states, es, c, i, j) && states[i + 1].w.procs[c].resume == WaitLoop && Waits(states[i + 1].w, c)
    ensures states[j].w.procs[c].rc == 0 && ExitedSince(states, es, c, i, j - 1)
  {
    var k := j - 1;
    NotYetBack(states, es, c, i, j, i);
    forall n | i < n < k ensures ParentCarries(states, es, c, i, n) {
      ParentCarriesOn(states, es, c, i, j, n);
    }
    ParentSoFar(states, es, c, i, k);
    WaitsInPlace(states, es, c, i, j, WaitLoop, k);
    GoodStep(states, es, k);
    GoesBack(states[k], c);
  }

  /** Wait collects all zombies at once, fails without children, and otherwise returns 0 after a child of the
      caller has exited in the meantime. */
  lemma WaitReturnsAfterAnExit(states: seq<State>, es: seq<Event>, c: Pid, i: nat, j: nat)
    requires CallOf(states, es, c, i, j) && es[i] == Wait
    ensures c in states[i].w.procs
    ensures var me := states[i].w.procs[c];
            if me.zombies != {} then
              && j == i + 1 && states[j].w.procs[c].rc == 0 && states[j].w.procs[c].zombies == {}
              && states[j].q.dead == states[i].q.dead - me.zombies
            else if me.children == {} then Refused(states, c, i, j)
            else states[j].w.procs[c].rc == 0 && ExitedSince(states, es, c, i, j - 1)
  {
    GoodStep(states, es, i);
    WaitStarts(states[i], c);
    if states[i + 1].w.procs[c].resume == WaitLoop {
      ParentWakes(states, es, c, i, j);
    } else {
      NotYetBack(states, es, c, i, j, i);
    }
  }

  /** Releasing: the owner's call returns 0 and the first waiter has the lock and is ready, or it is unlocked;
      anybody else's is an error and changes nothing but the caller's result. */
  lemma ReleaseHandsOver(s: State, id: int)
    requires Inv(s) && Enabled(s, Release(id))
    ensures var s', c := Apply(s, Release(id)), s.q.current.value;
            && c in s'.w.procs && s'.q.current == Some(c)
            && if id !in s.w.locks || s.w.locks[id].owner != c then
                 s'.w.procs[c].rc == ERROR && s'.w.locks == s.w.locks && s'.q == s.q && s'.w.releases == s.w.releases
               else
                 && s'.w.procs[c].rc == 0 && id in s'.w.locks && Releases(s'.w, id) == Releases(s.w, id) + 1
                 && var waiters, lock' := s.w.locks[id].waiters, s'.w.locks[id];
                    if waiters == [] then lock'.owner == UNLOCKED && lock'.waiters == [] && s'.q == s.q
                    else lock'.owner == waiters[0] && lock'.waiters == waiters[1..]
                         && BecomesReady(s, s', waiters[0]) && s'.q.ready == s.q.ready + [waiters[0]]
                         && waiters[0] in s.q.blocked && waiters[0] !in s'.q.blocked
  {
    var c := s.q.current.value;
    StepMeetsPage(s, Release(id));
    if id in s.w.locks && s.w.locks[id].owner == c && s.w.locks[id].waiters != [] {
      var first := s.w.locks[id].waiters[0];
      LockSafety(s, id);
      assert first in s.w.locks[id].waiters;
      assert KeyOk(s.w, LockKey(id)) && Waits(s.w, first);
    }
  }
}
