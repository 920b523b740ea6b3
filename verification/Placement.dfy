/**
 * Where processes are: every live process is in exactly one of the scheduler's
 * containers, and its state field agrees with the container that holds it.
 */
module Placement {
  import opened Types
  import opened Kernel

  /** How often p occurs in all the containers together. */
  ghost function Copies(q: Queues, idle: Pid, p: Pid): nat {
    (if q.current == Some(p) then 1 else 0) + multiset(q.ready)[p]
    + (if p in q.blocked then 1 else 0) + multiset(q.delayed)[p]
    + (if q.reserve && p == idle then 1 else 0)
  }

  ghost function One(b: bool): nat {
    if b then 1 else 0
  }

  ghost predicate StatesMatch(q: Queues, procs: map<Pid, Pcb>) {
    && (forall p :: p in q.ready ==> p in procs && procs[p].state == Ready)
    && (forall p :: p in q.blocked ==> p in procs && procs[p].state == Blocked)
    && (forall p :: p in q.delayed ==> p in procs && procs[p].state == Delayed)
  }

  ghost predicate Placed(q: Queues, procs: map<Pid, Pcb>, idle: Pid) {
    && (forall p :: Copies(q, idle, p) == One(Alive(procs, p)))
    && StatesMatch(q, procs)
  }

  ghost predicate IdleReady(w: World) {
    w.cfg.idle in w.procs && w.procs[w.cfg.idle].state == Ready && w.procs[w.cfg.idle].resume == User
  }

  /** A live process that is neither current nor idle sits where its state says. */
  lemma PlaceOf(q: Queues, procs: map<Pid, Pcb>, idle: Pid, p: Pid)
    requires Placed(q, procs, idle) && Alive(procs, p) && q.current != Some(p)
    ensures procs[p].state == Blocked && p != idle ==> p in q.blocked
    ensures procs[p].state == Delayed && p != idle ==> p in q.delayed
    ensures procs[p].state == Ready && p != idle ==> p in q.ready
  {
    assert Copies(q, idle, p) == 1;
  }

  lemma CurrentIsNowhereElse(q: Queues, procs: map<Pid, Pcb>, idle: Pid)
    requires Placed(q, procs, idle) && q.current.Some?
    ensures Alive(procs, q.current.value)
    ensures q.current.value !in q.ready && q.current.value !in q.blocked && q.current.value !in q.delayed
    ensures q.reserve ==> q.current.value != idle
  {
    assert Copies(q, idle, q.current.value) == One(Alive(procs, q.current.value));
  }

  /** Putting the current process away leaves the counts as they were. */
  lemma EnqueueKeepsCopies(q: Queues, procs: map<Pid, Pcb>, idle: Pid)
    requires q.current.Some? ==>
      Alive(procs, q.current.value) && q.current.value !in q.blocked && q.current.value !in q.delayed
    requires StatesMatch(q, procs)
    ensures var e := Enqueue(q, procs).(current := None);
            StatesMatch(e, procs) && forall p :: Copies(e, idle, p) == Copies(q, idle, p)
  {
  }

  lemma PopReady(q: Queues, idle: Pid)
    requires q.ready != []
    ensures forall p :: Copies(q.(ready := q.ready[1..]), idle, p) + One(p == q.ready[0]) == Copies(q, idle, p)
  {
    assert q.ready == [q.ready[0]] + q.ready[1..];
  }

  /** The scheduler moves processes about but loses and doubles none. */
  lemma DispatchKeepsPlaced(q: Queues, w: World)
    requires Placed(q, w.procs, w.cfg.idle) && IdleReady(w)
    requires q.current.Some? ==> q.current.value in w.procs
    ensures var q' := Dispatch(q, w);
            && Placed(q', w.procs, w.cfg.idle)
            && q'.current.Some? && q'.current.value in w.procs
            && w.procs[q'.current.value].state == Ready
  {
    if q.current.Some? { CurrentIsNowhereElse(q, w.procs, w.cfg.idle); }
    if q.ready != [] {
      DispatchNext(q, w);
    } else {
      DispatchEmpty(q, w);
    }
  }

  lemma DispatchNext(q: Queues, w: World)
    requires Placed(q, w.procs, w.cfg.idle) && q.ready != []
    requires q.current.Some? ==>
      Alive(w.procs, q.current.value) && q.current.value !in q.blocked && q.current.value !in q.delayed
    ensures Placed(Dispatch(q, w), w.procs, w.cfg.idle)
  {
    var idle := w.cfg.idle;
    var rest := q.(ready := q.ready[1..]);
    PopReady(q, idle);
    EnqueueKeepsCopies(rest, w.procs, idle);
    var e := Enqueue(rest, w.procs).(current := None);
    var q' := Dispatch(q, w);
    assert q' == e.(current := Some(q.ready[0]), switches := q.switches + 1);
    forall p ensures Copies(q', idle, p) == Copies(e, idle, p) + One(p == q.ready[0]) {}
  }

  lemma DispatchEmpty(q: Queues, w: World)
    requires Placed(q, w.procs, w.cfg.idle) && q.ready == [] && IdleReady(w)
    requires q.current.Some? ==>
      Alive(w.procs, q.current.value) && q.current.value !in q.blocked && q.current.value !in q.delayed
    ensures var q' := Dispatch(q, w);
            Placed(q', w.procs, w.cfg.idle) && w.procs[q'.current.value].state == Ready
  {
    var idle := w.cfg.idle;
    var q' := Dispatch(q, w);
    assert Copies(q, idle, idle) == 1;
    if q.current.Some? && w.procs[q.current.value].state == Ready {
      assert q' == q.(switches := q.switches + 1);
      forall p ensures Copies(q', idle, p) == Copies(q, idle, p) {}
    } else {
      EnqueueKeepsCopies(q, w.procs, idle);
      var e := Enqueue(q, w.procs).(current := None);
      assert q' == e.(current := Some(idle), reserve := false, switches := q.switches + 1);
      forall p ensures Copies(q', idle, p) == Copies(e, idle, p) {}
    }
  }

  lemma DistinctCount(ps: seq<Pid>, p: Pid)
    requires Distinct(ps)
    ensures multiset(ps)[p] == One(p in ps)
  {
    if ps != [] {
      DistinctCount(ps[1..], p);
      assert ps == [ps[0]] + ps[1..];
    }
  }

  lemma WakeKeepsPlaced(s: State, ps: seq<Pid>)
    requires Placed(s.q, s.w.procs, s.w.cfg.idle)
    requires Distinct(ps) && forall p :: p in ps ==> p in s.q.blocked
    ensures var s' := Wake(s, ps); Placed(s'.q, s'.w.procs, s'.w.cfg.idle)
  {
    var s' := Wake(s, ps);
    var idle := s.w.cfg.idle;
    forall p ensures Copies(s'.q, idle, p) == Copies(s.q, idle, p) {
      DistinctCount(ps, p);
    }
    forall p | p in s.q.ready || p in s.q.delayed ensures p !in ps {
      assert Copies(s.q, idle, p) == One(Alive(s.w.procs, p));
    }
  }

  /** The current process may change its own control block. */
  lemma OwnStepKeepsPlaced(q: Queues, procs: map<Pid, Pcb>, procs': map<Pid, Pcb>, idle: Pid, c: Pid)
    requires Placed(q, procs, idle) && q.current == Some(c) && procs.Keys == procs'.Keys
    requires forall p :: p in procs && p != c ==> procs'[p].state == procs[p].state
    requires Alive(procs', c)
    ensures Placed(q, procs', idle)
  {
    CurrentIsNowhereElse(q, procs, idle);
  }

  // ---------------------------------------------- between two steps of the kernel

  /** Placement as it holds whenever a step begins or ends. */
  ghost predicate Settled(s: State) {
    && s.q.current.Some? && s.q.current.value in s.w.procs
    && s.w.procs[s.q.current.value].state == Ready
    && Placed(s.q, s.w.procs, s.w.cfg.idle)
    && IdleReady(s.w)
  }

  /** s' differs from s in objects and in what c writes into its own control block. */
  ghost predicate OwnStep(s: State, s': State, c: Pid) {
    && s'.q == s.q && s'.w.cfg == s.w.cfg && s.q.current == Some(c) && c in s.w.procs
    && s.w.procs.Keys == s'.w.procs.Keys
    && (forall p :: p in s.w.procs && p != c ==> s'.w.procs[p] == s.w.procs[p])
  }

  lemma ReturnSettles(s: State, s': State, c: Pid)
    requires Settled(s) && OwnStep(s, s', c)
    requires s'.w.procs[c].state == Ready && (c == s.w.cfg.idle ==> s'.w.procs[c].resume == User)
    ensures Settled(s')
  {
    OwnStepKeepsPlaced(s.q, s.w.procs, s'.w.procs, s.w.cfg.idle, c);
  }

  lemma ScheduleSettles(s: State)
    requires s.q.current.Some? ==> s.q.current.value in s.w.procs
    requires Placed(s.q, s.w.procs, s.w.cfg.idle) && IdleReady(s.w)
    ensures Settled(Schedule(s))
  {
    DispatchKeepsPlaced(s.q, s.w);
  }

  /** Giving up the processor: s1 is the state just before the scheduler is called. */
  lemma SleepSettles(s: State, s1: State, c: Pid)
    requires Settled(s) && OwnStep(s, s1, c) && c != s.w.cfg.idle && Alive(s1.w.procs, c)
    ensures Settled(Schedule(s1))
  {
    OwnStepKeepsPlaced(s.q, s.w.procs, s1.w.procs, s.w.cfg.idle, c);
    ScheduleSettles(s1);
  }

  lemma WakeSettles(s: State, ps: seq<Pid>)
    requires Settled(s) && Distinct(ps)
    requires forall p :: p in ps ==> p in s.w.procs && s.w.procs[p].state == Blocked
    ensures Settled(Wake(s, ps))
  {
    forall p | p in ps ensures p in s.q.blocked {
      PlaceOf(s.q, s.w.procs, s.w.cfg.idle, p);
    }
    WakeKeepsPlaced(s, ps);
  }

  // ---------------------------------------------------- steps that move processes

  lemma ForkSettles(s: State, c: Pid, child: Pid, framesLeft: bool)
    requires Settled(s) && s.q.current == Some(c) && c != s.w.cfg.idle && child !in s.w.procs
    ensures Settled(ForkStep(s, c, child, framesLeft))
  {
    var s' := ForkStep(s, c, child, framesLeft);
    var idle := s.w.cfg.idle;
    if Estimate(s, c) >= MAX_PROCESSES || !framesLeft {
      ReturnSettles(s, s', c);
    } else {
      CurrentIsNowhereElse(s.q, s.w.procs, idle);
      forall p ensures Copies(s'.q, idle, p) == Copies(s.q, idle, p) + One(p == child) {}
      assert Copies(s.q, idle, child) == 0;
    }
  }

  /** The current process dies; with wake, a blocked process becomes ready. */
  lemma DeathKeepsPlaced(q: Queues, procs: map<Pid, Pcb>, q': Queues, procs': map<Pid, Pcb>, idle: Pid,
                         c: Pid, par: Pid, wake: bool)
    requires Placed(q, procs, idle) && q.current == Some(c) && par in procs && par != c
    requires procs'.Keys == procs.Keys && c in procs && procs'[c].state == Dead
    requires forall p :: p in procs && p != c && p != par ==> procs'[p].state == procs[p].state
    requires procs'[par].state == if wake then Ready else procs[par].state
    requires wake ==> procs[par].state == Blocked && par != idle
    requires q' == if wake
                   then q.(current := None, ready := q.ready + [par], blocked := q.blocked - {par})
                   else q.(current := None, dead := q'.dead)
    ensures Placed(q', procs', idle)
  {
    CurrentIsNowhereElse(q, procs, idle);
    if wake { PlaceOf(q, procs, idle, par); }
    assert Copies(q, idle, par) == One(Alive(procs, par));
    forall p ensures Copies(q', idle, p) + One(p == c) == Copies(q, idle, p) {}
  }

  lemma ExitSettles(s: State, c: Pid)
    requires Settled(s) && s.q.current == Some(c) && c != s.w.cfg.idle && HasParent(s.w.procs, c)
    requires var par := s.w.procs[c].parent.value;
             Alive(s.w.procs, par) && (s.w.procs[par].waiting ==> s.w.procs[par].state == Blocked)
    ensures Settled(ExitStep(s, c))
  {
    var s1 := BeforeExitSchedules(s, c);
    var par := s.w.procs[c].parent.value;
    ExitStates(s.w.procs, s.w.cfg.init, c, s.w.cfg.clears);
    DeathKeepsPlaced(s.q, s.w.procs, s1.q, s1.w.procs, s.w.cfg.idle, c, par, s.w.procs[par].waiting);
    ScheduleSettles(s1);
  }

  /** The converse: waking a parent that is not blocked puts it in two places. */
  lemma ExitUnsettles(s: State, c: Pid)
    requires Settled(s) && s.q.current == Some(c) && c != s.w.cfg.idle && HasParent(s.w.procs, c)
    requires var par := s.w.procs[c].parent.value;
             Alive(s.w.procs, par) && s.w.procs[par].waiting && s.w.procs[par].state != Blocked
    ensures !Settled(ExitStep(s, c))
  {
    var s1 := BeforeExitSchedules(s, c);
    var idle := s.w.cfg.idle;
    var par := s.w.procs[c].parent.value;
    assert Copies(s.q, idle, par) == 1;
    assert Copies(s1.q, idle, par) == 2;
    CopiesAfterDispatch(s1.q, s1.w, par);
  }

  /** Whatever the state, the scheduler leaves a process at least as often as it found it,
      unless it was the current one. */
  lemma CopiesAfterDispatch(q: Queues, w: World, p: Pid)
    requires q.current == None
    ensures Copies(Dispatch(q, w), w.cfg.idle, p) >= Copies(q, w.cfg.idle, p)
  {
    if q.ready != [] { PopReady(q, w.cfg.idle); }
  }

  /** TrapClockHandler up to its scheduler call. */
  lemma TickKeepsPlaced(s: State)
    requires Settled(s)
    ensures var s1 := AfterTick(s); Placed(s1.q, s1.w.procs, s1.w.cfg.idle)
  {
    var s1 := AfterTick(s);
    var idle := s.w.cfg.idle;
    ExpiryParts(s.w.procs, s.q.delayed);
    assert multiset(s1.q.ready) == multiset(s.q.ready) + multiset(Expired(s.w.procs, s.q.delayed));
    forall p ensures Copies(s1.q, idle, p) == One(Alive(s1.w.procs, p)) {
      assert Copies(s1.q, idle, p) == Copies(s.q, idle, p);
      assert Copies(s.q, idle, p) == One(Alive(s.w.procs, p));
    }
    forall p | p in s.q.ready || p in s.q.blocked ensures p !in s.q.delayed {
      assert Copies(s.q, idle, p) == One(Alive(s.w.procs, p));
    }
  }

  lemma ClockSettles(s: State)
    requires Settled(s)
    ensures Settled(ClockStep(s))
  {
    TickKeepsPlaced(s);
    assert s.w.cfg.idle !in s.q.delayed;
    ScheduleSettles(AfterTick(s));
  }

  /** The walk splits the delayed processes in two, keeping their order. */
  lemma ExpiryParts(procs: map<Pid, Pcb>, ps: seq<Pid>)
    ensures multiset(ps) == multiset(Expired(procs, ps)) + multiset(Unexpired(procs, ps))
    ensures forall p :: p in Expired(procs, ps) <==> p in ps && Expires(procs, p)
    ensures forall p :: p in Unexpired(procs, ps) <==> p in ps && !Expires(procs, p)
  {
    if ps != [] {
      ExpiryParts(procs, ps[1..]);
      assert ps == [ps[0]] + ps[1..];
    }
  }
}
