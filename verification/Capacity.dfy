/** How many processes there are. */
module Capacity {
  import opened Types
  import opened Kernel
  import opened Placement
  import opened Protocols
  import opened Family
  import opened Invariant
  import opened Settling
  import opened Kinship
  import opened Exactness
  import opened Runs

  ghost function Population(procs: map<Pid, Pcb>): set<Pid> {
    set p | p in procs && procs[p].state != Dead
  }

  /** All the containers together, as a multiset. */
  ghost function Where(q: Queues, idle: Pid): multiset<Pid> {
    (if q.current.Some? then multiset{q.current.value} else multiset{})
    + multiset(q.ready) + multiset(q.blocked) + multiset(q.delayed)
    + (if q.reserve then multiset{idle} else multiset{})
  }

  lemma WhereIsEveryone(q: Queues, procs: map<Pid, Pcb>, idle: Pid)
    requires Placed(q, procs, idle)
    ensures Where(q, idle) == multiset(Population(procs))
  {
    forall p ensures Where(q, idle)[p] == multiset(Population(procs))[p] {
      assert Where(q, idle)[p] == Copies(q, idle, p);
      assert Copies(q, idle, p) == One(Alive(procs, p));
    }
  }

  /** Fork's estimate is the number of live processes plus an overcount of at most two:
      it never counts too few, and so fork may refuse with two places still free. */
  lemma EstimateOvercounts(s: State)
    requires Inv(s)
    ensures var c := s.q.current.value;
            Estimate(s, c) == |Population(s.w.procs)|
              + (if c == s.w.cfg.idle || c == s.w.cfg.init then 1 else 2)
              - (if s.q.reserve then 1 else 0)
    ensures |Population(s.w.procs)| <= Estimate(s, s.q.current.value) <= |Population(s.w.procs)| + 2
  {
    var idle := s.w.cfg.idle;
    WhereIsEveryone(s.q, s.w.procs, idle);
    assert |Where(s.q, idle)| == |Population(s.w.procs)|;
    CurrentIsNowhereElse(s.q, s.w.procs, idle);
  }

  lemma ForkPopulation(s: State, c: Pid, child: Pid, framesLeft: bool)
    requires c in s.w.procs && child !in s.w.procs
    ensures Population(ForkStep(s, c, child, framesLeft).w.procs)
         == Population(s.w.procs) + if Estimate(s, c) >= MAX_PROCESSES || !framesLeft then {} else {child}
  {
  }

  lemma ForkRespectsCapacity(s: State, c: Pid, child: Pid, framesLeft: bool)
    requires Inv(s) && s.q.current == Some(c) && child !in s.w.procs
    requires |Population(s.w.procs)| <= MAX_PROCESSES
    ensures |Population(ForkStep(s, c, child, framesLeft).w.procs)| <= MAX_PROCESSES
  {
    ForkPopulation(s, c, child, framesLeft);
    EstimateOvercounts(s);
  }

  lemma DeathEmptiesAPlace(w: World, w': World, c: Pid, par: Pid, wake: bool)
    requires DiesIn(w, w', c, par, wake) && Alive(w.procs, par)
    ensures Population(w'.procs) == Population(w.procs) - {c}
  {
  }

  lemma ExitEmptiesAPlace(s: State, c: Pid)
    requires Inv(s) && s.q.current == Some(c) && c != s.w.cfg.init && c != s.w.cfg.idle
    requires HasParent(s.w.procs, c) && s.w.procs[c].resume == User
    ensures Population(ExitStep(s, c).w.procs) == Population(s.w.procs) - {c}
  {
    var par := s.w.procs[c].parent.value;
    NeverStuck(s);
    ExitStates(s.w.procs, s.w.cfg.init, c, s.w.cfg.clears);
    DeathEmptiesAPlace(s.w, ExitStep(s, c).w, c, par, s.w.procs[par].waiting);
  }

  lemma StepRespectsCapacity(s: State, e: Event)
    requires Inv(s) && Enabled(s, e) && |Population(s.w.procs)| <= MAX_PROCESSES
    ensures |Population(Apply(s, e).w.procs)| <= MAX_PROCESSES
  {
    var c := s.q.current.value;
    match e
    case Fork(child, framesLeft) => ForkRespectsCapacity(s, c, child, framesLeft);
    case Exit(_) =>
      ExitEmptiesAPlace(s, c);
      Fewer(Population(s.w.procs) - {c}, Population(s.w.procs));
    case _ =>
      StepKeepsKin(s, e);
      SamePopulation(s.w.procs, Apply(s, e).w.procs);
  }

  lemma SamePopulation(procs: map<Pid, Pcb>, procs': map<Pid, Pcb>)
    requires SameFamily(procs, procs')
    ensures Population(procs) == Population(procs')
  {
  }

  lemma Fewer(a: set<Pid>, b: set<Pid>)
    requires a <= b
    ensures |a| <= |b|
  {
    assert b == a + (b - a);
  }

  /** In every safe run from boot there are never more than MAX_PROCESSES live processes. */
  lemma {:induction false} NeverTooMany(states: seq<State>, es: seq<Event>, i: nat)
    requires SafeRun(states, es) && Inv(states[0]) && i <= |es|
    requires |Population(states[0].w.procs)| <= MAX_PROCESSES
    ensures |Population(states[i].w.procs)| <= MAX_PROCESSES
  {
    if i > 0 {
      NeverTooMany(states, es, i - 1);
      CapacityAt(states, es, i - 1);
    }
  }

  lemma CapacityAt(states: seq<State>, es: seq<Event>, k: nat)
    requires SafeRun(states, es) && Inv(states[0]) && k < |es|
    requires |Population(states[k].w.procs)| <= MAX_PROCESSES
    ensures |Population(states[k + 1].w.procs)| <= MAX_PROCESSES
  {
    var s, e := states[k], es[k];
    InvThroughout(states, es, k);
    SafeStep(states, es, k);
    StepRespectsCapacity(s, e);
    assert states[k + 1] == Apply(s, e);
  }
}
