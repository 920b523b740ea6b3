/**
 * Where exit leaves the rails: on any machine running the code as it is, a run from boot after which a
 * process is in two places at once.
 */
module Departures {
  import opened Types
  import opened Kernel
  import opened Placement
  import opened Protocols
  import opened Family
  import opened Invariant
  import opened Settling
  import opened Kinship
  import opened Exactness
  import opened Runs

  /** Any machine running the code as it is: init is 1, idle 0, and `waiting` is never reset. */
  predicate AsWritten(cfg: Config) {
    cfg.init == 1 && cfg.idle == 0 && cfg.maxLine > 0 && !cfg.clears
  }

  const Blank := Pcb(Ready, false, 0, None, {}, {}, 0, [], [], User)

  ghost predicate Next(s: State, e: Event, s': State) {
    Enabled(s, e) && s' == Apply(s, e)
  }

  lemma BootState(cfg: Config, terminals: nat)
    requires AsWritten(cfg)
    ensures Inv(Boot(cfg, terminals)) && WithChildren(Boot(cfg, terminals), [], {})
    ensures Boot(cfg, terminals).w.pipes == map[] && Boot(cfg, terminals).w.nextId == 0
  {
    InvAtBoot(cfg, terminals);
  }

  // ------------------------------------------------------------ stale `waiting`

  /** init has the children kids, of which those in queue are ready, and runs itself. */
  ghost predicate WithChildren(s: State, queue: seq<Pid>, kids: set<Pid>) {
    && AsWritten(s.w.cfg) && s.q == Queues(Some(1), queue, {}, [], {}, true, 0)
    && s.w.procs.Keys == {0, 1} + kids && 0 !in kids && 1 !in kids
    && s.w.procs[1] == Blank.(children := kids, rc := s.w.procs[1].rc)
    && forall p :: p in kids ==> s.w.procs[p] == NewPcb(1)
  }

  lemma ForkOne(s: State, queue: seq<Pid>, kids: set<Pid>, child: Pid)
    requires WithChildren(s, queue, kids) && |queue| < 2 && child !in kids && child > 1
    ensures Enabled(s, Fork(child, true)) && Apply(s, Fork(child, true)).w.cfg == s.w.cfg
    ensures WithChildren(Apply(s, Fork(child, true)), queue + [child], kids + {child})
  {
  }

  lemma InitWaits(s: State) returns (s': State)
    requires WithChildren(s, [2, 3], {2, 3})
    ensures Next(s, Wait, s')
    ensures && s'.w.cfg == s.w.cfg && s'.q == Queues(Some(2), [3], {1}, [], {}, true, 1)
            && s'.w.procs == s.w.procs[1 := s.w.procs[1].(waiting := true, state := Blocked, resume := WaitLoop)]
  {
    var s1 := SetPcb(s, 1, s.w.procs[1].(waiting := true, state := Blocked, resume := WaitLoop));
    assert Enqueue(s1.q.(ready := [3]), s1.w.procs).blocked == {1};
    assert s.w.procs[1 := s.w.procs[1].(waiting := true)][1 := s1.w.procs[1]] == s1.w.procs;
    s' := Apply(s, Wait);
    assert s' == Schedule(s1);
  }

  /** A child of init exits while init's flag is up: init is pushed on the ready queue. */
  lemma ChildExits(s: State, c: Pid, next: Pid, rest: seq<Pid>)
    requires AsWritten(s.w.cfg) && s.q.current == Some(c) && c > 1 && s.q.ready + [1] == [next] + rest
    requires c in s.w.procs && s.w.procs[c] == NewPcb(1)
    requires 1 in s.w.procs && s.w.procs[1].waiting
    ensures Enabled(s, Exit(0))
    ensures var s' := Apply(s, Exit(0));
            && s'.w.cfg == s.w.cfg && s'.w.procs.Keys == s.w.procs.Keys
            && s'.q.current == Some(next) && s'.q.ready == rest && s'.q.reserve == s.q.reserve
            && s'.w.procs[1].waiting
            && (forall p :: p in s.w.procs && p != c && p != 1 ==> s'.w.procs[p] == s.w.procs[p])
  {
    assert NewPcb(1).children + NewPcb(1).zombies == {};
    var s1 := BeforeExitSchedules(s, c);
    assert s1.q.ready == [next] + rest;
  }

  lemma NextFork(s: State, queue: seq<Pid>, kids: set<Pid>, child: Pid) returns (s': State)
    requires WithChildren(s, queue, kids) && |queue| < 2 && child !in kids && child > 1
    ensures Next(s, Fork(child, true), s') && s'.w.cfg == s.w.cfg
    ensures WithChildren(s', queue + [child], kids + {child})
  {
    ForkOne(s, queue, kids, child);
    s' := Apply(s, Fork(child, true));
  }

  lemma FirstFork(s0: State) returns (s1: State)
    requires WithChildren(s0, [], {})
    ensures Next(s0, Fork(2, true), s1) && s1.w.cfg == s0.w.cfg && WithChildren(s1, [2], {2})
  {
    s1 := NextFork(s0, [], {}, 2);
    assert [] + [2] == [2] && {} + {2} == {2};
  }

  lemma SecondFork(s1: State) returns (s2: State)
    requires WithChildren(s1, [2], {2})
    ensures Next(s1, Fork(3, true), s2) && WithChildren(s2, [2, 3], {2, 3})
  {
    s2 := NextFork(s1, [2], {2}, 3);
    assert [2] + [3] == [2, 3] && {2} + {3} == {2, 3};
  }

  lemma TwoForks(s0: State) returns (s1: State, s2: State)
    requires WithChildren(s0, [], {})
    ensures Next(s0, Fork(2, true), s1) && Next(s1, Fork(3, true), s2)
    ensures WithChildren(s2, [2, 3], {2, 3})
  {
    s1 := FirstFork(s0);
    s2 := SecondFork(s1);
  }

  lemma TwoExits(s3: State) returns (s4: State, s5: State)
    requires AsWritten(s3.w.cfg) && s3.q == Queues(Some(2), [3], {1}, [], {}, true, 1)
    requires 2 in s3.w.procs && s3.w.procs[2] == NewPcb(1) && 3 in s3.w.procs && s3.w.procs[3] == NewPcb(1)
    requires 1 in s3.w.procs && s3.w.procs[1].waiting
    ensures Next(s3, Exit(0), s4) && Next(s4, Exit(0), s5)
    ensures Copies(s5.q, 0, 1) >= 2 && s5.w.cfg.idle == 0
  {
    assert [3] + [1] == [3] + [1] && [1] + [1] == [1] + [1];
    ChildExits(s3, 2, 3, [1]);
    s4 := Apply(s3, Exit(0));
    ChildExits(s4, 3, 1, [1]);
    s5 := Apply(s4, Exit(0));
  }

  lemma TwoSteps(states: seq<State>, es: seq<Event>)
    requires |es| == 2 && |states| == 3
    requires Next(states[0], es[0], states[1]) && Next(states[1], es[1], states[2])
    ensures Run(states, es)
  {
    Chain(states, es);
  }

  lemma ThreeSteps(states: seq<State>, es: seq<Event>)
    requires |es| == 3 && |states| == 4
    requires Next(states[0], es[0], states[1]) && Next(states[1], es[1], states[2]) && Next(states[2], es[2], states[3])
    ensures Run(states, es)
  {
    Chain(states, es);
  }

  lemma ForksRun(s0: State) returns (states: seq<State>, es: seq<Event>)
    requires WithChildren(s0, [], {})
    ensures es == [Fork(2, true), Fork(3, true)] && Run(states, es) && states[0] == s0
    ensures WithChildren(states[2], [2, 3], {2, 3})
  {
    var s1, s2 := TwoForks(s0);
    states, es := [s0, s1, s2], [Fork(2, true), Fork(3, true)];
    TwoSteps(states, es);
  }

  lemma ExitsRun(s2: State) returns (states: seq<State>, es: seq<Event>)
    requires WithChildren(s2, [2, 3], {2, 3})
    ensures es == [Wait, Exit(0), Exit(0)] && Run(states, es) && states[0] == s2
    ensures Copies(states[3].q, 0, 1) >= 2 && states[3].w.cfg.idle == 0
  {
    var s3 := InitWaits(s2);
    var s4, s5 := TwoExits(s3);
    states, es := [s2, s3, s4, s5], [Wait, Exit(0), Exit(0)];
    ThreeSteps(states, es);
  }

  lemma DoublesFrom(s0: State) returns (states: seq<State>, es: seq<Event>)
    requires WithChildren(s0, [], {})
    ensures es == [Fork(2, true), Fork(3, true), Wait, Exit(0), Exit(0)]
    ensures Run(states, es) && states[0] == s0
    ensures Copies(states[5].q, 0, 1) >= 2 && states[5].w.cfg.idle == 0
  {
    var first, es1 := ForksRun(s0);
    var second, es2 := ExitsRun(first[2]);
    Join(first, es1, second, es2);
    states, es := first + second[1..], es1 + es2;
  }

  /** Two children of a waiting parent exit one after the other. The parent's flag is
      still up when the second one exits, though the parent is already in the ready
      queue: it ends up current and ready at once. */
  lemma SecondExitDoublesParent(cfg: Config, terminals: nat) returns (states: seq<State>, es: seq<Event>)
    requires AsWritten(cfg)
    ensures es == [Fork(2, true), Fork(3, true), Wait, Exit(0), Exit(0)]
    ensures Run(states, es) && states[0] == Boot(cfg, terminals) && Inv(states[0])
    ensures Copies(states[5].q, 0, 1) >= 2 && !Inv(states[5])
  {
    BootState(cfg, terminals);
    states, es := DoublesFrom(Boot(cfg, terminals));
    NotTwice(states[5], 0, 1);
  }

  lemma Chain(states: seq<State>, es: seq<Event>)
    requires |states| == |es| + 1 && forall i :: 0 <= i < |es| ==> Next(states[i], es[i], states[i + 1])
    ensures Run(states, es)
  {
    forall i | 0 <= i < |es| ensures StepAt(states, es, i) {
      assert Next(states[i], es[i], states[i + 1]);
    }
  }

  lemma NotTwice(s: State, idle: Pid, p: Pid)
    requires Copies(s.q, idle, p) >= 2 && s.w.cfg.idle == idle
    ensures !Inv(s)
  {
    assert Copies(s.q, s.w.cfg.idle, p) != One(Alive(s.w.procs, p));
  }

  lemma Join(states: seq<State>, es: seq<Event>, more: seq<State>, moreEs: seq<Event>)
    requires Run(states, es) && Run(more, moreEs) && states[|es|] == more[0]
    ensures Run(states + more[1..], es + moreEs)
  {
    var all, allEs := states + more[1..], es + moreEs;
    forall i | 0 <= i < |allEs| ensures StepAt(all, allEs, i) {
      if i < |es| {
        RunStep(states, es, i);
      } else {
        RunStep(more, moreEs, i - |es|);
        assert all[i] == more[i - |es|] && all[i + 1] == more[i - |es| + 1] && allEs[i] == moreEs[i - |es|];
      }
    }
  }
}
