/** The invariant at boot, and exactly which steps keep it. */
module Exactness {
  import opened Types
  import opened Kernel
  import opened Placement
  import opened Protocols
  import opened Family
  import opened Invariant
  import opened Settling
  import opened Kinship

  lemma InvAtBoot(cfg: Config, terminals: nat)
    requires cfg.init != cfg.idle && cfg.maxLine > 0
    ensures Inv(Boot(cfg, terminals))
  {
    var s := Boot(cfg, terminals);
    forall p ensures Copies(s.q, cfg.idle, p) == One(Alive(s.w.procs, p)) {}
  }

  /** A current process that is in the kernel can always go on, and a dying one finds
      its parent: no handler follows a null pointer. */
  lemma NeverStuck(s: State)
    requires Inv(s)
    ensures var c := s.q.current.value;
            && (s.w.procs[c].resume != User ==> Enabled(s, Continue))
            && (c != s.w.cfg.init && c != s.w.cfg.idle ==>
                  HasParent(s.w.procs, c) && Alive(s.w.procs, s.w.procs[c].parent.value))
  {
    var c := s.q.current.value;
    assert ProcOk(s.w, c);
    if c != s.w.cfg.init && c != s.w.cfg.idle {
      assert Member(s.w.procs, s.w.cfg, c) && ParentOk(s.w.procs, s.w.cfg, c);
    }
  }

  /** A stale wake-up of a parent queued on an object leaves the object with a waiter
      that does not wait. */
  lemma HarmfulWakeBreaks(w: World, w': World, c: Pid, par: Pid)
    requires Protocol(w) && DiesIn(w, w', c, par, true) && w.procs[par].state == Blocked && !WakeIsHarmless(w, par)
    ensures !Protocol(w')
  {
    assert ProcOk(w, par) && !Waits(w', par);
    assert !(KeyOk(w', KeyOf(w.procs[par].resume)) && ProcOk(w', par));
  }

  lemma ExitBreaksProtocol(s: State, c: Pid)
    requires Inv(s) && s.q.current == Some(c) && HasParent(s.w.procs, c) && s.w.procs[c].resume == User
    requires var par := s.w.procs[c].parent.value;
             s.w.procs[par].waiting && s.w.procs[par].state == Blocked && !WakeIsHarmless(s.w, par)
    ensures !Protocol(ExitStep(s, c).w)
  {
    ExitStates(s.w.procs, s.w.cfg.init, c, s.w.cfg.clears);
    HarmfulWakeBreaks(s.w, ExitStep(s, c).w, c, s.w.procs[c].parent.value);
  }

  lemma ExitIsExact(s: State, e: Event)
    requires Inv(s) && Enabled(s, e) && e.Exit? && !Safe(s, e)
    ensures !Inv(Apply(s, e))
  {
    var c := s.q.current.value;
    assert ParentOk(s.w.procs, s.w.cfg, c);
    if s.w.procs[s.w.procs[c].parent.value].state == Blocked {
      ExitBreaksProtocol(s, c);
    } else {
      ExitUnsettles(s, c);
    }
  }

  /** Pushing a ready writer once more leaves it in two places. */
  lemma DrainIsExact(s: State, c: Pid, id: int, len: nat, p: Pid)
    requires Inv(s) && s.q.current == Some(c) && id in s.w.pipes && s.w.pipes[id].bytes != []
    requires !s.w.procs[c].resume.PipeWriting?
    requires p in s.w.pipes[id].writers && !(p in s.w.procs && s.w.procs[p].state == Blocked)
    ensures !Settled(PipeReadLoop(s, c, id, len))
  {
    var s' := PipeReadLoop(s, c, id, len);
    var idle := s.w.cfg.idle;
    assert KeyOk(s.w, PipeKey(id)) && p != c;
    assert ProcOk(s.w, p);
    assert Copies(s.q, idle, p) == 1;
    var pipe := s.w.pipes[id];
    var n := if Drop(pipe.bytes, len) != [] then 1 else 0;
    var ps := Take(pipe.readers, n) + pipe.writers;
    assert s'.q.ready == s.q.ready + ps && p in ps;
    assert multiset(s'.q.ready) == multiset(s.q.ready) + multiset(ps);
    assert p in multiset(ps);
    assert p !in s.q.blocked;
    assert Copies(s'.q, idle, p) >= 2;
  }

  lemma PipeReadIsExact(s: State, e: Event)
    requires Inv(s) && Enabled(s, e) && !e.Exit? && !Safe(s, e)
    ensures !Inv(Apply(s, e))
  {
    var c := s.q.current.value;
    var id := Drained(s, e).value;
    var p :| p in s.w.pipes[id].writers && !(p in s.w.procs && s.w.procs[p].state == Blocked);
    assert KeyOk(s.w, PipeKey(id));
    match e
    case PipeRead(_, len) => DrainIsExact(s, c, id, len, p);
    case Continue => DrainIsExact(s, c, id, s.w.procs[c].resume.len, p);
  }

  /** Exactly the safe steps keep the invariant. */
  lemma StepIsExact(s: State, e: Event)
    requires Inv(s) && Enabled(s, e)
    ensures Inv(Apply(s, e)) <==> Safe(s, e)
  {
    if Safe(s, e) {
      StepSettles(s, e);
      StepKeepsProtocol(s, e);
      StepKeepsFamily(s, e);
    } else if e.Exit? {
      ExitIsExact(s, e);
    } else {
      PipeReadIsExact(s, e);
    }
  }
}
