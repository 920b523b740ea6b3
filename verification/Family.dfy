/** The process tree: forks grow it, exits hand orphans to init. */
module Family {
  import opened Types
  import opened Kernel

  /** The parent chain of p runs through live processes and reaches init in at most n steps. */
  ghost predicate Rooted(procs: map<Pid, Pcb>, init: Pid, p: Pid, n: nat)
    decreases n
  {
    || p == init
    || (n > 0 && Alive(procs, p) && procs[p].parent.Some?
        && Rooted(procs, init, procs[p].parent.value, n - 1))
  }

  ghost predicate ReachesInit(procs: map<Pid, Pcb>, init: Pid, p: Pid) {
    exists n: nat :: Rooted(procs, init, p, n)
  }

  /** What every live process other than init and idle knows of its parent. */
  ghost predicate ParentOk(procs: map<Pid, Pcb>, cfg: Config, p: Pid)
    requires p in procs
  {
    && procs[p].parent.Some?
    && var par := procs[p].parent.value;
       && Alive(procs, par) && par != p && par != cfg.idle
       && (par != cfg.init ==> p in procs[par].children)
  }

  ghost predicate OffspringOk(procs: map<Pid, Pcb>, p: Pid)
    requires p in procs
  {
    && (forall ch :: ch in procs[p].children ==> Alive(procs, ch) && procs[ch].parent == Some(p))
    && (forall z :: z in procs[p].zombies ==> z in procs && procs[z].state == Dead)
  }

  ghost predicate Member(procs: map<Pid, Pcb>, cfg: Config, p: Pid) {
    Alive(procs, p) && p != cfg.init && p != cfg.idle
  }

  ghost predicate FamilyOk(procs: map<Pid, Pcb>, cfg: Config) {
    && cfg.init != cfg.idle && Alive(procs, cfg.init) && Alive(procs, cfg.idle)
    && (forall p :: Member(procs, cfg, p) ==> ParentOk(procs, cfg, p) && ReachesInit(procs, cfg.init, p))
    && (forall p :: Alive(procs, p) ==> OffspringOk(procs, p))
    && procs[cfg.idle].children == {}
    && procs[cfg.init].parent == None && procs[cfg.idle].parent == None
  }

  /** Steps that neither create nor end a process; collecting zombies is one of them. */
  ghost predicate SameFamily(procs: map<Pid, Pcb>, procs': map<Pid, Pcb>) {
    && procs.Keys == procs'.Keys
    && forall p :: p in procs ==>
         && (procs[p].state == Dead <==> procs'[p].state == Dead)
         && procs[p].parent == procs'[p].parent && procs[p].children == procs'[p].children
         && procs'[p].zombies <= procs[p].zombies
  }

  lemma {:induction false} SameRoots(procs: map<Pid, Pcb>, procs': map<Pid, Pcb>, init: Pid, p: Pid, n: nat)
    requires Rooted(procs, init, p, n)
    requires forall q :: Alive(procs, q) ==> Alive(procs', q) && procs'[q].parent == procs[q].parent
    ensures Rooted(procs', init, p, n)
    decreases n
  {
    if p != init { SameRoots(procs, procs', init, procs[p].parent.value, n - 1); }
  }

  lemma SameFamilyOk(procs: map<Pid, Pcb>, procs': map<Pid, Pcb>, cfg: Config)
    requires FamilyOk(procs, cfg) && SameFamily(procs, procs')
    ensures FamilyOk(procs', cfg)
  {
    forall p | Member(procs', cfg, p) ensures ParentOk(procs', cfg, p) && ReachesInit(procs', cfg.init, p) {
      assert Member(procs, cfg, p);
      var n: nat :| Rooted(procs, cfg.init, p, n);
      SameRoots(procs, procs', cfg.init, p, n);
    }
    forall p | Alive(procs', p) ensures OffspringOk(procs', p) {
      assert OffspringOk(procs, p);
    }
  }

  lemma BirthKeepsFamily(procs: map<Pid, Pcb>, cfg: Config, c: Pid, child: Pid)
    requires FamilyOk(procs, cfg) && Alive(procs, c) && c != cfg.idle && child !in procs
    ensures FamilyOk(AfterBirth(procs, c, child), cfg)
  {
    var procs' := AfterBirth(procs, c, child);
    var init := cfg.init;
    forall p | Member(procs', cfg, p) ensures ParentOk(procs', cfg, p) && ReachesInit(procs', init, p) {
      var q := if p == child then c else p;
      assert Rooted(procs, init, init, 0);
      assert q != init ==> Member(procs, cfg, q);
      var n: nat :| Rooted(procs, init, q, n);
      SameRoots(procs, procs', init, q, n);
      if p == child { assert Rooted(procs', init, child, n + 1); }
    }
    forall p | Alive(procs', p) ensures OffspringOk(procs', p) {
      if p != child { assert OffspringOk(procs, p); }
    }
  }

  lemma ForkKeepsFamily(s: State, c: Pid, child: Pid, framesLeft: bool)
    requires FamilyOk(s.w.procs, s.w.cfg) && Alive(s.w.procs, c) && c != s.w.cfg.idle && child !in s.w.procs
    ensures FamilyOk(ForkStep(s, c, child, framesLeft).w.procs, s.w.cfg)
  {
    if Estimate(s, c) >= MAX_PROCESSES || !framesLeft {
      SameFamilyOk(s.w.procs, ForkStep(s, c, child, framesLeft).w.procs, s.w.cfg);
    } else {
      BirthKeepsFamily(s.w.procs, s.w.cfg, c, child);
    }
  }

  ghost predicate Redirected(procs: map<Pid, Pcb>, procs': map<Pid, Pcb>, init: Pid, c: Pid, q: Pid)
    requires q in procs && q in procs'
  {
    procs'[q].parent == if procs[q].parent == Some(c) then Some(init) else procs[q].parent
  }

  /** Chains that ran through the dying process now end at init. */
  lemma {:induction false} RootsAfterExit(procs: map<Pid, Pcb>, procs': map<Pid, Pcb>, init: Pid, c: Pid, p: Pid, n: nat)
    requires Rooted(procs, init, p, n) && p != c && c != init
    requires forall q :: Alive(procs, q) && q != c ==> Alive(procs', q) && Redirected(procs, procs', init, c, q)
    ensures Rooted(procs', init, p, n)
    decreases n
  {
    if p != init && procs[p].parent.value != c {
      RootsAfterExit(procs, procs', init, c, procs[p].parent.value, n - 1);
    }
  }

  /** What exit does to control blocks, as far as kinship goes. */
  ghost predicate Dies(procs: map<Pid, Pcb>, procs': map<Pid, Pcb>, cfg: Config, c: Pid) {
    && c in procs && procs'.Keys == procs.Keys && procs[c].parent.Some?
    && procs'[c].state == Dead
    && var lost := procs[c].children + procs[c].zombies;
       forall p :: p in procs && p != c ==>
         && (procs[p].state != Dead ==> procs'[p].state != Dead)
         && (procs[p].state == Dead && Some(p) != procs[c].parent ==> procs'[p].state == Dead)
         && procs'[p].parent == (if p in lost then Some(cfg.init) else procs[p].parent)
         && procs'[p].children == (if Some(p) == procs[c].parent then procs[p].children - {c} else procs[p].children)
         && procs'[p].zombies <= procs[p].zombies + {c}
  }

  lemma DeathKeepsFamily(procs: map<Pid, Pcb>, procs': map<Pid, Pcb>, cfg: Config, c: Pid)
    requires FamilyOk(procs, cfg) && Member(procs, cfg, c) && Dies(procs, procs', cfg, c)
    ensures FamilyOk(procs', cfg)
  {
    var init := cfg.init;
    assert OffspringOk(procs, c) && ParentOk(procs, cfg, c);
    forall p | Alive(procs, p) && p != c ensures Redirected(procs, procs', init, c, p) {
      if p != init && p != cfg.idle { assert ParentOk(procs, cfg, p); }
    }
    forall p | Member(procs', cfg, p) ensures ParentOk(procs', cfg, p) && ReachesInit(procs', init, p) {
      assert ParentOk(procs, cfg, p);
      var n: nat :| Rooted(procs, init, p, n);
      RootsAfterExit(procs, procs', init, c, p, n);
    }
    forall p | Alive(procs', p) ensures OffspringOk(procs', p) {
      assert OffspringOk(procs, p) && OffspringOk(procs, c);
    }
  }

  lemma ExitDies(procs: map<Pid, Pcb>, cfg: Config, c: Pid)
    requires HasParent(procs, c)
    ensures Dies(procs, AfterDeath(procs, cfg.init, c, cfg.clears), cfg, c)
  {
  }

  lemma ExitKeepsFamily(s: State, c: Pid)
    requires FamilyOk(s.w.procs, s.w.cfg) && s.q.current == Some(c) && Member(s.w.procs, s.w.cfg, c)
    requires HasParent(s.w.procs, c)
    ensures FamilyOk(ExitStep(s, c).w.procs, s.w.cfg)
  {
    assert ParentOk(s.w.procs, s.w.cfg, c);
    ExitDies(s.w.procs, s.w.cfg, c);
    DeathKeepsFamily(s.w.procs, AfterDeath(s.w.procs, s.w.cfg.init, c, s.w.cfg.clears), s.w.cfg, c);
  }
}
