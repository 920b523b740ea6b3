/** Reads from a terminal, from call to return. */
module ReadCalls {
  import opened Types
  import opened Kernel
  import opened Placement
  import opened Protocols
  import opened Family
  import opened Invariant
  import opened Exactness
  import opened Runs
  import opened Manual
  import opened Outcomes
  import opened WakeUps
  import opened Calls

  /** A line that terminal t takes. */
  predicate LineFor(e: Event, t: nat, maxLine: nat) {
    e.Receive? && e.t == t && 1 <= |e.line| <= maxLine
  }

  /** m is the first step from i on, before k, in which a line comes for t. */
  ghost predicate FirstLine(es: seq<Event>, t: nat, maxLine: nat, i: nat, k: nat, m: int)
    requires k <= |es|
  {
    i <= m < k && LineFor(es[m], t, maxLine) && NoLineFor(es, t, maxLine, i, m)
  }

  ghost predicate NoLineFor(es: seq<Event>, t: nat, maxLine: nat, i: nat, k: nat)
    requires k <= |es|
  {
    forall n :: i <= n < k ==> !LineFor(es[n], t, maxLine)
  }

  /** c still waits for a line, or is ready and has its part of the first that came. */
  ghost predicate LineAt(s: State, es: seq<Event>, c: Pid, i: nat, k: nat, t: nat, len: nat)
    requires k <= |es|
  {
    var maxLine := s.w.cfg.maxLine;
    && c in s.w.procs && s.w.procs[c].resume == ReadWait(t, len)
    && if s.w.procs[c].state == Blocked then NoLineFor(es, t, maxLine, i, k)
       else s.w.procs[c].state == Ready && HasLine(s.w.procs[c].line, es, t, maxLine, i, k, len)
  }

  ghost predicate HasLine(line: Bytes, es: seq<Event>, t: nat, maxLine: nat, i: nat, k: nat, len: nat)
    requires k <= |es|
  {
    exists m :: FirstLine(es, t, maxLine, i, k, m) && line == Take(es[m].line, len)
  }

  lemma ListenersAreBlocked(w: World, p: Pid)
    requires Protocol(w) && p in w.procs && w.procs[p].state == Ready
    ensures !Listens(w, p)
  {
    forall t | 0 <= t < |w.ttys| ensures p !in w.ttys[t].readers {
      assert KeyOk(w, TtyKey(t));
    }
  }

  /** What a line brings to a reader that waits for it. */
  lemma LineReaches(s: State, e: Event, c: Pid, t: nat, len: nat)
    requires Inv(s) && Enabled(s, e) && Waits(s.w, c) && s.w.procs[c].resume == ReadWait(t, len)
    requires LineFor(e, t, s.w.cfg.maxLine)
    ensures var s' := Apply(s, e);
            c in s'.w.procs && s'.w.procs[c].state == Ready && s'.w.procs[c].line == Take(e.line, len)
  {
    StepMeetsPage(s, e);
    BlockedIsRegistered(s.w, c);
    assert c in s.w.ttys[t].readers;
  }

  /** Nothing else wakes it in a safe step. */
  lemma OnlyALineWakes(s: State, e: Event, c: Pid, t: nat, len: nat)
    requires Inv(s) && Enabled(s, e) && Safe(s, e) && Waits(s.w, c) && s.w.procs[c].resume == ReadWait(t, len)
    requires !LineFor(e, t, s.w.cfg.maxLine)
    ensures Waits(Apply(s, e).w, c)
  {
    WokenExactly(s, e, c);
    StepLeavesOthers(s, e, c);
  }

  lemma SameLineLater(line: Bytes, es: seq<Event>, t: nat, maxLine: nat, i: nat, k: nat, len: nat)
    requires k < |es| && HasLine(line, es, t, maxLine, i, k, len)
    ensures HasLine(line, es, t, maxLine, i, k + 1, len)
  {
    var m :| FirstLine(es, t, maxLine, i, k, m) && line == Take(es[m].line, len);
    assert FirstLine(es, t, maxLine, i, k + 1, m);
  }

  lemma ReadyKeepsLine(s: State, es: seq<Event>, c: Pid, i: nat, k: nat, t: nat, len: nat)
    requires i <= k < |es| && Inv(s) && Enabled(s, es[k]) && !Takes(s, es[k], c)
    requires LineAt(s, es, c, i, k, t, len) && s.w.procs[c].state == Ready
    ensures LineAt(Apply(s, es[k]), es, c, i, k + 1, t, len)
  {
    StepLeavesOthers(s, es[k], c);
    ConfigStays(s, es[k]);
    ListenersAreBlocked(s.w, c);
    SameLineLater(s.w.procs[c].line, es, t, s.w.cfg.maxLine, i, k, len);
  }

  lemma LineStep(s: State, es: seq<Event>, c: Pid, i: nat, k: nat, t: nat, len: nat)
    requires i <= k < |es| && Inv(s) && Enabled(s, es[k]) && Safe(s, es[k]) && !Takes(s, es[k], c)
    requires LineAt(s, es, c, i, k, t, len)
    ensures LineAt(Apply(s, es[k]), es, c, i, k + 1, t, len)
  {
    var e := es[k];
    if s.w.procs[c].state == Ready {
      ReadyKeepsLine(s, es, c, i, k, t, len);
    } else {
      StepLeavesOthers(s, e, c);
      ConfigStays(s, e);
      if LineFor(e, t, s.w.cfg.maxLine) {
        LineReaches(s, e, c, t, len);
        assert FirstLine(es, t, s.w.cfg.maxLine, i, k + 1, k);
      } else {
        OnlyALineWakes(s, e, c, t, len);
      }
    }
  }

  ghost predicate LineCarries(states: seq<State>, es: seq<Event>, c: Pid, i: nat, k: nat, t: nat, len: nat)
    requires k < |es| < |states|
  {
    LineAt(states[k], es, c, i, k, t, len) ==> LineAt(states[k + 1], es, c, i, k + 1, t, len)
  }

  lemma {:induction false} LineSoFar(states: seq<State>, es: seq<Event>, c: Pid, i: nat, j: nat, t: nat, len: nat)
    requires i < j <= |es| < |states| && LineAt(states[i + 1], es, c, i, i + 1, t, len)
    requires forall k :: i < k < j ==> LineCarries(states, es, c, i, k, t, len)
    ensures LineAt(states[j], es, c, i, j, t, len)
    decreases j
  {
    var n := j - 1;
    if n > i {
      LineSoFar(states, es, c, i, n, t, len);
      assert LineCarries(states, es, c, i, n, t, len);
    }
    assert n + 1 == j;
  }

  lemma LineCarriesOn(states: seq<State>, es: seq<Event>, c: Pid, i: nat, j: nat, t: nat, len: nat, k: nat)
    requires CallOf(states, es, c, i, j) && i < k < j - 1 && states[i + 1].w.procs[c].resume == ReadWait(t, len)
    ensures LineCarries(states, es, c, i, k, t, len)
  {
    WaitsUntilTheEnd(states, es, c, i, j, ReadWait(t, len), k);
    GoodStep(states, es, k);
    SafeStep(states, es, k);
    if LineAt(states[k], es, c, i, k, t, len) { LineStep(states[k], es, c, i, k, t, len); }
  }

  lemma ReadStarts(s: State, c: Pid, es: seq<Event>, i: nat, t: nat, len: nat)
    requires Inv(s) && i < |es| && es[i] == TtyRead(t, len) && Enabled(s, es[i]) && s.q.current == Some(c)
    ensures var s' := Apply(s, es[i]);
            if s.w.ttys[t].unread == [] then LineAt(s', es, c, i, i + 1, t, len) && s'.w.cfg == s.w.cfg
            else && InUserMode(s', c) && s'.w.procs[c].rc == 0 && t < |s'.w.ttys|
                 && (1 <= len <= s.w.cfg.maxLine ==>
                       s'.w.procs[c].got == Take(s.w.ttys[t].unread, len)
                       && s'.w.ttys[t].unread == Drop(s.w.ttys[t].unread, len))
                 && (!(1 <= len <= s.w.cfg.maxLine) ==> s'.w == s.w.(procs := s'.w.procs))
  {
    StepMeetsPage(s, es[i]);
  }

  lemma ReaderHasItsLine(states: seq<State>, es: seq<Event>, c: Pid, i: nat, j: nat, t: nat, len: nat)
    requires CallOf(states, es, c, i, j) && states[i + 1].w.procs[c].resume == ReadWait(t, len)
    requires LineAt(states[i + 1], es, c, i, i + 1, t, len)
    ensures var k := j - 1;
            && i < k && es[k] == Continue && states[k].q.current == Some(c)
            && LineAt(states[k], es, c, i, k, t, len)
  {
    NotYetBack(states, es, c, i, j, i);
    forall k | i < k < j - 1 ensures LineCarries(states, es, c, i, k, t, len) {
      LineCarriesOn(states, es, c, i, j, t, len, k);
    }
    LineSoFar(states, es, c, i, j - 1, t, len);
    WaitsInPlace(states, es, c, i, j, ReadWait(t, len), j - 1);
  }

  lemma CurrentHasItsLine(s: State, es: seq<Event>, c: Pid, i: nat, k: nat, t: nat, len: nat)
    requires Inv(s) && s.q.current == Some(c) && k <= |es| && LineAt(s, es, c, i, k, t, len)
    ensures HasLine(s.w.procs[c].line, es, t, s.w.cfg.maxLine, i, k, len)
  {
  }

  lemma ReadEnds(s: State, es: seq<Event>, c: Pid, i: nat, k: nat, t: nat, len: nat)
    requires Inv(s) && Enabled(s, Continue) && s.q.current == Some(c) && k <= |es| && LineAt(s, es, c, i, k, t, len)
    ensures var s' := Apply(s, Continue);
            c in s'.w.procs && s'.w.procs[c].rc == 0 && HasLine(s'.w.procs[c].got, es, t, s.w.cfg.maxLine, i, k, len)
  {
    CurrentHasItsLine(s, es, c, i, k, t, len);
    GoesBack(s, c);
  }

  lemma ReadEndsAt(states: seq<State>, es: seq<Event>, c: Pid, i: nat, k: nat, t: nat, len: nat)
    requires SafeRun(states, es) && Inv(states[0]) && k < |es|
    requires es[k] == Continue && states[k].q.current == Some(c) && LineAt(states[k], es, c, i, k, t, len)
    ensures c in states[k + 1].w.procs && states[k + 1].w.procs[c].rc == 0
    ensures HasLine(states[k + 1].w.procs[c].got, es, t, states[k].w.cfg.maxLine, i, k, len)
  {
    GoodStep(states, es, k);
    ReadEnds(states[k], es, c, i, k, t, len);
  }

  lemma LineIsOurs(states: seq<State>, es: seq<Event>, c: Pid, i: nat, j: nat, t: nat, len: nat)
    requires CallOf(states, es, c, i, j) && states[i + 1].w.procs[c].resume == ReadWait(t, len)
    requires LineAt(states[i + 1], es, c, i, i + 1, t, len)
    ensures states[j].w.procs[c].rc == 0
    ensures HasLine(states[j].w.procs[c].got, es, t, states[j - 1].w.cfg.maxLine, i, j - 1, len)
  {
    var k := j - 1;
    ReaderHasItsLine(states, es, c, i, j, t, len);
    ReadEndsAt(states, es, c, i, k, t, len);
  }

  /** A read that has to wait returns 0 with as much as it asked for of the first line that comes; a read
      that finds bytes returns at once with the front of them. */
  lemma ReadGetsItsLine(states: seq<State>, es: seq<Event>, c: Pid, i: nat, j: nat, t: nat, len: nat)
    requires CallOf(states, es, c, i, j) && es[i] == TtyRead(t, len)
    ensures t < |states[i].w.ttys| && states[j].w.procs[c].rc == 0
    ensures if states[i].w.ttys[t].unread == []
            then HasLine(states[j].w.procs[c].got, es, t, states[j - 1].w.cfg.maxLine, i, j - 1, len)
            else j == i + 1 && (1 <= len <= states[i].w.cfg.maxLine ==>
                   states[j].w.procs[c].got == Take(states[i].w.ttys[t].unread, len))
  {
    GoodStep(states, es, i);
    ReadStarts(states[i], c, es, i, t, len);
    if states[i].w.ttys[t].unread == [] {
      LineIsOurs(states, es, c, i, j, t, len);
    } else {
      NotYetBack(states, es, c, i, j, i);
    }
  }
}
