/**
 * The kernel invariant, and which steps are safe for it. Two handlers of the source
 * can break it: exit, which wakes a parent whose `waiting` flag is stale, and a pipe
 * read, which pushes registered writers that are ready already.
 */
module Invariant {
  import opened Types
  import opened Kernel
  import opened Placement
  import opened Protocols
  import opened Family

  ghost predicate Inv(s: State) {
    Settled(s) && Protocol(s.w) && FamilyOk(s.w.procs, s.w.cfg)
  }

  /** The pipe from which step e takes bytes, if any. */
  ghost function Drained(s: State, e: Event): Option<int>
    requires Enabled(s, e)
  {
    match e
    case PipeRead(id, _) =>
      if id in s.w.pipes && s.w.pipes[id].bytes != [] then Some(id) else None
    case Continue =>
      (match s.w.procs[s.q.current.value].resume
       case PipeReading(id, _) => if s.w.pipes[id].bytes != [] then Some(id) else None
       case _ => None)
    case _ => None
  }

  ghost predicate WritersBlocked(w: World, id: int)
    requires id in w.pipes
  {
    forall p :: p in w.pipes[id].writers ==> p in w.procs && w.procs[p].state == Blocked
  }

  /** What a caller can check before the step. */
  ghost predicate Safe(s: State, e: Event)
    requires Enabled(s, e)
  {
    && (e.Exit? ==>
          var par := s.w.procs[s.w.procs[s.q.current.value].parent.value];
          par.waiting ==> WakeIsHarmless(s.w, s.w.procs[s.q.current.value].parent.value))
    && (Drained(s, e).Some? ==> WritersBlocked(s.w, Drained(s, e).value))
  }

  /** Readers and writers of a pipe are different processes. */
  lemma PipeCrowd(w: World, id: int, n: nat)
    requires Protocol(w) && id in w.pipes
    ensures Distinct(Take(w.pipes[id].readers, n) + w.pipes[id].writers)
    ensures forall p :: p in Take(w.pipes[id].readers, n) ==> Waits(w, p)
  {
    assert KeyOk(w, PipeKey(id));
    var pipe := w.pipes[id];
    Split(pipe.readers, n);
    var heads := Take(pipe.readers, n);
    assert forall p :: p in heads ==> p in pipe.readers;
    forall i, j | 0 <= i < j < |heads + pipe.writers| ensures (heads + pipe.writers)[i] != (heads + pipe.writers)[j] {
      if i < |heads| <= j {
        assert heads[i] in heads && pipe.writers[j - |heads|] in pipe.writers;
      }
    }
  }
}
