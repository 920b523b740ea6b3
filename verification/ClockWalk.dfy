/**
 * The clock trap's walk on the heap: it steps along the delayed list while set_pop
 * unlinks nodes from that very list.
 */
module ClockWalk {
  import opened Types
  import opened Containers
  import opened LinkedSet
  import Kernel

  class Proc {
    const pid: Pid
    var state: Kernel.RunState
    var delayTicks: int

    constructor (pid: Pid, n: int)
      ensures this.pid == pid && state == Kernel.RunState.Delayed && delayTicks == n
    {
      this.pid, this.state, this.delayTicks := pid, Kernel.RunState.Delayed, n;
    }
  }

  /** Of the first i nodes, those whose process has ticks left after this trap. */
  ghost function Kept(nodes: seq<Node<Proc>>, ticks: seq<int>, i: nat): seq<Node<Proc>>
    requires i <= |nodes| == |ticks|
  {
    if i == 0 then [] else Kept(nodes, ticks, i - 1) + if ticks[i - 1] - 1 > 0 then [nodes[i - 1]] else []
  }

  /** Of the first i processes, those whose time is up. */
  ghost function TimeUp(nodes: seq<Node<Proc>>, ticks: seq<int>, i: nat): seq<Proc>
    requires i <= |nodes| == |ticks|
  {
    if i == 0 then [] else TimeUp(nodes, ticks, i - 1) + if ticks[i - 1] - 1 > 0 then [] else [nodes[i - 1].item]
  }

  /** What is on each list: exactly the unexpired stay and exactly the expired go. */
  lemma {:induction false} Sorted(nodes: seq<Node<Proc>>, ticks: seq<int>, i: nat, k: nat)
    requires k < i <= |nodes| == |ticks|
    ensures ticks[k] > 1 ==> nodes[k] in Kept(nodes, ticks, i)
    ensures ticks[k] <= 1 ==> nodes[k].item in TimeUp(nodes, ticks, i)
    ensures |Kept(nodes, ticks, i)| + |TimeUp(nodes, ticks, i)| == i
  {
    if k < i - 1 {
      Sorted(nodes, ticks, i - 1, k);
    } else if i > 1 {
      Sorted(nodes, ticks, i - 1, 0);
    }
  }

  lemma {:induction false} KeptKeys(nodes: seq<Node<Proc>>, ticks: seq<int>, i: nat, key: int)
    requires i <= |nodes| == |ticks| && forall k :: 0 <= k < i ==> nodes[k].key != key
    ensures forall k :: 0 <= k < |Kept(nodes, ticks, i)| ==> Kept(nodes, ticks, i)[k].key != key
  {
    if i > 0 { KeptKeys(nodes, ticks, i - 1, key); }
  }

  ghost predicate DistinctNodeKeys(nodes: seq<Node<Proc>>) {
    forall j, k :: 0 <= j < k < |nodes| ==> nodes[j].key != nodes[k].key
  }

  /** Every entry of the list is filed under its process's pid. */
  ghost predicate FiledByPid(nodes: seq<Node<Proc>>) {
    forall i :: 0 <= i < |nodes| ==> nodes[i].key == nodes[i].item.pid
  }

  /** The list when the walk has reached position i. */
  ghost function Chain(nodes: seq<Node<Proc>>, ticks: seq<int>, i: nat): seq<Node<Proc>>
    requires i <= |nodes| == |ticks|
  {
    Kept(nodes, ticks, i) + nodes[i..]
  }

  /** Where nodes[i] and its successor are in the chain when the walk reaches nodes[i]. */
  lemma ChainAt(nodes: seq<Node<Proc>>, ticks: seq<int>, i: nat)
    requires i < |nodes| == |ticks|
    ensures var at := |Kept(nodes, ticks, i)|;
            && |Chain(nodes, ticks, i)| == at + |nodes| - i
            && Chain(nodes, ticks, i)[at] == nodes[i]
            && (i + 1 < |nodes| ==> Chain(nodes, ticks, i)[at + 1] == nodes[i + 1])
  {
  }

  lemma ChainEnd(nodes: seq<Node<Proc>>, ticks: seq<int>)
    requires |nodes| == |ticks|
    ensures Chain(nodes, ticks, |nodes|) == Kept(nodes, ticks, |ticks|)
  {
    assert nodes[|nodes|..] == [];
  }

  lemma UnlinkReached(nodes: seq<Node<Proc>>, ticks: seq<int>, i: nat)
    requires i < |nodes| == |ticks| && DistinctNodeKeys(nodes)
    ensures WithoutKey(Chain(nodes, ticks, i), nodes[i].key) == Kept(nodes, ticks, i) + nodes[i + 1..]
  {
    var kept, all := Kept(nodes, ticks, i), Chain(nodes, ticks, i);
    KeptKeys(nodes, ticks, i, nodes[i].key);
    assert forall k :: 0 <= k < |kept| ==> all[k] == kept[k];
    WithoutNode(all, |kept|);
    assert all[..|kept|] == kept && all[|kept| + 1..] == nodes[i + 1..];
  }

  lemma KeepReached(nodes: seq<Node<Proc>>, ticks: seq<int>, i: nat)
    requires i < |nodes| == |ticks|
    ensures Chain(nodes, ticks, i) == Kept(nodes, ticks, i) + [nodes[i]] + nodes[i + 1..]
  {
    assert nodes[i..] == [nodes[i]] + nodes[i + 1..];
  }

  lemma NextChain(nodes: seq<Node<Proc>>, ticks: seq<int>, i: nat)
    requires i < |nodes| == |ticks| && DistinctNodeKeys(nodes)
    ensures Chain(nodes, ticks, i + 1)
         == if ticks[i] - 1 > 0 then Chain(nodes, ticks, i) else WithoutKey(Chain(nodes, ticks, i), nodes[i].key)
  {
    UnlinkReached(nodes, ticks, i);
    KeepReached(nodes, ticks, i);
  }

  /** A process leaves the delayed list for the ready queue. */
  method Move(delayed: LinkedSet<Proc>, ready: Queue<Proc>, pcb: Proc) returns (ghost more: set<QNode<Proc>>)
    requires delayed.Valid() && ready.Valid()
    modifies delayed, delayed.spine, ready, ready.spine
    ensures delayed.Valid() && delayed.nodes == WithoutKey(old(delayed.nodes), pcb.pid)
    ensures ready.Valid() && ready.Contents() == old(ready.Contents()) + [pcb]
    ensures delayed.spine == old(delayed.spine) && ready.spine == old(ready.spine) + more && fresh(more)
  {
    var r := delayed.Pop(pcb.pid);
    ghost var nodes, queued := delayed.nodes, ready.Contents();
    assert ready.Valid() && queued == old(ready.Contents());
    ready.Push(pcb);
    assert delayed.Valid() && delayed.nodes == nodes;
    more := {ready.rear};
  }

  /** One process of the walk, whose list node has already been stepped past. */
  method Visit(delayed: LinkedSet<Proc>, ready: Queue<Proc>, pcb: Proc)
    returns (ghost moved: bool, ghost more: set<QNode<Proc>>)
    requires delayed.Valid() && ready.Valid()
    modifies delayed, delayed.spine, ready, ready.spine, pcb
    ensures delayed.Valid() && ready.Valid()
    ensures moved == (old(pcb.delayTicks) - 1 <= 0)
    ensures pcb.delayTicks == old(pcb.delayTicks) - 1
    ensures pcb.state == if moved then Kernel.RunState.Ready else old(pcb.state)
    ensures delayed.nodes == if moved then WithoutKey(old(delayed.nodes), pcb.pid) else old(delayed.nodes)
    ensures ready.Contents() == old(ready.Contents()) + if moved then [pcb] else []
    ensures delayed.spine == old(delayed.spine) && ready.spine == old(ready.spine) + more && fresh(more)
  {
    pcb.delayTicks := pcb.delayTicks - 1;
    moved, more := pcb.delayTicks <= 0, {};
    if pcb.delayTicks <= 0 {
      more := Move(delayed, ready, pcb);
      pcb.state := Kernel.RunState.Ready;
    }
  }

  /** Processes and their ticks and states when the trap comes; the first i have been visited. */
  ghost predicate Ticked(nodes: seq<Node<Proc>>, ticks: seq<int>, states: seq<Kernel.RunState>, i: nat, procs: set<Proc>)
    reads procs
  {
    && |nodes| == |ticks| == |states|
    && forall k :: 0 <= k < |nodes| ==>
      && nodes[k].item in procs
      && nodes[k].item.delayTicks == (if k < i then ticks[k] - 1 else ticks[k])
      && nodes[k].item.state == (if k < i && ticks[k] - 1 <= 0 then Kernel.RunState.Ready else states[k])
  }

  lemma TimeUpStep(ready0: seq<Proc>, nodes: seq<Node<Proc>>, ticks: seq<int>, i: nat)
    requires i < |nodes| == |ticks|
    ensures ready0 + TimeUp(nodes, ticks, i) + (if ticks[i] - 1 > 0 then [] else [nodes[i].item])
         == ready0 + TimeUp(nodes, ticks, i + 1)
  {
  }

  /** Different entries are different processes. */
  lemma OtherEntries(nodes: seq<Node<Proc>>, i: nat, k: nat)
    requires DistinctNodeKeys(nodes) && FiledByPid(nodes) && i < |nodes| && k < |nodes| && k != i
    ensures nodes[k].item != nodes[i].item
  {
    assert nodes[k].key != nodes[i].key;
  }

  /** The visit of nodes[i]: the lists, and what happens to its process. */
  method VisitAt(delayed: LinkedSet<Proc>, ready: Queue<Proc>, pcb: Proc,
                 ghost nodes: seq<Node<Proc>>, ghost ticks: seq<int>, ghost i: nat)
    returns (ghost more: set<QNode<Proc>>)
    requires delayed.Valid() && ready.Valid() && i < |nodes| == |ticks| && pcb == nodes[i].item
    requires DistinctNodeKeys(nodes) && pcb.pid == nodes[i].key && pcb.delayTicks == ticks[i]
    requires delayed.nodes == Chain(nodes, ticks, i)
    modifies delayed, delayed.spine, ready, ready.spine, pcb
    ensures delayed.Valid() && ready.Valid() && delayed.nodes == Chain(nodes, ticks, i + 1)
    ensures pcb.delayTicks == ticks[i] - 1
    ensures pcb.state == if ticks[i] - 1 <= 0 then Kernel.RunState.Ready else old(pcb.state)
    ensures ready.Contents() == old(ready.Contents()) + if ticks[i] - 1 > 0 then [] else [pcb]
    ensures delayed.spine == old(delayed.spine) && ready.spine == old(ready.spine) + more && fresh(more)
  {
    NextChain(nodes, ticks, i);
    ghost var moved;
    moved, more := Visit(delayed, ready, pcb);
  }

  /** The visit in terms of the whole walk: all other processes keep their ticks and states. */
  method VisitTicked(delayed: LinkedSet<Proc>, ready: Queue<Proc>, pcb: Proc,
                     ghost nodes: seq<Node<Proc>>, ghost ticks: seq<int>, ghost states: seq<Kernel.RunState>,
                     ghost i: nat, ghost procs: set<Proc>) returns (ghost more: set<QNode<Proc>>)
    requires delayed.Valid() && ready.Valid() && i < |nodes| == |ticks| == |states| && pcb == nodes[i].item
    requires DistinctNodeKeys(nodes) && FiledByPid(nodes)
    requires delayed.nodes == Chain(nodes, ticks, i) && Ticked(nodes, ticks, states, i, procs)
    modifies delayed, delayed.spine, ready, ready.spine, pcb
    ensures delayed.Valid() && ready.Valid()
    ensures delayed.nodes == Chain(nodes, ticks, i + 1) && Ticked(nodes, ticks, states, i + 1, procs)
    ensures ready.Contents() == old(ready.Contents()) + if ticks[i] - 1 > 0 then [] else [pcb]
    ensures delayed.spine == old(delayed.spine) && ready.spine == old(ready.spine) + more && fresh(more)
  {
    forall k | 0 <= k < |nodes| && k != i ensures nodes[k].item != pcb {
      OtherEntries(nodes, i, k);
    }
    more := VisitAt(delayed, ready, pcb, nodes, ticks, i);
  }

  /** Where the walk stands at position i. */
  ghost predicate AtNode(delayed: LinkedSet<Proc>, node: Node?<Proc>,
                         nodes: seq<Node<Proc>>, ticks: seq<int>, i: nat)
    reads delayed
  {
    && i <= |nodes| == |ticks| && delayed.nodes == Chain(nodes, ticks, i)
    && node == if i < |nodes| then nodes[i] else null
  }

  ghost predicate Walking(delayed: LinkedSet<Proc>, ready: Queue<Proc>, node: Node?<Proc>,
                          nodes: seq<Node<Proc>>, ticks: seq<int>, states: seq<Kernel.RunState>, i: nat,
                          procs: set<Proc>, ready0: seq<Proc>)
    reads delayed, delayed.spine, ready, ready.spine, procs
  {
    && delayed.Valid() && ready.Valid() && DistinctNodeKeys(nodes) && FiledByPid(nodes)
    && AtNode(delayed, node, nodes, ticks, i) && Ticked(nodes, ticks, states, i, procs)
    && ready.Contents() == ready0 + TimeUp(nodes, ticks, i)
  }

  /** The loop body: step past the node first, then visit its process. */
  method Step(delayed: LinkedSet<Proc>, ready: Queue<Proc>, node: Node<Proc>,
              ghost nodes: seq<Node<Proc>>, ghost ticks: seq<int>, ghost states: seq<Kernel.RunState>, ghost i: nat,
              ghost procs: set<Proc>, ghost ready0: seq<Proc>)
    returns (next: Node?<Proc>, ghost more: set<QNode<Proc>>)
    requires Walking(delayed, ready, node, nodes, ticks, states, i, procs, ready0)
    modifies delayed, delayed.spine, ready, ready.spine, procs
    ensures i < |nodes| && Walking(delayed, ready, next, nodes, ticks, states, i + 1, procs, ready0)
    ensures delayed.spine == old(delayed.spine) && ready.spine == old(ready.spine) + more && fresh(more)
  {
    ChainAt(nodes, ticks, i);
    TimeUpStep(ready0, nodes, ticks, i);
    next := node.next;
    more := VisitTicked(delayed, ready, node.item, nodes, ticks, states, i, procs);
  }

  method Loop(delayed: LinkedSet<Proc>, ready: Queue<Proc>, ghost nodes: seq<Node<Proc>>,
              ghost ticks: seq<int>, ghost states: seq<Kernel.RunState>, ghost procs: set<Proc>, ghost ready0: seq<Proc>)
    requires Walking(delayed, ready, delayed.head, nodes, ticks, states, 0, procs, ready0)
    modifies delayed, delayed.spine, ready, ready.spine, procs
    ensures Walking(delayed, ready, null, nodes, ticks, states, |nodes|, procs, ready0)
  {
    var node := delayed.head;
    ghost var i: nat, grown: set<QNode<Proc>> := 0, {};
    while node != null
      invariant i <= |nodes| && Walking(delayed, ready, node, nodes, ticks, states, i, procs, ready0)
      invariant delayed.spine == old(delayed.spine) && ready.spine <= old(ready.spine) + grown && fresh(grown)
      decreases |nodes| - i
    {
      ghost var more;
      node, more := Step(delayed, ready, node, nodes, ticks, states, i, procs, ready0);
      grown := grown + more;
      i := i + 1;
    }
  }

  /** The walk of TrapClockHandler. Every delayed process loses one tick; exactly the
      expired ones move to the ready queue, in list order and marked ready; the others
      stay on the list in their order. The walk only ever reads nodes still linked. */
  method Walk(delayed: LinkedSet<Proc>, ready: Queue<Proc>,
              ghost ticks: seq<int>, ghost states: seq<Kernel.RunState>, ghost procs: set<Proc>)
    requires delayed.Valid() && ready.Valid() && FiledByPid(delayed.nodes)
    requires Ticked(delayed.nodes, ticks, states, 0, procs)
    modifies delayed, delayed.spine, ready, ready.spine, procs
    ensures delayed.Valid() && ready.Valid()
    ensures delayed.nodes == Kept(old(delayed.nodes), ticks, |ticks|)
    ensures ready.Contents() == old(ready.Contents()) + TimeUp(old(delayed.nodes), ticks, |ticks|)
    ensures Ticked(old(delayed.nodes), ticks, states, |ticks|, procs)
  {
    ghost var nodes, ready0 := delayed.nodes, ready.Contents();
    Loop(delayed, ready, nodes, ticks, states, procs, ready0);
    ChainEnd(nodes, ticks);
  }

  // ------------------------------------------- the walk and the step function

  function PidsOf(nodes: seq<Node<Proc>>): (ps: seq<Pid>)
    ensures |ps| == |nodes|
  {
    seq(|nodes|, i requires 0 <= i < |nodes| => nodes[i].item.pid)
  }

  function Pids(items: seq<Proc>): (ps: seq<Pid>)
    ensures |ps| == |items|
  {
    seq(|items|, i requires 0 <= i < |items| => items[i].pid)
  }

  /** The control blocks have the ticks and states that the heap has when the trap comes. */
  ghost predicate Mirrors(procs: map<Pid, Kernel.Pcb>, nodes: seq<Node<Proc>>, ticks: seq<int>,
                          states: seq<Kernel.RunState>)
  {
    && |nodes| == |ticks| == |states|
    && forall k :: 0 <= k < |nodes| ==>
         && nodes[k].item.pid in procs
         && procs[nodes[k].item.pid].delay == ticks[k] && procs[nodes[k].item.pid].state == states[k]
  }

  lemma {:induction false} WalkSplitsTheList(procs: map<Pid, Kernel.Pcb>, nodes: seq<Node<Proc>>, ticks: seq<int>,
                                             states: seq<Kernel.RunState>, i: nat)
    requires Mirrors(procs, nodes, ticks, states) && i <= |nodes|
    ensures PidsOf(Kept(nodes, ticks, i)) == Kernel.Unexpired(procs, PidsOf(nodes[..i]))
    ensures Pids(TimeUp(nodes, ticks, i)) == Kernel.Expired(procs, PidsOf(nodes[..i]))
  {
    if i > 0 {
      var j := i - 1;
      WalkSplitsTheList(procs, nodes, ticks, states, j);
      assert PidsOf(nodes[..i]) == PidsOf(nodes[..j]) + [nodes[j].item.pid];
      Kernel.ExpirySnoc(procs, PidsOf(nodes[..j]), nodes[j].item.pid);
    }
  }

  /** The walk on the heap leaves what the step function of the clock trap says: the unexpired on the
      list, the expired queued, both in order, and every listed process one tick on. */
  lemma WalkIsTick(procs: map<Pid, Kernel.Pcb>, nodes: seq<Node<Proc>>, ticks: seq<int>, states: seq<Kernel.RunState>)
    requires Mirrors(procs, nodes, ticks, states)
    ensures var listed, n := PidsOf(nodes), |nodes|;
      && PidsOf(Kept(nodes, ticks, n)) == Kernel.Unexpired(procs, listed)
      && Pids(TimeUp(nodes, ticks, n)) == Kernel.Expired(procs, listed)
      && forall k :: 0 <= k < n ==>
           var p := nodes[k].item.pid;
           && p in Kernel.Tick(procs, listed)
           && Kernel.Tick(procs, listed)[p].delay == ticks[k] - 1
           && Kernel.Tick(procs, listed)[p].state == if ticks[k] - 1 <= 0 then Kernel.RunState.Ready else states[k]
  {
    var listed := PidsOf(nodes);
    WalkSplitsTheList(procs, nodes, ticks, states, |nodes|);
    assert nodes[..|nodes|] == nodes;
    forall k | 0 <= k < |nodes| ensures nodes[k].item.pid in listed {
      assert listed[k] == nodes[k].item.pid;
    }
  }
}
