/**
 * The kernel's two containers: a queue and a set, both singly linked lists on the heap.
 * `nodes` is the chain as a sequence; Valid ties every pointer and counter to it.
 */
module Containers {
  import opened Types

  class QNode<T> {
    const key: nat
    var next: QNode?<T>
    const data: T

    constructor (key: nat, data: T)
      ensures this.key == key && this.data == data && next == null
    {
      this.key, this.data, this.next := key, data, null;
    }
  }

  /** queue.c: pushed at the rear, popped at the front. */
  class Queue<T> {
    var front: QNode?<T>
    var rear: QNode?<T>
    var nextKey: nat
    var count: nat
    ghost var nodes: seq<QNode<T>>
    ghost var spine: set<QNode<T>>

    ghost predicate Valid()
      reads this, spine
    {
      && (forall i :: 0 <= i < |nodes| ==> nodes[i] in spine)
      && count == |nodes| <= nextKey
      && (forall i :: 0 <= i < |nodes| ==> nodes[i].key == nextKey - |nodes| + i)
      && (nodes == [] ==> front == null && rear == null)
      && (nodes != [] ==> front == nodes[0] && rear == nodes[|nodes| - 1] && rear.next == null)
      && (forall i, j :: 0 <= i < j < |nodes| && j == i + 1 ==> nodes[i].next == nodes[j])
    }

    ghost function Contents(): (s: seq<T>)
      reads this
      ensures |s| == |nodes|
    {
      var ns := nodes;
      seq(|ns|, i requires 0 <= i < |ns| => ns[i].data)
    }

    constructor ()
      ensures Valid() && Contents() == [] && spine == {}
    {
      front, rear, nextKey, count, nodes, spine := null, null, 0, 0, [], {};
    }

    method Push(data: T)
      requires Valid()
      modifies this, spine
      ensures Valid() && Contents() == old(Contents()) + [data]
      ensures rear != null && fresh(rear) && spine == old(spine) + {rear}
    {
      var node := new QNode(nextKey, data);
      if rear == null {
        front, rear := node, node;
      } else {
        rear.next := node;
        rear := node;
      }
      nodes, spine := nodes + [node], spine + {node};
      nextKey := nextKey + 1;
      count := count + 1;
    }

    method Pop() returns (r: Option<T>)
      requires Valid()
      modifies this
      ensures Valid() && spine == old(spine)
      ensures old(Contents()) == [] ==> r == None && Contents() == []
      ensures old(Contents()) != [] ==> r == Some(old(Contents())[0]) && Contents() == old(Contents())[1..]
    {
      if front == null {
        return None;
      }
      var node := front;
      assert |nodes| > 1 ==> nodes[0].next == nodes[1];
      front := front.next;
      if front == null {
        rear := null;
      }
      nodes := nodes[1..];
      count := count - 1;
      r := Some(node.data);
    }
  }

  // ------------------------------------------------- any sequence of queue calls

  datatype QueueCall<T> = Push(data: T) | Pop

  /** What a first-in-first-out sequence answers to each pop. */
  function FifoAnswers<T>(calls: seq<QueueCall<T>>, content: seq<T>): seq<Option<T>>
    decreases |calls|
  {
    if calls == [] then [] else
      match calls[0]
      case Push(d) => FifoAnswers(calls[1..], content + [d])
      case Pop =>
        if content == [] then [None] + FifoAnswers(calls[1..], content)
        else [Some(content[0])] + FifoAnswers(calls[1..], content[1..])
  }

  /** Every sequence of calls on a new linked queue is answered as by the sequence. */
  method ReplayQueue<T(0)>(calls: seq<QueueCall<T>>) returns (answers: seq<Option<T>>)
    ensures answers == FifoAnswers(calls, [])
  {
    var q := new Queue<T>();
    answers := [];
    var i := 0;
    assert calls[0..] == calls;
    while i < |calls|
      invariant 0 <= i <= |calls|
      invariant q.Valid() && fresh(q) && fresh(q.spine)
      invariant answers + FifoAnswers(calls[i..], q.Contents()) == FifoAnswers(calls, [])
    {
      assert calls[i..][1..] == calls[i + 1..];
      match calls[i] {
        case Push(d) => q.Push(d);
        case Pop =>
          var r := q.Pop();
          answers := answers + [r];
      }
      i := i + 1;
    }
  }

  /** Popping gives back exactly what was pushed, in the same order. */
  lemma {:induction false} PushesComeBackInOrder<T>(items: seq<T>, content: seq<T>)
    ensures FifoAnswers(seq(|items|, i requires 0 <= i < |items| => QueueCall.Push(items[i]))
                          + seq(|content| + |items|, _ => Pop), content)
         == seq(|content| + |items|, i requires 0 <= i < |content| + |items| => Some((content + items)[i]))
    decreases |items|, |content|
  {
    var pushes := seq(|items|, i requires 0 <= i < |items| => QueueCall.Push(items[i]));
    var pops := seq(|content| + |items|, _ => QueueCall<T>.Pop);
    var calls := pushes + pops;
    if items != [] {
      PushesComeBackInOrder(items[1..], content + [items[0]]);
      assert calls[1..] == seq(|items[1..]|, i requires 0 <= i < |items[1..]| => QueueCall.Push(items[1..][i]))
                             + seq(|content + [items[0]]| + |items[1..]|, _ => QueueCall<T>.Pop);
      assert content + [items[0]] + items[1..] == content + items;
    } else if content != [] {
      PushesComeBackInOrder([], content[1..]);
      assert calls[1..] == seq(|items|, i requires 0 <= i < |items| => QueueCall.Push(items[i]))
                             + seq(|content[1..]| + |items|, _ => QueueCall<T>.Pop);
      assert content + items == content;
    }
  }
}
