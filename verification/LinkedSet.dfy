/** set.c: a singly linked list of entries with distinct non-negative keys. */
module LinkedSet {
  import opened Types

  class Node<T> {
    const key: int
    const item: T
    var next: Node?<T>

    constructor (key: int, item: T)
      ensures this.key == key && this.item == item && next == null
    {
      this.key, this.item, this.next := key, item, null;
    }
  }

  type Entries<T> = seq<(int, T)>

  ghost predicate DistinctKeys<T>(es: Entries<T>) {
    forall i, j :: 0 <= i < j < |es| ==> es[i].0 != es[j].0
  }

  predicate HasKey<T>(es: Entries<T>, key: int) {
    exists i :: 0 <= i < |es| && es[i].0 == key
  }

  function Remove<T>(es: Entries<T>, key: int): Entries<T> {
    if es == [] then []
    else if es[0].0 == key then es[1..]
    else [es[0]] + Remove(es[1..], key)
  }

  /** What remains of a chain when one node goes: the others in order, still with distinct keys. */
  lemma WithoutOne<T>(was: seq<Node<T>>, i: nat)
    requires i < |was| && forall j, k :: 0 <= j < k < |was| ==> was[j].key != was[k].key
    ensures var rest := was[..i] + was[i + 1..];
      && |rest| == |was| - 1
      && (forall k :: 0 <= k < |rest| ==> rest[k] == was[if k < i then k else k + 1])
      && (forall j, k :: 0 <= j < k < |rest| ==> rest[j].key != rest[k].key)
  {
  }

  class LinkedSet<T> {
    var head: Node?<T>
    var nodeCount: nat
    ghost var nodes: seq<Node<T>>
    ghost var spine: set<Node<T>>

    ghost predicate Valid()
      reads this, spine
    {
      && (forall i :: 0 <= i < |nodes| ==> nodes[i] in spine)
      && nodeCount == |nodes|
      && (forall i, j :: 0 <= i < j < |nodes| ==> nodes[i].key != nodes[j].key)
      && (forall i :: 0 <= i < |nodes| ==> nodes[i].key >= 0)
      && (nodes == [] ==> head == null)
      && (nodes != [] ==> head == nodes[0] && nodes[|nodes| - 1].next == null)
      && (forall i, j :: 0 <= i < j < |nodes| && j == i + 1 ==> nodes[i].next == nodes[j])
    }

    /** Keys and items in list order. */
    ghost function Contents(): (es: Entries<T>)
      reads this
      ensures |es| == |nodes|
      ensures forall i :: 0 <= i < |es| ==> es[i] == (nodes[i].key, nodes[i].item)
    {
      Pairs(nodes)
    }

    constructor ()
      ensures Valid() && Contents() == [] && spine == {}
    {
      head, nodeCount, nodes, spine := null, 0, [], {};
    }

    /** The loop of set_find and set_insert: the node with this key, or null. */
    method Search(key: int) returns (node: Node?<T>)
      requires Valid()
      ensures Valid() && (node == null <==> !HasKey(Contents(), key))
      ensures node != null ==> node.key == key && (key, node.item) in Contents()
    {
      node := head;
      ghost var i := 0;
      while node != null
        invariant 0 <= i <= |nodes| && (i == |nodes| <==> node == null) && (i < |nodes| ==> node == nodes[i])
        invariant forall k :: 0 <= k < i ==> nodes[k].key != key
        decreases |nodes| - i
      {
        if key == node.key {
          assert Contents()[i] == (key, node.item);
          return;
        }
        assert i + 1 < |nodes| ==> nodes[i].next == nodes[i + 1];
        node := node.next;
        i := i + 1;
      }
    }

    method Prepend(key: int, item: T)
      requires Valid() && key >= 0 && forall k :: 0 <= k < |nodes| ==> nodes[k].key != key
      modifies this
      ensures Valid() && Contents() == [(key, item)] + old(Contents()) && fresh(spine - old(spine))
    {
      var entry := new Node(key, item);
      entry.next := head;
      head := entry;
      nodeCount := nodeCount + 1;
      nodes, spine := [entry] + nodes, spine + {entry};
    }

    /** set_insert: at the head, unless the key is negative or taken. */
    method Insert(key: int, item: T) returns (ok: bool)
      requires Valid()
      modifies this
      ensures Valid() && ok == (key >= 0 && !HasKey(old(Contents()), key))
      ensures Contents() == if ok then [(key, item)] + old(Contents()) else old(Contents())
      ensures fresh(spine - old(spine))
    {
      if key < 0 {
        return false;
      }
      var found := Search(key);
      if found != null {
        return false;
      }
      forall k | 0 <= k < |nodes| ensures nodes[k].key != key {
        assert Contents()[k].0 == nodes[k].key;
      }
      Prepend(key, item);
      ok := true;
    }

    /** set_find. */
    method Find(key: int) returns (r: Option<T>)
      requires Valid()
      ensures r.Some? <==> HasKey(Contents(), key)
      ensures r.Some? ==> (key, r.value) in Contents()
    {
      if key < 0 {
        return None;
      }
      var node := Search(key);
      r := if node == null then None else Some(node.item);
    }

    /** The walk of set_pop: the node with the key and the one before it. */
    method Locate(key: int) returns (prev: Node?<T>, node: Node?<T>, ghost i: nat)
      requires Valid()
      ensures Valid() && i <= |nodes| && forall k :: 0 <= k < i ==> nodes[k].key != key
      ensures if i == |nodes| then node == null else node == nodes[i] && nodes[i].key == key
      ensures if i == 0 then prev == null else prev == nodes[i - 1]
    {
      prev, node, i := null, head, 0;
      while node != null
        invariant 0 <= i <= |nodes| && (i == |nodes| <==> node == null) && (i < |nodes| ==> node == nodes[i])
        invariant if i == 0 then prev == null else prev == nodes[i - 1]
        invariant forall k :: 0 <= k < i ==> nodes[k].key != key
        decreases |nodes| - i
      {
        if key == node.key {
          return;
        }
        assert i + 1 < |nodes| ==> nodes[i].next == nodes[i + 1];
        prev := node;
        node := node.next;
        i := i + 1;
      }
    }

    /** Take nodes[i] out of the chain, at the head or behind prev. */
    method Unlink(prev: Node?<T>, node: Node<T>, ghost i: nat)
      requires Valid() && i < |nodes| && node == nodes[i]
      requires if i == 0 then prev == null else prev == nodes[i - 1]
      modifies this, prev
      ensures Valid() && nodes == old(nodes)[..i] + old(nodes)[i + 1..] && spine == old(spine)
    {
      ghost var was := nodes;
      WithoutOne(was, i);
      Bypass(prev, node, i);
      nodes := was[..i] + was[i + 1..];
      nodeCount := nodeCount - 1;
    }

    /** The pointer change of Unlink: whatever led to node now leads past it. */
    method Bypass(prev: Node?<T>, node: Node<T>, ghost i: nat)
      requires Valid() && i < |nodes| && node == nodes[i]
      requires if i == 0 then prev == null else prev == nodes[i - 1]
      modifies this`head, prev
      ensures i == 0 ==> head == (if |nodes| > 1 then nodes[1] else null)
      ensures i > 0 ==> head == old(head) && nodes[i - 1].next == if i + 1 < |nodes| then nodes[i + 1] else null
      ensures forall k :: 0 <= k < |nodes| && k != i - 1 ==> nodes[k].next == old(nodes[k].next)
    {
      assert i + 1 < |nodes| ==> nodes[i].next == nodes[i + 1];
      if prev == null {
        head := node.next;
      } else {
        prev.next := node.next;
      }
    }

    /** set_pop: unlink the entry with this key, be it first, last or in between. */
    method Pop(key: int) returns (r: Option<T>)
      requires Valid()
      modifies this, spine
      ensures Valid() && nodes == WithoutKey(old(nodes), key) && spine == old(spine)
      ensures Contents() == Remove(old(Contents()), key)
      ensures r.Some? <==> HasKey(old(Contents()), key)
      ensures r.Some? ==> (key, r.value) in old(Contents())
    {
      ghost var was, es := nodes, Contents();
      PairsWithout(was, key);
      if key < 0 || head == null {
        NoSuchNode(was, key);
        return None;
      }
      var prev, node, i := Locate(key);
      if node == null {
        NoSuchNode(was, key);
        return None;
      }
      WithoutNode(was, i);
      assert es[i] == (key, node.item);
      Unlink(prev, node, i);
      r := Some(node.item);
    }
  }

  /** The chain without the node that carries key. */
  ghost function WithoutKey<T>(nodes: seq<Node<T>>, key: int): seq<Node<T>> {
    if nodes == [] then []
    else if nodes[0].key == key then nodes[1..]
    else [nodes[0]] + WithoutKey(nodes[1..], key)
  }

  lemma {:induction false} WithoutNode<T>(nodes: seq<Node<T>>, i: nat)
    requires i < |nodes| && forall k :: 0 <= k < i ==> nodes[k].key != nodes[i].key
    ensures WithoutKey(nodes, nodes[i].key) == nodes[..i] + nodes[i + 1..]
  {
    if i > 0 {
      var rest := nodes[1..];
      assert rest[i - 1] == nodes[i] && forall k :: 0 <= k < i - 1 ==> rest[k] == nodes[k + 1];
      WithoutNode(rest, i - 1);
      assert rest[..i - 1] == nodes[1..i] && rest[i..] == nodes[i + 1..];
    }
  }

  lemma {:induction false} NoSuchNode<T>(nodes: seq<Node<T>>, key: int)
    requires forall k :: 0 <= k < |nodes| ==> nodes[k].key != key
    ensures WithoutKey(nodes, key) == nodes
  {
    if nodes != [] {
      assert forall k :: 0 <= k < |nodes[1..]| ==> nodes[1..][k] == nodes[k + 1];
      NoSuchNode(nodes[1..], key);
    }
  }

  lemma {:induction false} PairsWithout<T>(nodes: seq<Node<T>>, key: int)
    ensures Pairs(WithoutKey(nodes, key)) == Remove(Pairs(nodes), key)
  {
    if nodes != [] {
      PairsWithout(nodes[1..], key);
      assert Pairs(nodes)[1..] == Pairs(nodes[1..]);
      if nodes[0].key != key {
        assert Pairs([nodes[0]] + WithoutKey(nodes[1..], key)) == [Pairs(nodes)[0]] + Pairs(WithoutKey(nodes[1..], key));
      }
    }
  }

  ghost function Pairs<T>(nodes: seq<Node<T>>): (es: Entries<T>)
    ensures |es| == |nodes|
    ensures forall i :: 0 <= i < |es| ==> es[i] == (nodes[i].key, nodes[i].item)
  {
    seq(|nodes|, i requires 0 <= i < |nodes| => (nodes[i].key, nodes[i].item))
  }

  // ----------------------------------------------------- the set as a finite map

  ghost function AsMap<T>(es: Entries<T>): map<int, T> {
    if es == [] then map[] else AsMap(es[1..])[es[0].0 := es[0].1]
  }

  lemma {:induction false} MapHasKeys<T>(es: Entries<T>, key: int)
    ensures key in AsMap(es) <==> HasKey(es, key)
    ensures DistinctKeys(es) ==> |AsMap(es)| == |es|
    ensures DistinctKeys(es) ==> forall i :: 0 <= i < |es| ==> es[i].0 in AsMap(es) && AsMap(es)[es[i].0] == es[i].1
  {
    if es != [] {
      var rest := es[1..];
      assert forall i :: 0 <= i < |rest| ==> rest[i] == es[i + 1];
      MapHasKeys(rest, key);
      MapHasKeys(rest, es[0].0);
      assert HasKey(es, key) <==> es[0].0 == key || HasKey(rest, key);
      assert DistinctKeys(es) ==> !HasKey(rest, es[0].0);
    }
  }

  lemma {:induction false} RemoveKeepsDistinct<T>(es: Entries<T>, key: int)
    requires DistinctKeys(es)
    ensures DistinctKeys(Remove(es, key))
    ensures forall e :: e in Remove(es, key) ==> e in es
  {
    if es != [] && es[0].0 != key {
      var rest, out := es[1..], Remove(es[1..], key);
      RemoveKeepsDistinct(rest, key);
      forall i | 0 <= i < |out| ensures out[i].0 != es[0].0 {
        assert out[i] in rest;
      }
    }
  }

  /** Popping acts on the map as it should. */
  lemma {:induction false} RemoveFromMap<T>(es: Entries<T>, key: int)
    requires DistinctKeys(es)
    ensures AsMap(Remove(es, key)) == AsMap(es) - {key}
  {
    if es != [] {
      var rest := es[1..];
      RemoveFromMap(rest, key);
      if es[0].0 == key {
        MapHasKeys(rest, key);
        assert forall i :: 0 <= i < |rest| ==> rest[i] == es[i + 1];
        assert key !in AsMap(rest);
      } else {
        assert ([es[0]] + Remove(rest, key))[1..] == Remove(rest, key);
      }
    }
  }

  datatype SetCall<T> = Insert(key: int, item: T) | Find(key: int) | Pop(key: int)
  datatype SetAnswer<T> = Done(ok: bool) | Found(r: Option<T>)

  /** What a finite map from non-negative keys answers. */
  function MapAnswers<T>(calls: seq<SetCall<T>>, m: map<int, T>): seq<SetAnswer<T>>
    decreases |calls|
  {
    if calls == [] then [] else
      match calls[0]
      case Insert(k, v) =>
        if k < 0 || k in m then [Done(false)] + MapAnswers(calls[1..], m)
        else [Done(true)] + MapAnswers(calls[1..], m[k := v])
      case Find(k) => [Found(Lookup(m, k))] + MapAnswers(calls[1..], m)
      case Pop(k) => [Found(Lookup(m, k))] + MapAnswers(calls[1..], m - {k})
  }

  function NextMap<T>(call: SetCall<T>, m: map<int, T>): map<int, T> {
    match call
    case Insert(k, v) => if k < 0 || k in m then m else m[k := v]
    case Find(_) => m
    case Pop(k) => m - {k}
  }

  /** The map after the calls. */
  function MapAfter<T>(calls: seq<SetCall<T>>, m: map<int, T>): map<int, T>
    decreases |calls|
  {
    if calls == [] then m else MapAfter(calls[1..], NextMap(calls[0], m))
  }

  function Lookup<T>(m: map<int, T>, k: int): Option<T> {
    if k in m then Some(m[k]) else None
  }

  lemma FoundInMap<T>(es: Entries<T>, key: int, r: Option<T>)
    requires DistinctKeys(es) && (r.Some? <==> HasKey(es, key)) && (r.Some? ==> (key, r.value) in es)
    ensures r == Lookup(AsMap(es), key)
  {
    MapHasKeys(es, key);
  }

  /** The answer to one call, and the entries after it. */
  ghost predicate Answers<T>(call: SetCall<T>, es: Entries<T>, a: SetAnswer<T>, es': Entries<T>) {
    match call
    case Insert(k, v) =>
      && a == Done(k >= 0 && !HasKey(es, k))
      && es' == if a.ok then [(k, v)] + es else es
    case Find(k) => a.Found? && (a.r.Some? <==> HasKey(es, k)) && (a.r.Some? ==> (k, a.r.value) in es) && es' == es
    case Pop(k) =>
      && a.Found? && (a.r.Some? <==> HasKey(es, k)) && (a.r.Some? ==> (k, a.r.value) in es)
      && es' == Remove(es, k)
  }

  /** Such an answer is what the finite map would say. */
  lemma OneAnswer<T>(call: SetCall<T>, rest: seq<SetCall<T>>, es: Entries<T>, a: SetAnswer<T>, es': Entries<T>)
    requires DistinctKeys(es) && Answers(call, es, a, es')
    ensures MapAnswers([call] + rest, AsMap(es)) == [a] + MapAnswers(rest, AsMap(es'))
    ensures AsMap(es') == NextMap(call, AsMap(es))
  {
    assert ([call] + rest)[1..] == rest;
    match call
    case Insert(k, v) =>
      MapHasKeys(es, k);
      if a.ok { assert es'[1..] == es; }
    case Find(k) => FoundInMap(es, k, a.r);
    case Pop(k) =>
      FoundInMap(es, k, a.r);
      RemoveFromMap(es, k);
  }

  method MakeCall<T>(s: LinkedSet<T>, call: SetCall<T>) returns (a: SetAnswer<T>)
    requires s.Valid()
    modifies s, s.spine
    ensures s.Valid() && fresh(s.spine - old(s.spine))
    ensures DistinctKeys(old(s.Contents())) && Answers(call, old(s.Contents()), a, s.Contents())
  {
    match call {
      case Insert(k, v) =>
        var ok := s.Insert(k, v);
        a := Done(ok);
      case Find(k) =>
        var r := s.Find(k);
        a := Found(r);
      case Pop(k) =>
        var r := s.Pop(k);
        a := Found(r);
    }
  }

  /** The answers so far, and those still to come from es, are the map's answers. */
  ghost predicate OnTrack<T>(answers: seq<SetAnswer<T>>, calls: seq<SetCall<T>>, i: nat, es: Entries<T>) {
    && i <= |calls| && answers + MapAnswers(calls[i..], AsMap(es)) == MapAnswers(calls, map[])
    && MapAfter(calls[i..], AsMap(es)) == MapAfter(calls, map[])
  }

  lemma StayOnTrack<T>(answers: seq<SetAnswer<T>>, calls: seq<SetCall<T>>, i: nat, es: Entries<T>,
                       a: SetAnswer<T>, es': Entries<T>)
    requires OnTrack(answers, calls, i, es) && i < |calls|
    requires DistinctKeys(es) && Answers(calls[i], es, a, es')
    ensures OnTrack(answers + [a], calls, i + 1, es')
  {
    OneAnswer(calls[i], calls[i + 1..], es, a, es');
    assert calls[i..] == [calls[i]] + calls[i + 1..];
    var rest := MapAnswers(calls[i + 1..], AsMap(es'));
    assert answers + ([a] + rest) == answers + [a] + rest;
  }

  /** Every sequence of calls on a new linked set is answered as by the finite map, and leaves a
      count that is the size of that map. */
  method ReplaySet<T>(calls: seq<SetCall<T>>) returns (answers: seq<SetAnswer<T>>, count: nat)
    ensures answers == MapAnswers(calls, map[])
    ensures count == |MapAfter(calls, map[])|
  {
    var s := new LinkedSet<T>();
    answers := [];
    var i := 0;
    assert calls[0..] == calls;
    while i < |calls|
      invariant 0 <= i <= |calls| && s.Valid() && fresh(s) && fresh(s.spine)
      invariant OnTrack(answers, calls, i, s.Contents())
    {
      ghost var es := s.Contents();
      var a := MakeCall(s, calls[i]);
      StayOnTrack(answers, calls, i, es, a, s.Contents());
      answers := answers + [a];
      i := i + 1;
    }
    count := s.nodeCount;
    MapHasKeys(s.Contents(), 0);
  }
}
