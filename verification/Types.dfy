/** Values shared by every part of the kernel model. */
module Types {

  datatype Option<+T> = None | Some(value: T)

  /** Process ids are non-negative: the containers refuse negative keys. */
  type Pid = nat

  type Byte = b: int | 0 <= b < 256
  type Bytes = seq<Byte>

  const ERROR := -1

  function Min(a: int, b: int): int {
    if a < b then a else b
  }

  function Max(a: int, b: int): int {
    if a > b then a else b
  }

  /** The first n elements of s, or all of s when it is shorter. */
  function Take<T>(s: seq<T>, n: nat): seq<T> {
    s[..Min(n, |s|)]
  }

  /** What remains of s after its first n elements. */
  function Drop<T>(s: seq<T>, n: nat): seq<T> {
    s[Min(n, |s|)..]
  }

  /** The most that any of these requests takes from a line of n bytes. */
  function Longest(requests: seq<nat>, n: nat): (longest: nat)
    ensures longest <= n
  {
    if requests == [] then 0
    else Max(Longest(requests[..|requests| - 1], n), Min(requests[|requests| - 1], n))
  }

  /** The concatenation of a sequence of byte strings. */
  function Flat(parts: seq<Bytes>): Bytes {
    if parts == [] then [] else Flat(parts[..|parts| - 1]) + parts[|parts| - 1]
  }

  lemma FlatSnoc(parts: seq<Bytes>, last: Bytes)
    ensures Flat(parts + [last]) == Flat(parts) + last
  {
    assert (parts + [last])[..|parts|] == parts;
  }

  function Members<T(==)>(s: seq<T>): set<T> {
    set x | x in s
  }

  ghost predicate Distinct<T>(s: seq<T>) {
    forall i, j :: 0 <= i < j < |s| ==> s[i] != s[j]
  }
}
