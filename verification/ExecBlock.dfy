/**
 * The argument block that exec builds on the new stack: strings at the top of region 1,
 * below them argc, the argv pointers and two NULL words, below that the initial frame.
 */
module ExecBlock {
  import opened Types
  import opened Buffers

  /** Machine constants. Region 1 is the maxPages pages from base up. */
  datatype Layout = Layout(base: nat, maxPages: nat, pageSize: nat, nullSpace: nat, frameSize: nat) {
    ghost predicate Valid() {
      pageSize > 0 && base % pageSize == 0 && Limit() < 0x8000_0000
    }

    function Size(): nat {
      maxPages * pageSize
    }

    function Limit(): nat {
      base + Size()
    }
  }

  const WORD := 4

  // ---------------------------------------------------------- bytes and words

  function WordBytes(w: nat): (b: Bytes)
    requires w < 0x1_0000_0000
    ensures |b| == 4
  {
    [w % 256, w / 256 % 256, w / 256 / 256 % 256, w / 256 / 256 / 256]
  }

  /** The little-endian word at index k, or 0 outside the memory. */
  function LoadWord(m: Bytes, k: int): (w: nat)
    ensures w < 0x1_0000_0000
  {
    if 0 <= k && k + 4 <= |m|
    then (m[k] as int) + 256 * (m[k + 1] as int) + 65536 * (m[k + 2] as int) + 16777216 * (m[k + 3] as int)
    else 0
  }

  lemma LoadStored(w: nat, m: Bytes, k: nat)
    requires w < 0x1_0000_0000 && k + 4 <= |m| && m[k..k + 4] == WordBytes(w)
    ensures LoadWord(m, k) == w
  {
    var a := w / 256;
    var b := a / 256;
    var c := b / 256;
    assert w == a * 256 + w % 256 && a == b * 256 + a % 256 && b == c * 256 + b % 256;
    assert m[k] == m[k..k + 4][0] && m[k + 1] == m[k..k + 4][1];
    assert m[k + 2] == m[k..k + 4][2] && m[k + 3] == m[k..k + 4][3];
  }

  ghost predicate Small(ws: seq<nat>) {
    forall i :: 0 <= i < |ws| ==> ws[i] < 0x1_0000_0000
  }

  function Words(ws: seq<nat>): (b: Bytes)
    requires Small(ws)
    ensures |b| == 4 * |ws|
  {
    if ws == [] then [] else Words(ws[..|ws| - 1]) + WordBytes(ws[|ws| - 1])
  }

  lemma {:induction false} WordAt(ws: seq<nat>, i: nat)
    requires Small(ws) && i < |ws|
    ensures Words(ws)[4 * i..4 * i + 4] == WordBytes(ws[i])
  {
    var last := |ws| - 1;
    if i < last {
      WordAt(ws[..last], i);
      assert Words(ws)[4 * i..4 * i + 4] == Words(ws[..last])[4 * i..4 * i + 4];
    }
  }

  /** The bytes from index k up to the next NUL. */
  function CString(m: Bytes, k: int): Bytes
    decreases |m| - k
  {
    if k < 0 || k >= |m| || m[k] == 0 then [] else [m[k]] + CString(m, k + 1)
  }

  ghost predicate NoNul(a: Bytes) {
    forall i :: 0 <= i < |a| ==> a[i] != 0
  }

  ghost predicate CStrings(args: seq<Bytes>) {
    forall i :: 0 <= i < |args| ==> NoNul(args[i])
  }

  lemma {:induction false} ReadBack(m: Bytes, k: nat, a: Bytes)
    requires NoNul(a) && k + |a| < |m| && m[k..k + |a|] == a && m[k + |a|] == 0
    ensures CString(m, k) == a
    decreases |a|
  {
    if a != [] {
      assert m[k] == m[k..k + |a|][0];
      assert m[k + 1..k + 1 + |a[1..]|] == m[k..k + |a|][1..];
      ReadBack(m, k + 1, a[1..]);
    }
  }

  /** Memory m after the bytes s are written one by one from index k. */
  function Patch(m: Bytes, k: nat, s: Bytes): (r: Bytes)
    ensures |r| == |m|
    decreases |s|
  {
    if s == [] || k + |s| > |m| then m else Patch(m, k, s[..|s| - 1])[k + |s| - 1 := s[|s| - 1]]
  }

  lemma {:induction false} PatchIs(m: Bytes, k: nat, s: Bytes)
    requires k + |s| <= |m|
    ensures Patch(m, k, s) == m[..k] + s + m[k + |s|..]
    decreases |s|
  {
    if s != [] {
      PatchIs(m, k, s[..|s| - 1]);
    }
  }

  // ------------------------------------------------------------- the strings

  /** All strings with their terminators, one after the other. */
  function Packed(args: seq<Bytes>): Bytes {
    if args == [] then [] else Packed(args[..|args| - 1]) + args[|args| - 1] + [0]
  }

  /** Where string i begins. */
  function Offset(args: seq<Bytes>, i: nat): nat
    requires i <= |args|
  {
    |Packed(args[..i])|
  }

  lemma {:induction false} PackedAt(args: seq<Bytes>, i: nat)
    requires i < |args|
    ensures var o := Offset(args, i);
            && o + |args[i]| < |Packed(args)|
            && Packed(args)[o..o + |args[i]|] == args[i] && Packed(args)[o + |args[i]|] == 0
  {
    var init, last := args[..|args| - 1], args[|args| - 1];
    if i < |init| {
      PackedAt(init, i);
      assert init[..i] == args[..i];
      var o := Offset(args, i);
      assert Packed(args)[o..o + |args[i]|] == Packed(init)[o..o + |args[i]|];
    } else {
      assert args[..i] == init;
    }
  }

  lemma PackedSnoc(args: seq<Bytes>, i: nat)
    requires i < |args|
    ensures Packed(args[..i + 1]) == Packed(args[..i]) + args[i] + [0]
    ensures Offset(args, i + 1) == Offset(args, i) + |args[i]| + 1
  {
    assert args[..i + 1][..i] == args[..i];
  }

  lemma {:induction false} OffsetsGrow(args: seq<Bytes>, i: nat, j: nat)
    requires i <= j <= |args|
    ensures Offset(args, i) <= Offset(args, j)
    decreases j
  {
    if i < j {
      PackedSnoc(args, j - 1);
      OffsetsGrow(args, i, j - 1);
    }
  }

  // ------------------------------------------------------------- placement

  /** Round down to a multiple of unit; for addresses below 0 as well, as masking does. */
  function DownTo(x: int, unit: nat): (r: int)
    requires unit > 0
    ensures r <= x < r + unit
  {
    x - x % unit
  }

  /** cp: the strings; cpp: argc and the pointers; sp: the new stack pointer. */
  datatype Place = Place(cp: int, cpp: int, sp: int, stackPages: int)

  function PlaceFor(l: Layout, size: nat, argc: nat): Place
    requires l.pageSize > 0
  {
    var cp := l.Limit() - size;
    var cpp := DownTo(cp - (argc + 3 + l.nullSpace) * WORD, 8);
    var sp := cpp - l.frameSize;
    Place(cp, cpp, sp, (l.Limit() - DownTo(sp, l.pageSize)) / l.pageSize)
  }

  lemma MulGrows(d: nat, n: nat)
    requires d > 0
    ensures n <= d * n
  {
    assert d * n == n + (d - 1) * n;
  }

  /** An exact quotient in the only form needed: q is determined by q * n == a. */
  lemma QuotientOf(a: int, q: int, n: nat)
    requires n > 0 && a == q * n
    ensures a / n == q
  {
    var q', r := a / n, a % n;
    assert a == q' * n + r && 0 <= r < n;
    assert (q' - q) * n == q' * n - q * n && (q - q') * n == q * n - q' * n;
    if q < q' { MulGrows(q' - q, n); }
    if q > q' { MulGrows(q - q', n); }
  }

  /** The stack pages are those from the stack pointer's page to the top. */
  lemma StackPagesReach(l: Layout, sp: int)
    requires l.Valid()
    ensures var pages := (l.Limit() - DownTo(sp, l.pageSize)) / l.pageSize;
            l.Limit() - pages * l.pageSize == DownTo(sp, l.pageSize)
  {
    var n, b, m, q := l.pageSize, l.base / l.pageSize, l.maxPages, sp / l.pageSize;
    assert sp == q * n + sp % n;
    assert l.base == b * n;
    var a := l.Limit() - DownTo(sp, n);
    assert a == (b + m - q) * n by { assert b * n + m * n - q * n == (b + m - q) * n; }
    QuotientOf(a, b + m - q, n);
  }

  /** Where everything goes: the strings at the top; below them, 8-aligned and with as little waste as that
      allows, argc, the pointers, two NULL words and the spare ones; then the frame below the stack pointer.
      The stack gets the fewest pages that reach down to it. */
  lemma PlaceIsTight(l: Layout, size: nat, argc: nat)
    requires l.Valid()
    ensures var p := PlaceFor(l, size, argc);
            && p.cp == l.Limit() - size && p.sp == p.cpp - l.frameSize && p.cpp % 8 == 0
            && p.cpp <= p.cp - (argc + 3 + l.nullSpace) * 4 < p.cpp + 8
            && l.Limit() - p.stackPages * l.pageSize <= p.sp < l.Limit() - p.stackPages * l.pageSize + l.pageSize
  {
    StackPagesReach(l, PlaceFor(l, size, argc).sp);
  }

  lemma FewPagesStayInside(l: Layout, pages: int)
    requires l.Valid() && pages < l.maxPages
    ensures l.base < l.Limit() - pages * l.pageSize
  {
    var m, n := l.maxPages, l.pageSize;
    MulGrows(m - pages, n);
    assert m * n - pages * n == (m - pages) * n;
  }

  /** If the check passes, nothing overlaps and all of it is inside the stack pages. */
  lemma BlockFits(l: Layout, size: nat, argc: nat, dataTop: nat)
    requires l.Valid() && PlaceFor(l, size, argc).stackPages + dataTop < l.maxPages
    ensures var p := PlaceFor(l, size, argc);
            && p.cpp + WORD * (argc + 3) <= p.cp <= l.Limit()
            && l.base < l.Limit() - p.stackPages * l.pageSize <= p.sp <= p.cpp
            && p.cpp % 8 == 0
  {
    var p := PlaceFor(l, size, argc);
    StackPagesReach(l, p.sp);
    FewPagesStayInside(l, p.stackPages);
  }

  /** And if it fails, the stack and the program would be fewer than one page apart. */
  lemma RefusalIsNeeded(l: Layout, size: nat, argc: nat, dataTop: nat)
    requires l.Valid() && PlaceFor(l, size, argc).stackPages + dataTop >= l.maxPages
    ensures DownTo(PlaceFor(l, size, argc).sp, l.pageSize) <= l.base + dataTop * l.pageSize
  {
    var p := PlaceFor(l, size, argc);
    StackPagesReach(l, p.sp);
    ManyPagesMeet(l.maxPages, p.stackPages, dataTop, l.pageSize);
  }

  lemma ManyPagesMeet(all: nat, stack: int, data: nat, n: nat)
    requires stack + data >= all
    ensures all * n - stack * n <= data * n
  {
    var d: nat := stack + data - all;
    assert d * n == stack * n + data * n - all * n;
  }

  // --------------------------------------------------------- building the block

  /** The words of the block: argc, the argv pointers, and a NULL for argv and envp. */
  ghost function BlockWords(args: seq<Bytes>, cp: nat): (ws: seq<nat>)
    ensures |ws| == |args| + 3
  {
    [|args|] + seq(|args|, i requires 0 <= i < |args| => cp + Offset(args, i)) + [0, 0]
  }

  /** The first pass over the arguments: how many bytes their strings need. */
  method CountBytes(args: seq<Bytes>) returns (size: nat)
    ensures size == |Packed(args)|
  {
    size := 0;
    var i := 0;
    while i < |args|
      invariant 0 <= i <= |args| && size == |Packed(args[..i])|
    {
      PackedSnoc(args, i);
      size := size + |args[i]| + 1;
      i := i + 1;
    }
    assert args[..i] == args;
  }

  /** strcpy from a value: the bytes and the terminator. */
  method StoreString(dst: array<Byte>, j: nat, s: Bytes)
    requires j + |s| < dst.Length
    modifies dst
    ensures dst[..] == Patch(old(dst[..]), j, s + [0])
  {
    var k := 0;
    while k < |s|
      invariant 0 <= k <= |s|
      invariant dst[..] == Patch(old(dst[..]), j, s[..k])
    {
      assert s[..k + 1][..k] == s[..k];
      dst[j + k] := s[k];
      k := k + 1;
    }
    dst[j + k] := 0;
    assert (s + [0])[..k] == s[..k];
  }

  /** The second pass: save the strings in a kernel buffer before region 1 goes away. */
  method SaveArguments(args: seq<Bytes>, size: nat) returns (argbuf: array<Byte>)
    requires size == |Packed(args)|
    ensures fresh(argbuf) && argbuf[..] == Packed(args)
  {
    argbuf := new Byte[size];
    var cp2, i := 0, 0;
    assert args[..|args|] == args;
    while i < |args|
      invariant 0 <= i <= |args| && argbuf.Length == size && cp2 == Offset(args, i) <= size
      invariant argbuf[..cp2] == Packed(args[..i])
    {
      PackedSnoc(args, i);
      OffsetsGrow(args, i + 1, |args|);
      PatchIs(argbuf[..], cp2, args[i] + [0]);
      StoreString(argbuf, cp2, args[i]);
      cp2 := cp2 + |args[i]| + 1;
      assert argbuf[..cp2] == Packed(args[..i + 1]);
      i := i + 1;
    }
  }

  /** strcpy: copy from src at i to dst at j up to and including the NUL. */
  method StrCpy(dst: array<Byte>, j: nat, src: array<Byte>, i: nat, ghost s: Bytes) returns (len: nat)
    requires dst != src && NoNul(s) && i + |s| < src.Length && j + |s| < dst.Length
    requires src[i..i + |s|] == s && src[i + |s|] == 0
    modifies dst
    ensures len == |s| && dst[..] == Patch(old(dst[..]), j, s + [0])
  {
    len := 0;
    ghost var text := src[i..i + |s|];
    while src[i + len] != 0
      invariant 0 <= len <= |s|
      invariant dst[..] == Patch(old(dst[..]), j, s[..len])
      invariant len < |s| ==> src[i + len] == text[len] == s[len]
      decreases |s| - len
    {
      assert s[..len + 1][..len] == s[..len];
      dst[j + len] := src[i + len];
      len := len + 1;
      assert len < |s| ==> text[len] == src[i..i + |s|][len];
    }
    assert len == |s| && s[..len] == s && (s + [0])[..len] == s;
    ghost var copied := dst[..];
    dst[j + len] := 0;
    assert dst[..] == copied[j + len := 0];
    assert Patch(old(dst[..]), j, s + [0]) == Patch(old(dst[..]), j, s)[j + len := 0];
  }

  method StoreWord(mem: array<Byte>, k: nat, w: nat)
    requires k + 4 <= mem.Length && w < 0x1_0000_0000
    modifies mem
    ensures mem[..] == Patch(old(mem[..]), k, WordBytes(w))
    ensures mem[k] == w % 256 && mem[k + 1] == w / 256 % 256
    ensures mem[k + 2] == w / 65536 % 256 && mem[k + 3] == w / 16777216
  {
    mem[k] := w % 256;
    mem[k + 1] := w / 256 % 256;
    mem[k + 2] := w / 256 / 256 % 256;
    mem[k + 3] := w / 256 / 256 / 256;
    PatchIs(old(mem[..]), k, WordBytes(w));
  }

  // ------------------------------------------------- the memory while it is built

  /** m with words from c and strings from g. Building extends the words and the strings. */
  ghost function Regions(m: Bytes, c: nat, g: nat, words: Bytes, strings: Bytes): (r: Bytes)
    requires c + |words| <= g && g + |strings| <= |m|
    ensures |r| == |m|
  {
    m[..c] + words + m[c + |words|..g] + strings + m[g + |strings|..]
  }

  lemma PutWord(m: Bytes, c: nat, g: nat, words: Bytes, strings: Bytes, w: Bytes)
    requires c + |words + w| <= g && g + |strings| <= |m|
    ensures Patch(Regions(m, c, g, words, strings), c + |words|, w) == Regions(m, c, g, words + w, strings)
  {
    var r, k := Regions(m, c, g, words, strings), c + |words|;
    PatchIs(r, k, w);
    assert r[..k] == m[..c] + words;
    assert r[k + |w|..] == m[k + |w|..g] + strings + m[g + |strings|..];
  }

  lemma PutString(m: Bytes, c: nat, g: nat, words: Bytes, strings: Bytes, a: Bytes)
    requires c + |words| <= g && g + |strings + a| <= |m|
    ensures Patch(Regions(m, c, g, words, strings), g + |strings|, a) == Regions(m, c, g, words, strings + a)
  {
    var r, e := Regions(m, c, g, words, strings), g + |strings|;
    PatchIs(r, e, a);
    assert r[..e] == m[..c] + words + m[c + |words|..g] + strings;
    assert r[e + |a|..] == m[e + |a|..];
  }

  /** Where the block's words and strings start, as indices into region 1 at base. */
  ghost predicate Fits(args: seq<Bytes>, base: nat, length: nat, cp: nat, cpp: nat) {
    && base <= cpp && cpp + WORD * (|args| + 3) <= cp
    && cp + |Packed(args)| == base + length < 0x8000_0000
  }

  lemma WordsSnoc(ws: seq<nat>, i: nat)
    requires Small(ws) && i < |ws|
    ensures Words(ws[..i + 1]) == Words(ws[..i]) + WordBytes(ws[i])
  {
    assert ws[..i + 1][..i] == ws[..i];
  }

  /** Region 1 with the first k words and n strings of the block; m is what it was, cleared from c. */
  ghost function Filled(m: Bytes, c: nat, g: nat, ws: seq<nat>, k: nat, args: seq<Bytes>, n: nat): (r: Bytes)
    requires Roomy(m, c, g, ws, args) && k <= |ws| && n <= |args|
    ensures |r| == |m|
  {
    OffsetsGrow(args, n, |args|);
    assert args[..|args|] == args;
    Regions(m, c, g, Words(ws[..k]), Packed(args[..n]))
  }

  ghost predicate Roomy(m: Bytes, c: nat, g: nat, ws: seq<nat>, args: seq<Bytes>) {
    Small(ws) && c + WORD * |ws| <= g && g + |Packed(args)| == |m|
  }

  lemma FillWord(m: Bytes, c: nat, g: nat, ws: seq<nat>, k: nat, args: seq<Bytes>, n: nat)
    requires Roomy(m, c, g, ws, args) && k < |ws| && n <= |args|
    ensures c + WORD * k + 4 <= |m|
    ensures Patch(Filled(m, c, g, ws, k, args, n), c + WORD * k, WordBytes(ws[k])) == Filled(m, c, g, ws, k + 1, args, n)
  {
    WordsSnoc(ws, k);
    OffsetsGrow(args, n, |args|);
    assert args[..|args|] == args;
    PutWord(m, c, g, Words(ws[..k]), Packed(args[..n]), WordBytes(ws[k]));
  }

  lemma FillString(m: Bytes, c: nat, g: nat, ws: seq<nat>, k: nat, args: seq<Bytes>, n: nat)
    requires Roomy(m, c, g, ws, args) && k <= |ws| && n < |args|
    ensures g + Offset(args, n) + |args[n]| + 1 <= |m|
    ensures Patch(Filled(m, c, g, ws, k, args, n), g + Offset(args, n), args[n] + [0])
         == Filled(m, c, g, ws, k, args, n + 1)
  {
    PackedAt(args, n);
    PackedSnoc(args, n);
    assert Packed(args[..n + 1]) == Packed(args[..n]) + (args[n] + [0]);
    PutString(m, c, g, Words(ws[..k]), Packed(args[..n]), args[n] + [0]);
  }

  /** One round of the loop fills one more word and one more string. */
  lemma FillArgument(m: Bytes, c: nat, g: nat, ws: seq<nat>, args: seq<Bytes>, i: nat)
    requires Roomy(m, c, g, ws, args) && i + 1 < |ws| && i < |args|
    ensures c + WORD * (i + 1) + 4 <= |m| && g + Offset(args, i) + |args[i]| + 1 <= |m|
    ensures Patch(Patch(Filled(m, c, g, ws, i + 1, args, i), c + WORD * (i + 1), WordBytes(ws[i + 1])),
                  g + Offset(args, i), args[i] + [0])
         == Filled(m, c, g, ws, i + 2, args, i + 1)
  {
    FillWord(m, c, g, ws, i + 1, args, i);
    FillString(m, c, g, ws, i + 2, args, i);
  }

  /** What the writes up to string i leave, as the loop makes them. */
  ghost function Written(m: Bytes, c: nat, g: nat, ws: seq<nat>, args: seq<Bytes>, i: nat): Bytes
    requires Small(ws) && i < |ws| && i <= |args|
  {
    if i == 0 then Patch(m, c, WordBytes(ws[0])) else
    Patch(Patch(Written(m, c, g, ws, args, i - 1), c + WORD * i, WordBytes(ws[i])),
          g + Offset(args, i - 1), args[i - 1] + [0])
  }

  lemma {:induction false} WrittenIsFilled(m: Bytes, c: nat, g: nat, ws: seq<nat>, args: seq<Bytes>, i: nat)
    requires Roomy(m, c, g, ws, args) && i < |ws| && i <= |args|
    ensures Written(m, c, g, ws, args, i) == Filled(m, c, g, ws, i + 1, args, i)
  {
    if i == 0 {
      assert ws[..0] == [] && args[..0] == [];
      assert m == Filled(m, c, g, ws, 0, args, 0);
      FillWord(m, c, g, ws, 0, args, 0);
    } else {
      var j := i - 1;
      WrittenIsFilled(m, c, g, ws, args, j);
      WrittenNext(m, c, g, ws, args, j);
      FillArgument(m, c, g, ws, args, j);
      assert j + 1 == i && j + 2 == i + 1;
    }
  }

  /** All the writes: the loop's, and the two NULL words. */
  ghost function Block(m: Bytes, c: nat, g: nat, ws: seq<nat>, args: seq<Bytes>): Bytes
    requires Small(ws) && |args| < |ws|
  {
    var k := c + WORD * (|args| + 1);
    Patch(Patch(Written(m, c, g, ws, args, |args|), k, WordBytes(0)), k + WORD, WordBytes(0))
  }

  lemma BlockIsFilled(m: Bytes, c: nat, g: nat, ws: seq<nat>, args: seq<Bytes>)
    requires Roomy(m, c, g, ws, args) && |ws| == |args| + 3 && ws[|args| + 1] == ws[|args| + 2] == 0
    ensures Block(m, c, g, ws, args) == Filled(m, c, g, ws, |ws|, args, |args|)
  {
    var n := |args|;
    WrittenIsFilled(m, c, g, ws, args, n);
    FillWord(m, c, g, ws, n + 1, args, n);
    FillWord(m, c, g, ws, n + 2, args, n);
  }

  lemma WrittenNext(m: Bytes, c: nat, g: nat, ws: seq<nat>, args: seq<Bytes>, i: nat)
    requires Small(ws) && i + 1 < |ws| && i < |args|
    ensures Written(m, c, g, ws, args, i + 1)
         == Patch(Patch(Written(m, c, g, ws, args, i), c + WORD * (i + 1), WordBytes(ws[i + 1])),
                  g + Offset(args, i), args[i] + [0])
  {
  }

  /** One round of the loop: a pointer, then its string from the saved arguments. */
  method StoreArgument(mem: array<Byte>, k: nat, cp: nat, j: nat, argbuf: array<Byte>, cp2: nat,
                       ghost m: Bytes, ghost c: nat, ghost g: nat, ghost ws: seq<nat>, ghost args: seq<Bytes>,
                        ghost i: nat)
    returns (len: nat)
    requires mem != argbuf && argbuf[..] == Packed(args) && i < |args| && NoNul(args[i]) && cp2 == Offset(args, i)
    requires Small(ws) && i + 1 < |ws| && ws[i + 1] == cp && k == c + WORD * (i + 1) && j == g + Offset(args, i)
    requires k + 4 <= mem.Length && j + |args[i]| < mem.Length
    requires mem[..] == Written(m, c, g, ws, args, i)
    modifies mem
    ensures len == |args[i]| && mem[..] == Written(m, c, g, ws, args, i + 1)
  {
    WrittenNext(m, c, g, ws, args, i);
    StoreWord(mem, k, cp);
    PackedAt(args, i);
    len := StrCpy(mem, j, argbuf, cp2, args[i]);
  }

  /** argc and the loop: each pointer with its string. */
  method StoreArguments(mem: array<Byte>, base: nat, cp0: nat, cpp0: nat, argc: nat, argbuf: array<Byte>,
                        ghost args: seq<Bytes>, ghost ws: seq<nat>)
    requires mem != argbuf && argbuf[..] == Packed(args) && argc == |args| && CStrings(args)
    requires Fits(args, base, mem.Length, cp0, cpp0) && ws == BlockWords(args, cp0) && Small(ws)
    modifies mem
    ensures mem[..] == Written(old(mem[..]), cpp0 - base, cp0 - base, ws, args, argc)
  {
    ghost var m, c, g := mem[..], cpp0 - base, cp0 - base;
    StoreWord(mem, cpp0 - base, argc);
    var cp, cpp, cp2, i := cp0, cpp0 + WORD, 0, 0;
    while i < argc
      invariant 0 <= i <= argc && cp2 == Offset(args, i) && cp == cp0 + cp2 && cpp == cpp0 + WORD * (i + 1)
      invariant mem[..] == Written(m, c, g, ws, args, i)
    {
      StringFits(args, i);
      var len := StoreArgument(mem, cpp - base, cp, cp - base, argbuf, cp2, m, c, g, ws, args, i);
      cpp := cpp + WORD;
      cp := cp + len + 1;
      cp2 := cp2 + len + 1;
      i := i + 1;
    }
  }

  method StoreNulls(mem: array<Byte>, k: nat)
    requires k + 8 <= mem.Length
    modifies mem
    ensures mem[..] == Patch(Patch(old(mem[..]), k, WordBytes(0)), k + WORD, WordBytes(0))
  {
    StoreWord(mem, k, 0);
    StoreWord(mem, k + WORD, 0);
  }

  lemma StringFits(args: seq<Bytes>, i: nat)
    requires i < |args|
    ensures Offset(args, i + 1) == Offset(args, i) + |args[i]| + 1 <= |Packed(args)|
  {
    PackedAt(args, i);
    PackedSnoc(args, i);
  }

  /** Build the block in cleared memory: argc, each pointer with its string, two NULL words. */
  method BuildBlock(mem: array<Byte>, base: nat, cp: nat, cpp: nat, argc: nat, argbuf: array<Byte>,
                    ghost args: seq<Bytes>, ghost ws: seq<nat>)
    requires mem != argbuf && argbuf[..] == Packed(args) && argc == |args| && CStrings(args)
    requires Fits(args, base, mem.Length, cp, cpp) && ws == BlockWords(args, cp) && Small(ws)
    modifies mem
    ensures mem[..] == Block(old(mem[..]), cpp - base, cp - base, ws, args)
  {
    StoreArguments(mem, base, cp, cpp, argc, argbuf, args, ws);
    StoreNulls(mem, cpp - base + WORD * (argc + 1));
  }

  lemma BlockWordsSmall(args: seq<Bytes>, cp: nat)
    requires cp + |Packed(args)| < 0x8000_0000 && |args| < 0x8000_0000
    ensures Small(BlockWords(args, cp))
  {
    forall i | 0 <= i < |args| ensures cp + Offset(args, i) < 0x8000_0000 {
      PackedAt(args, i);
    }
  }

  // ------------------------------------------------------------- reading it back

  /** How a program finds its arguments: argc words, then as many pointers to strings. */
  function ReadArguments(m: Bytes, base: nat, at: nat): seq<Bytes> {
    seq(LoadWord(m, at - base), i requires i >= 0 => CString(m, Pointer(m, base, at, i) - base))
  }

  /** argv[i] of the block at address at. */
  function Pointer(m: Bytes, base: nat, at: nat, i: nat): nat {
    LoadWord(m, at - base + WORD * (i + 1))
  }

  /** Everything known about a block in memory. */
  ghost predicate Built(r: Bytes, m: Bytes, args: seq<Bytes>, base: nat, cp: nat, cpp: nat) {
    && CStrings(args) && Fits(args, base, |r|, cp, cpp) && Small(BlockWords(args, cp))
    && |m| == |r| && r == Filled(m, cpp - base, cp - base, BlockWords(args, cp), |args| + 3, args, |args|)
  }

  lemma SliceOfSlice(r: Bytes, a: nat, b: nat, i: nat, j: nat)
    requires i <= j <= b - a && b <= |r|
    ensures r[a..b][i..j] == r[a + i..a + j]
  {
    forall k | 0 <= k < j - i ensures r[a..b][i..j][k] == r[a + i..a + j][k] {
    }
  }

  lemma BlockWordAt(r: Bytes, m: Bytes, args: seq<Bytes>, base: nat, cp: nat, cpp: nat, i: nat)
    requires Built(r, m, args, base, cp, cpp) && i < |args| + 3
    ensures LoadWord(r, cpp - base + WORD * i) == BlockWords(args, cp)[i]
  {
    var ws, c := BlockWords(args, cp), cpp - base;
    assert ws[..|args| + 3] == ws;
    var words := r[c..c + 4 * |ws|];
    WordAt(ws, i);
    SliceOfSlice(r, c, c + 4 * |ws|, 4 * i, 4 * i + 4);
    LoadStored(ws[i], r, c + 4 * i);
  }

  lemma ReadInside(m: Bytes, g: nat, o: nat, a: Bytes)
    requires NoNul(a) && g <= |m| && o + |a| < |m[g..]| && m[g..][o..o + |a|] == a && m[g..][o + |a|] == 0
    ensures CString(m, g + o) == a
  {
    assert m[g + o..g + o + |a|] == a;
    ReadBack(m, g + o, a);
  }

  lemma StringsAtTop(r: Bytes, m: Bytes, args: seq<Bytes>, base: nat, cp: nat, cpp: nat)
    requires Built(r, m, args, base, cp, cpp)
    ensures cp - base <= |r| && r[cp - base..] == Packed(args)
  {
    assert args[..|args|] == args;
    assert r[cp - base..|r|] == r[cp - base..];
  }

  lemma BlockStringAt(r: Bytes, m: Bytes, args: seq<Bytes>, base: nat, cp: nat, cpp: nat, i: nat)
    requires Built(r, m, args, base, cp, cpp) && i < |args|
    ensures cp <= BlockWords(args, cp)[i + 1] < base + |r| - |args[i]|
    ensures CString(r, BlockWords(args, cp)[i + 1] - base) == args[i]
  {
    PackedAt(args, i);
    StringsAtTop(r, m, args, base, cp, cpp);
    ReadInside(r, cp - base, Offset(args, i), args[i]);
  }

  /** argc and the strings are args, and argv and envp end in NULL, each pointer above the block. */
  ghost predicate ReadsBack(r: Bytes, base: nat, cpp: nat, args: seq<Bytes>)
    requires base <= cpp
  {
    && PointersAbove(r, base, cpp, args)
    && ReadArguments(r, base, cpp) == args
    && LoadWord(r, cpp - base + WORD * (|args| + 1)) == 0 && LoadWord(r, cpp - base + WORD * (|args| + 2)) == 0
  }

  ghost predicate PointersAbove(r: Bytes, base: nat, cpp: nat, args: seq<Bytes>)
    requires base <= cpp
  {
    forall i :: 0 <= i < |args| ==>
      cpp + WORD * (|args| + 3) <= Pointer(r, base, cpp, i) < base + |r| - |args[i]|
  }

  lemma BlockArgumentAt(r: Bytes, m: Bytes, args: seq<Bytes>, base: nat, cp: nat, cpp: nat, i: nat)
    requires Built(r, m, args, base, cp, cpp) && i < |args|
    ensures var w := Pointer(r, base, cpp, i);
            cp <= w < base + |r| - |args[i]| && CString(r, w - base) == args[i]
  {
    BlockWordAt(r, m, args, base, cp, cpp, i + 1);
    BlockStringAt(r, m, args, base, cp, cpp, i);
  }

  lemma ArgumentsReadBack(r: Bytes, m: Bytes, args: seq<Bytes>, base: nat, cp: nat, cpp: nat)
    requires Built(r, m, args, base, cp, cpp)
    ensures ReadArguments(r, base, cpp) == args
  {
    BlockWordAt(r, m, args, base, cp, cpp, 0);
    var found := ReadArguments(r, base, cpp);
    assert |found| == |args|;
    forall i | 0 <= i < |args| ensures found[i] == args[i] {
      BlockArgumentAt(r, m, args, base, cp, cpp, i);
    }
  }

  lemma PointersLieAbove(r: Bytes, m: Bytes, args: seq<Bytes>, base: nat, cp: nat, cpp: nat)
    requires Built(r, m, args, base, cp, cpp)
    ensures PointersAbove(r, base, cpp, args)
  {
    forall i | 0 <= i < |args|
      ensures cpp + WORD * (|args| + 3) <= Pointer(r, base, cpp, i) < base + |r| - |args[i]|
    {
      BlockArgumentAt(r, m, args, base, cp, cpp, i);
    }
  }

  /** A block as BuildBlock leaves it reads back as the argument list it was built from. */
  lemma BlockReadsBack(r: Bytes, m: Bytes, args: seq<Bytes>, base: nat, cp: nat, cpp: nat)
    requires Built(r, m, args, base, cp, cpp)
    ensures ReadsBack(r, base, cpp, args)
  {
    PointersLieAbove(r, m, args, base, cp, cpp);
    ArgumentsReadBack(r, m, args, base, cp, cpp);
    var n, ws := |args|, BlockWords(args, cp);
    assert ws[n + 1] == 0 && ws[n + 2] == 0;
    BlockWordAt(r, m, args, base, cp, cpp, n + 1);
    BlockWordAt(r, m, args, base, cp, cpp, n + 2);
  }

  lemma BuiltKeepsBelow(r: Bytes, m: Bytes, args: seq<Bytes>, base: nat, cp: nat, cpp: nat)
    requires Built(r, m, args, base, cp, cpp)
    ensures r[..cpp - base] == m[..cpp - base]
  {
  }

  lemma BlockIsBuilt(m: Bytes, args: seq<Bytes>, base: nat, cp: nat, cpp: nat)
    requires CStrings(args) && Fits(args, base, |m|, cp, cpp) && Small(BlockWords(args, cp))
    ensures Built(Block(m, cpp - base, cp - base, BlockWords(args, cp), args), m, args, base, cp, cpp)
  {
    BlockIsFilled(m, cpp - base, cp - base, BlockWords(args, cp), args);
  }

  /** What exec writes reads back as the arguments, and nothing below the block changes. */
  lemma BlockRoundTrips(m: Bytes, args: seq<Bytes>, base: nat, cp: nat, cpp: nat, r: Bytes)
    requires CStrings(args) && Fits(args, base, |m|, cp, cpp) && Small(BlockWords(args, cp))
    requires r == Block(m, cpp - base, cp - base, BlockWords(args, cp), args)
    ensures |r| == |m| && ReadsBack(r, base, cpp, args) && r[..cpp - base] == m[..cpp - base]
  {
    BlockIsBuilt(m, args, base, cp, cpp);
    BlockReadsBack(r, m, args, base, cp, cpp);
    BuiltKeepsBelow(r, m, args, base, cp, cpp);
  }

  method PlaceArguments(base: nat, args: seq<Bytes>, cp: nat, cpp: nat, argbuf: array<Byte>, mem: array<Byte>)
    requires mem != argbuf && argbuf[..] == Packed(args) && CStrings(args) && Fits(args, base, mem.Length, cp, cpp)
    modifies mem
    ensures ReadsBack(mem[..], base, cpp, args)
    ensures mem[..cpp - base] == old(mem[..cpp - base])
  {
    BlockWordsSmall(args, cp);
    MemZero(mem, cpp - base, mem.Length - (cpp - base));
    ghost var m := mem[..];
    BuildBlock(mem, base, cp, cpp, |args|, argbuf, args, BlockWords(args, cp));
    BlockRoundTrips(m, args, base, cp, cpp, mem[..]);
  }

  /**
   * The argument part of exec: measure, place, refuse or save, and build the block in the
   * new region 1, whose contents are arbitrary. stackPages is the number of pages mapped.
   */
  method LoadArguments(l: Layout, args: seq<Bytes>, dataTop: nat, mem: array<Byte>)
    returns (r: Option<Place>)
    requires l.Valid() && CStrings(args) && mem.Length == l.Size()
    modifies mem
    ensures var p := PlaceFor(l, |Packed(args)|, |args|);
            r == if p.stackPages + dataTop >= l.maxPages then None else Some(p)
    ensures r.None? ==> mem[..] == old(mem[..])
    ensures r.Some? ==>
      && l.base < l.Limit() - r.value.stackPages * l.pageSize <= r.value.sp <= r.value.cpp
      && r.value.cpp + WORD * (|args| + 3) <= r.value.cp == l.Limit() - |Packed(args)|
      && ReadsBack(mem[..], l.base, r.value.cpp, args)
      && mem[..r.value.cpp - l.base] == old(mem[..r.value.cpp - l.base])
  {
    var size := CountBytes(args);
    var p := PlaceFor(l, size, |args|);
    if p.stackPages + dataTop >= l.maxPages {
      return None;
    }
    BlockFits(l, size, |args|, dataTop);
    var argbuf := SaveArguments(args, size);
    PlaceArguments(l.base, args, p.cp, p.cpp, argbuf, mem);
    r := Some(p);
  }
}
