/**
 * The byte buffers of pipes and terminals, shifted in place. Each operation is proved
 * against Take and Drop, the functions the kernel's step functions use.
 */
module Buffers {
  import opened Types

  // --------------------------------------------------------- library routines

  /** memcpy: n bytes from src at i to dst at j. */
  method MemCopy(dst: array<Byte>, j: nat, src: array<Byte>, i: nat, n: nat)
    requires dst != src && i + n <= src.Length && j + n <= dst.Length
    modifies dst
    ensures dst[..] == old(dst[..j]) + old(src[i..i + n]) + old(dst[j + n..])
  {
    var k := 0;
    while k < n
      invariant 0 <= k <= n
      invariant dst[..] == old(dst[..j]) + src[i..i + k] + old(dst[j + k..])
    {
      assert src[i..i + k + 1] == src[i..i + k] + [src[i + k]];
      dst[j + k] := src[i + k];
      k := k + 1;
    }
  }

  /** memset to zero. */
  method MemZero(dst: array<Byte>, j: nat, n: nat)
    requires j + n <= dst.Length
    modifies dst
    ensures dst[..] == old(dst[..j]) + Zeros(n) + old(dst[j + n..])
  {
    var k := 0;
    while k < n
      invariant 0 <= k <= n
      invariant dst[..] == old(dst[..j]) + Zeros(k) + old(dst[j + k..])
    {
      dst[j + k] := 0;
      k := k + 1;
    }
  }

  function Zeros(n: nat): (z: Bytes)
    ensures |z| == n && forall i :: 0 <= i < n ==> z[i] == 0
  {
    seq(n, _ => 0)
  }

  // ---------------------------------------------------------------- pipes

  /** leftshift_buffer: through a temporary copy, zeroing the buffer in between. */
  method LeftShift(buffer: array<Byte>, size: nat, dist: nat)
    requires dist <= size <= buffer.Length
    modifies buffer
    ensures buffer[..] == old(buffer[dist..size]) + Zeros(dist) + old(buffer[size..])
  {
    var temp := new Byte[size - dist];
    MemCopy(temp, 0, buffer, dist, size - dist);
    assert temp[..] == old(buffer[dist..size]);
    MemZero(buffer, 0, size);
    ghost var zeroed := buffer[..];
    assert zeroed == Zeros(size) + old(buffer[size..]);
    MemCopy(buffer, 0, temp, 0, size - dist);
    assert zeroed[size - dist..] == Zeros(dist) + old(buffer[size..]);
  }

  lemma ShiftedFront(b: Bytes, size: nat, available: nat, n: nat)
    requires n <= available <= size <= |b|
    ensures (b[n..size] + Zeros(n) + b[size..])[..available - n] == b[..available][n..]
  {
  }

  class PipeBuffer {
    const buffer: array<Byte>
    const capacity: nat
    var available: nat

    ghost predicate Valid()
      reads this
    {
      buffer.Length == capacity + 1 && available <= capacity
    }

    /** The unread bytes. */
    ghost function Unread(): Bytes
      requires Valid()
      reads this, buffer
    {
      buffer[..available]
    }

    constructor (capacity: nat)
      ensures Valid() && this.capacity == capacity && Unread() == [] && fresh(buffer)
    {
      this.capacity, available := capacity, 0;
      buffer := new Byte[capacity + 1];
    }

    /** The copy at the end of pipe_write, once there is room. */
    method Append(msg: array<Byte>)
      requires Valid() && msg != buffer && msg.Length + available <= capacity
      modifies this, buffer
      ensures Valid() && Unread() == old(Unread()) + msg[..]
    {
      MemCopy(buffer, available, msg, 0, msg.Length);
      available := available + msg.Length;
      assert buffer[..available] == old(buffer[..available]) + msg[..];
    }

    /** The copy and shift of pipe_read, once there are bytes. */
    method Remove(dst: array<Byte>, len: nat) returns (n: nat)
      requires Valid() && dst != buffer && len <= dst.Length
      modifies this, buffer, dst
      ensures Valid() && n == Min(len, |old(Unread())|)
      ensures dst[..n] == Take(old(Unread()), len) && dst[n..] == old(dst[n..])
      ensures Unread() == Drop(old(Unread()), len)
    {
      ghost var was := buffer[..];
      n := Min(len, available);
      ShiftedFront(was, capacity, available, n);
      MemCopy(dst, 0, buffer, 0, n);
      available := available - n;
      assert buffer[..] == was;
      LeftShift(buffer, capacity, n);
      assert buffer[..available] == was[..old(available)][n..];
    }
  }

  // ---------------------------------------------------------- terminal input

  /** What a waiting reader's control block holds for a terminal read. */
  class Reader {
    const requested: nat
    const r0: array<Byte>
    var numRead: nat

    constructor (requested: nat, maxLine: nat)
      ensures this.requested == requested && r0.Length == maxLine && fresh(r0)
    {
      this.requested, numRead := requested, 0;
      r0 := new Byte[maxLine];
    }
  }

  /** Zeroing n bytes and then writing front over them. */
  lemma FrontOverwritten(was: Bytes, front: Bytes, n: nat)
    requires |front| <= n <= |was|
    ensures var zeroed := was[..0] + Zeros(n) + was[n..];
            zeroed[..0] + front + zeroed[|front|..] == front + Zeros(n - |front|) + was[n..]
  {
  }

  class TtyBuffer {
    const buffer: array<Byte>
    const maxLine: nat
    var available: nat

    ghost predicate Valid()
      reads this
    {
      buffer.Length == maxLine && available <= maxLine
    }

    ghost function Unread(): Bytes
      requires Valid()
      reads this, buffer
    {
      buffer[..available]
    }

    constructor (maxLine: nat)
      ensures Valid() && this.maxLine == maxLine && Unread() == [] && fresh(buffer)
    {
      this.maxLine, available := maxLine, 0;
      buffer := new Byte[maxLine];
    }

    /** tty_buffer_consume. Requests outside 1..maxLine and reads of an empty terminal
        do nothing; otherwise the receipt buffer, if any, is zeroed over the requested
        length and filled from the front of the terminal buffer. */
    method Consume(receipt: array?<Byte>, numBytes: int)
      requires Valid() && receipt != buffer
      requires receipt != null ==> numBytes <= receipt.Length
      modifies this, buffer, receipt
      ensures Valid()
      ensures !(1 <= numBytes <= maxLine) || old(Unread()) == [] ==>
                Unread() == old(Unread()) && (receipt != null ==> receipt[..] == old(receipt[..]))
      ensures 1 <= numBytes <= maxLine && old(Unread()) != [] ==>
                && Unread() == Drop(old(Unread()), numBytes)
                && (receipt != null ==>
                      var got := Take(old(Unread()), numBytes);
                      receipt[..] == got + Zeros(numBytes - |got|) + old(receipt[numBytes..]))
    {
      if numBytes < 1 || numBytes > maxLine || available < 1 {
        return;
      }
      var toCopy := Min(numBytes, available);
      if receipt != null {
        Hand(receipt, numBytes, toCopy);
      }
      Shorten(toCopy);
    }

    /** The first part of tty_buffer_consume: zero the receipt buffer and copy the front into it. */
    method Hand(receipt: array<Byte>, numBytes: nat, toCopy: nat)
      requires Valid() && receipt != buffer && toCopy <= numBytes <= receipt.Length && toCopy <= available
      modifies receipt
      ensures receipt[..] == old(buffer[..toCopy]) + Zeros(numBytes - toCopy) + old(receipt[numBytes..])
      ensures buffer[..] == old(buffer[..])
    {
      ghost var was := receipt[..];
      FrontOverwritten(was, buffer[..toCopy], numBytes);
      MemZero(receipt, 0, numBytes);
      MemCopy(receipt, 0, buffer, 0, toCopy);
    }

    /** The rest of tty_buffer_consume: reset the buffer, or shift it left. */
    method Shorten(toCopy: nat)
      requires Valid() && toCopy <= available
      modifies this, buffer
      ensures Valid() && Unread() == old(Unread())[toCopy..]
    {
      if toCopy >= available {
        available := 0;
        MemZero(buffer, 0, maxLine);
        return;
      }
      var remaining := available - toCopy;
      var temp := new Byte[remaining];
      MemCopy(temp, 0, buffer, toCopy, remaining);
      MemZero(buffer, 0, maxLine);
      MemCopy(buffer, 0, temp, 0, remaining);
      available := remaining;
    }

    /** Fill one waiting reader's buffer: zero it, copy its prefix of the line. */
    method Fill(r: Reader, numBytes: nat) returns (copied: nat)
      requires Valid() && numBytes <= maxLine && r.r0 != buffer && r.r0.Length == maxLine
      modifies r, r.r0
      ensures copied == Min(r.requested, numBytes) == r.numRead
      ensures r.r0[..r.numRead] == Take(buffer[..numBytes], r.requested)
    {
      copied := Min(r.requested, numBytes);
      MemZero(r.r0, 0, maxLine);
      MemCopy(r.r0, 0, buffer, 0, copied);
      r.numRead := copied;
    }

    /** The walk over the waiting readers: each gets its prefix of the line. */
    method ServeReaders(readers: seq<Reader>, numBytes: nat) returns (maxRead: nat)
      requires Valid() && 1 <= numBytes <= maxLine
      requires forall i :: 0 <= i < |readers| ==> readers[i].r0 != buffer && readers[i].r0.Length == maxLine
      requires forall i, j :: 0 <= i < j < |readers| ==> readers[i] != readers[j] && readers[i].r0 != readers[j].r0
      modifies readers, (set r: Reader | r in readers :: r.r0)
      ensures maxRead == Longest(Asked(readers), numBytes)
      ensures forall i :: 0 <= i < |readers| ==> Served(readers[i], buffer[..numBytes])
    {
      maxRead := 0;
      var i := 0;
      while i < |readers|
        modifies readers, (set r: Reader | r in readers :: r.r0)
        invariant 0 <= i <= |readers|
        invariant maxRead == Longest(Asked(readers[..i]), numBytes)
        invariant forall k :: 0 <= k < i ==> Served(readers[k], buffer[..numBytes])
      {
        var r := readers[i];
        assert r in readers;
        OneMoreAsked(readers, i, numBytes);
        var copied := Fill(r, numBytes);
        maxRead := Max(maxRead, copied);
        i := i + 1;
      }
      assert readers[..i] == readers;
    }

    /** tty_handle_received, the hardware having put a line of numBytes into the buffer:
        each waiting reader gets the prefix it asked for, and what lies beyond the
        longest of these prefixes stays in the buffer. */
    method HandleReceived(readers: seq<Reader>, numBytes: nat)
      requires Valid() && 1 <= numBytes <= maxLine
      requires forall i :: 0 <= i < |readers| ==> readers[i].r0 != buffer && readers[i].r0.Length == maxLine
      requires forall i, j :: 0 <= i < j < |readers| ==> readers[i] != readers[j] && readers[i].r0 != readers[j].r0
      modifies this, buffer, readers, (set r: Reader | r in readers :: r.r0)
      ensures Valid() && Unread() == Drop(old(buffer[..numBytes]), Longest(Asked(readers), numBytes))
      ensures forall i :: 0 <= i < |readers| ==> Served(readers[i], old(buffer[..numBytes]))
    {
      available := numBytes;
      var maxRead := ServeReaders(readers, numBytes);
      Consume(null, maxRead);
    }
  }

  /** What the readers asked for. */
  function Asked(readers: seq<Reader>): (requests: seq<nat>)
    ensures |requests| == |readers|
  {
    seq(|readers|, i requires 0 <= i < |readers| => readers[i].requested)
  }

  lemma OneMoreAsked(readers: seq<Reader>, i: nat, n: nat)
    requires i < |readers|
    ensures Longest(Asked(readers[..i + 1]), n) == Max(Longest(Asked(readers[..i]), n), Min(readers[i].requested, n))
  {
    assert Asked(readers[..i + 1])[..i] == Asked(readers[..i]);
  }

  ghost predicate Served(r: Reader, line: Bytes)
    reads r, r.r0
  {
    r.numRead <= r.r0.Length && r.r0[..r.numRead] == Take(line, r.requested)
  }

  /** What one read gets, and what it leaves; requests outside 1..maxLine get and take nothing. */
  function Slice(unread: Bytes, len: int, maxLine: nat): Bytes {
    if 1 <= len <= maxLine then Take(unread, len) else []
  }

  function Rest(unread: Bytes, len: int, maxLine: nat): Bytes {
    if 1 <= len <= maxLine then Drop(unread, len) else unread
  }

  /** The slices that successive reads take from an unread line. */
  function Slices(unread: Bytes, lens: seq<int>, maxLine: nat): seq<Bytes> {
    if lens == [] then [] else
      var init := lens[..|lens| - 1];
      Slices(unread, init, maxLine) + [Slice(Left(unread, init, maxLine), lens[|lens| - 1], maxLine)]
  }

  function Left(unread: Bytes, lens: seq<int>, maxLine: nat): Bytes {
    if lens == [] then unread
    else Rest(Left(unread, lens[..|lens| - 1], maxLine), lens[|lens| - 1], maxLine)
  }

  /** Reads between two receipts return consecutive slices: put together, and followed
      by what is left, they are the line again. */
  lemma {:induction false} SlicesRebuild(unread: Bytes, lens: seq<int>, maxLine: nat)
    ensures Flat(Slices(unread, lens, maxLine)) + Left(unread, lens, maxLine) == unread
  {
    if lens != [] {
      var init, last := lens[..|lens| - 1], lens[|lens| - 1];
      SlicesRebuild(unread, init, maxLine);
      var left := Left(unread, init, maxLine);
      FlatSnoc(Slices(unread, init, maxLine), Slice(left, last, maxLine));
      assert left == Slice(left, last, maxLine) + Rest(left, last, maxLine);
    }
  }

  // ------------------------------------------- any sequence of terminal operations

  /** A line comes while readers wait with these requests, or a process reads what is there. */
  datatype TtyCall = Line(bytes: Bytes, requests: seq<nat>) | Read(len: int)

  function Prefixes(bytes: Bytes, requests: seq<nat>): seq<Bytes> {
    seq(|requests|, i requires 0 <= i < |requests| => Take(bytes, requests[i]))
  }

  /** What a terminal holds unread after the calls. A line replaces what was there; an empty one, and one
      longer than a terminal sends, is none. */
  function TtyLeft(calls: seq<TtyCall>, maxLine: nat): (unread: Bytes)
    ensures |unread| <= maxLine
  {
    if calls == [] then [] else
      var unread := TtyLeft(calls[..|calls| - 1], maxLine);
      match calls[|calls| - 1]
      case Line(bytes, requests) =>
        if 1 <= |bytes| <= maxLine then Drop(bytes, Longest(requests, |bytes|)) else unread
      case Read(len) => Rest(unread, len, maxLine)
  }

  /** What the waiting readers and the later ones get, in order. */
  function TtyGot(calls: seq<TtyCall>, maxLine: nat): seq<Bytes> {
    if calls == [] then [] else
      var init := calls[..|calls| - 1];
      match calls[|calls| - 1]
      case Line(bytes, requests) =>
        TtyGot(init, maxLine) + if 1 <= |bytes| <= maxLine then Prefixes(bytes, requests) else []
      case Read(len) => TtyGot(init, maxLine) + [Slice(TtyLeft(init, maxLine), len, maxLine)]
  }

  function Reads(lens: seq<int>): seq<TtyCall> {
    seq(|lens|, i requires 0 <= i < |lens| => TtyCall.Read(lens[i]))
  }

  /** Later reads, before the next line, get consecutive slices of what the calls so far have left. */
  lemma {:induction false} ReadsTakeSlices(calls: seq<TtyCall>, lens: seq<int>, maxLine: nat)
    ensures TtyGot(calls + Reads(lens), maxLine)
         == TtyGot(calls, maxLine) + Slices(TtyLeft(calls, maxLine), lens, maxLine)
    ensures TtyLeft(calls + Reads(lens), maxLine) == Left(TtyLeft(calls, maxLine), lens, maxLine)
  {
    if lens == [] {
      assert calls + Reads(lens) == calls;
    } else {
      var init, last, all := lens[..|lens| - 1], lens[|lens| - 1], calls + Reads(lens);
      ReadsTakeSlices(calls, init, maxLine);
      assert all[..|all| - 1] == calls + Reads(init) && all[|all| - 1] == TtyCall.Read(last);
    }
  }

  ghost predicate FitFor(readers: seq<Reader>, requests: seq<nat>, b: TtyBuffer) {
    && |readers| == |requests|
    && (forall i :: 0 <= i < |readers| ==> readers[i].requested == requests[i])
    && (forall i :: 0 <= i < |readers| ==> readers[i].r0 != b.buffer && readers[i].r0.Length == b.maxLine)
    && (forall i, j :: 0 <= i < j < |readers| ==> readers[i] != readers[j] && readers[i].r0 != readers[j].r0)
  }

  method MakeReaders(requests: seq<nat>, b: TtyBuffer) returns (readers: seq<Reader>)
    ensures FitFor(readers, requests, b)
    ensures forall i :: 0 <= i < |readers| ==> fresh(readers[i]) && fresh(readers[i].r0)
  {
    readers := [];
    var i := 0;
    while i < |requests|
      invariant 0 <= i <= |requests| && FitFor(readers, requests[..i], b)
      invariant forall k :: 0 <= k < i ==> fresh(readers[k]) && fresh(readers[k].r0)
    {
      var r := new Reader(requests[i], b.maxLine);
      readers := readers + [r];
      i := i + 1;
    }
    assert requests[..i] == requests;
  }

  /** What the readers hold afterwards. */
  method Collect(readers: seq<Reader>, bytes: Bytes, requests: seq<nat>) returns (got: seq<Bytes>)
    requires |readers| == |requests| && forall i :: 0 <= i < |readers| ==> readers[i].requested == requests[i]
    requires forall i :: 0 <= i < |readers| ==> Served(readers[i], bytes)
    ensures got == Prefixes(bytes, requests)
  {
    got := [];
    var i := 0;
    while i < |readers|
      invariant 0 <= i <= |readers| && got == Prefixes(bytes, requests)[..i]
    {
      assert Served(readers[i], bytes);
      got := got + [readers[i].r0[..readers[i].numRead]];
      i := i + 1;
    }
  }

  /** A line arrives for waiting readers. */
  method ReceiveLine(b: TtyBuffer, bytes: Bytes, requests: seq<nat>) returns (got: seq<Bytes>)
    requires b.Valid() && 1 <= |bytes| <= b.maxLine
    modifies b, b.buffer
    ensures b.Valid() && b.Unread() == Drop(bytes, Longest(requests, |bytes|))
    ensures got == Prefixes(bytes, requests)
    ensures |got| == |requests| && forall i :: 0 <= i < |got| ==> got[i] == bytes[..Min(requests[i], |bytes|)]
  {
    var hardware := new Byte[|bytes|](k requires 0 <= k < |bytes| => bytes[k]);
    assert hardware[..] == bytes;
    MemCopy(b.buffer, 0, hardware, 0, |bytes|);
    assert b.buffer[..|bytes|] == bytes;
    var readers := MakeReaders(requests, b);
    assert Asked(readers) == requests;
    b.HandleReceived(readers, |bytes|);
    got := Collect(readers, bytes, requests);
  }

  /** One read through tty_buffer_consume into a buffer of the caller's. */
  method ReadOnce(b: TtyBuffer, len: int) returns (got: Bytes)
    requires b.Valid()
    modifies b, b.buffer
    ensures b.Valid()
    ensures got == Slice(old(b.Unread()), len, b.maxLine) && b.Unread() == Rest(old(b.Unread()), len, b.maxLine)
    ensures got + b.Unread() == old(b.Unread())
    ensures |got| == if 1 <= len <= b.maxLine then Min(len, |old(b.Unread())|) else 0
  {
    var n := if 1 <= len <= b.maxLine then Min(len, b.available) else 0;
    var receipt := new Byte[Max(len, 0)];
    b.Consume(receipt, len);
    got := receipt[..n];
  }

  /** Over every sequence of lines and reads the terminal array delivers what the suffixes say. */
  method ReplayTty(maxLine: nat, calls: seq<TtyCall>) returns (got: seq<Bytes>, left: Bytes)
    ensures got == TtyGot(calls, maxLine) && left == TtyLeft(calls, maxLine)
  {
    var b := new TtyBuffer(maxLine);
    got := [];
    var i := 0;
    while i < |calls|
      invariant 0 <= i <= |calls| && b.Valid() && b.maxLine == maxLine && fresh(b) && fresh(b.buffer)
      invariant b.Unread() == TtyLeft(calls[..i], maxLine) && got == TtyGot(calls[..i], maxLine)
    {
      assert calls[..i + 1][..i] == calls[..i];
      match calls[i] {
        case Line(bytes, requests) =>
          if 1 <= |bytes| <= maxLine {
            var more := ReceiveLine(b, bytes, requests);
            got := got + more;
          }
        case Read(len) =>
          var slice := ReadOnce(b, len);
          got := got + [slice];
      }
      i := i + 1;
    }
    assert calls[..i] == calls;
    left := b.buffer[..b.available];
  }

  // ---------------------------------------------- any sequence of pipe operations

  datatype PipeCall = Put(msg: Bytes) | Get(len: nat)

  /** The stream a pipe stands for: what the i-th call leaves unread. Writes that do not
      fit wait, and change nothing. */
  function UnreadAfter(calls: seq<PipeCall>, capacity: nat): (unread: Bytes)
    ensures |unread| <= capacity
  {
    if calls == [] then [] else
      var unread := UnreadAfter(calls[..|calls| - 1], capacity);
      match calls[|calls| - 1]
      case Put(msg) => if |msg| + |unread| <= capacity then unread + msg else unread
      case Get(len) => Drop(unread, len)
  }

  function Accepted(calls: seq<PipeCall>, capacity: nat): Bytes {
    if calls == [] then [] else
      var init := calls[..|calls| - 1];
      match calls[|calls| - 1]
      case Put(msg) => Accepted(init, capacity)
                         + if |msg| + |UnreadAfter(init, capacity)| <= capacity then msg else []
      case Get(_) => Accepted(init, capacity)
  }

  function Delivered(calls: seq<PipeCall>, capacity: nat): Bytes {
    if calls == [] then [] else
      var init := calls[..|calls| - 1];
      match calls[|calls| - 1]
      case Put(_) => Delivered(init, capacity)
      case Get(len) => Delivered(init, capacity) + Take(UnreadAfter(init, capacity), len)
  }

  /** Everything accepted comes out once, in order: nothing is lost or duplicated. */
  lemma {:induction false} StreamConserved(calls: seq<PipeCall>, capacity: nat)
    ensures Accepted(calls, capacity) == Delivered(calls, capacity) + UnreadAfter(calls, capacity)
  {
    if calls != [] {
      var init := calls[..|calls| - 1];
      StreamConserved(init, capacity);
      var unread := UnreadAfter(init, capacity);
      match calls[|calls| - 1]
      case Put(msg) =>
      case Get(len) => assert unread == Take(unread, len) + Drop(unread, len);
    }
  }

  /** The array with its left shift delivers exactly what the stream would. */
  method ReplayPipe(capacity: nat, calls: seq<PipeCall>) returns (got: Bytes, left: Bytes)
    ensures got == Delivered(calls, capacity) && left == UnreadAfter(calls, capacity)
  {
    var p := new PipeBuffer(capacity);
    got := [];
    var i := 0;
    while i < |calls|
      invariant 0 <= i <= |calls| && p.Valid() && p.capacity == capacity && fresh(p) && fresh(p.buffer)
      invariant p.Unread() == UnreadAfter(calls[..i], capacity)
      invariant got == Delivered(calls[..i], capacity)
    {
      assert calls[..i + 1][..i] == calls[..i];
      match calls[i] {
        case Put(msg) =>
          if |msg| + p.available <= capacity {
            var a := new Byte[|msg|](k requires 0 <= k < |msg| => msg[k]);
            assert a[..] == msg;
            p.Append(a);
          }
        case Get(len) =>
          var a := new Byte[len];
          var n := p.Remove(a, len);
          got := got + a[..n];
      }
      i := i + 1;
    }
    assert calls[..i] == calls;
    left := p.buffer[..p.available];
  }
}
