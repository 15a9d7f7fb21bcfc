/** `Buffer`: a byte vector with a prepend area, the readable bytes, and room to write; and the scatter read
    that fills it from a descriptor. */
module Buffers {
  newtype Byte = x: int | 0 <= x < 256

  const CHEAP_PREPEND: nat := 8     // kCheapPrepend
  const INITIAL_SIZE: nat := 1024   // kInitialSize
  const EXTRA_SIZE: nat := 65536    // sizeof(extrabuf)

  /** What one `readv` call does: fail with an error number, or take these bytes from the descriptor. */
  datatype ReadResult = Failed(errno: int) | Taken(data: seq<Byte>)

  function DataOf(result: ReadResult): seq<Byte> {
    if result.Taken? then result.data else []
  }

  function Min(a: nat, b: nat): nat {
    if a < b then a else b
  }

  /** The kernel's side of `readv` with two areas: the first is filled completely before the second. */
  method Readv(result: ReadResult, first: array<Byte>, at: nat, len: nat, second: array<Byte>) returns (n: int)
    requires at + len <= first.Length && first != second
    requires |DataOf(result)| <= len + second.Length
    modifies first, second
    ensures n == if result.Failed? then -1 else |result.data|
    ensures result.Failed? ==> first[..] == old(first[..])
    ensures first[..at] == old(first[..at])
    ensures var k := Min(|DataOf(result)|, len);
            first[at..at + k] == DataOf(result)[..k] && second[..|DataOf(result)| - k] == DataOf(result)[k..]
  {
    var data := DataOf(result);
    var i := 0;
    while i < |data|
      invariant 0 <= i <= |data|
      invariant i == 0 ==> first[..] == old(first[..])
      invariant first[..at] == old(first[..at])
      invariant forall k | 0 <= k < i && k < len :: first[at + k] == data[k]
      invariant forall k | len <= k < i :: second[k - len] == data[k]
    {
      if i < len {
        first[at + i] := data[i];
      } else {
        second[i - len] := data[i];
      }
      i := i + 1;
    }
    n := if result.Failed? then -1 else |data|;
  }

  lemma SliceOfPrefix<T>(s: seq<T>, p: nat, a: nat, b: nat)
    requires a <= b <= p <= |s|
    ensures s[..p][a..b] == s[a..b]
  {}

  lemma SliceSplit<T>(s: seq<T>, a: nat, b: nat, c: nat)
    requires a <= b <= c <= |s|
    ensures s[a..c] == s[a..b] + s[b..c]
  {}

  lemma SliceOfDrop<T>(s: seq<T>, d: nat, b: nat)
    requires d <= b <= |s|
    ensures s[d..][..b - d] == s[d..b]
  {}

  lemma Rejoin<T>(s: seq<T>, t: seq<T>, k: nat)
    requires k <= |t|
    ensures s + t[..k] + t[k..] == s + t
  {
    assert t == t[..k] + t[k..];
  }

  /** Writing behind an index leaves what is before it, and the readable bytes grow by what was written. */
  lemma Filled<T>(before: seq<T>, after: seq<T>, from: nat, at: nat, to: nat)
    requires |before| == |after| && from <= at <= to <= |after| && after[..at] == before[..at]
    ensures after[from..to] == before[from..at] + after[at..to]
  {
    SliceOfPrefix(before, at, from, at);
    SliceOfPrefix(after, at, from, at);
    SliceSplit(after, from, at, to);
  }

  /** `std::copy` from a source that does not overlap the target. */
  method CopyIn(data: seq<Byte>, target: array<Byte>, at: nat)
    requires at + |data| <= target.Length
    modifies target
    ensures target[..at] == old(target[..at])
    ensures target[at..at + |data|] == data
    ensures target[at + |data|..] == old(target[at + |data|..])
  {
    var i := 0;
    while i < |data|
      invariant 0 <= i <= |data|
      invariant forall k | at <= k < at + i :: target[k] == data[k - at]
      invariant forall k | 0 <= k < at || at + i <= k < target.Length :: target[k] == old(target[k])
    {
      target[at + i] := data[i];
      i := i + 1;
    }
  }

  /** `std::copy` within one vector towards its front: front to back, so an overlap does no harm. */
  method CopyDown(buffer: array<Byte>, first: nat, last: nat, dest: nat)
    requires dest <= first <= last <= buffer.Length
    modifies buffer
    ensures buffer[dest..dest + (last - first)] == old(buffer[first..last])
  {
    ghost var source := buffer[first..last];
    var i := 0;
    while i < last - first
      invariant 0 <= i <= last - first
      invariant forall k | dest <= k < dest + i :: buffer[k] == source[k - dest]
      invariant forall k | first + i <= k < last :: buffer[k] == source[k - first]
    {
      buffer[dest + i] := buffer[first + i];
      i := i + 1;
    }
  }

  class Buffer {
    var buffer: array<Byte>
    var readerIndex: nat
    var writeIndex: nat

    /** The indices are ordered and within the vector. */
    predicate Valid()
      reads this
    {
      readerIndex <= writeIndex <= buffer.Length
    }

    /** The readable bytes. */
    function Contents(): (s: seq<Byte>)
      requires Valid()
      reads this, buffer
      ensures |s| == ReadableBytes()
    {
      buffer[readerIndex..writeIndex]
    }

    function ReadableBytes(): nat
      requires Valid()
      reads this
    {
      writeIndex - readerIndex
    }

    function WriteableBytes(): nat
      requires Valid()
      reads this
    {
      buffer.Length - writeIndex
    }

    function PrependableBytes(): nat
      reads this
    {
      readerIndex
    }

    constructor ()
      ensures Valid() && fresh(buffer) && Contents() == []
      ensures WriteableBytes() == INITIAL_SIZE && PrependableBytes() == CHEAP_PREPEND
    {
      buffer := new Byte[CHEAP_PREPEND + INITIAL_SIZE](i => 0);
      readerIndex, writeIndex := CHEAP_PREPEND, CHEAP_PREPEND;
    }

    /** `buffer_.resize(size)` to a larger size. */
    method Resize(size: nat)
      requires buffer.Length <= size
      modifies this`buffer
      ensures fresh(buffer) && buffer.Length == size && buffer[..old(buffer.Length)] == old(buffer[..])
    {
      var bigger := new Byte[size](i => 0);
      CopyIn(buffer[..], bigger, 0);
      buffer := bigger;
    }

    /** Makes room for `len` bytes, by growing the vector or by moving the readable bytes to the front. Either
        way the readable bytes stay the same and the prepend area does not fall below its usual size. */
    method MakeSpace(len: nat)
      requires Valid() && WriteableBytes() < len
      modifies this, buffer
      ensures Valid() && Contents() == old(Contents()) && len <= WriteableBytes()
      ensures buffer == old(buffer) || fresh(buffer)
      ensures readerIndex == old(readerIndex) || readerIndex == CHEAP_PREPEND < old(readerIndex)
      ensures buffer == old(buffer) <==> len + CHEAP_PREPEND <= old(WriteableBytes() + PrependableBytes())
    {
      if WriteableBytes() + PrependableBytes() < len + CHEAP_PREPEND {
        Resize(writeIndex + len);
        SliceOfPrefix(buffer[..], old(buffer.Length), readerIndex, writeIndex);
        assert buffer[..][..old(buffer.Length)] == buffer[..old(buffer.Length)] == old(buffer[..]);
        assert buffer[..][readerIndex..writeIndex] == buffer[readerIndex..writeIndex];
      } else {
        assert CHEAP_PREPEND < readerIndex;
        var readable := ReadableBytes();
        CopyDown(buffer, readerIndex, writeIndex, CHEAP_PREPEND);
        readerIndex := CHEAP_PREPEND;
        writeIndex := readerIndex + readable;
        assert readable == ReadableBytes();
      }
    }

    method EnsureWritableBytes(len: nat)
      requires Valid()
      modifies this, buffer
      ensures Valid() && Contents() == old(Contents()) && len <= WriteableBytes()
      ensures buffer == old(buffer) || fresh(buffer)
      ensures readerIndex == old(readerIndex) || readerIndex == CHEAP_PREPEND < old(readerIndex)
    {
      if WriteableBytes() < len {
        MakeSpace(len);
      }
    }

    method Append(data: seq<Byte>)
      requires Valid()
      modifies this, buffer
      ensures Valid() && Contents() == old(Contents()) + data
      ensures buffer == old(buffer) || fresh(buffer)
      ensures readerIndex == old(readerIndex) || readerIndex == CHEAP_PREPEND < old(readerIndex)
    {
      EnsureWritableBytes(|data|);
      ghost var before := Contents();
      CopyIn(data, buffer, writeIndex);
      assert buffer[readerIndex..writeIndex] == buffer[..writeIndex][readerIndex..] == before;
      SliceSplit(buffer[..], readerIndex, writeIndex, writeIndex + |data|);
      assert buffer[..][readerIndex..writeIndex + |data|] == buffer[readerIndex..writeIndex + |data|];
      assert buffer[..][writeIndex..writeIndex + |data|] == buffer[writeIndex..writeIndex + |data|];
      assert buffer[..][readerIndex..writeIndex] == buffer[readerIndex..writeIndex];
      writeIndex := writeIndex + |data|;
    }

    /** `readv` into the room behind the readable bytes and, when that is full, into `extrabuf`. */
    method Scatter(result: ReadResult, extrabuf: array<Byte>) returns (n: int)
      requires Valid() && extrabuf != buffer && |DataOf(result)| <= WriteableBytes() + extrabuf.Length
      modifies buffer, extrabuf
      ensures n == if result.Failed? then -1 else |result.data|
      ensures var k := Min(|DataOf(result)|, WriteableBytes());
              && buffer[readerIndex..writeIndex + k] == old(Contents()) + DataOf(result)[..k]
              && extrabuf[..|DataOf(result)| - k] == DataOf(result)[k..]
    {
      n := Readv(result, buffer, writeIndex, WriteableBytes(), extrabuf);
      var to := writeIndex + Min(|DataOf(result)|, WriteableBytes());
      Filled(old(buffer[..]), buffer[..], readerIndex, writeIndex, to);
    }

    /** One read: the bytes taken from the descriptor, fitting or spilling over, are appended to the readable
        bytes in order; a failed read changes nothing and saves the error number. */
    method ReadFd(result: ReadResult, errno: int) returns (n: int, savedErrno: int)
      requires Valid() && |DataOf(result)| <= WriteableBytes() + EXTRA_SIZE
      modifies this, buffer
      ensures Valid() && Contents() == old(Contents()) + DataOf(result)
      ensures n == (if result.Failed? then -1 else |result.data|)
      ensures savedErrno == if result.Failed? then result.errno else errno
      ensures buffer == old(buffer) || fresh(buffer)
      ensures readerIndex == old(readerIndex) || readerIndex == CHEAP_PREPEND < old(readerIndex)
    {
      savedErrno := errno;
      var extrabuf := new Byte[EXTRA_SIZE](i => 0);
      var writable := WriteableBytes();
      ghost var before := Contents();
      n := Scatter(result, extrabuf);
      if n < 0 {
        savedErrno := result.errno;
      } else if n <= writable {
        writeIndex := writeIndex + n;
      } else {
        writeIndex := buffer.Length;
        Append(extrabuf[..n - writable]);
        Rejoin(before, result.data, writable);
      }
    }

    method Retrieve(len: nat)
      requires Valid() && len <= ReadableBytes()
      modifies this`readerIndex
      ensures Valid() && Contents() == old(Contents())[len..] && readerIndex == old(readerIndex) + len
    {
      readerIndex := readerIndex + len;
    }

    method RetrieveAll()
      requires CHEAP_PREPEND <= buffer.Length
      modifies this`readerIndex, this`writeIndex
      ensures Valid() && Contents() == [] && readerIndex == CHEAP_PREPEND
    {
      readerIndex := CHEAP_PREPEND;
      writeIndex := CHEAP_PREPEND;
    }

    method RetrieveAsString() returns (str: seq<Byte>)
      requires Valid() && CHEAP_PREPEND <= buffer.Length
      modifies this`readerIndex, this`writeIndex
      ensures Valid() && str == old(Contents()) && Contents() == [] && readerIndex == CHEAP_PREPEND
    {
      str := buffer[readerIndex..writeIndex];
      RetrieveAll();
    }

    method Prepend(data: seq<Byte>)
      requires Valid() && |data| <= PrependableBytes()
      modifies this`readerIndex, buffer
      ensures Valid() && Contents() == data + old(Contents())
    {
      ghost var before := Contents();
      readerIndex := readerIndex - |data|;
      CopyIn(data, buffer, readerIndex);
      SliceOfDrop(buffer[..], readerIndex + |data|, writeIndex);
      assert buffer[..][readerIndex + |data|..] == buffer[readerIndex + |data|..];
      SliceOfDrop(old(buffer[..]), readerIndex + |data|, writeIndex);
      assert old(buffer[..])[readerIndex + |data|..] == old(buffer[readerIndex..]);
      assert buffer[..][readerIndex + |data|..writeIndex] == buffer[readerIndex + |data|..writeIndex];
      assert buffer[readerIndex..writeIndex] ==
             buffer[readerIndex..readerIndex + |data|] + buffer[readerIndex + |data|..writeIndex];
    }

    /** Replaces the vector but not the indices. */
    method Shrink(reserve: nat)
      requires Valid()
      modifies this`buffer
      ensures fresh(buffer) && buffer[..] == Shrunk(old(Contents()), reserve)
    {
      var buf := new Byte[CHEAP_PREPEND + ReadableBytes() + reserve](i => 0);
      CopyIn(buffer[readerIndex..writeIndex], buf, CHEAP_PREPEND);
      var end := CHEAP_PREPEND + ReadableBytes();
      assert buf[..] == buf[..CHEAP_PREPEND] + buf[CHEAP_PREPEND..end] + buf[end..];
      buffer := buf;
    }
  }

  // --- shrinking ---

  function Zeros(n: nat): seq<Byte> {
    seq(n, i => 0)
  }

  /** The vector `shrink` builds. */
  function Shrunk(readable: seq<Byte>, reserve: nat): seq<Byte> {
    Zeros(CHEAP_PREPEND) + readable + Zeros(reserve)
  }

  /** The indices are still in range after shrinking and delimit the same bytes. */
  ghost predicate ShrinkKeeps(readable: seq<Byte>, readerIndex: nat, reserve: nat) {
    && readerIndex + |readable| <= |Shrunk(readable, reserve)|
    && Shrunk(readable, reserve)[readerIndex..readerIndex + |readable|] == readable
  }

  /** `shrink` copies the readable bytes to index 8 but leaves the indices alone: the readable bytes survive,
      whatever they are, exactly if they already started at index 8, or if there are none and the index stays
      within the new vector. */
  lemma ShrinkKeepsContentsIff(length: nat, readerIndex: nat, reserve: nat)
    ensures (forall readable: seq<Byte> | |readable| == length :: ShrinkKeeps(readable, readerIndex, reserve)) <==>
            readerIndex == CHEAP_PREPEND || (length == 0 && readerIndex <= CHEAP_PREPEND + reserve)
  {
    if readerIndex != CHEAP_PREPEND && length > 0 {
      var ones: seq<Byte> := seq(length, i => 1);
      var at := if readerIndex < CHEAP_PREPEND then 0 else length - 1;
      if readerIndex + length <= |Shrunk(ones, reserve)| {
        assert Shrunk(ones, reserve)[readerIndex + at] == 0;
        assert Shrunk(ones, reserve)[readerIndex..readerIndex + length][at] == 0 && ones[at] == 1;
      }
      assert !ShrinkKeeps(ones, readerIndex, reserve);
    } else if length == 0 {
      var none: seq<Byte> := [];
      assert ShrinkKeeps(none, readerIndex, reserve) <==> readerIndex <= CHEAP_PREPEND + reserve;
    }
  }

  /** A buffer that has received two bytes and handed out the first loses the other one when it is shrunk: the
      indices are out of range without a reserve, and delimit a zero byte with one. */
  method ShrinkLosesBytes(x: Byte, y: Byte, reserve: nat) returns (b: Buffer)
    ensures fresh(b) && b.readerIndex == CHEAP_PREPEND + 1 && b.writeIndex == CHEAP_PREPEND + 2
    ensures b.Valid() <==> reserve > 0
    ensures reserve > 0 ==> b.Contents() == [0]
  {
    b := new Buffer();
    b.Append([x, y]);
    b.Retrieve(1);
    assert b.Contents() == [y];
    b.Shrink(reserve);
    if reserve > 0 {
      assert Shrunk([y], reserve)[CHEAP_PREPEND + 1] == 0;
      assert b.buffer[..][CHEAP_PREPEND + 1..CHEAP_PREPEND + 2] == b.buffer[CHEAP_PREPEND + 1..CHEAP_PREPEND + 2];
    }
  }

  // --- whole sessions ---

  /** What a connection does with its input buffer: read from the descriptor (at most `want` bytes, or the call
      fails), or hand bytes to the user. */
  datatype Op = Read(want: nat) | FailingRead(errno: int) | Hand(len: nat) | HandAll

  method Perform(b: Buffer, stream: seq<Byte>, op: Op)
    returns (handed: seq<Byte>, ghost taken: seq<Byte>, rest: seq<Byte>)
    requires b.Valid() && CHEAP_PREPEND <= b.readerIndex
    modifies b, b.buffer
    ensures b.Valid() && CHEAP_PREPEND <= b.readerIndex && (b.buffer == old(b.buffer) || fresh(b.buffer))
    ensures handed + b.Contents() == old(b.Contents()) + taken
    ensures taken + rest == stream
    ensures match op
            case Read(want) =>
              handed == [] && |taken| == Min(Min(want, |stream|), old(b.WriteableBytes()) + EXTRA_SIZE)
            case FailingRead(_) => handed == [] && taken == []
            case Hand(len) =>
              && taken == []
              && handed == old(b.Contents())[..Min(len, old(b.ReadableBytes()))]
            case HandAll => taken == [] && handed == old(b.Contents())
  {
    ghost var readable := b.Contents();
    handed, taken, rest := [], [], stream;
    match op
    case Read(want) =>
      var m := Min(Min(want, |stream|), b.WriteableBytes() + EXTRA_SIZE);
      var n, err := b.ReadFd(Taken(stream[..m]), 0);
      taken, rest := stream[..m], stream[m..];
    case FailingRead(errno) =>
      var n, err := b.ReadFd(Failed(errno), 0);
    case Hand(len) =>
      var m := Min(len, b.ReadableBytes());
      handed := b.Contents()[..m];
      b.Retrieve(m);
      assert readable == readable[..m] + readable[m..];
    case HandAll =>
      handed := b.RetrieveAsString();
  }

  /** At most so many bytes are asked for. */
  function Wanted(ops: seq<Op>): nat {
    if ops == [] then 0
    else Wanted(ops[..|ops| - 1]) + if ops[|ops| - 1].Read? then ops[|ops| - 1].want else 0
  }

  /** At least so many are taken if they are there: a read never has less room than the second area. */
  function Granted(ops: seq<Op>): nat {
    if ops == [] then 0
    else Granted(ops[..|ops| - 1]) + if ops[|ops| - 1].Read? then Min(ops[|ops| - 1].want, EXTRA_SIZE) else 0
  }

  /** No byte is lost, repeated or reordered in any sequence of reads and retrievals: the bytes taken from the
      descriptor are a prefix of what it had, and what was handed out, followed by what is still readable, is
      what was readable at the start followed by the bytes taken. The reads take what they ask for, as far as it
      is there and fits, and a session that ends by handing out everything has handed out all of it. */
  method Session(b: Buffer, stream: seq<Byte>, ops: seq<Op>)
    returns (handed: seq<Byte>, ghost taken: seq<Byte>, rest: seq<Byte>)
    requires b.Valid() && CHEAP_PREPEND <= b.readerIndex
    modifies b, b.buffer
    ensures b.Valid() && CHEAP_PREPEND <= b.readerIndex
    ensures handed + b.Contents() == old(b.Contents()) + taken
    ensures taken + rest == stream
    ensures Min(|stream|, Granted(ops)) <= |taken| <= Wanted(ops)
    ensures ops != [] && ops[|ops| - 1].HandAll? ==> handed == old(b.Contents()) + taken
  {
    ghost var start := b.Contents();
    handed, taken, rest := [], [], stream;
    var k := 0;
    while k < |ops|
      invariant 0 <= k <= |ops|
      invariant b.Valid() && CHEAP_PREPEND <= b.readerIndex && (b.buffer == old(b.buffer) || fresh(b.buffer))
      invariant taken + rest == stream
      invariant handed + b.Contents() == start + taken
      invariant Min(|stream|, Granted(ops[..k])) <= |taken| <= Wanted(ops[..k])
      invariant 0 < k && ops[k - 1].HandAll? ==> b.Contents() == []
    {
      assert ops[..k + 1][..k] == ops[..k];
      ghost var readable := b.Contents();
      var out, more, left := Perform(b, rest, ops[k]);
      Regroup(handed, out, b.Contents(), readable, more, start, taken);
      assert taken + more + left == taken + (more + left);
      handed, taken, rest := handed + out, taken + more, left;
      k := k + 1;
    }
    assert ops[..k] == ops;
  }

  lemma Regroup(given: seq<Byte>, out: seq<Byte>, now: seq<Byte>, readable: seq<Byte>, more: seq<Byte>,
                start: seq<Byte>, took: seq<Byte>)
    requires out + now == readable + more && given + readable == start + took
    ensures given + out + now == start + (took + more)
  {
    assert given + out + now == given + (out + now);
    assert given + (readable + more) == given + readable + more;
    assert start + took + more == start + (took + more);
  }
}
