/** The little-endian primitives of src/common/Serialize.hpp: what the writer appends,
    what the reader takes back, and the two stateful objects proved against them. */
module Wire {
  import opened Numbers

  // ---------------------------------------------------------------- what is written

  function LE16(v: uint16): (b: Bytes)
    ensures |b| == 2 && v == b[0] + TWO_8 * b[1]
  {
    [v % 0x100, v / 0x100]
  }

  function LE32(v: uint32): (b: Bytes)
    ensures |b| == 4 && v == b[0] + TWO_8 * b[1] + TWO_16 * b[2] + TWO_24 * b[3]
  {
    LE16(v % TWO_16) + LE16(v / TWO_16)
  }

  function LE64(v: uint64): (b: Bytes)
    ensures |b| == 8
  {
    LE32(v % TWO_32) + LE32(v / TWO_32)
  }

  // The length prefix is cast to 16 bits, so a longer string writes a truncated prefix.
  function LEStr(s: Bytes): (b: Bytes)
    ensures |b| == 2 + |s|
  {
    LE16(|s| % TWO_16) + s
  }

  // The two halves of a word, low half first, are the bytes of the word.
  lemma Joined32(low: uint16, high: uint16)
    ensures LE32(low + TWO_16 * high) == LE16(low) + LE16(high)
  {
    var v := low + TWO_16 * high;
    assert v % TWO_16 == low && v / TWO_16 == high;
  }

  lemma Joined64(low: uint32, high: uint32)
    ensures LE64(low + TWO_32 * high) == LE32(low) + LE32(high)
  {
    var v := low + TWO_32 * high;
    assert v % TWO_32 == low && v / TWO_32 == high;
  }

  // ---------------------------------------------------------------- what is read

  datatype RawCursor = Cursor(data: Bytes, offset: nat, failed: bool)
  type Cursor = c: RawCursor | c.offset <= |c.data| witness Cursor([], 0, false)

  function Remaining(c: Cursor): nat {
    if c.failed then 0 else |c.data| - c.offset
  }

  predicate Available(c: Cursor, n: nat) {
    !c.failed && n <= |c.data| - c.offset
  }

  function Fail(c: Cursor): Cursor {
    c.(failed := true)
  }

  function Advance(c: Cursor, n: nat): Cursor
    requires Available(c, n)
  {
    c.(offset := c.offset + n)
  }

  // The unread bytes start with `bytes`.
  predicate At(c: Cursor, bytes: Bytes) {
    Available(c, |bytes|) && c.data[c.offset..c.offset + |bytes|] == bytes
  }

  // What every read does to the cursor: all of `width` bytes or a lasting failure.
  ghost predicate Moved(c: Cursor, c': Cursor, ok: bool, width: nat) {
    && c'.data == c.data
    && c.offset <= c'.offset
    && ok == Available(c, width)
    && (ok ==> c' == Advance(c, width))
    && (!ok ==> c'.failed)
    && (c.failed ==> c' == c)
  }

  function TakeU8(c: Cursor): (r: (Cursor, Option<uint8>))
    ensures Moved(c, r.0, r.1.Some?, 1)
  {
    if Available(c, 1) then (Advance(c, 1), Some(c.data[c.offset])) else (Fail(c), None)
  }

  function TakeU16(c: Cursor): (r: (Cursor, Option<uint16>))
    ensures Moved(c, r.0, r.1.Some?, 2)
  {
    var (c1, low) := TakeU8(c);
    if low.None? then (c1, None) else
    var (c2, high) := TakeU8(c1);
    if high.None? then (c2, None) else (c2, Some(low.value + TWO_8 * high.value))
  }

  function TakeU32(c: Cursor): (r: (Cursor, Option<uint32>))
    ensures Moved(c, r.0, r.1.Some?, 4)
  {
    var (c1, low) := TakeU16(c);
    if low.None? then (c1, None) else
    var (c2, high) := TakeU16(c1);
    if high.None? then (c2, None) else (c2, Some(low.value + TWO_16 * high.value))
  }

  function TakeU64(c: Cursor): (r: (Cursor, Option<uint64>))
    ensures Moved(c, r.0, r.1.Some?, 8)
  {
    var (c1, low) := TakeU32(c);
    if low.None? then (c1, None) else
    var (c2, high) := TakeU32(c1);
    if high.None? then (c2, None) else (c2, Some(low.value + TWO_32 * high.value))
  }

  // The bound is checked before anything is allocated.
  function TakeStr(c: Cursor, max: uint16): (r: (Cursor, Option<Bytes>))
    ensures r.0.data == c.data && c.offset <= r.0.offset
    ensures c.failed ==> r == (c, None)
    ensures r.1.None? ==> r.0.failed
    ensures r.1.Some? ==> |r.1.value| <= max && Available(c, 2 + |r.1.value|)
    ensures r.1.Some? ==> r.0 == Advance(c, 2 + |r.1.value|)
  {
    var (c1, size) := TakeU16(c);
    if size.None? then (c1, None) else
    if size.value > max || !Available(c1, size.value) then (Fail(c1), None) else
    (Advance(c1, size.value), Some(c1.data[c1.offset..c1.offset + size.value]))
  }

  // ---------------------------------------------------------------- reading what was written

  lemma ConcatsEqual(first: Bytes, second: Bytes, a: Bytes, b: Bytes)
    requires |first| == |a| && |second| == |b|
    ensures first + second == a + b <==> first == a && second == b
  {
    if first + second == a + b {
      assert first == (first + second)[..|a|] && a == (a + b)[..|a|];
      assert second == (first + second)[|a|..] && b == (a + b)[|a|..];
    }
  }

  lemma AtConcat(c: Cursor, a: Bytes, b: Bytes)
    ensures At(c, a + b) <==> At(c, a) && At(Advance(c, |a|), b)
  {
    if Available(c, |a| + |b|) {
      var first := c.data[c.offset..c.offset + |a|];
      var second := c.data[c.offset + |a|..c.offset + |a| + |b|];
      assert c.data[c.offset..c.offset + |a| + |b|] == first + second;
      ConcatsEqual(first, second, a, b);
    }
  }

  lemma LE64Injective(v: uint64, w: uint64)
    requires LE64(v) == LE64(w)
    ensures v == w
  {
    assert LE64(v)[..4] == LE32(v % TWO_32) && LE64(v)[4..] == LE32(v / TWO_32);
    assert LE64(w)[..4] == LE32(w % TWO_32) && LE64(w)[4..] == LE32(w / TWO_32);
  }

  // The next unread bytes are one particular byte string.
  lemma AtUnique(c: Cursor, a: Bytes, b: Bytes)
    requires At(c, a) && At(c, b) && |a| == |b|
    ensures a == b
  {
  }

  // A read returns v exactly when the bytes of v come next.
  lemma TakeU16Exact(c: Cursor, v: uint16)
    ensures TakeU16(c).1 == Some(v) <==> At(c, LE16(v))
  {
    if Available(c, 2) {
      var r := TakeU16(c).1.value;
      assert c.data[c.offset..c.offset + 2] == LE16(r);
      assert LE16(v) == LE16(r) ==> v == r;
    }
  }

  lemma TakeU32Exact(c: Cursor, v: uint32)
    ensures TakeU32(c).1 == Some(v) <==> At(c, LE32(v))
  {
    if Available(c, 4) {
      TakeU32Bytes(c);
      if At(c, LE32(v)) {
        AtUnique(c, LE32(v), LE32(TakeU32(c).1.value));
      }
    }
  }

  lemma TakeU32Bytes(c: Cursor)
    requires Available(c, 4)
    ensures At(c, LE32(TakeU32(c).1.value))
  {
    var low, high := TakeU16(c).1.value, TakeU16(Advance(c, 2)).1.value;
    TakeU16Exact(c, low);
    TakeU16Exact(Advance(c, 2), high);
    AtConcat(c, LE16(low), LE16(high));
    Joined32(low, high);
  }

  lemma TakeU64Exact(c: Cursor, v: uint64)
    ensures TakeU64(c).1 == Some(v) <==> At(c, LE64(v))
  {
    if Available(c, 8) {
      TakeU64Bytes(c);
      if At(c, LE64(v)) {
        AtUnique(c, LE64(v), LE64(TakeU64(c).1.value));
        LE64Injective(v, TakeU64(c).1.value);
      }
    }
  }

  lemma TakeU64Bytes(c: Cursor)
    requires Available(c, 8)
    ensures At(c, LE64(TakeU64(c).1.value))
  {
    hide TakeU32, LE32, LE64;
    var low, high := TakeU32(c).1.value, TakeU32(Advance(c, 4)).1.value;
    TakeU32Bytes(c);
    TakeU32Bytes(Advance(c, 4));
    AtConcat(c, LE32(low), LE32(high));
    Joined64(low, high);
  }

  // Where the length prefix says |s|, the string read is s exactly when the bytes of s follow.
  lemma TakeStrAfterSize(c: Cursor, max: uint16, s: Bytes)
    requires |s| <= max && TakeU16(c).1 == Some(|s|)
    ensures TakeStr(c, max).1 == Some(s) <==> At(Advance(c, 2), s)
  {
    hide TakeU16;
  }

  lemma TakeStrSize(c: Cursor, max: uint16)
    requires TakeStr(c, max).1.Some?
    ensures TakeU16(c).1 == Some(|TakeStr(c, max).1.value|)
  {
    hide TakeU16;
  }

  lemma TakeStrExact(c: Cursor, max: uint16, s: Bytes)
    ensures TakeStr(c, max).1 == Some(s) <==> |s| <= max && At(c, LEStr(s))
  {
    hide TakeStr, TakeU16, LE16, At;
    if |s| <= max {
      TakeU16Exact(c, |s|);
      AtConcat(c, LE16(|s|), s);
      if TakeU16(c).1 == Some(|s|) {
        TakeStrAfterSize(c, max, s);
      } else if TakeStr(c, max).1 == Some(s) {
        TakeStrSize(c, max);
      }
    }
  }

  // ---------------------------------------------------------------- sticky failure

  // One request to the reader, as a caller might issue them in any order.
  datatype Request = AskU8 | AskU16 | AskU32 | AskU64 | AskStr(max: uint16)

  function Answer(c: Cursor, q: Request): (r: (Cursor, bool)) {
    match q
    case AskU8 => var (c', v) := TakeU8(c); (c', v.Some?)
    case AskU16 => var (c', v) := TakeU16(c); (c', v.Some?)
    case AskU32 => var (c', v) := TakeU32(c); (c', v.Some?)
    case AskU64 => var (c', v) := TakeU64(c); (c', v.Some?)
    case AskStr(max) => var (c', v) := TakeStr(c, max); (c', v.Some?)
  }

  function Answers(c: Cursor, qs: seq<Request>): (r: (Cursor, seq<bool>))
    ensures |r.1| == |qs|
    decreases |qs|
  {
    if qs == [] then (c, [])
    else
      var (c1, ok) := Answer(c, qs[0]);
      var (c2, rest) := Answers(c1, qs[1..]);
      (c2, [ok] + rest)
  }

  // Whatever is asked, in whatever order: the reader stays within the bytes it was given and
  // never moves back; the reads that succeed come first; after a failure every read fails,
  // even one that would have fitted, and nothing counts as remaining.
  lemma {:induction false} FailureIsSticky(c: Cursor, qs: seq<Request>)
    ensures var (c', oks) := Answers(c, qs);
            && c'.data == c.data && c.offset <= c'.offset <= |c.data|
            && (forall i, j :: 0 <= i < j < |oks| && oks[j] ==> oks[i])
            && (c'.failed <==> c.failed || false in oks)
            && (c.failed ==> forall i :: 0 <= i < |oks| ==> !oks[i])
            && (c'.failed ==> Remaining(c') == 0)
    decreases |qs|
  {
    if qs != [] {
      var (c1, ok) := Answer(c, qs[0]);
      FailureIsSticky(c1, qs[1..]);
    }
  }

  // ---------------------------------------------------------------- the two objects

  class Writer {
    var buffer: Bytes

    constructor ()
      ensures buffer == []
    {
      buffer := [];
    }

    method U8(v: uint8)
      modifies this
      ensures buffer == old(buffer) + [v]
    {
      buffer := buffer + [v];
    }

    method U16(v: uint16)
      modifies this
      ensures buffer == old(buffer) + LE16(v)
    {
      U8(v % 0x100);
      U8(v / 0x100);
    }

    method U32(v: uint32)
      modifies this
      ensures buffer == old(buffer) + LE32(v)
    {
      U16(v % TWO_16);
      U16(v / TWO_16);
    }

    method U64(v: uint64)
      modifies this
      ensures buffer == old(buffer) + LE64(v)
    {
      U32(v % TWO_32);
      U32(v / TWO_32);
    }

    method Str(s: Bytes)
      modifies this
      ensures buffer == old(buffer) + LEStr(s)
    {
      U16(|s| % TWO_16);
      buffer := buffer + s;
    }
  }

  class Reader {
    const data: Bytes
    var offset: nat
    var failed: bool

    ghost predicate Valid()
      reads this
    {
      offset <= |data|
    }

    ghost function View(): Cursor
      reads this
      requires Valid()
    {
      Cursor(data, offset, failed)
    }

    constructor (data: Bytes)
      ensures Valid() && View() == Cursor(data, 0, false) && this.data == data
    {
      this.data := data;
      offset, failed := 0, false;
    }

    method Left() returns (n: nat)
      requires Valid()
      ensures n == Remaining(View())
    {
      n := if failed then 0 else |data| - offset;
    }

    method HasAvailable(n: nat) returns (ok: bool)
      requires Valid()
      modifies this
      ensures Valid() && ok == old(Available(View(), n))
      ensures View() == if ok then old(View()) else Fail(old(View()))
    {
      if failed || |data| - offset < n {
        failed := true;
        return false;
      }
      return true;
    }

    method U8() returns (v: Option<uint8>)
      requires Valid()
      modifies this
      ensures Valid() && (View(), v) == TakeU8(old(View()))
    {
      var ok := HasAvailable(1);
      if !ok {
        return None;
      }
      v := Some(data[offset]);
      offset := offset + 1;
    }

    method U16() returns (v: Option<uint16>)
      requires Valid()
      modifies this
      ensures Valid() && (View(), v) == TakeU16(old(View()))
    {
      var low := U8();
      if low.None? {
        return None;
      }
      var high := U8();
      if high.None? {
        return None;
      }
      v := Some(low.value + TWO_8 * high.value);
    }

    method U32() returns (v: Option<uint32>)
      requires Valid()
      modifies this
      ensures Valid() && (View(), v) == TakeU32(old(View()))
    {
      var low := U16();
      if low.None? {
        return None;
      }
      var high := U16();
      if high.None? {
        return None;
      }
      v := Some(low.value + TWO_16 * high.value);
    }

    method U64() returns (v: Option<uint64>)
      requires Valid()
      modifies this
      ensures Valid() && (View(), v) == TakeU64(old(View()))
    {
      var low := U32();
      if low.None? {
        return None;
      }
      var high := U32();
      if high.None? {
        return None;
      }
      v := Some(low.value + TWO_32 * high.value);
    }

    method Str(max: uint16) returns (s: Option<Bytes>)
      requires Valid()
      modifies this
      ensures Valid() && (View(), s) == TakeStr(old(View()), max)
    {
      var size := U16();
      if size.None? {
        return None;
      }
      if size.value > max {
        failed := true;
        return None;
      }
      var ok := HasAvailable(size.value);
      if !ok {
        return None;
      }
      s := Some(data[offset..offset + size.value]);
      offset := offset + size.value;
    }
  }
}
