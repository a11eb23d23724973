/**
  The typed readers and writers of yk/bytearray.cc, on top of ByteArray::read and ByteArray::write.
  A reader returns None where the original throws std::out_of_range.
 */
module BufferCodec {
  import opened Common
  import opened Blocks
  import opened Codec

  /** The bytes between the position and the end of the data. */
  ghost function Rest(ba: ByteArray): (r: seq<byte>)
    requires ba.position <= ba.size <= |ba.contents|
    reads ba
    ensures |r| == ba.size - ba.position
  {
    ba.contents[ba.position..ba.size]
  }

  /** The bytes were written at the position; behind the end of the data that is an append. */
  twostate predicate Wrote(ba: ByteArray, bytes: seq<byte>)
    reads ba, ba.Repr
  {
    && ba.Valid() && fresh(ba.Repr - old(ba.Repr)) && ba.littleEndian == old(ba.littleEndian)
    && ba.position == old(ba.position) + |bytes| && ba.size == Max(old(ba.size), ba.position)
    && Overwrites(old(ba.contents), old(ba.position), bytes, ba.contents)
    && (old(ba.size <= |ba.contents|) && old(ba.position == ba.size) ==> ba.Bytes() == old(ba.Bytes()) + bytes)
  }

  method Put(ba: ByteArray, bytes: seq<byte>)
    requires ba.Valid()
    modifies ba, ba.Repr
    ensures Wrote(ba, bytes)
  {
    ba.Write(bytes);
    OverwritesAppend(old(ba.contents), old(ba.position), bytes, ba.contents);
  }

  /** Overwriting from p on leaves what is before p, and then come the bytes. */
  lemma OverwritesAppend(c: seq<byte>, p: nat, bytes: seq<byte>, c': seq<byte>)
    requires p <= |c| && p + |bytes| <= |c'| && Overwrites(c, p, bytes, c')
    ensures c'[..p + |bytes|] == c[..p] + bytes
  {
    forall i | 0 <= i < p + |bytes| ensures c'[i] == (c[..p] + bytes)[i] { }
  }

  method WriteFuint8(ba: ByteArray, v: byte)
    requires ba.Valid()
    modifies ba, ba.Repr
    ensures Wrote(ba, [v])
  {
    Put(ba, [v]);
  }

  /** writeFint16/32/64 and writeFuint16/32/64: n bytes in the buffer's byte order. */
  method WriteFixed(ba: ByteArray, v: nat, n: nat)
    requires ba.Valid() && v < Pow256(n)
    modifies ba, ba.Repr
    ensures Wrote(ba, if ba.littleEndian then Little(v, n) else Big(v, n))
  {
    FixedRoundTrip(v, n, ba.littleEndian);
    var value := v;
    if !ba.littleEndian {
      value := ByteSwap(v, n);
    }
    Put(ba, Little(value, n));
  }

  /** The value of a word of that many bits is taken modulo this. */
  function Modulus(width: nat): (m: nat)
    ensures m > 0
  {
    if width == 32 then TWO_32 else TWO_64
  }

  /** How many groups of seven bits a word of that many bits needs: the size of the writers' local array. */
  function GroupLimit(width: nat): nat {
    if width == 32 then 5 else 10
  }

  /** writeUint32 and writeUint64. */
  method WriteUint(ba: ByteArray, v: nat, width: nat)
    requires ba.Valid() && (width == 32 || width == 64) && v < Modulus(width)
    modifies ba, ba.Repr
    ensures Wrote(ba, Varint(v)) && |Varint(v)| <= GroupLimit(width)
  {
    VarintLengths(v);
    var tmp, value := [], v;
    while value >= 0x80
      invariant 0 <= value && tmp + Varint(value) == Varint(v)
      decreases value
    {
      assert |tmp| < GroupLimit(width);
      tmp := tmp + [value % 128 + 128];
      value := value / 128;
    }
    tmp := tmp + [value];
    Put(ba, tmp);
  }

  /** writeInt32 and writeInt64. */
  method WriteInt(ba: ByteArray, v: int, width: nat)
    requires ba.Valid() && (width == 32 || width == 64) && -(Modulus(width) / 2) <= v < Modulus(width) / 2
    modifies ba, ba.Repr
    ensures Wrote(ba, Varint(EncodeZigzag(v, Modulus(width))))
  {
    WriteUint(ba, EncodeZigzag(v, Modulus(width)), width);
  }

  method WriteStringVint(ba: ByteArray, s: seq<byte>)
    requires ba.Valid() && |s| < TWO_64
    modifies ba, ba.Repr
    ensures Wrote(ba, Varint(|s|) + s)
  {
    WriteUint(ba, |s|, 64);
    ghost var before := ba.contents;
    Put(ba, s);
    OverwritesMore(old(ba.contents), old(ba.position), Varint(|s|), before, s, ba.contents);
    OverwritesAppend(old(ba.contents), old(ba.position), Varint(|s|) + s, ba.contents);
  }

  /** A reader leaves the data alone and moves the position by n. */
  twostate predicate Moved(ba: ByteArray, n: nat)
    reads ba, ba.Repr
  {
    && ba.Valid() && ba.size == old(ba.size) && ba.capacity == old(ba.capacity) && ba.contents == old(ba.contents)
    && ba.littleEndian == old(ba.littleEndian) && ba.position == old(ba.position) + n
  }

  method ReadFuint8(ba: ByteArray) returns (r: Option<byte>)
    requires ba.Valid()
    modifies ba`position, ba`cur, ba`at
    ensures r == if old(Rest(ba)) == [] then None else Some(old(Rest(ba))[0])
    ensures Moved(ba, if r.Some? then 1 else 0)
  {
    var got := ba.Read(1);
    r := if got.Some? then Some(got.value[0]) else None;
  }

  /** readFint16/32/64 and readFuint16/32/64. */
  method ReadFixed(ba: ByteArray, n: nat) returns (r: Option<nat>)
    requires ba.Valid() && n > 0
    modifies ba`position, ba`cur, ba`at
    ensures r == if n <= |old(Rest(ba))| then Some(FromFixed(old(Rest(ba))[..n], ba.littleEndian)) else None
    ensures Moved(ba, if r.Some? then n else 0)
  {
    var got := ba.Read(n);
    if got.None? {
      return None;
    }
    assert got.value == old(Rest(ba))[..n];
    r := Some(if ba.littleEndian then FromLittle(got.value) else ByteSwap(FromLittle(got.value), n));
  }

  /** x << 7j. */
  function Shift(x: nat, j: nat): nat {
    if j == 0 then x else 128 * Shift(x, j - 1)
  }

  lemma {:induction false} ShiftSplit(x: nat, y: nat, j: nat)
    ensures Shift(x + 128 * y, j) == Shift(x, j) + Shift(y, j + 1)
    decreases j
  {
    if j > 0 { ShiftSplit(x, y, j - 1); }
  }

  lemma ShiftZero(j: nat)
    ensures Shift(0, j) == 0
  {
  }

  /** The reader's accumulator with a group joined in: result |= (b & 0x7f) << i, in a word of that many bits. */
  function Join(result: nat, b: byte, i: nat, width: nat): nat {
    OrBits(result, ShiftLeft(b % 128, i), width)
  }

  lemma ModulusIsPow2(width: nat)
    requires width == 32 || width == 64
    ensures Modulus(width) == Pow2(width)
  {
    Pow2Byte(0);
    Pow2Byte(8);
    Pow2Byte(16);
    Pow2Byte(24);
    Pow2Byte(32);
    Pow2Byte(40);
    Pow2Byte(48);
    Pow2Byte(56);
  }

  lemma {:induction false} ShiftIsShiftLeft(x: nat, j: nat)
    ensures Shift(x, j) == ShiftLeft(x, 7 * j)
    decreases j
  {
    if j > 0 {
      ShiftIsShiftLeft(x, j - 1);
      var k := 7 * j - 7;
      assert ShiftLeft(x, k + 7) == 2 * ShiftLeft(x, k + 6) && ShiftLeft(x, k + 6) == 2 * ShiftLeft(x, k + 5)
             && ShiftLeft(x, k + 5) == 2 * ShiftLeft(x, k + 4) && ShiftLeft(x, k + 4) == 2 * ShiftLeft(x, k + 3)
             && ShiftLeft(x, k + 3) == 2 * ShiftLeft(x, k + 2) && ShiftLeft(x, k + 2) == 2 * ShiftLeft(x, k + 1)
             && ShiftLeft(x, k + 1) == 2 * ShiftLeft(x, k);
    }
  }

  lemma {:induction false} ShiftBound(x: nat, j: nat)
    requires x < 128
    ensures Shift(x, j) + Pow128(j) <= Pow128(j + 1)
    decreases j
  {
    if j > 0 { ShiftBound(x, j - 1); }
  }

  /** Joining group j in adds it, because the groups before it do not reach that far. */
  lemma JoinIsSum(base: nat, b: byte, i: nat, j: nat, width: nat, result: nat) returns (sum: nat)
    requires (width == 32 || width == 64) && i == 7 * j < width && base < Pow128(j) && result == base % Modulus(width)
    ensures sum == base + Shift(b % 128, j) && sum < Pow128(j + 1)
    ensures Join(result, b, i, width) == sum % Modulus(width)
  {
    sum := base + Shift(b % 128, j);
    ModulusIsPow2(width);
    Pow128IsPow2(j);
    Pow2Grows(7 * j, width);
    ModSmall(base, Modulus(width));
    ShiftIsShiftLeft(b % 128, j);
    OrIsSum(base, b % 128, 7 * j, width);
    ShiftBound(b % 128, j);
  }

  /** Groups g read behind j groups that amount to `base`. */
  function Prepend(base: nat, j: nat, g: Option<(nat, nat)>): Option<(nat, nat)> {
    match g
    case None => None
    case Some((v, n)) => Some((base + Shift(v, j), j + n))
  }

  lemma PrependStep(b: byte, base: nat, j: nat, g: Option<(nat, nat)>)
    requires b >= 128
    ensures Prepend(base, j, Follow(b, g)) == Prepend(base + Shift(b % 128, j), j + 1, g)
  {
    if g.Some? { ShiftSplit(b - 128, g.value.0, j); }
  }

  /**
    Before t came j bytes of s that all say that another group follows; their groups amount to `base`,
    of which the reader keeps `result`.
   */
  ghost predicate ReadSoFar(s: seq<byte>, k: nat, m: nat, j: nat, base: nat, t: seq<byte>, result: nat)
    requires m > 0
  {
    j <= k && Groups(s, k) == Prepend(base, j, Groups(t, k - j)) && base < Pow128(j) && result == base % m
  }

  lemma ReadStep(s: seq<byte>, width: nat, i: nat, j: nat, base: nat, t: seq<byte>, result: nat, result': nat) returns (base': nat)
    requires (width == 32 || width == 64) && i == 7 * j < width && t != []
    requires ReadSoFar(s, GroupLimit(width), Modulus(width), j, base, t, result) && result' == Join(result, t[0], i, width)
    ensures if t[0] < 128 then Groups(s, GroupLimit(width)) == Some((base', j + 1)) && result' == base' % Modulus(width)
            else ReadSoFar(s, GroupLimit(width), Modulus(width), j + 1, base', t[1..], result')
  {
    GroupStep(s, GroupLimit(width), j, base, t);
    base' := JoinIsSum(base, t[0], i, j, width, result);
  }

  lemma GroupStep(s: seq<byte>, k: nat, j: nat, base: nat, t: seq<byte>)
    requires j < k && t != [] && Groups(s, k) == Prepend(base, j, Groups(t, k - j))
    ensures var base' := base + Shift(t[0] % 128, j);
            Groups(s, k) == if t[0] < 128 then Some((base', j + 1)) else Prepend(base', j + 1, Groups(t[1..], k - j - 1))
  {
    if t[0] >= 128 { PrependStep(t[0], base, j, Groups(t[1..], k - j - 1)); }
  }

  /** The groups are read as far as allowed, or to the end of s. */
  lemma ReadEnd(s: seq<byte>, k: nat, m: nat, j: nat, base: nat, t: seq<byte>, result: nat)
    requires m > 0 && ReadSoFar(s, k, m, j, base, t, result)
    ensures j == k ==> Groups(s, k) == Some((base, k)) && result == base % m
    ensures j < k && t == [] ==> Groups(s, k) == None
  {
    ShiftZero(j);
  }

  /** The value of groups in a word with m values. */
  function WordOf(g: Option<(nat, nat)>, m: nat): Option<nat>
    requires m > 0
  {
    if g.Some? then Some(g.value.0 % m) else None
  }

  /** How many of n bytes reading them takes. */
  function UsedBy(g: Option<(nat, nat)>, n: nat): nat {
    if g.Some? then g.value.1 else n
  }

  /** readUint32 and readUint64: at most 5 and 10 groups; what does not fit the word is dropped. */
  method ReadUint(ba: ByteArray, width: nat) returns (r: Option<nat>)
    requires ba.Valid() && (width == 32 || width == 64)
    modifies ba`position, ba`cur, ba`at
    ensures var g := Groups(old(Rest(ba)), GroupLimit(width));
            r == WordOf(g, Modulus(width)) && Moved(ba, UsedBy(g, |old(Rest(ba))|))
  {
    ghost var s, k, m := Rest(ba), GroupLimit(width), Modulus(width);
    ghost var base: nat, t := 0, s;      // the groups read so far, before dropping bits; what is left of s
    var result, i, j := 0, 0, 0;         // the source counts the shift i; j == i / 7 is the group
    while i < width
      invariant 0 <= j && i == 7 * j && ReadSoFar(s, k, m, j, base, t, result)
      invariant Moved(ba, j) && |t| + j == |s| && t == Rest(ba)
    {
      ReadEnd(s, k, m, j, base, t, result);
      var b := ReadFuint8(ba);
      if b.None? {
        return None;
      }
      var joined := Join(result, b.value, i, width);
      base := ReadStep(s, width, i, j, base, t, result, joined);
      result := joined;
      if b.value < 0x80 {
        return Some(result);
      }
      t := t[1..];
      i, j := i + 7, j + 1;
    }
    ReadEnd(s, k, m, j, base, t, result);
    r := Some(result);
  }

  /** The signed value of groups in a word with m values. */
  function SignedOf(g: Option<(nat, nat)>, m: nat): Option<int>
    requires m > 0
  {
    if g.Some? then Some(DecodeZigzag(g.value.0 % m, m)) else None
  }

  /** readInt32 and readInt64. */
  method ReadInt(ba: ByteArray, width: nat) returns (r: Option<int>)
    requires ba.Valid() && (width == 32 || width == 64)
    modifies ba`position, ba`cur, ba`at
    ensures var g := Groups(old(Rest(ba)), GroupLimit(width));
            r == SignedOf(g, Modulus(width)) && Moved(ba, UsedBy(g, |old(Rest(ba))|))
  {
    var u := ReadUint(ba, width);
    if u.None? {
      return None;
    }
    r := Some(DecodeZigzag(u.value, Modulus(width)));
  }

  /** Every signed value survives writing and reading, takes at most 5 or 10 bytes, and nothing behind it is touched. */
  lemma IntRoundTrip(v: int, rest: seq<byte>, width: nat)
    requires (width == 32 || width == 64) && -(Modulus(width) / 2) <= v < Modulus(width) / 2
    ensures var m := Modulus(width); var bytes := Varint(EncodeZigzag(v, m));
            && |bytes| <= GroupLimit(width)
            && var g := Groups(bytes + rest, GroupLimit(width));
               SignedOf(g, m) == Some(v) && UsedBy(g, |bytes + rest|) == |bytes|
  {
    var m := Modulus(width);
    var u := EncodeZigzag(v, m);
    ZigzagRoundTrip(v, m);
    VarintLengths(u);
    VarintRoundTrip(u, rest, GroupLimit(width));
    ModSmall(u, m);
  }

  /** Outcome of a string reader; NullCursor stands for the dereference of the null block pointer. */
  datatype StringRead = Str(value: seq<byte>) | TooShort | NullCursor

  /**
    readStringVint.  A read of no bytes still looks at the current block, which does not exist when
    the position is at the very end of the last block.
   */
  method ReadStringVint(ba: ByteArray) returns (r: StringRead)
    requires ba.Valid()
    modifies ba`position, ba`cur, ba`at
    ensures match Groups(old(Rest(ba)), 10)
            case None => r == TooShort && Moved(ba, |old(Rest(ba))|)
            case Some((v, n)) =>
              var len, rest := v % TWO_64, old(Rest(ba))[n..];
              if len == 0 && rest == [] && ba.size == ba.capacity then r == NullCursor && Moved(ba, n)
              else if len > |rest| then r == TooShort && Moved(ba, n)
              else r == Str(rest[..len]) && Moved(ba, n + len)
    ensures old(ba.position) <= ba.position && Moved(ba, ba.position - old(ba.position))
  {
    ghost var s := Rest(ba);
    var len := ReadUint(ba, 64);
    if len.None? {
      return TooShort;
    }
    ghost var n := Groups(s, 10).value.1;
    assert Rest(ba) == s[n..];
    ba.CursorIsBlock();
    if len.value == 0 && ba.cur == null {
      return NullCursor;
    }
    var got := ba.Read(len.value);
    if got.None? {
      return TooShort;
    }
    r := Str(got.value);
  }
}
