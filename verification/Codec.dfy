/**
  The number encodings of yk/bytearray.cc and yk/endian.h on flat byte sequences:
  variable-length integers, zigzag and fixed-width integers.
 */
module Codec {
  import opened Common

  const TWO_32: nat := 0x1_0000_0000
  const TWO_64: nat := 0x1_0000_0000_0000_0000

  // ---------------------------------------------------------------- variable-length integers

  /** Groups of seven bits, the lowest first; the top bit says that another group follows. */
  function Varint(v: nat): (r: seq<byte>)
    ensures |r| >= 1
  {
    if v < 128 then [v] else [v % 128 + 128] + Varint(v / 128)
  }

  /** The groups of s, at most k of them: their value and their number; None when s ends too early. */
  function Groups(s: seq<byte>, k: nat): (r: Option<(nat, nat)>)
    ensures r.Some? ==> r.value.1 <= |s| && r.value.1 <= k
    decreases k
  {
    if k == 0 then Some((0, 0))
    else if s == [] then None
    else if s[0] < 128 then Some((s[0], 1))
    else Follow(s[0], Groups(s[1..], k - 1))
  }

  /** The groups g with the group of b, which says that they follow, in front. */
  function Follow(b: byte, g: Option<(nat, nat)>): (r: Option<(nat, nat)>)
    requires b >= 128
    ensures r.Some? <==> g.Some?
    ensures r.Some? ==> r.value.1 == g.value.1 + 1
  {
    match g
    case None => None
    case Some((v, n)) => Some((b - 128 + 128 * v, n + 1))
  }

  /** Writing then reading gives the value back and stops exactly behind it. */
  lemma {:induction false} VarintRoundTrip(v: nat, rest: seq<byte>, k: nat)
    requires |Varint(v)| <= k
    ensures Groups(Varint(v) + rest, k) == Some((v, |Varint(v)|))
    decreases v
  {
    if v >= 128 {
      VarintRoundTrip(v / 128, rest, k - 1);
      FollowStep(v % 128 + 128, Varint(v / 128), rest, k, v / 128);
    }
  }

  lemma FollowStep(b: byte, x: seq<byte>, rest: seq<byte>, k: nat, v: nat)
    requires b >= 128 && k > 0 && Groups(x + rest, k - 1) == Some((v, |x|))
    ensures Groups([b] + x + rest, k) == Some((b - 128 + 128 * v, |x| + 1))
  {
    assert ([b] + x + rest)[1..] == x + rest;
  }

  function Pow128(k: nat): nat {
    if k == 0 then 1 else 128 * Pow128(k - 1)
  }

  /** A value takes at most k bytes exactly when it is below 128^k. */
  /** Reading groups looks at the bytes it uses only. */
  lemma {:induction false} GroupsUse(s: seq<byte>, k: nat)
    requires Groups(s, k).Some?
    ensures Groups(s[..Groups(s, k).value.1], k) == Groups(s, k)
    decreases k
  {
    var n := Groups(s, k).value.1;
    if k > 0 && s[0] >= 128 {
      GroupsUse(s[1..], k - 1);
      assert s[..n][1..] == s[1..][..n - 1];
    }
  }

  /** A varint that breaks off cannot be read. */
  lemma {:induction false} VarintCut(v: nat, n: nat, k: nat)
    requires n < |Varint(v)| <= k
    ensures Groups(Varint(v)[..n], k) == None
    decreases v
  {
    if n > 0 {
      VarintCut(v / 128, n - 1, k - 1);
      assert Varint(v)[..n][1..] == Varint(v / 128)[..n - 1];
    }
  }

  lemma {:induction false} VarintLength(v: nat, k: nat)
    requires k >= 1
    ensures |Varint(v)| <= k <==> v < Pow128(k)
    decreases v
  {
    if v < 128 {
      PowAtLeast(k);
    } else if k == 1 {
    } else {
      VarintLength(v / 128, k - 1);
    }
  }

  lemma PowAtLeast(k: nat)
    requires k >= 1
    ensures Pow128(k) >= 128
  {
  }

  lemma VarintLengths(v: nat)
    ensures v < TWO_32 ==> 1 <= |Varint(v)| <= 5
    ensures v < TWO_64 ==> 1 <= |Varint(v)| <= 10
  {
    VarintLength(v, 5);
    VarintLength(v, 10);
    assert Pow128(5) == 34359738368;
    assert Pow128(10) == Pow128(5) * 34359738368;
  }

  lemma {:induction false} VarintMonotone(v: nat, w: nat)
    requires v <= w
    ensures |Varint(v)| <= |Varint(w)|
    decreases w
  {
    if v >= 128 { VarintMonotone(v / 128, w / 128); }
  }

  /** n groups hold values below 128^n. */
  lemma {:induction false} GroupsBound(s: seq<byte>, k: nat)
    requires Groups(s, k).Some?
    ensures Groups(s, k).value.0 < Pow128(Groups(s, k).value.1)
    decreases k
  {
    if k > 0 && s[0] >= 128 { GroupsBound(s[1..], k - 1); }
  }

  /** The encoding is the shortest: no bytes read back as v, modulo any m, are fewer than Varint(v). */
  lemma VarintShortest(s: seq<byte>, k: nat, m: nat, v: nat)
    requires k >= 1 && m > 0 && v < m
    requires Groups(s, k).Some? && Groups(s, k).value.0 % m == v
    ensures Groups(s, k).value.1 >= |Varint(v)|
  {
    var (w, n) := Groups(s, k).value;
    GroupsBound(s, k);
    ModAtMost(w, m);
    VarintMonotone(v, w);
    VarintLength(w, n);
  }

  lemma ModAtMost(w: nat, m: nat)
    requires m > 0
    ensures w % m <= w
  {
  }

  lemma QuotientOf(v: int, q: int, rest: int, m: int)
    requires 0 <= rest < m && v == q * m + rest
    ensures v / m == q
  {
    var d: int := v / m - q;
    assert d * m == (v / m) * m - q * m;
    assert d >= 1 ==> d * m >= m;
    assert d <= -1 ==> d * m <= -m;
  }

  lemma Product(a: nat, b: nat, q: nat, r: nat, s: nat)
    requires r < b && s < a
    ensures a * (b * q + r) + s == q * (a * b) + (a * r + s) && a * r + s < a * b
  {
    assert a * (b * q + r) == a * (b * q) + a * r;
    assert a * (b * q) == q * (a * b);
    assert a * (b - 1 - r) >= 0;
    assert a * (b - 1 - r) == a * b - a - a * r;
  }

  lemma Euclid(v: nat, a: nat)
    requires a > 0
    ensures v == a * (v / a) + v % a
  {
  }

  lemma NestedQuotient(v: nat, a: nat, b: nat, q: nat, r: nat, s: nat)
    requires r < b && s < a && v == a * (b * q + r) + s
    ensures a * b > 0 && v / (a * b) == q
  {
    Product(a, b, q, r, s);
    QuotientOf(v, q, a * r + s, a * b);
  }

  lemma DivDiv(v: nat, a: nat, b: nat)
    requires a > 0 && b > 0
    ensures a * b > 0 && (v / a) / b == v / (a * b)
  {
    var x := v / a;
    Euclid(v, a);
    Euclid(x, b);
    NestedQuotient(v, a, b, x / b, x % b, v % a);
  }

  lemma {:induction false} PowPositive(k: nat)
    ensures Pow128(k) > 0 && Pow256(k) > 0
    decreases k
  {
    if k > 0 { PowPositive(k - 1); }
  }

  /** Byte i of a varint holds bits 7i to 7i + 6, and its top bit says whether another byte follows. */
  lemma {:induction false} VarintAt(v: nat, i: nat)
    requires i < |Varint(v)|
    ensures Pow128(i) > 0 && Varint(v)[i] == v / Pow128(i) % 128 + if i + 1 < |Varint(v)| then 128 else 0
    decreases i
  {
    PowPositive(i);
    if i > 0 {
      PowPositive(i - 1);
      VarintAt(v / 128, i - 1);
      DivDiv(v, 128, Pow128(i - 1));
      assert Varint(v)[i] == Varint(v / 128)[i - 1];
    }
  }

  /** A list of values written one after the other. */
  function Varints(vs: seq<nat>): seq<byte> {
    if vs == [] then [] else Varint(vs[0]) + Varints(vs[1..])
  }

  function ReadVarints(s: seq<byte>, n: nat, k: nat): (r: Option<(seq<nat>, seq<byte>)>) {
    if n == 0 then Some(([], s))
    else
      match Groups(s, k)
      case None => None
      case Some((v, used)) =>
        match ReadVarints(s[used..], n - 1, k)
        case None => None
        case Some((vs, rest)) => Some(([v] + vs, rest))
  }

  /** The encoding is self-delimiting: any list written is read back unchanged, up to its last byte. */
  lemma {:induction false} VarintsRoundTrip(vs: seq<nat>, rest: seq<byte>, k: nat)
    requires forall i :: 0 <= i < |vs| ==> |Varint(vs[i])| <= k
    ensures ReadVarints(Varints(vs) + rest, |vs|, k) == Some((vs, rest))
    decreases |vs|
  {
    if vs == [] {
      assert Varints(vs) + rest == rest;
    } else {
      VarintRoundTrip(vs[0], Varints(vs[1..]) + rest, k);
      SplitFirst(Varint(vs[0]), Varints(vs[1..]), rest);
      VarintsRoundTrip(vs[1..], rest, k);
      assert [vs[0]] + vs[1..] == vs;
    }
  }

  lemma SplitFirst(x: seq<byte>, y: seq<byte>, z: seq<byte>)
    ensures (x + y) + z == x + (y + z) && (x + (y + z))[|x|..] == y + z
  {
  }

  // ---------------------------------------------------------------- bitwise or

  function Pow2(n: nat): (r: nat)
    ensures r > 0
  {
    if n == 0 then 1 else 2 * Pow2(n - 1)
  }

  /** Bitwise or of the n low bits. */
  function OrBits(a: nat, b: nat, n: nat): nat {
    if n == 0 then 0 else (if a % 2 == 1 || b % 2 == 1 then 1 else 0) + 2 * OrBits(a / 2, b / 2, n - 1)
  }

  /** x << k. */
  function ShiftLeft(x: nat, k: nat): nat {
    if k == 0 then x else 2 * ShiftLeft(x, k - 1)
  }

  lemma {:induction false} OrZero(x: nat, n: nat)
    ensures OrBits(0, x, n) == x % Pow2(n)
    decreases n
  {
    if n > 0 {
      LowBit(x, Pow2(n - 1));
      OrZero(x / 2, n - 1);
    }
  }

  /**
    The readers join groups with a bitwise or.  Or with a number whose k low bits are clear adds it to
    one that has no other bits.
   */
  lemma {:induction false} OrIsSum(r: nat, x: nat, k: nat, n: nat)
    requires r < Pow2(k)
    ensures OrBits(r, ShiftLeft(x, k), n) == (r + ShiftLeft(x, k)) % Pow2(n)
    decreases n
  {
    if n > 0 {
      if k == 0 {
        OrZero(x, n);
      } else {
        LowBit(r + ShiftLeft(x, k), Pow2(n - 1));
        OrIsSum(r / 2, x, k - 1, n - 1);
      }
    }
  }

  lemma LowBit(b: nat, m: nat)
    requires m > 0
    ensures (b % (2 * m)) % 2 == b % 2 && (b % (2 * m)) / 2 == (b / 2) % m
  {
    var q, r := b / (2 * m), b % (2 * m);
    assert b == q * (2 * m) + r;
    assert q * (2 * m) == 2 * (q * m);
    assert b / 2 == q * m + r / 2 && b % 2 == r % 2;
    Remainder(b / 2, q, r / 2, m);
  }

  lemma Pow2Byte(n: nat)
    ensures Pow2(n + 8) == 256 * Pow2(n)
  {
    assert Pow2(n + 8) == 2 * Pow2(n + 7) && Pow2(n + 7) == 2 * Pow2(n + 6) && Pow2(n + 6) == 2 * Pow2(n + 5)
           && Pow2(n + 5) == 2 * Pow2(n + 4) && Pow2(n + 4) == 2 * Pow2(n + 3) && Pow2(n + 3) == 2 * Pow2(n + 2)
           && Pow2(n + 2) == 2 * Pow2(n + 1) && Pow2(n + 1) == 2 * Pow2(n);
  }

  lemma {:induction false} Pow2Grows(k: nat, n: nat)
    requires k <= n
    ensures Pow2(k) <= Pow2(n)
    decreases n
  {
    if k < n { Pow2Grows(k, n - 1); }
  }

  lemma {:induction false} Pow128IsPow2(j: nat)
    ensures Pow128(j) == Pow2(7 * j)
    decreases j
  {
    if j > 0 {
      Pow128IsPow2(j - 1);
      var k := 7 * j - 7;
      assert Pow2(k + 7) == 2 * Pow2(k + 6) && Pow2(k + 6) == 2 * Pow2(k + 5) && Pow2(k + 5) == 2 * Pow2(k + 4)
             && Pow2(k + 4) == 2 * Pow2(k + 3) && Pow2(k + 3) == 2 * Pow2(k + 2) && Pow2(k + 2) == 2 * Pow2(k + 1) && Pow2(k + 1) == 2 * Pow2(k);
    }
  }

  // ---------------------------------------------------------------- zigzag

  /** The low bits of x, as an unsigned word with m values. */
  function Unsigned(x: int, m: nat): (r: nat)
    requires m > 0
    ensures r < m
  {
    x % m
  }

  /** The two's complement reading of an unsigned word with m values. */
  function Signed(x: nat, m: nat): int {
    if x < m / 2 then x else x - m
  }

  /** EncodeZigzag: every operation wraps around in a word with m values. */
  function EncodeZigzag(v: int, m: nat): (r: nat)
    requires m > 0
    ensures r < m
  {
    if v < 0 then Unsigned(Unsigned(-v, m) * 2 - 1, m) else Unsigned(v * 2, m)
  }

  /** (v >> 1) ^ -(v & 1): the mask is all ones for odd v, and exclusive or with all ones is m - 1 - x. */
  function DecodeZigzag(v: nat, m: nat): (r: int)
    requires v < m
  {
    Signed(if v % 2 == 1 then m - 1 - v / 2 else v / 2, m)
  }

  /** Zigzag is a bijection between the signed and the unsigned words that sends small magnitudes to small numbers. */
  lemma ZigzagRoundTrip(v: int, m: nat)
    requires m > 0 && m % 2 == 0 && -(m / 2) <= v < m / 2
    ensures EncodeZigzag(v, m) == if v < 0 then -2 * v - 1 else 2 * v
    ensures DecodeZigzag(EncodeZigzag(v, m), m) == v
  {
    if v < 0 {
      ModSmall(-v, m);
      ModSmall(-v * 2 - 1, m);
    } else {
      ModSmall(v * 2, m);
    }
  }

  lemma ModSmall(x: int, m: nat)
    requires 0 <= x < m
    ensures x % m == x
  {
  }

  lemma ZigzagOnto(u: nat, m: nat)
    requires u < m && m % 2 == 0
    ensures -(m / 2) <= DecodeZigzag(u, m) < m / 2
    ensures EncodeZigzag(DecodeZigzag(u, m), m) == u
  {
    var v := DecodeZigzag(u, m);
    ZigzagRoundTrip(v, m);
  }

  // ---------------------------------------------------------------- fixed-width integers

  /** The n low bytes of v, the lowest first: what a little-endian machine keeps in memory. */
  function Little(v: nat, n: nat): (r: seq<byte>)
    ensures |r| == n
  {
    if n == 0 then [] else [v % 256] + Little(v / 256, n - 1)
  }

  function FromLittle(s: seq<byte>): (v: nat) {
    if s == [] then 0 else s[0] + 256 * FromLittle(s[1..])
  }

  function Pow256(n: nat): nat {
    if n == 0 then 1 else 256 * Pow256(n - 1)
  }

  function Reverse(s: seq<byte>): (r: seq<byte>)
    ensures |r| == |s|
  {
    if s == [] then [] else Reverse(s[1..]) + [s[0]]
  }

  /** The bytes of an n-byte integer with the highest first. */
  function Big(v: nat, n: nat): (r: seq<byte>)
    ensures |r| == n
  {
    Reverse(Little(v, n))
  }

  /** byteswap: the integer whose bytes in memory are those of v in the opposite order. */
  function ByteSwap(v: nat, n: nat): nat {
    FromLittle(Reverse(Little(v, n)))
  }

  /** Bits 8i to 8i + 7 of a number. */
  function ByteAt(v: nat, i: nat): byte {
    PowPositive(i);
    v / Pow256(i) % 256
  }

  /** Byte i of a little-endian store holds those. */
  lemma {:induction false} LittleAt(v: nat, n: nat, i: nat)
    requires i < n
    ensures Little(v, n)[i] == ByteAt(v, i)
    decreases i
  {
    if i > 0 {
      PowPositive(i - 1);
      LittleAt(v / 256, n - 1, i - 1);
      DivDiv(v, 256, Pow256(i - 1));
    }
  }

  lemma {:induction false} ReverseAt(s: seq<byte>, i: nat)
    requires i < |s|
    ensures Reverse(s)[i] == s[|s| - 1 - i]
    decreases |s|
  {
    if i < |s| - 1 { ReverseAt(s[1..], i); }
  }

  /** And of a big-endian store those from the other end. */
  lemma BigAt(v: nat, n: nat, i: nat)
    requires i < n
    ensures Big(v, n)[i] == ByteAt(v, n - 1 - i)
  {
    ReverseAt(Little(v, n), i);
    LittleAt(v, n, n - 1 - i);
  }

  lemma {:induction false} LittleRoundTrip(v: nat, n: nat)
    requires v < Pow256(n)
    ensures FromLittle(Little(v, n)) == v
    decreases n
  {
    if n > 0 { LittleRoundTrip(v / 256, n - 1); }
  }

  lemma {:induction false} LittleOnto(s: seq<byte>)
    ensures FromLittle(s) < Pow256(|s|) && Little(FromLittle(s), |s|) == s
    decreases |s|
  {
    if s != [] {
      LittleOnto(s[1..]);
      LowByte(s[0], FromLittle(s[1..]));
      assert [s[0]] + s[1..] == s;
    }
  }

  lemma LowByte(b: byte, v: nat)
    ensures (b + 256 * v) % 256 == b && (b + 256 * v) / 256 == v
  {
  }

  lemma {:induction false} ReverseSnoc(s: seq<byte>, b: byte)
    ensures Reverse(s + [b]) == [b] + Reverse(s)
    decreases |s|
  {
    if s == [] {
      assert s + [b] == [b] && Reverse([b][1..]) == [];
    } else {
      assert (s + [b])[1..] == s[1..] + [b];
      ReverseSnoc(s[1..], b);
    }
  }

  lemma {:induction false} ReverseTwice(s: seq<byte>)
    ensures Reverse(Reverse(s)) == s
    decreases |s|
  {
    if s != [] {
      ReverseTwice(s[1..]);
      ReverseSnoc(Reverse(s[1..]), s[0]);
    }
  }

  /** byteswap is its own inverse, and swapping before a little-endian store is a big-endian store. */
  lemma ByteSwapLaws(v: nat, n: nat)
    requires v < Pow256(n)
    ensures ByteSwap(v, n) < Pow256(n)
    ensures Little(ByteSwap(v, n), n) == Big(v, n)
    ensures ByteSwap(ByteSwap(v, n), n) == v
  {
    var r := Reverse(Little(v, n));
    LittleOnto(r);
    ReverseTwice(Little(v, n));
    LittleRoundTrip(v, n);
  }

  /** Bytes stored by the fixed-width writers on a little-endian machine, in the buffer's byte order. */
  function Fixed(v: nat, n: nat, littleEndian: bool): (r: seq<byte>)
    ensures |r| == n
  {
    Little(if littleEndian then v else ByteSwap(v, n), n)
  }

  /** What the fixed-width readers make of n stored bytes. */
  function FromFixed(s: seq<byte>, littleEndian: bool): nat {
    if littleEndian then FromLittle(s) else ByteSwap(FromLittle(s), |s|)
  }

  lemma FixedRoundTrip(v: nat, n: nat, littleEndian: bool)
    requires v < Pow256(n)
    ensures FromFixed(Fixed(v, n, littleEndian), littleEndian) == v
    ensures Fixed(v, n, littleEndian) == if littleEndian then Little(v, n) else Big(v, n)
  {
    ByteSwapLaws(v, n);
    LittleRoundTrip(v, n);
    LittleRoundTrip(ByteSwap(v, n), n);
  }
}
