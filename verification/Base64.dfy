/**
  base64encode of yk/util.cc, against a decoder written from section 4 of RFC 4648.
 */
module Base64 {
  import opened Common

  /** The character of a six-bit value: table 1 of RFC 4648. */
  function Digit(n: nat): (c: char)
    requires n < 64
    ensures c != '='
  {
    if n < 26 then ('A' as int + n) as char
    else if n < 52 then ('a' as int + (n - 26)) as char
    else if n < 62 then ('0' as int + (n - 52)) as char
    else if n == 62 then '+' else '/'
  }

  /** The value of a character; None outside the alphabet. */
  function Value(c: char): (r: Option<nat>)
    ensures r.Some? ==> r.value < 64
  {
    if 'A' <= c <= 'Z' then Some(c as int - 'A' as int)
    else if 'a' <= c <= 'z' then Some(c as int - 'a' as int + 26)
    else if '0' <= c <= '9' then Some(c as int - '0' as int + 52)
    else if c == '+' then Some(62)
    else if c == '/' then Some(63)
    else None
  }

  /** The 24 bits of three bytes, the first one highest. */
  function Pack(a: byte, b: byte, c: byte): (p: nat)
    ensures p < 0x100_0000
  {
    a * 0x1_0000 + b * 0x100 + c
  }

  /** The first k characters of a 24-bit group. */
  function Digits(p: nat, k: nat): (r: string)
    requires p < 0x100_0000 && k <= 4
    ensures |r| == k
  {
    [Digit(p / 0x4_0000), Digit(p / 0x1000 % 64), Digit(p / 64 % 64), Digit(p % 64)][..k]
  }

  /** How many bytes the first group takes. */
  function Taken(data: seq<byte>): nat {
    if |data| < 3 then |data| else 3
  }

  function PackFirst(data: seq<byte>): (p: nat)
    requires data != []
    ensures p < 0x100_0000
  {
    Pack(data[0], if |data| > 1 then data[1] else 0, if |data| > 2 then data[2] else 0)
  }

  /** The four characters for n bytes: n + 1 digits, then padding. */
  function Group(p: nat, n: nat): (r: string)
    requires p < 0x100_0000 && 1 <= n <= 3
    ensures |r| == 4
  {
    Digits(p, n + 1) + seq(3 - n, _ => '=')
  }

  function Encode(data: seq<byte>): string {
    if data == [] then ""
    else Group(PackFirst(data), Taken(data)) + Encode(data[Taken(data)..])
  }

  // ---------------------------------------------------------------- decoding

  /** The 24-bit group of four characters, where padding counts as zero bits. */
  function Unpack(t: string): (r: Option<nat>)
    requires |t| == 4
    ensures r.Some? ==> r.value < 0x100_0000
  {
    var a, b := Value(t[0]), Value(t[1]);
    var c := if t[2] == '=' then Some(0) else Value(t[2]);
    var d := if t[3] == '=' then Some(0) else Value(t[3]);
    if a.Some? && b.Some? && c.Some? && d.Some? then
      Some(a.value * 0x4_0000 + b.value * 0x1000 + c.value * 64 + d.value)
    else None
  }

  function BytesOf(p: nat): (r: seq<byte>)
    requires p < 0x100_0000
    ensures |r| == 3
  {
    [p / 0x1_0000, p / 0x100 % 0x100, p % 0x100]
  }

  /** Groups of four characters; only the last one may be padded. */
  function Decode(t: string): (r: Option<seq<byte>>) {
    if t == "" then Some([])
    else if |t| < 4 then None
    else
      match Unpack(t[..4])
      case None => None
      case Some(p) =>
        if t[3] != '=' then
          if t[2] == '=' then None
          else
            match Decode(t[4..])
            case None => None
            case Some(rest) => Some(BytesOf(p) + rest)
        else if |t| != 4 then None
        else Some(BytesOf(p)[..if t[2] == '=' then 1 else 2])
  }

  lemma ValueOfDigit(n: nat)
    requires n < 64
    ensures Value(Digit(n)) == Some(n)
  {
  }

  lemma UnpackGroup(p: nat, n: nat)
    requires p < 0x100_0000 && 1 <= n <= 3
    requires (n <= 2 ==> p % 64 == 0) && (n == 1 ==> p % 0x1000 == 0)
    ensures Unpack(Group(p, n)) == Some(p)
  {
    ValueOfDigit(p / 0x4_0000);
    ValueOfDigit(p / 0x1000 % 64);
    ValueOfDigit(p / 64 % 64);
    ValueOfDigit(p % 64);
    SixBits(p);
  }

  lemma SixBits(p: nat)
    ensures p == p / 0x4_0000 * 0x4_0000 + p / 0x1000 % 64 * 0x1000 + p / 64 % 64 * 64 + p % 64
    ensures p % 0x1000 == p / 64 % 64 * 64 + p % 64
  {
    var q1 := p / 64;
    var q2 := q1 / 64;
    assert q2 == p / 0x1000;
    assert q2 / 64 == p / 0x4_0000;
  }

  lemma BytesOfPack(a: byte, b: byte, c: byte)
    ensures BytesOf(Pack(a, b, c)) == [a, b, c]
  {
    var p := Pack(a, b, c);
    assert p / 0x100 == a * 0x100 + b;
    assert p / 0x1_0000 == a;
  }

  lemma PackLowBits(data: seq<byte>)
    requires data != []
    ensures (Taken(data) <= 2 ==> PackFirst(data) % 64 == 0) && (Taken(data) == 1 ==> PackFirst(data) % 0x1000 == 0)
  {
  }

  lemma GroupShape(p: nat, n: nat)
    requires p < 0x100_0000 && 1 <= n <= 3
    ensures Padded(Group(p, n), 3 - n)
  {
  }

  lemma DecodeGroup(data: seq<byte>, rest: string)
    requires data != [] && (|data| < 3 ==> rest == "")
    ensures var n := Taken(data);
            Decode(Group(PackFirst(data), n) + rest) ==
            match Decode(rest) case None => None case Some(more) => Some(data[..n] + more)
  {
    var n, p := Taken(data), PackFirst(data);
    var t := Group(p, n) + rest;
    assert t[..4] == Group(p, n) && t[4..] == rest;
    PackLowBits(data);
    UnpackGroup(p, n);
    GroupShape(p, n);
    BytesOfPack(data[0], if |data| > 1 then data[1] else 0, if |data| > 2 then data[2] else 0);
    assert BytesOf(p)[..n] == data[..n];
    assert BytesOf(p)[..3] == BytesOf(p);
    assert data[..n] + [] == data[..n];
  }

  /** The alphabet of table 1, in its order. */
  lemma AlphabetIs()
    ensures seq(26, i requires 0 <= i < 26 => Digit(i)) == "ABCDEFGHIJKLMNOPQRSTUVWXYZ"
    ensures seq(26, i requires 0 <= i < 26 => Digit(26 + i)) == "abcdefghijklmnopqrstuvwxyz"
    ensures seq(12, i requires 0 <= i < 12 => Digit(52 + i)) == "0123456789+/"
  {
  }

  /** Some of the test vectors of section 10: "f", "fo", "foo" and "bar". */
  lemma TestVectors()
    ensures Encode([0x66]) == "Zg==" && Encode([0x66, 0x6f]) == "Zm8="
    ensures Encode([0x66, 0x6f, 0x6f]) == "Zm9v" && Encode([0x62, 0x61, 0x72]) == "YmFy"
  {
    LastGroup([0x66]);
    LastGroup([0x66, 0x6f]);
    LastGroup([0x66, 0x6f, 0x6f]);
    LastGroup([0x62, 0x61, 0x72]);
    GroupIs(0x66_0000, 1);
    GroupIs(0x66_6f00, 2);
    GroupIs(0x66_6f6f, 3);
    GroupIs(0x62_6172, 3);
  }

  lemma LastGroup(data: seq<byte>)
    requires 1 <= |data| <= 3
    ensures Encode(data) == Group(PackFirst(data), |data|)
  {
    assert data[|data|..] == [];
  }

  lemma GroupIs(p: nat, n: nat)
    requires p < 0x100_0000 && 1 <= n <= 3
    ensures var a, b, c, d := Digit(p / 0x4_0000), Digit(p / 0x1000 % 64), Digit(p / 64 % 64), Digit(p % 64);
            Group(p, n) == if n == 1 then [a, b, '=', '='] else if n == 2 then [a, b, c, '='] else [a, b, c, d]
  {
  }

  /** What is encoded decodes to itself, so different data have different encodings. */
  lemma {:induction false} RoundTrip(data: seq<byte>)
    ensures Decode(Encode(data)) == Some(data)
    decreases |data|
  {
    if data != [] {
      var n := Taken(data);
      RoundTrip(data[n..]);
      DecodeGroup(data, Encode(data[n..]));
      assert data[..n] + data[n..] == data;
    }
  }

  function Padding(n: nat): nat { (3 - n % 3) % 3 }

  /** The last `pad` characters are '=', and no others. */
  ghost predicate Padded(t: string, pad: nat) {
    forall i :: 0 <= i < |t| ==> (t[i] == '=' <==> i >= |t| - pad)
  }

  lemma PaddedConcat(x: string, y: string, pad: nat)
    requires Padded(x, 0) && Padded(y, pad) && pad <= |y|
    ensures Padded(x + y, pad)
  {
  }

  lemma CountStep(n: nat)
    ensures (n + 3 + 2) / 3 == (n + 2) / 3 + 1 && Padding(n + 3) == Padding(n) && (n > 0 ==> Padding(n) < (n + 2) / 3 * 4)
  {
  }

  lemma ShapeStep(group: string, rest: string, len: nat, n: nat)
    requires 0 < len && n == (if len < 3 then len else 3)
    requires |group| == 4 && Padded(group, 3 - n) && |rest| == 4 * ((len - n + 2) / 3) && Padded(rest, Padding(len - n))
    ensures |group + rest| == 4 * ((len + 2) / 3) && Padded(group + rest, Padding(len))
  {
    if len < 3 {
      assert rest == "" && group + rest == group && Padding(len) == 3 - len;
    } else {
      CountStep(len - 3);
      PaddedConcat(group, rest, Padding(len - 3));
    }
  }

  /** The length, and the padding: none, one or two '=' at the end, and none anywhere else. */
  lemma {:induction false} Shape(data: seq<byte>)
    ensures |Encode(data)| == 4 * ((|data| + 2) / 3) && Padded(Encode(data), Padding(|data|))
    decreases |data|
  {
    if data != [] {
      var n := Taken(data);
      GroupShape(PackFirst(data), n);
      Shape(data[n..]);
      ShapeStep(Group(PackFirst(data), n), Encode(data[n..]), |data|, n);
    }
  }

  // ---------------------------------------------------------------- the encoder

  method Base64Encode(data: seq<byte>) returns (ret: string)
    ensures ret == Encode(data)
  {
    ret := "";
    var ptr := 0;
    assert data[0..] == data;
    while ptr < |data|
      invariant 0 <= ptr <= |data|
      invariant ret + Encode(data[ptr..]) == Encode(data)
    {
      ghost var before, from := ret, ptr;
      var packed, i;
      packed, i, ptr := PackNext(data, ptr);
      var padding := if i == 2 then 1 else if i == 1 then 2 else 0;
      var group := [Digit(packed / 0x4_0000), Digit(packed / 0x1000 % 64)];
      if padding != 2 {
        group := group + [Digit(packed / 64 % 64)];
      }
      if padding == 0 {
        group := group + [Digit(packed % 64)];
      }
      group := group + seq(padding, _ => '=');
      ret := ret + group;
      NextGroup(before, group, data, from);
    }
    assert data[ptr..] == [];
  }

  lemma NextGroup(ret: string, group: string, data: seq<byte>, from: nat)
    requires from < |data| && group == Group(PackFirst(data[from..]), Taken(data[from..]))
    ensures (ret + group) + Encode(data[from + Taken(data[from..])..]) == ret + Encode(data[from..])
  {
    var n := Taken(data[from..]);
    assert data[from..][n..] == data[from + n..];
    assert (ret + group) + Encode(data[from + n..]) == ret + (group + Encode(data[from + n..]));
  }

  /** Packs the next bytes, three at most, and fills up with zero bits. */
  method PackNext(data: seq<byte>, from: nat) returns (packed: nat, n: nat, ptr: nat)
    requires from < |data|
    ensures n == Taken(data[from..]) && ptr == from + n && packed == PackFirst(data[from..])
  {
    packed := 0;
    var i := 0;
    ptr := from;
    while i < 3 && ptr < |data|
      invariant 0 <= i <= 3 && ptr == from + i <= |data|
      invariant packed == Joined(data[from..][..i])
    {
      assert data[from..][..i + 1][..i] == data[from..][..i] && data[from..][i] == data[ptr];
      packed := packed * 256 + data[ptr];
      i := i + 1;
      ptr := ptr + 1;
    }
    n := i;
    ghost var v := packed;
    while i < 3
      invariant n <= i <= 3 && packed == Shifted(v, i - n)
    {
      packed := packed * 256;
      i := i + 1;
    }
    PackedIs(data[from..], n, v);
  }

  /** v << 8k. */
  function Shifted(v: nat, k: nat): nat {
    if k == 0 then v else Shifted(v, k - 1) * 256
  }

  /** Bytes as one number, the first one highest. */
  function Joined(x: seq<byte>): nat {
    if x == [] then 0 else Joined(x[..|x| - 1]) * 256 + x[|x| - 1]
  }

  lemma PackedIs(x: seq<byte>, n: nat, v: nat)
    requires x != [] && n == Taken(x) && v == Joined(x[..n])
    ensures Shifted(v, 3 - n) == PackFirst(x)
  {
    assert Shifted(v, 1) == v * 256 && Shifted(v, 2) == v * 65536;
    assert x[..1][..0] == [] && Joined(x[..1]) == x[0];
    if n >= 2 { assert x[..2][..1] == x[..1] && Joined(x[..2]) == x[0] as int * 256 + x[1]; }
    if n == 3 { assert x[..3][..2] == x[..2] && Joined(x[..3]) == (x[0] as int * 256 + x[1]) * 256 + x[2]; }
  }
}
