/**
  Rock messages: their bodies (yk/protocol.cc, rock/rock_protocol.cc), their framing
  (RockMessageDecoder), and both run over a byte array and a stream.
 */
module Rock {
  import opened Common
  import opened Blocks
  import opened Codec
  import opened BufferCodec
  import opened Streams

  const BLOCK: nat := 4096                       // default block size of a ByteArray
  const MAX_LENGTH: nat := 0x400_0000            // rock.protocol.max_length, 64 MB

  datatype Message =
    | Request(sn: nat, cmd: nat, body: seq<byte>)
    | Response(sn: nat, cmd: nat, result: nat, resultStr: seq<byte>, body: seq<byte>)
    | Notify(notify: nat, body: seq<byte>)

  /** The message's fields fit their C++ types. */
  predicate Typed(m: Message) {
    && |m.body| < TWO_64
    && match m
       case Request(sn, cmd, _) => sn < TWO_32 && cmd < TWO_32
       case Response(sn, cmd, result, str, _) => sn < TWO_32 && cmd < TWO_32 && result < TWO_32 && |str| < TWO_64
       case Notify(notify, _) => notify < TWO_32
  }

  function Vint(s: seq<byte>): seq<byte> { Varint(|s|) + s }

  /** What a message writes into its byte array. */
  function Body(m: Message): (r: seq<byte>)
    ensures |r| > 0
  {
    match m
    case Request(sn, cmd, body) => [1] + (Varint(sn) + (Varint(cmd) + Vint(body)))
    case Response(sn, cmd, result, str, body) => [2] + (Varint(sn) + (Varint(cmd) + (Varint(result) + (Vint(str) + Vint(body)))))
    case Notify(notify, body) => [3] + (Varint(notify) + Vint(body))
  }

  /** Header (magic, version, flag, big-endian length as a 32-bit integer) and body. */
  function Frame(m: Message): (r: seq<byte>) {
    [0xab, 0xcd, 1, 0] + Big(|Body(m)| % TWO_32, 4) + Body(m)
  }

  // ---------------------------------------------------------------- parsing, on flat bytes

  /** A value taken off the front of some bytes, a failure, or a dereference of the null cursor. */
  datatype Take<+T> = Took(value: T, rest: seq<byte>) | Bad | Null {
    predicate IsFailure() { !Took? }
    function PropagateFailure<U>(): Take<U>
      requires IsFailure()
    {
      if Bad? then Bad else Null
    }
    function Extract(): (T, seq<byte>)
      requires !IsFailure()
    {
      (value, rest)
    }
  }

  function TakeUint(s: seq<byte>): Take<nat> {
    match Groups(s, 5)
    case None => Bad
    case Some((v, n)) => Took(v % TWO_32, s[n..])
  }

  /** `full`: the data end exactly at the end of the last block. */
  function TakeString(s: seq<byte>, full: bool): Take<seq<byte>> {
    match Groups(s, 10)
    case None => Bad
    case Some((v, n)) =>
      var len, rest := v % TWO_64, s[n..];
      if len == 0 && rest == [] && full then Null
      else if len > |rest| then Bad
      else Took(rest[..len], rest[len..])
  }

  /** The part of a response behind its number and command. */
  function TakeResult(s: seq<byte>, full: bool, sn: nat, cmd: nat): Take<Message> {
    var (result, s1) :- TakeUint(s);
    var (str, s2) :- TakeString(s1, full);
    var (body, s3) :- TakeString(s2, full);
    Took(Response(sn, cmd, result, str, body), s3)
  }

  /** The type byte and the fields it announces; bytes behind them are ignored by the caller. */
  function TakeMessage(s: seq<byte>, full: bool): Take<Message> {
    if s == [] then Bad
    else if s[0] == 1 then
      var (sn, s1) :- TakeUint(s[1..]);
      var (cmd, s2) :- TakeUint(s1);
      var (body, s3) :- TakeString(s2, full);
      Took(Request(sn, cmd, body), s3)
    else if s[0] == 2 then
      var (sn, s1) :- TakeUint(s[1..]);
      var (cmd, s2) :- TakeUint(s1);
      TakeResult(s2, full, sn, cmd)
    else if s[0] == 3 then
      var (notify, s1) :- TakeUint(s[1..]);
      var (body, s2) :- TakeString(s1, full);
      Took(Notify(notify, body), s2)
    else Bad
  }

  /** RockMessageDecoder::parseFrom on the bytes that have arrived. */
  function ParseFrame(s: seq<byte>): Take<Message> {
    if |s| < 8 then Bad else ParseRest(s[..8], s[8..])
  }

  /** The length a header announces; None when it is not the header of a frame. */
  function HeaderLength(header: seq<byte>): (r: Option<nat>)
    requires |header| == 8
  {
    if header[0] != 0xab || header[1] != 0xcd || header[2] != 1 then None
    else
      var length := FromFixed(header[4..8], false);
      if length >= MAX_LENGTH then None else Some(length)
  }

  function ParseRest(header: seq<byte>, s: seq<byte>): Take<Message>
    requires |header| == 8
  {
    match HeaderLength(header)
    case None => Bad
    case Some(length) =>
      if length == 0 || length > |s| then Bad
      else WithRest(TakeMessage(s[..length], length % BLOCK == 0), s[length..])
  }

  /** The message of t; whatever the body holds behind it is dropped. */
  function WithRest(t: Take<Message>, rest: seq<byte>): Take<Message> {
    match t
    case Took(m, _) => Took(m, rest)
    case Bad => Bad
    case Null => Null
  }

  // ---------------------------------------------------------------- what is accepted, for all bytes

  /** The header of an acceptable frame: magic, version, and a length above zero and below the limit. */
  predicate GoodHeader(s: seq<byte>) {
    |s| >= 8 && s[0] == 0xab && s[1] == 0xcd && s[2] == 1 && 0 < FromFixed(s[4..8], false) < MAX_LENGTH
  }

  /** The message m was taken off the front of s, and `left` is left. */
  ghost predicate Consumed(s: seq<byte>, m: Message, left: seq<byte>) {
    && GoodHeader(s) && 8 + FromFixed(s[4..8], false) <= |s|
    && left == s[8 + FromFixed(s[4..8], false)..] && BodyOf(s[8..8 + FromFixed(s[4..8], false)], m)
  }

  /** Everything else is refused; and of a message that is accepted exactly the announced bytes are consumed. */
  lemma ParseMeans(s: seq<byte>)
    ensures ParseFrame(s) != Bad ==> GoodHeader(s) && 8 + FromFixed(s[4..8], false) <= |s|
    ensures ParseFrame(s).Took? ==> Consumed(s, ParseFrame(s).value, ParseFrame(s).rest)
  {
    if |s| >= 8 {
      var header, tail := s[..8], s[8..];
      assert header[4..8] == s[4..8];
      var n := FromFixed(s[4..8], false);
      if 0 < n <= |tail| {
        assert tail[..n] == s[8..8 + n] && tail[n..] == s[8 + n..];
        if TakeMessage(tail[..n], n % BLOCK == 0).Took? { BodyMeans(tail[..n], n % BLOCK == 0); }
      }
    }
  }

  /** The bytes x are groups, all of them used, that read as v in a word. */
  predicate ReadsAs(x: seq<byte>, v: nat, k: nat, m: nat)
    requires m > 0
  {
    var g := Groups(x, k);
    g.Some? && g.value.1 == |x| && g.value.0 % m == v
  }

  ghost predicate UintText(x: seq<byte>, v: nat) { ReadsAs(x, v, 5, TWO_32) }

  /** A length and as many bytes. */
  ghost predicate StringText(x: seq<byte>, t: seq<byte>) {
    |t| <= |x| && x[|x| - |t|..] == t && ReadsAs(x[..|x| - |t|], |t|, 10, TWO_64)
  }

  /** The type byte and the fields of m in order, however they are written, and bytes that are ignored. */
  ghost predicate BodyOf(s: seq<byte>, m: Message) {
    match m
    case Request(sn, cmd, body) =>
      exists a, b, c, rest :: s == [1] + a + b + c + rest && UintText(a, sn) && UintText(b, cmd) && StringText(c, body)
    case Response(sn, cmd, result, str, body) =>
      exists a, b, c, d, e, rest ::
        && s == [2] + a + b + c + d + e + rest
        && UintText(a, sn) && UintText(b, cmd) && UintText(c, result) && StringText(d, str) && StringText(e, body)
    case Notify(notify, body) =>
      exists a, b, rest :: s == [3] + a + b + rest && UintText(a, notify) && StringText(b, body)
  }

  lemma UintMeans(s: seq<byte>) returns (x: seq<byte>)
    requires TakeUint(s).Took?
    ensures s == x + TakeUint(s).rest && UintText(x, TakeUint(s).value)
  {
    var n := Groups(s, 5).value.1;
    x := s[..n];
    GroupsUse(s, 5);
  }

  lemma StringMeans(s: seq<byte>, full: bool) returns (x: seq<byte>)
    requires TakeString(s, full).Took?
    ensures s == x + TakeString(s, full).rest && StringText(x, TakeString(s, full).value)
  {
    var (v, n) := Groups(s, 10).value;
    var len := v % TWO_64;
    x := s[..n + len];
    GroupsUse(s, 10);
    TakeTwice(s, n, len);
  }

  lemma TakeTwice(s: seq<byte>, n: nat, len: nat)
    requires n + len <= |s|
    ensures var x := s[..n + len]; x[..n] == s[..n] && x[n..] == s[n..][..len] && s == x + s[n..][len..]
  {
  }

  lemma BodyMeans(s: seq<byte>, full: bool)
    requires TakeMessage(s, full).Took?
    ensures BodyOf(s, TakeMessage(s, full).value)
  {
    if s[0] == 1 { RequestMeans(s, full); } else if s[0] == 2 { ResponseMeans(s, full); } else { NotifyMeans(s, full); }
  }

  lemma RequestMeans(s: seq<byte>, full: bool)
    requires TakeMessage(s, full).Took? && s[0] == 1
    ensures TakeMessage(s, full).value.Request? && BodyOf(s, TakeMessage(s, full).value)
  {
    var u := TakeUint(s[1..]);
    var v := TakeUint(u.rest);
    var w := TakeString(v.rest, full);
    var a := UintMeans(s[1..]);
    var b := UintMeans(u.rest);
    var c := StringMeans(v.rest, full);
    TailOf(s, 1);
    RequestBody(s, u.value, v.value, w.value, a, b, c, w.rest);
  }

  lemma TailOf(s: seq<byte>, k: byte)
    requires s != [] && s[0] == k
    ensures s == [k] + s[1..]
  {
  }

  lemma RequestBody(s: seq<byte>, sn: nat, cmd: nat, body: seq<byte>, a: seq<byte>, b: seq<byte>, c: seq<byte>, rest: seq<byte>)
    requires s == [1] + (a + (b + (c + rest))) && UintText(a, sn) && UintText(b, cmd) && StringText(c, body)
    ensures BodyOf(s, Request(sn, cmd, body))
  {
    assert s == [1] + a + b + c + rest;
  }

  lemma NotifyMeans(s: seq<byte>, full: bool)
    requires TakeMessage(s, full).Took? && s[0] != 1 && s[0] != 2
    ensures TakeMessage(s, full).value.Notify? && BodyOf(s, TakeMessage(s, full).value)
  {
    var u := TakeUint(s[1..]);
    var v := TakeString(u.rest, full);
    var a := UintMeans(s[1..]);
    var b := StringMeans(u.rest, full);
    TailOf(s, 3);
    NotifyBody(s, u.value, v.value, a, b, v.rest);
  }

  lemma NotifyBody(s: seq<byte>, notify: nat, body: seq<byte>, a: seq<byte>, b: seq<byte>, rest: seq<byte>)
    requires s == [3] + (a + (b + rest)) && UintText(a, notify) && StringText(b, body)
    ensures BodyOf(s, Notify(notify, body))
  {
    assert s == [3] + a + b + rest;
  }

  lemma ResultMeans(s: seq<byte>, full: bool, sn: nat, cmd: nat) returns (c: seq<byte>, d: seq<byte>, e: seq<byte>, rest: seq<byte>)
    requires TakeResult(s, full, sn, cmd).Took?
    ensures var m := TakeResult(s, full, sn, cmd).value;
            && m.Response? && m.sn == sn && m.cmd == cmd && s == c + (d + (e + rest))
            && UintText(c, m.result) && StringText(d, m.resultStr) && StringText(e, m.body)
  {
    c := UintMeans(s);
    var s1 := TakeUint(s).rest;
    d := StringMeans(s1, full);
    var s2 := TakeString(s1, full).rest;
    e := StringMeans(s2, full);
    rest := TakeString(s2, full).rest;
  }

  lemma ResponseMeans(s: seq<byte>, full: bool)
    requires TakeMessage(s, full).Took? && s[0] == 2
    ensures TakeMessage(s, full).value.Response? && BodyOf(s, TakeMessage(s, full).value)
  {
    var u := TakeUint(s[1..]);
    var v := TakeUint(u.rest);
    var a := UintMeans(s[1..]);
    var b := UintMeans(u.rest);
    var c, d, e, rest := ResultMeans(v.rest, full, u.value, v.value);
    TailOf(s, 2);
    ResponseBody(s, TakeResult(v.rest, full, u.value, v.value).value, a, b, c, d, e, rest);
  }

  lemma ResponseBody(s: seq<byte>, m: Message, a: seq<byte>, b: seq<byte>, c: seq<byte>, d: seq<byte>, e: seq<byte>, rest: seq<byte>)
    requires s == [2] + (a + (b + (c + (d + (e + rest))))) && m.Response?
    requires UintText(a, m.sn) && UintText(b, m.cmd) && UintText(c, m.result) && StringText(d, m.resultStr) && StringText(e, m.body)
    ensures BodyOf(s, m)
  {
    assert s == [2] + a + b + c + d + e + rest;
  }

  // ---------------------------------------------------------------- round trip, on flat bytes

  lemma Drop(x: seq<byte>, y: seq<byte>)
    ensures (x + y)[..|x|] == x && (x + y)[|x|..] == y
  {
  }

  lemma TakeUintRoundTrip(v: nat, rest: seq<byte>)
    requires v < TWO_32
    ensures TakeUint(Varint(v) + rest) == Took(v, rest)
  {
    VarintLengths(v);
    ModSmall(v, TWO_32);
    VarintRoundTrip(v, rest, 5);
    Drop(Varint(v), rest);
  }

  lemma TakeStringRoundTrip(t: seq<byte>, rest: seq<byte>, full: bool)
    requires |t| < TWO_64
    ensures TakeString(Vint(t) + rest, full) == if t == [] && rest == [] && full then Null else Took(t, rest)
  {
    VarintLengths(|t|);
    ModSmall(|t|, TWO_64);
    Regroup(Varint(|t|), t, rest);
    VarintRoundTrip(|t|, t + rest, 10);
    Drop(Varint(|t|), t + rest);
    Drop(t, rest);
  }

  lemma RequestRoundTrip(m: Message, full: bool)
    requires Typed(m) && m.Request?
    ensures TakeMessage(Body(m), full) == if m.body == [] && full then Null else Took(m, [])
  {
    var t2 := Vint(m.body);
    var t1 := Varint(m.cmd) + t2;
    assert Body(m)[1..] == Varint(m.sn) + t1;
    TakeUintRoundTrip(m.sn, t1);
    TakeUintRoundTrip(m.cmd, t2);
    TakeStringRoundTrip(m.body, [], full);
    assert t2 + [] == t2;
  }

  lemma ResponseRoundTrip(m: Message, full: bool)
    requires Typed(m) && m.Response?
    ensures TakeMessage(Body(m), full) == if m.body == [] && full then Null else Took(m, [])
  {
    var t4 := Vint(m.body);
    var t3 := Vint(m.resultStr) + t4;
    var t2 := Varint(m.result) + t3;
    var t1 := Varint(m.cmd) + t2;
    assert Body(m)[1..] == Varint(m.sn) + t1;
    TakeUintRoundTrip(m.sn, t1);
    TakeUintRoundTrip(m.cmd, t2);
    TakeUintRoundTrip(m.result, t3);
    TakeStringRoundTrip(m.resultStr, t4, full);
    TakeStringRoundTrip(m.body, [], full);
    assert t4 + [] == t4;
  }

  lemma NotifyRoundTrip(m: Message, full: bool)
    requires Typed(m) && m.Notify?
    ensures TakeMessage(Body(m), full) == if m.body == [] && full then Null else Took(m, [])
  {
    var t1 := Vint(m.body);
    assert Body(m)[1..] == Varint(m.notify) + t1;
    TakeUintRoundTrip(m.notify, t1);
    TakeStringRoundTrip(m.body, [], full);
    assert t1 + [] == t1;
  }

  /** A body parses back to its message, unless its last string is empty and ends at the end of the last block. */
  lemma BodyRoundTrip(m: Message, full: bool)
    requires Typed(m)
    ensures TakeMessage(Body(m), full) == if m.body == [] && full then Null else Took(m, [])
  {
    match m
    case Request(_, _, _) => RequestRoundTrip(m, full);
    case Response(_, _, _, _, _) => ResponseRoundTrip(m, full);
    case Notify(_, _) => NotifyRoundTrip(m, full);
  }

  /** The one family of messages that does not survive: an empty body that ends exactly at a block boundary. */
  predicate HitsNullCursor(m: Message) {
    m.body == [] && |Body(m)| % BLOCK == 0
  }

  /** Such messages exist, and only responses can be in that family. */
  lemma NullCursorFamily()
    ensures var m := Response(0, 0, 0, seq(4089, _ => 0), []); Typed(m) && HitsNullCursor(m)
    ensures forall m: Message :: Typed(m) && HitsNullCursor(m) ==> m.Response?
  {
    var m := Response(0, 0, 0, seq(4089, _ => 0), []);
    assert Varint(4089) == [4089 % 128 + 128] + Varint(31);
    assert |Varint(0)| == 1 && |Body(m)| == 4096;
    forall m: Message | Typed(m) && HitsNullCursor(m) ensures m.Response? {
      match m
      case Request(sn, cmd, _) => VarintLengths(sn); VarintLengths(cmd);
      case Notify(notify, _) => VarintLengths(notify);
      case Response(_, _, _, _, _) =>
    }
  }

  predicate NoneHits(ms: seq<Message>) {
    forall i :: 0 <= i < |ms| ==> !HitsNullCursor(ms[i])
  }

  lemma NoneHitsStep(ms: seq<Message>)
    requires ms != []
    ensures NoneHits(ms) <==> !HitsNullCursor(ms[0]) && NoneHits(ms[1..])
  {
    assert forall i :: 1 <= i < |ms| ==> ms[i] == ms[1..][i - 1];
  }

  /** A frame byte by byte: magic, version, flag, the length with its highest byte first, and the body. */
  lemma FrameLayout(m: Message)
    ensures var f, n := Frame(m), |Body(m)| % TWO_32;
            && |f| == 8 + |Body(m)| && f[..4] == [0xab, 0xcd, 1, 0] && f[8..] == Body(m)
            && f[4] == n / 0x100_0000 % 256 && f[5] == n / 0x1_0000 % 256 && f[6] == n / 0x100 % 256 && f[7] == n % 256
  {
    LengthLayout(|Body(m)| % TWO_32);
    LayoutOf(Big(|Body(m)| % TWO_32, 4), Body(m));
  }

  lemma LengthLayout(n: nat)
    ensures var x := Big(n, 4); x[0] == n / 0x100_0000 % 256 && x[1] == n / 0x1_0000 % 256 && x[2] == n / 0x100 % 256 && x[3] == n % 256
  {
    assert Pow256(1) == 256 && Pow256(2) == 0x1_0000 && Pow256(3) == 0x100_0000;
    forall i | 0 <= i < 4 ensures Big(n, 4)[i] == ByteAt(n, 3 - i) { BigAt(n, 4, i); }
  }

  lemma LayoutOf(length: seq<byte>, body: seq<byte>)
    requires |length| == 4
    ensures var f := [0xab, 0xcd, 1, 0] + length + body;
            f[..4] == [0xab, 0xcd, 1, 0] && f[8..] == body && f[4..8] == length
  {
  }

  lemma FrameRoundTrip(m: Message, rest: seq<byte>)
    requires Typed(m) && |Body(m)| < MAX_LENGTH
    ensures ParseFrame(Frame(m) + rest) == if HitsNullCursor(m) then Null else Took(m, rest)
  {
    var n := |Body(m)|;
    ModSmall(n, TWO_32);
    LengthRoundTrip(n);
    ParseParts(Big(n, 4), Body(m), rest);
    BodyRoundTrip(m, n % BLOCK == 0);
  }

  /**
    A message at or above the length limit can be sent, but no peer accepts it, whatever follows: not even
    one of 2^32 bytes or more, whose length wraps around to that of a part of it.
   */
  lemma OversizeRefused(m: Message, rest: seq<byte>)
    requires Typed(m) && MAX_LENGTH <= |Body(m)|
    ensures ParseFrame(Frame(m) + rest) == Bad
  {
    var n, body := |Body(m)| % TWO_32, Body(m);
    if n == 0 || n >= MAX_LENGTH {
      HeaderRefused(n, body, rest);
    } else {
      WrapsToPart(|body|, n);
      CutRefused(m, n, n % BLOCK == 0);
      SplitBody([0xab, 0xcd, 1, 0] + Big(n, 4), body, rest, n);
      LengthRoundTrip(n);
      ParseParts(Big(n, 4), body[..n], body[n..] + rest);
    }
  }

  lemma WrapsToPart(size: nat, n: nat)
    requires size >= MAX_LENGTH && n == size % TWO_32 && 0 < n < MAX_LENGTH
    ensures n < size && (n % BLOCK == 0 ==> n >= BLOCK)
  {
    if n % BLOCK == 0 && n < BLOCK { ModSmall(n, BLOCK); }
  }

  lemma SplitBody(header: seq<byte>, body: seq<byte>, rest: seq<byte>, n: nat)
    requires n <= |body|
    ensures header + body + rest == header + body[..n] + (body[n..] + rest)
  {
  }

  lemma HeaderRefused(n: nat, body: seq<byte>, rest: seq<byte>)
    requires n < TWO_32 && (n == 0 || n >= MAX_LENGTH)
    ensures ParseFrame([0xab, 0xcd, 1, 0] + Big(n, 4) + body + rest) == Bad
  {
    var header := [0xab, 0xcd, 1, 0] + Big(n, 4);
    LengthRoundTrip(n);
    assert header[4..8] == Big(n, 4);
    Regroup(header, body, rest);
    Drop(header, body + rest);
  }

  /** What is left of x + y when it breaks off. */
  lemma CutConcat(x: seq<byte>, y: seq<byte>, n: nat)
    requires n <= |x + y|
    ensures (x + y)[..n] == if n < |x| then x[..n] else x + y[..n - |x|]
  {
  }

  lemma TakeUintCut(v: nat, rest: seq<byte>, n: nat)
    requires v < TWO_32 && n <= |Varint(v) + rest|
    ensures TakeUint((Varint(v) + rest)[..n]) == if n < |Varint(v)| then Bad else Took(v, rest[..n - |Varint(v)|])
  {
    CutConcat(Varint(v), rest, n);
    VarintLengths(v);
    if n < |Varint(v)| { VarintCut(v, n, 5); } else { TakeUintRoundTrip(v, rest[..n - |Varint(v)|]); }
  }

  lemma TakeStringCut(t: seq<byte>, rest: seq<byte>, n: nat, full: bool)
    requires |t| < TWO_64 && n <= |Vint(t) + rest|
    ensures TakeString((Vint(t) + rest)[..n], full) ==
            if n < |Vint(t)| then Bad
            else if t == [] && n == |Vint(t)| && full then Null
            else Took(t, rest[..n - |Vint(t)|])
  {
    CutConcat(Vint(t), rest, n);
    if n < |Vint(t)| { StringBreaksOff(t, n, full); } else { TakeStringRoundTrip(t, rest[..n - |Vint(t)|], full); }
  }

  lemma StringBreaksOff(t: seq<byte>, n: nat, full: bool)
    requires |t| < TWO_64 && n < |Vint(t)|
    ensures TakeString(Vint(t)[..n], full) == Bad
  {
    var x := Varint(|t|);
    CutConcat(x, t, n);
    VarintLengths(|t|);
    if n < |x| {
      VarintCut(|t|, n, 10);
    } else {
      var part := t[..n - |x|];
      VarintRoundTrip(|t|, part, 10);
      ModSmall(|t|, TWO_64);
      Drop(x, part);
    }
  }

  /** A part of a body is refused: it ends inside one of the fields. */
  lemma CutRefused(m: Message, n: nat, full: bool)
    requires Typed(m) && 0 < n < |Body(m)| && (full ==> n >= BLOCK)
    ensures TakeMessage(Body(m)[..n], full) == Bad
  {
    VintPartsBad(m.body, full);
    match m
    case Request(sn, cmd, body) => RequestCut(sn, cmd, Vint(body), n, full);
    case Response(sn, cmd, result, str, body) =>
      VintPairsBad(str, body, full);
      ResultCut(result, Vint(str) + Vint(body), full, sn, cmd);
      ResponseCut(sn, cmd, Varint(result) + (Vint(str) + Vint(body)), n, full);
    case Notify(notify, body) => NotifyCut(notify, Vint(body), n, full);
  }

  lemma TypeByteCut(k: byte, tail: seq<byte>, n: nat)
    requires 0 < n <= |tail| + 1
    ensures var s := ([k] + tail)[..n]; |s| == n && s[0] == k && s[1..] == tail[..n - 1]
  {
  }

  /** Two numbers, and what is left of the bytes behind them. */
  lemma TwoUintsCut(v: nat, w: nat, rest: seq<byte>, n: nat) returns (left: nat)
    requires v < TWO_32 && w < TWO_32 && n < |Varint(v) + (Varint(w) + rest)|
    ensures var t := TakeUint((Varint(v) + (Varint(w) + rest))[..n]);
            || t == Bad
            || (t.Took? && t.value == v && TakeUint(t.rest) == Bad)
            || (t.Took? && t.value == v && left < |rest| && n <= left + 10 && TakeUint(t.rest) == Took(w, rest[..left]))
  {
    var t1 := Varint(w) + rest;
    left := 0;
    TakeUintCut(v, t1, n);
    VarintLengths(v);
    VarintLengths(w);
    if n >= |Varint(v)| {
      var n1 := n - |Varint(v)|;
      TakeUintCut(w, rest, n1);
      if n1 >= |Varint(w)| { left := n1 - |Varint(w)|; }
    }
  }

  /** A part of t cannot be read as a string. */
  ghost predicate PartsBad(t: seq<byte>, full: bool) {
    forall left: nat :: left < |t| ==> TakeString(t[..left], full) == Bad
  }

  lemma VintPartsBad(body: seq<byte>, full: bool)
    requires |body| < TWO_64
    ensures PartsBad(Vint(body), full)
  {
    forall left: nat | left < |Vint(body)| ensures TakeString(Vint(body)[..left], full) == Bad { StringBreaksOff(body, left, full); }
  }

  lemma RequestCut(sn: nat, cmd: nat, t: seq<byte>, n: nat, full: bool)
    requires sn < TWO_32 && cmd < TWO_32 && PartsBad(t, full) && 0 < n < |[1] + (Varint(sn) + (Varint(cmd) + t))|
    ensures TakeMessage(([1] + (Varint(sn) + (Varint(cmd) + t)))[..n], full) == Bad
  {
    TypeByteCut(1, Varint(sn) + (Varint(cmd) + t), n);
    var left := TwoUintsCut(sn, cmd, t, n - 1);
  }

  lemma NotifyCut(notify: nat, t: seq<byte>, n: nat, full: bool)
    requires notify < TWO_32 && PartsBad(t, full) && 0 < n < |[3] + (Varint(notify) + t)|
    ensures TakeMessage(([3] + (Varint(notify) + t))[..n], full) == Bad
  {
    TypeByteCut(3, Varint(notify) + t, n);
    TakeUintCut(notify, t, n - 1);
  }

  /** A part of t, long enough when it ends with a block, cannot be read as two strings. */
  ghost predicate PairsBad(t: seq<byte>, full: bool) {
    forall left: nat :: left < |t| && (full ==> left > 1) ==>
      var r := TakeString(t[..left], full); r == Bad || (r.Took? && TakeString(r.rest, full) == Bad)
  }

  /** The null cursor would need an empty result string at the end of a block, which is too far away. */
  lemma VintPairsBad(str: seq<byte>, body: seq<byte>, full: bool)
    requires |str| < TWO_64 && |body| < TWO_64
    ensures PairsBad(Vint(str) + Vint(body), full)
  {
    forall left: nat | left < |Vint(str) + Vint(body)| && (full ==> left > 1)
      ensures var r := TakeString((Vint(str) + Vint(body))[..left], full); r == Bad || (r.Took? && TakeString(r.rest, full) == Bad)
    {
      TakeStringCut(str, Vint(body), left, full);
      assert |Varint(0)| == 1;
      if left >= |Vint(str)| { StringBreaksOff(body, left - |Vint(str)|, full); }
    }
  }

  /** Nor as the part of a response behind its command. */
  ghost predicate ResultsBad(t: seq<byte>, full: bool, sn: nat, cmd: nat) {
    forall left: nat :: left < |t| && (full ==> left > 6) ==> TakeResult(t[..left], full, sn, cmd) == Bad
  }

  lemma ResultCut(result: nat, t: seq<byte>, full: bool, sn: nat, cmd: nat)
    requires result < TWO_32 && PairsBad(t, full)
    ensures ResultsBad(Varint(result) + t, full, sn, cmd)
  {
    VarintLengths(result);
    forall n: nat | n < |Varint(result) + t| && (full ==> n > 6) ensures TakeResult((Varint(result) + t)[..n], full, sn, cmd) == Bad {
      TakeUintCut(result, t, n);
    }
  }

  lemma ResponseCut(sn: nat, cmd: nat, t: seq<byte>, n: nat, full: bool)
    requires sn < TWO_32 && cmd < TWO_32 && ResultsBad(t, full, sn, cmd)
    requires 0 < n < |[2] + (Varint(sn) + (Varint(cmd) + t))| && (full ==> n >= BLOCK)
    ensures TakeMessage(([2] + (Varint(sn) + (Varint(cmd) + t)))[..n], full) == Bad
  {
    TypeByteCut(2, Varint(sn) + (Varint(cmd) + t), n);
    var left := TwoUintsCut(sn, cmd, t, n - 1);
  }

  lemma LengthRoundTrip(n: nat)
    requires n < TWO_32
    ensures FromFixed(Big(n, 4), false) == n
  {
    assert Pow256(4) == TWO_32;
    FixedRoundTrip(n, 4, false);
  }

  lemma LengthSwap(n: nat)
    requires n < TWO_32
    ensures Little(ByteSwap(n, 4), 4) == Big(n, 4)
  {
    assert Pow256(4) == TWO_32;
    ByteSwapLaws(n, 4);
  }

  lemma ParseParts(length: seq<byte>, body: seq<byte>, rest: seq<byte>)
    requires |length| == 4 && FromFixed(length, false) == |body| && 0 < |body| < MAX_LENGTH
    ensures var s := [0xab, 0xcd, 1, 0] + length + body + rest;
            ParseFrame(s) == WithRest(TakeMessage(body, |body| % BLOCK == 0), rest)
  {
    var header := [0xab, 0xcd, 1, 0] + length;
    assert header[4..8] == length;
    assert HeaderLength(header) == Some(|body|);
    Regroup(header, body, rest);
    Drop(header, body + rest);
    Drop(body, rest);
  }

  function Frames(ms: seq<Message>): seq<byte> {
    if ms == [] then [] else Frame(ms[0]) + Frames(ms[1..])
  }

  /** n messages, one after the other. */
  function Many(parse: seq<byte> -> Take<Message>, s: seq<byte>, n: nat): Take<seq<Message>>
    decreases n
  {
    if n == 0 then Took([], s)
    else
      match parse(s)
      case Took(m, rest) => Before(m, Many(parse, rest, n - 1))
      case Bad => Bad
      case Null => Null
  }

  function Before(m: Message, t: Take<seq<Message>>): Take<seq<Message>> {
    match t
    case Took(ms, rest) => Took([m] + ms, rest)
    case Bad => Bad
    case Null => Null
  }

  predicate Sendable(m: Message) {
    Typed(m) && |Body(m)| < MAX_LENGTH
  }

  /** What a parser makes of one frame. */
  ghost predicate ParsesFrames(parse: seq<byte> -> Take<Message>) {
    forall m: Message, rest :: Sendable(m) ==> parse(Frame(m) + rest) == if HitsNullCursor(m) then Null else Took(m, rest)
  }

  predicate AllSendable(ms: seq<Message>) {
    forall i :: 0 <= i < |ms| ==> Sendable(ms[i])
  }

  lemma SendableStep(ms: seq<Message>)
    requires AllSendable(ms) && ms != []
    ensures Sendable(ms[0]) && AllSendable(ms[1..])
  {
    assert forall i :: 0 <= i < |ms[1..]| ==> ms[1..][i] == ms[i + 1];
  }

  lemma {:induction false} ManyRoundTrip(parse: seq<byte> -> Take<Message>, ms: seq<Message>, rest: seq<byte>)
    requires ParsesFrames(parse) && AllSendable(ms)
    ensures Many(parse, Frames(ms) + rest, |ms|) == if NoneHits(ms) then Took(ms, rest) else Null
    decreases |ms|
  {
    if ms == [] {
      assert Frames(ms) + rest == rest;
    } else {
      SendableStep(ms);
      ManyRoundTrip(parse, ms[1..], rest);
      NoneHitsStep(ms);
      FirstFrame(parse, ms[0], Frames(ms[1..]), rest);
      ManyCons(parse, Frame(ms[0]), Frames(ms[1..]), rest, ms, HitsNullCursor(ms[0]), NoneHits(ms[1..]));
    }
  }

  lemma FirstFrame(parse: seq<byte> -> Take<Message>, m: Message, frames: seq<byte>, rest: seq<byte>)
    requires ParsesFrames(parse) && Sendable(m)
    ensures parse(Frame(m) + (frames + rest)) == if HitsNullCursor(m) then Null else Took(m, frames + rest)
  {
  }

  /** The first frame, and then the others; `hits`: the first one crashes, `none`: none of the others does. */
  lemma ManyCons(parse: seq<byte> -> Take<Message>, frame: seq<byte>, frames: seq<byte>, rest: seq<byte>, ms: seq<Message>, hits: bool, none: bool)
    requires ms != [] && parse(frame + (frames + rest)) == if hits then Null else Took(ms[0], frames + rest)
    requires Many(parse, frames + rest, |ms| - 1) == if none then Took(ms[1..], rest) else Null
    ensures Many(parse, frame + frames + rest, |ms|) == if !hits && none then Took(ms, rest) else Null
  {
    Regroup(frame, frames, rest);
    assert [ms[0]] + ms[1..] == ms;
  }

  /**
    Messages serialized back to back decode to the same messages and leave exactly the bytes behind
    them, if and only if none of them is in the family that hits the null cursor.
   */
  lemma FramesRoundTrip(ms: seq<Message>, rest: seq<byte>)
    requires forall i :: 0 <= i < |ms| ==> Sendable(ms[i])
    ensures Many(ParseFrame, Frames(ms) + rest, |ms|) == if NoneHits(ms) then Took(ms, rest) else Null
  {
    ParseFrameParses();
    ManyRoundTrip(ParseFrame, ms, rest);
  }

  lemma ParseFrameParses()
    ensures ParsesFrames(ParseFrame)
  {
    forall m: Message, rest | Sendable(m)
      ensures ParseFrame(Frame(m) + rest) == if HitsNullCursor(m) then Null else Took(m, rest)
    {
      FrameRoundTrip(m, rest);
    }
  }

  // ---------------------------------------------------------------- over a byte array and a stream

  /** An append-only step of a serializer. */
  twostate predicate Appended(ba: ByteArray, bytes: seq<byte>)
    reads ba, ba.Repr
  {
    && ba.Valid() && ba.position == ba.size && fresh(ba.Repr - old(ba.Repr))
    && old(ba.size <= |ba.contents|) && ba.Bytes() == old(ba.Bytes()) + bytes
  }

  method AppendUint(ba: ByteArray, v: nat)
    requires ba.Valid() && ba.position == ba.size && v < TWO_32
    modifies ba, ba.Repr
    ensures Appended(ba, Varint(v))
  {
    WriteUint(ba, v, 32);
  }

  method AppendString(ba: ByteArray, t: seq<byte>)
    requires ba.Valid() && ba.position == ba.size && |t| < TWO_64
    modifies ba, ba.Repr
    ensures Appended(ba, Vint(t))
  {
    WriteStringVint(ba, t);
  }

  /** The type byte and the first number, which every message has. */
  method AppendHead(ba: ByteArray, kind: byte, v: nat)
    requires ba.Valid() && ba.position == ba.size && v < TWO_32
    modifies ba, ba.Repr
    ensures Appended(ba, [kind] + Varint(v))
  {
    ghost var start := ba.Bytes();
    WriteFuint8(ba, kind);
    AppendUint(ba, v);
    Regroup(start, [kind], Varint(v));
  }

  method SerializeRequest(ba: ByteArray, m: Message)
    requires ba.Valid() && ba.position == ba.size && Typed(m) && m.Request?
    modifies ba, ba.Repr
    ensures Appended(ba, Body(m))
  {
    ghost var start, t := ba.Bytes(), Vint(m.body);
    AppendHead(ba, 1, m.sn);
    AppendUint(ba, m.cmd);
    AppendString(ba, m.body);
    Regroup(start + ([1] + Varint(m.sn)), Varint(m.cmd), t);
    Regroup(start, [1] + Varint(m.sn), Varint(m.cmd) + t);
    Regroup([1], Varint(m.sn), Varint(m.cmd) + t);
  }

  /** The result code and text of a response. */
  method AppendResult(ba: ByteArray, result: nat, str: seq<byte>)
    requires ba.Valid() && ba.position == ba.size && result < TWO_32 && |str| < TWO_64
    modifies ba, ba.Repr
    ensures Appended(ba, Varint(result) + Vint(str))
  {
    ghost var start := ba.Bytes();
    AppendUint(ba, result);
    AppendString(ba, str);
    Regroup(start, Varint(result), Vint(str));
  }

  method SerializeResponse(ba: ByteArray, m: Message)
    requires ba.Valid() && ba.position == ba.size && Typed(m) && m.Response?
    modifies ba, ba.Repr
    ensures Appended(ba, Body(m))
  {
    ghost var start := ba.Bytes();
    ghost var head, cmd, result, t := [2] + Varint(m.sn), Varint(m.cmd), Varint(m.result) + Vint(m.resultStr), Vint(m.body);
    AppendHead(ba, 2, m.sn);
    AppendUint(ba, m.cmd);
    AppendResult(ba, m.result, m.resultStr);
    AppendString(ba, m.body);
    Regroup(((start + head) + cmd), result, t);
    Regroup(start + head, cmd, result + t);
    Regroup(start, head, cmd + (result + t));
    Regroup([2], Varint(m.sn), cmd + (result + t));
    Regroup(Varint(m.result), Vint(m.resultStr), t);
  }

  method SerializeNotify(ba: ByteArray, m: Message)
    requires ba.Valid() && ba.position == ba.size && Typed(m) && m.Notify?
    modifies ba, ba.Repr
    ensures Appended(ba, Body(m))
  {
    ghost var start := ba.Bytes();
    AppendHead(ba, 3, m.notify);
    AppendString(ba, m.body);
    Regroup(start, [3] + Varint(m.notify), Vint(m.body));
    Regroup([3], Varint(m.notify), Vint(m.body));
  }

  /** Request/Response/Notify::serializeToByteArray followed by RockBody::serializeToByteArray. */
  method SerializeToByteArray(ba: ByteArray, m: Message)
    requires ba.Valid() && ba.position == ba.size && Typed(m)
    modifies ba, ba.Repr
    ensures Appended(ba, Body(m))
  {
    match m
    case Request(_, _, _) => SerializeRequest(ba, m);
    case Response(_, _, _, _, _) => SerializeResponse(ba, m);
    case Notify(_, _) => SerializeNotify(ba, m);
  }

  method FillAndRewind(ba: ByteArray, m: Message)
    requires ba.Valid() && ba.size == 0 && Typed(m)
    modifies ba, ba.Repr
    ensures ba.Valid() && fresh(ba.Repr - old(ba.Repr)) && ba.position == 0 && ba.Bytes() == Body(m)
  {
    ghost var before := ba.Bytes();
    assert before == [];
    SerializeToByteArray(ba, m);
    assert before + Body(m) == Body(m);
    var ok := ba.SetPosition(0);
  }

  /** Message::toByteArray, rewound to its start. */
  method ToByteArray(m: Message) returns (ba: ByteArray)
    requires Typed(m)
    ensures fresh(ba) && fresh(ba.Repr) && ba.Valid() && ba.position == 0 && ba.Bytes() == Body(m)
  {
    ba := new ByteArray(BLOCK);
    FillAndRewind(ba, m);
  }

  /** RockMessageDecoder::serializeTo: -3 and -4 when the peer goes away during the header or the body. */
  method SerializeTo(stream: Stream, m: Message) returns (r: int)
    requires Typed(m)
    modifies stream`output, stream`plan
    ensures r == -3 || r == -4 || r == 8 + |Body(m)|
    ensures r > 0 ==> stream.output == old(stream.output) + Frame(m)
    ensures Healthy(old(stream.plan)) ==> Healthy(stream.plan) && r > 0
  {
    var ba := ToByteArray(m);
    var length := ba.size % TWO_32;
    LengthSwap(length);
    var header := [0xab, 0xcd, 1, 0] + Little(ByteSwap(length, 4), 4);
    var sent := stream.WriteFixSize(header);
    if sent <= 0 {
      return -3;
    }
    sent := stream.WriteFixSizeFrom(ba, ba.GetReadSize());
    if sent <= 0 {
      return -4;
    }
    Regroup(old(stream.output), header, Body(m));
    r := 8 + ba.size;
  }

  /** Outcome of a parser; Crashed stands for the dereference of the null cursor. */
  datatype ParseResult = Parsed(msg: Message) | Failed | Crashed

  predicate Agrees(r: ParseResult, t: Take<Message>) {
    match t
    case Took(m, _) => r == Parsed(m)
    case Bad => r == Failed
    case Null => r == Crashed
  }

  /** What a reader may do to the byte array: move the position forward. */
  twostate predicate Forward(ba: ByteArray)
    reads ba, ba.Repr
  {
    old(ba.position) <= ba.position && Moved(ba, ba.position - old(ba.position))
  }

  method NextUint(ba: ByteArray) returns (r: Option<nat>)
    requires ba.Valid()
    modifies ba`position, ba`cur, ba`at
    ensures Forward(ba)
    ensures match TakeUint(old(Rest(ba)))
            case Took(v, rest) => r == Some(v) && Rest(ba) == rest
            case _ => r == None && TakeUint(old(Rest(ba))) == Bad
  {
    ghost var s := Rest(ba);
    r := ReadUint(ba, 32);
    assert r.Some? ==> Rest(ba) == s[Groups(s, 5).value.1..];
  }

  method NextString(ba: ByteArray) returns (r: StringRead)
    requires ba.Valid()
    modifies ba`position, ba`cur, ba`at
    ensures Forward(ba)
    ensures match TakeString(old(Rest(ba)), ba.size == ba.capacity)
            case Took(t, rest) => r == Str(t) && Rest(ba) == rest
            case Bad => r == TooShort
            case Null => r == NullCursor
  {
    ghost var s := Rest(ba);
    r := ReadStringVint(ba);
    if r.Str? {
      ghost var n := Groups(s, 10).value.1;
      assert Rest(ba) == s[n..][|r.value|..];
    }
  }

  /** RockBody::parseFromByteArray, the last step of every message. */
  method FinishParse(ba: ByteArray, head: Message) returns (r: ParseResult)
    requires ba.Valid()
    modifies ba`position, ba`cur, ba`at
    ensures match TakeString(old(Rest(ba)), ba.size == ba.capacity)
            case Took(t, _) => r == Parsed(head.(body := t))
            case Bad => r == Failed
            case Null => r == Crashed
  {
    var body := NextString(ba);
    match body
    case Str(t) => r := Parsed(head.(body := t));
    case TooShort => r := Failed;
    case NullCursor => r := Crashed;
  }

  method ParseRequest(ba: ByteArray) returns (r: ParseResult)
    requires ba.Valid()
    modifies ba`position, ba`cur, ba`at
    ensures Agrees(r, TakeMessage([1] + old(Rest(ba)), ba.size == ba.capacity))
  {
    ghost var s := Rest(ba);
    assert ([1] + s)[1..] == s;
    var sn := NextUint(ba);
    if sn.None? { return Failed; }
    var cmd := NextUint(ba);
    if cmd.None? { return Failed; }
    r := FinishParse(ba, Request(sn.value, cmd.value, []));
  }

  method ParseResponseTail(ba: ByteArray, sn: nat, cmd: nat) returns (r: ParseResult)
    requires ba.Valid()
    modifies ba`position, ba`cur, ba`at
    ensures Agrees(r, TakeResult(old(Rest(ba)), ba.size == ba.capacity, sn, cmd))
  {
    var result := NextUint(ba);
    if result.None? { return Failed; }
    var str := NextString(ba);
    if str.TooShort? { return Failed; }
    if str.NullCursor? { return Crashed; }
    r := FinishParse(ba, Response(sn, cmd, result.value, str.value, []));
  }

  method ParseResponse(ba: ByteArray) returns (r: ParseResult)
    requires ba.Valid()
    modifies ba`position, ba`cur, ba`at
    ensures Agrees(r, TakeMessage([2] + old(Rest(ba)), ba.size == ba.capacity))
  {
    ghost var s := Rest(ba);
    assert ([2] + s)[1..] == s;
    var sn := NextUint(ba);
    if sn.None? { return Failed; }
    var cmd := NextUint(ba);
    if cmd.None? { return Failed; }
    r := ParseResponseTail(ba, sn.value, cmd.value);
  }

  method ParseNotify(ba: ByteArray) returns (r: ParseResult)
    requires ba.Valid()
    modifies ba`position, ba`cur, ba`at
    ensures Agrees(r, TakeMessage([3] + old(Rest(ba)), ba.size == ba.capacity))
  {
    ghost var s := Rest(ba);
    assert ([3] + s)[1..] == s;
    var notify := NextUint(ba);
    if notify.None? { return Failed; }
    r := FinishParse(ba, Notify(notify.value, []));
  }

  /** The type byte, then the message it announces. */
  method ParseMessage(ba: ByteArray) returns (r: ParseResult)
    requires ba.Valid()
    modifies ba`position, ba`cur, ba`at
    ensures Agrees(r, TakeMessage(old(Rest(ba)), ba.size == ba.capacity))
  {
    ghost var s := Rest(ba);
    var kind := ReadFuint8(ba);
    if kind.None? {
      return Failed;
    }
    assert s == [kind.value] + Rest(ba);
    if kind.value == 1 {
      r := ParseRequest(ba);
    } else if kind.value == 2 {
      r := ParseResponse(ba);
    } else if kind.value == 3 {
      r := ParseNotify(ba);
    } else {
      r := Failed;
    }
  }

  /** Receives a body of `length` bytes into a new byte array and rewinds it. */
  method ReceiveBody(stream: Stream, length: nat) returns (ba: ByteArray, ok: bool)
    modifies stream`input, stream`plan
    ensures fresh(ba) && fresh(ba.Repr) && ba.Valid()
    ensures Healthy(old(stream.plan)) ==> Healthy(stream.plan) && (0 < length <= |old(stream.input)| ==> ok)
    ensures ok ==> 0 < length <= |old(stream.input)| && stream.input == old(stream.input)[length..]
    ensures ok ==> ba.position == 0 && ba.size == length && Rest(ba) == old(stream.input)[..length]
    ensures ok ==> (ba.size == ba.capacity <==> length % BLOCK == 0)
  {
    ba := new ByteArray(BLOCK);
    var r;
    ghost var data;
    r, data := stream.ReadFixSizeInto(ba, length);
    if r <= 0 {
      return ba, false;
    }
    FullIsMultiple(ba, length);
    ok := ba.SetPosition(0);
    assert Rest(ba) == data;
  }

  lemma FullIsMultiple(ba: ByteArray, length: nat)
    requires ba.Valid() && ba.baseSize == BLOCK && 0 < length <= ba.capacity
    requires ba.capacity == BLOCK || ba.capacity - BLOCK < length
    ensures length == ba.capacity <==> length % BLOCK == 0
  {
    OffIsProduct(|ba.nodes|, BLOCK);
  }

  /** RockMessageDecoder::parseFrom. */
  method ParseFrom(stream: Stream) returns (r: ParseResult)
    modifies stream`input, stream`plan
    ensures Healthy(old(stream.plan)) ==> Healthy(stream.plan) && Agrees(r, ParseFrame(old(stream.input)))
    ensures r.Parsed? ==> ParseFrame(old(stream.input)) == Took(r.msg, stream.input)
    ensures r.Parsed? ==> Consumed(old(stream.input), r.msg, stream.input)
  {
    ghost var s := stream.input;
    ParseMeans(s);
    var header, got := stream.ReadFixSize(8);
    if got <= 0 {
      return Failed;
    }
    Drop(header, stream.input);
    if header[0] != 0xab || header[1] != 0xcd {
      return Failed;
    }
    if header[2] != 1 {
      return Failed;
    }
    var length := ByteSwap(FromLittle(header[4..8]), 4);
    if length >= MAX_LENGTH {
      return Failed;
    }
    assert HeaderLength(header) == Some(length);
    var ba, ok := ReceiveBody(stream, length);
    if !ok {
      return Failed;
    }
    r := ParseMessage(ba);
  }

  method SendAll(sender: Stream, ms: seq<Message>)
    requires (forall i :: 0 <= i < |ms| ==> Typed(ms[i])) && Healthy(sender.plan)
    modifies sender`output, sender`plan
    ensures sender.output == old(sender.output) + Frames(ms)
  {
    var i := 0;
    assert ms[..0] == [] && Frames(ms[..0]) == [];
    while i < |ms|
      invariant 0 <= i <= |ms| && Healthy(sender.plan) && sender.output == old(sender.output) + Frames(ms[..i])
    {
      var r := SerializeTo(sender, ms[i]);
      FramesMore(old(sender.output), ms, i);
      i := i + 1;
    }
    assert ms[..i] == ms;
  }

  lemma FramesMore(start: seq<byte>, ms: seq<Message>, i: nat)
    requires i < |ms|
    ensures start + Frames(ms[..i]) + Frame(ms[i]) == start + Frames(ms[..i + 1])
  {
    FramesSnoc(ms[..i], ms[i]);
    Prefix(ms, i);
    RegroupTo(start, Frames(ms[..i]), Frame(ms[i]), Frames(ms[..i + 1]));
  }

  lemma Prefix(ms: seq<Message>, i: nat)
    requires i < |ms|
    ensures ms[..i] + [ms[i]] == ms[..i + 1]
  {
  }

  lemma RegroupTo(x: seq<byte>, y: seq<byte>, z: seq<byte>, yz: seq<byte>)
    requires yz == y + z
    ensures (x + y) + z == x + yz
  {
  }

  /** parseFrom on a stream that holds the frame of m. */
  method ReceiveOne(receiver: Stream, ghost m: Message, ghost rest: seq<byte>) returns (r: ParseResult)
    requires Healthy(receiver.plan) && Sendable(m) && receiver.input == Frame(m) + rest
    modifies receiver`input, receiver`plan
    ensures Healthy(receiver.plan)
    ensures if HitsNullCursor(m) then r == Crashed else r == Parsed(m) && receiver.input == rest
  {
    FrameRoundTrip(m, rest);
    r := ParseFrom(receiver);
  }

  /** doRead's loop over parseFrom, on a stream that holds the frames of ms. */
  method ReceiveAll(receiver: Stream, n: nat, ghost ms: seq<Message>, ghost rest: seq<byte>)
    returns (received: seq<Message>, crashed: bool)
    requires Healthy(receiver.plan) && n == |ms| && receiver.input == Frames(ms) + rest
    requires forall i :: 0 <= i < |ms| ==> Sendable(ms[i])
    modifies receiver`input, receiver`plan
    ensures crashed <==> !NoneHits(ms)
    ensures !crashed ==> received == ms && receiver.input == rest
  {
    received := [];
    var i := 0;
    assert ms[0..] == ms;
    while i < n
      invariant 0 <= i <= n && received == ms[..i] && (forall j :: 0 <= j < i ==> !HitsNullCursor(ms[j]))
      invariant Healthy(receiver.plan) && receiver.input == Frames(ms[i..]) + rest
    {
      ghost var later := FramesFrom(ms, i, rest);
      var r := ReceiveOne(receiver, ms[i], later);
      if r.Crashed? {
        return received, true;
      }
      Prefix(ms, i);
      received := received + [r.msg];
      i := i + 1;
    }
    crashed := false;
    assert ms[..n] == ms && ms[n..] == [] && [] + rest == rest;
  }

  lemma FramesFrom(ms: seq<Message>, i: nat, rest: seq<byte>) returns (later: seq<byte>)
    requires i < |ms|
    ensures Frames(ms[i..]) + rest == Frame(ms[i]) + later && later == Frames(ms[i + 1..]) + rest
  {
    later := Frames(ms[i + 1..]) + rest;
    assert ms[i..][1..] == ms[i + 1..];
    Regroup(Frame(ms[i]), Frames(ms[i + 1..]), rest);
  }

  /**
    Both ends together: messages sent over one transport and received over another, each with its own
    way of splitting transfers, arrive as they were sent, and nothing is left over -- if and only if
    none of them is in the family that hits the null cursor.
   */
  method SendAndReceive(ms: seq<Message>, sendPlan: seq<nat>, recvPlan: seq<nat>)
    returns (received: seq<Message>, left: seq<byte>, crashed: bool)
    requires forall i :: 0 <= i < |ms| ==> Sendable(ms[i])
    requires Healthy(sendPlan) && Healthy(recvPlan)
    ensures crashed <==> !NoneHits(ms)
    ensures !crashed ==> received == ms && left == []
  {
    var sender := new Stream([], sendPlan);
    SendAll(sender, ms);
    assert sender.output == Frames(ms) + [];
    var receiver := new Stream(sender.output, recvPlan);
    received, crashed := ReceiveAll(receiver, |ms|, ms, []);
    left := receiver.input;
  }

  lemma {:induction false} FramesSnoc(ms: seq<Message>, m: Message)
    ensures Frames(ms + [m]) == Frames(ms) + Frame(m)
    decreases |ms|
  {
    if ms == [] {
      assert ms + [m] == [m] && [m][1..] == [];
    } else {
      assert (ms + [m])[1..] == ms[1..] + [m];
      FramesSnoc(ms[1..], m);
      Regroup(Frame(ms[0]), Frames(ms[1..]), Frame(m));
    }
  }
}
