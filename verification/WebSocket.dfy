/**
  WebSocket framing (http/ws_session.cc), sections 5.2 to 5.4 of RFC 6455.
 */
module WebSocket {
  import opened Common
  import opened Codec
  import opened Streams

  const MAX_SIZE: nat := 0x200_0000      // websocket.message.max_size, 32 MB

  const CONTINUE: nat := 0
  const TEXT_FRAME: nat := 1
  const BIN_FRAME: nat := 2
  const PING: nat := 9
  const PONG: nat := 10

  // ---------------------------------------------------------------- masking

  /** Exclusive or of the n low bits. */
  function XorBits(a: nat, b: nat, n: nat): (r: nat)
    ensures r < Pow2(n)
  {
    if n == 0 then 0 else (if a % 2 == b % 2 then 0 else 1) + 2 * XorBits(a / 2, b / 2, n - 1)
  }

  lemma {:induction false} XorTwice(a: nat, b: nat, n: nat)
    requires a < Pow2(n)
    ensures XorBits(XorBits(a, b, n), b, n) == a
    decreases n
  {
    if n > 0 {
      var bit, r := if a % 2 == b % 2 then 0 else 1, XorBits(a / 2, b / 2, n - 1);
      assert (bit + 2 * r) / 2 == r && (bit + 2 * r) % 2 == bit;
      XorTwice(a / 2, b / 2, n - 1);
    }
  }

  /** A key bit that is set changes the value, so only an all-zero key leaves it alone. */
  lemma {:induction false} XorChanges(a: nat, b: nat, n: nat)
    requires a < Pow2(n) && b < Pow2(n)
    ensures XorBits(a, b, n) == a <==> b == 0
    decreases n
  {
    if n > 0 { XorChanges(a / 2, b / 2, n - 1); }
  }

  function Bit(x: nat, i: nat): nat
    decreases i
  {
    if i == 0 then x % 2 else Bit(x / 2, i - 1)
  }

  /** It is exclusive or, bit by bit. */
  lemma {:induction false} XorBitAt(a: nat, b: nat, n: nat, i: nat)
    requires i < n
    ensures Bit(XorBits(a, b, n), i) == (Bit(a, i) + Bit(b, i)) % 2
    decreases i
  {
    if i > 0 {
      var bit, r := if a % 2 == b % 2 then 0 else 1, XorBits(a / 2, b / 2, n - 1);
      assert (bit + 2 * r) / 2 == r;
      XorBitAt(a / 2, b / 2, n - 1, i - 1);
    }
  }

  function Xor(a: byte, b: byte): byte {
    assert Pow2(8) == 256;
    XorBits(a, b, 8)
  }

  type Key = k: seq<byte> | |k| == 4 witness [0, 0, 0, 0]

  /** Byte i is combined with key byte i % 4. */
  function Mask(data: seq<byte>, key: Key): (r: seq<byte>)
    ensures |r| == |data|
  {
    seq(|data|, i requires 0 <= i < |data| => Xor(data[i], key[i % 4]))
  }

  /** Masking twice with one key gives the data back. */
  lemma MaskTwice(data: seq<byte>, key: Key)
    ensures Mask(Mask(data, key), key) == data
  {
    assert Pow2(8) == 256;
    forall i | 0 <= i < |data| ensures Mask(Mask(data, key), key)[i] == data[i] {
      XorTwice(data[i], key[i % 4], 8);
    }
  }

  /** Masking changes the data unless every key byte that is used is zero. */
  lemma MaskChanges(data: seq<byte>, key: Key)
    ensures Mask(data, key) == data <==> forall i :: 0 <= i < |data| ==> key[i % 4] == 0
  {
    assert Pow2(8) == 256;
    forall i | 0 <= i < |data| ensures Mask(data, key)[i] == data[i] <==> key[i % 4] == 0 {
      XorChanges(data[i], key[i % 4], 8);
    }
  }

  // ---------------------------------------------------------------- frames

  /** First byte: FIN in the top bit, the opcode in the four low bits. */
  function HeadByte(opcode: nat, fin: bool): (b: byte)
    ensures opcode < 16 ==> b % 16 == opcode
    ensures b >= 128 <==> fin
  {
    opcode % 16 + (if fin then 128 else 0)
  }

  /** The 7-bit length field of the second byte. */
  function PayloadField(size: nat): nat {
    if size < 126 then size else if size < 65536 then 126 else 127
  }

  /** Second byte: the mask flag in the top bit, the length field below. */
  function LengthByte(size: nat, masked: bool): (b: byte)
    ensures b % 128 == PayloadField(size) && (b >= 128 <==> masked)
  {
    PayloadField(size) + (if masked then 128 else 0)
  }

  /** The extended length, big-endian, when the field does not suffice. */
  function LengthBytes(size: nat): seq<byte> {
    if size < 126 then [] else if size < 65536 then Big(size, 2) else Big(size, 8)
  }

  /** How many extended length bytes a length field announces. */
  function ExtraLength(payload: nat): nat {
    if payload == 126 then 2 else if payload == 127 then 8 else 0
  }

  /** The length a field and its extended bytes denote. */
  function LengthOf(payload: nat, extra: seq<byte>): nat {
    if ExtraLength(payload) == 0 then payload else FromFixed(extra, false)
  }

  function KeyBytes(key: Option<Key>): seq<byte> {
    if key.Some? then key.value else []
  }

  function Masked(data: seq<byte>, key: Option<Key>): (r: seq<byte>)
    ensures |r| == |data|
  {
    if key.Some? then Mask(data, key.value) else data
  }

  /** What follows the two header bytes of a frame. */
  function Tail(key: Option<Key>, data: seq<byte>): seq<byte> {
    LengthBytes(|data|) + KeyBytes(key) + Masked(data, key)
  }

  /** A frame as WSSendMessage writes it; clients mask, servers do not. */
  function Frame(opcode: nat, fin: bool, key: Option<Key>, data: seq<byte>): seq<byte> {
    [HeadByte(opcode, fin), LengthByte(|data|, key.Some?)] + Tail(key, data)
  }

  /** The control frames of WSPing and WSPong: no payload, no mask. */
  function Control(opcode: nat): seq<byte> {
    [HeadByte(opcode, true), 0]
  }

  /**
    A frame byte by byte, as in section 5.2: FIN, no reserved bit, opcode; mask flag and length; the
    extended length with its highest byte first; the key; and the data, byte i combined with key byte i % 4.
   */
  lemma FrameLayout(opcode: nat, fin: bool, key: Option<Key>, data: seq<byte>)
    requires opcode < 16 && |data| < TWO_64
    ensures var f, x, k := Frame(opcode, fin, key, data), (if |data| < 126 then 0 else if |data| < 65536 then 2 else 8), (if key.Some? then 4 else 0);
            && |f| == 2 + x + k + |data|
            && f[0] == opcode + (if fin then 128 else 0)
            && f[1] == (if x == 0 then |data| else if x == 2 then 126 else 127) + (if key.Some? then 128 else 0)
            && (forall j :: 2 <= j < 2 + x ==> f[j] == ByteAt(|data|, 1 + x - j))
            && (key.Some? ==> f[2 + x..2 + x + 4] == key.value)
            && (forall j :: 2 + x + k <= j < |f| ==>
                  var i := j - 2 - x - k; f[j] == if key.Some? then Xor(data[i], key.value[i % 4]) else data[i])
  {
    var ext := LengthBytes(|data|);
    forall i | 0 <= i < |ext| ensures ext[i] == ByteAt(|data|, |ext| - 1 - i) { BigAt(|data|, |ext|, i); }
    LayoutOf([HeadByte(opcode, fin), LengthByte(|data|, key.Some?)], ext, KeyBytes(key), Masked(data, key));
  }

  lemma LayoutOf(head: seq<byte>, ext: seq<byte>, key: seq<byte>, data: seq<byte>)
    requires |head| == 2
    ensures var f := head + (ext + key + data);
            && |f| == 2 + |ext| + |key| + |data| && f[0] == head[0] && f[1] == head[1]
            && (forall j :: 2 <= j < 2 + |ext| ==> f[j] == ext[j - 2])
            && f[2 + |ext|..2 + |ext| + |key|] == key
            && (forall j :: 2 + |ext| + |key| <= j < |f| ==> f[j] == data[j - 2 - |ext| - |key|])
  {
  }

  lemma LengthRoundTrip(size: nat)
    requires size < TWO_64
    ensures |LengthBytes(size)| == ExtraLength(PayloadField(size))
    ensures LengthOf(PayloadField(size), LengthBytes(size)) == size
  {
    assert Pow256(2) == 65536;
    assert Pow256(8) == TWO_64;
    if 126 <= size < 65536 {
      FixedRoundTrip(size, 2, false);
    } else if 65536 <= size {
      FixedRoundTrip(size, 8, false);
    }
  }

  /** The length uses the shortest form: no field and extended bytes that denote it are fewer bytes. */
  lemma LengthShortest(size: nat, payload: nat, extra: seq<byte>)
    requires payload < 128 && |extra| == ExtraLength(payload) && LengthOf(payload, extra) == size
    ensures |LengthBytes(size)| <= |extra|
  {
    assert Pow256(2) == 65536;
    if payload == 126 {
      LittleOnto(extra);
      LittleOnto(Reverse(Little(FromLittle(extra), 2)));
    }
  }

  // ---------------------------------------------------------------- receiving, on flat bytes

  /** What the receive loop carries from frame to frame. */
  datatype Partial = Partial(opcode: nat, data: seq<byte>, pongs: nat)

  /**
    Outcome of receiving.  Overflow stands for a length that wraps the unchecked 64-bit sum
    cur_len + length, after which the original writes out of bounds.
   */
  datatype Received = Got(opcode: nat, data: seq<byte>, pongs: nat, rest: seq<byte>) | Closed | Overflow

  /** What one data frame, whose two header bytes are gone, does to the message received so far. */
  datatype FrameRead = Read(data: seq<byte>, rest: seq<byte>) | Refused | Wraps

  function ReadData(s: seq<byte>, payload: nat, masked: bool, soFar: nat): (r: FrameRead)
    requires payload < 128
    ensures r.Read? ==> |r.rest| <= |s|
  {
    var extra := ExtraLength(payload);
    if |s| < extra then Refused
    else
      var length := LengthOf(payload, s[..extra]);
      if (soFar + length) % TWO_64 >= MAX_SIZE then Refused
      else ReadKeyed(s[extra..], masked, length, soFar + length >= TWO_64)
  }

  /** Mask key and payload, once the length has passed the size limit; `wraps`: it did so by wrapping around. */
  function ReadKeyed(s: seq<byte>, masked: bool, length: nat, wraps: bool): (r: FrameRead)
    ensures r.Read? ==> |r.rest| <= |s|
  {
    var keyLen := if masked then 4 else 0;
    if |s| < keyLen then Refused
    else if wraps then Wraps
    else if |s| < keyLen + length || length == 0 then Refused
    else
      var raw := s[keyLen..keyLen + length];
      Read(if masked then Mask(raw, s[..4]) else raw, s[keyLen + length..])
  }

  /** One pass of the receive loop. */
  datatype Step = More(p: Partial, rest: seq<byte>) | Done(p: Partial, rest: seq<byte>) | Stop | Wrapped

  function DataStep(s: seq<byte>, opcode: nat, fin: bool, payload: nat, masked: bool, client: bool, p: Partial): (r: Step)
    requires payload < 128
    ensures r.More? ==> |r.rest| <= |s|
  {
    if !client && !masked then Stop
    else
      match ReadData(s, payload, masked, |p.data|)
      case Refused => Stop
      case Wraps => Wrapped
      case Read(more, rest) =>
        var p' := Partial(if p.opcode == 0 && opcode != CONTINUE then opcode else p.opcode, p.data + more, p.pongs);
        if fin then Done(p', rest) else More(p', rest)
  }

  function FrameStep(s: seq<byte>, client: bool, p: Partial): (r: Step)
    ensures r.More? ==> |r.rest| < |s|
  {
    if |s| < 2 then Stop else Dispatch(s[0], s[1], s[2..], client, p)
  }

  /** What a pass does after the two header bytes. */
  function Dispatch(head: byte, second: byte, s: seq<byte>, client: bool, p: Partial): (r: Step)
    ensures r.More? ==> |r.rest| <= |s|
  {
    var opcode := head % 16;
    if opcode == PING then More(p.(pongs := p.pongs + 1), s)
    else if opcode == CONTINUE || opcode == TEXT_FRAME || opcode == BIN_FRAME then
      DataStep(s, opcode, head >= 128, second % 128, second >= 128, client, p)
    else More(p, s)
  }

  /** WSRecvMessage. */
  function Receive(s: seq<byte>, client: bool, p: Partial): Received
    decreases |s|
  {
    match FrameStep(s, client, p)
    case More(p', rest) => Receive(rest, client, p')
    case Done(p', rest) => Got(p'.opcode, p'.data, p'.pongs, rest)
    case Stop => Closed
    case Wrapped => Overflow
  }

  // ---------------------------------------------------------------- fragments and control frames

  /** What a sender puts on the wire, in order: data frames, pings and pongs. */
  datatype Item = Data(opcode: nat, key: Option<Key>, data: seq<byte>) | Ping | Pong

  function Encode(item: Item, fin: bool): seq<byte> {
    match item
    case Data(opcode, key, data) => Frame(opcode, fin, key, data)
    case Ping => Control(PING)
    case Pong => Control(PONG)
  }

  /** The items on the wire; only the last one, a data frame, has FIN as the end of the message. */
  function Wire(items: seq<Item>): seq<byte> {
    if items == [] then [] else Encode(items[0], |items| == 1) + Wire(items[1..])
  }

  function Add(item: Item, p: Partial): Partial {
    match item
    case Data(opcode, _, data) => Partial(if p.opcode == 0 && opcode != CONTINUE then opcode else p.opcode, p.data + data, p.pongs)
    case Ping => p.(pongs := p.pongs + 1)
    case Pong => p
  }

  /** The message the items carry, on top of what was received before. */
  function Carry(items: seq<Item>, p: Partial): Partial {
    if items == [] then p
    else
      Carry(items[1..], Add(items[0], p))
  }

  /** The data of the fragments, one after the other. */
  function Joined(items: seq<Item>): seq<byte> {
    if items == [] then [] else (if items[0].Data? then items[0].data else []) + Joined(items[1..])
  }

  /** The first data opcode that is not CONTINUE; 0 when there is none. */
  function FirstOpcode(items: seq<Item>): nat {
    if items == [] then 0
    else if items[0].Data? && items[0].opcode != CONTINUE then items[0].opcode
    else FirstOpcode(items[1..])
  }

  function PingCount(items: seq<Item>): nat {
    if items == [] then 0 else (if items[0].Ping? then 1 else 0) + PingCount(items[1..])
  }

  /** What is carried: the concatenation of the fragments, the opcode of the first that names one, a pong for every ping. */
  lemma {:induction false} CarryIs(items: seq<Item>, p: Partial)
    ensures Carry(items, p).data == p.data + Joined(items)
    ensures Carry(items, p).opcode == if p.opcode != 0 then p.opcode else FirstOpcode(items)
    ensures Carry(items, p).pongs == p.pongs + PingCount(items)
    decreases |items|
  {
    if items == [] {
      assert p.data + [] == p.data;
    } else {
      CarryIs(items[1..], Add(items[0], p));
      Regroup(p.data, if items[0].Data? then items[0].data else [], Joined(items[1..]));
      assert p.data + [] == p.data;
    }
  }

  /** A data frame a receiver accepts: a data opcode, and a mask unless the receiver is a client. */
  predicate Sendable(item: Item, client: bool) {
    item.Data? ==>
      && (item.opcode == CONTINUE || item.opcode == TEXT_FRAME || item.opcode == BIN_FRAME)
      && (client || item.key.Some?)
  }

  predicate AllSendable(items: seq<Item>, client: bool) {
    forall i :: 0 <= i < |items| ==> Sendable(items[i], client)
  }

  /** What the requirements on the items say of the first and of the others. */
  lemma ItemsStep(items: seq<Item>, client: bool)
    requires items != []
    ensures NonEmpty(items) <==> (items[0].Data? ==> items[0].data != []) && NonEmpty(items[1..])
    ensures AllSendable(items, client) ==> Sendable(items[0], client) && AllSendable(items[1..], client)
    ensures |items| > 1 ==> items[1..] != [] && items[1..][|items[1..]| - 1] == items[|items| - 1]
    ensures |items| == 1 ==> items[1..] == []
  {
    assert forall i :: 1 <= i < |items| ==> items[i] == items[1..][i - 1];
  }

  predicate NonEmpty(items: seq<Item>) {
    forall i :: 0 <= i < |items| && items[i].Data? ==> items[i].data != []
  }

  lemma {:induction false} CarryGrows(items: seq<Item>, p: Partial)
    ensures |p.data| <= |Carry(items, p).data|
    decreases |items|
  {
    if items != [] {
      CarryGrows(items[1..], Add(items[0], p));
    }
  }

  /** How the parts of a data frame are read. */
  lemma ReadParts(extra: seq<byte>, key: seq<byte>, raw: seq<byte>, rest: seq<byte>, payload: nat, masked: bool, soFar: nat)
    requires payload < 128 && |extra| == ExtraLength(payload) && LengthOf(payload, extra) == |raw|
    requires |key| == (if masked then 4 else 0) && soFar + |raw| < TWO_64
    ensures ReadData(extra + key + raw + rest, payload, masked, soFar) ==
            if raw == [] || soFar + |raw| >= MAX_SIZE then Refused else Read(if masked then Mask(raw, key) else raw, rest)
  {
    ModSmall(soFar + |raw|, TWO_64);
    SplitFront(extra, key, raw, rest);
    SplitBack(key, raw, rest);
  }

  lemma SplitFront(extra: seq<byte>, key: seq<byte>, raw: seq<byte>, rest: seq<byte>)
    ensures (extra + key + raw + rest)[..|extra|] == extra && (extra + key + raw + rest)[|extra|..] == key + raw + rest
  {
  }

  lemma SplitBack(key: seq<byte>, raw: seq<byte>, rest: seq<byte>)
    ensures var s := key + raw + rest;
            s[..|key|] == key && s[|key|..|key| + |raw|] == raw && s[|key| + |raw|..] == rest
  {
  }

  /** A receiver that has soFar bytes refuses an empty frame and one that makes the message too long. */
  predicate Refuses(data: seq<byte>, soFar: nat) {
    data == [] || soFar + |data| >= MAX_SIZE
  }

  /** One data frame is read back as sent, or refused. */
  lemma ReadDataRoundTrip(key: Option<Key>, data: seq<byte>, rest: seq<byte>, soFar: nat)
    requires soFar + |data| < TWO_64
    ensures ReadData(Tail(key, data) + rest, PayloadField(|data|), key.Some?, soFar) ==
            if Refuses(data, soFar) then Refused else Read(data, rest)
  {
    LengthRoundTrip(|data|);
    ReadParts(LengthBytes(|data|), KeyBytes(key), Masked(data, key), rest, PayloadField(|data|), key.Some?, soFar);
    if key.Some? { MaskTwice(data, key.value); }
  }

  /** One pass of the receive loop takes exactly one item. */
  lemma ItemStep(item: Item, fin: bool, rest: seq<byte>, client: bool, p: Partial)
    requires Sendable(item, client) && (item.Data? ==> |p.data| + |item.data| < TWO_64)
    ensures FrameStep(Encode(item, fin) + rest, client, p) ==
            if item.Data? && Refuses(item.data, |p.data|) then Stop
            else if item.Data? && fin then Done(Add(item, p), rest)
            else More(Add(item, p), rest)
  {
    match item
    case Data(opcode, key, data) => DataItemStep(opcode, key, data, fin, rest, client, p);
    case Ping => assert (Control(PING) + rest)[2..] == rest;
    case Pong => assert (Control(PONG) + rest)[2..] == rest;
  }

  lemma DataItemStep(opcode: nat, key: Option<Key>, data: seq<byte>, fin: bool, rest: seq<byte>, client: bool, p: Partial)
    requires Sendable(Data(opcode, key, data), client) && |p.data| + |data| < TWO_64
    ensures var q := Add(Data(opcode, key, data), p);
            FrameStep(Frame(opcode, fin, key, data) + rest, client, p) ==
            if Refuses(data, |p.data|) then Stop else if fin then Done(q, rest) else More(q, rest)
  {
    var head, second, tail := HeadByte(opcode, fin), LengthByte(|data|, key.Some?), Tail(key, data);
    ReadDataRoundTrip(key, data, rest, |p.data|);
    HeaderStep(head, second, tail, rest, client, p);
    DispatchData(head, second, tail + rest, data, rest, client, p);
  }

  lemma DispatchData(head: byte, second: byte, s: seq<byte>, data: seq<byte>, rest: seq<byte>, client: bool, p: Partial)
    requires var opcode := head % 16; opcode == CONTINUE || opcode == TEXT_FRAME || opcode == BIN_FRAME
    requires client || second >= 128
    requires ReadData(s, second % 128, second >= 128, |p.data|) == if Refuses(data, |p.data|) then Refused else Read(data, rest)
    ensures var q := Add(Data(head % 16, None, data), p);
            Dispatch(head, second, s, client, p) == if Refuses(data, |p.data|) then Stop else if head >= 128 then Done(q, rest) else More(q, rest)
  {
  }

  lemma HeaderStep(head: byte, second: byte, tail: seq<byte>, rest: seq<byte>, client: bool, p: Partial)
    ensures FrameStep([head, second] + tail + rest, client, p) == Dispatch(head, second, tail + rest, client, p)
  {
    assert ([head, second] + tail + rest)[2..] == tail + rest;
  }

  /**
    A whole message, as the caller of WSRecvMessage sees it: the concatenation of its fragments under
    the opcode of the first, and one pong for every ping.
   */
  lemma ReceiveMessage(items: seq<Item>, rest: seq<byte>, client: bool)
    requires items != [] && items[|items| - 1].Data? && AllSendable(items, client) && |Joined(items)| < TWO_64
    ensures Receive(Wire(items) + rest, client, Partial(0, [], 0)) ==
            if NonEmpty(items) && |Joined(items)| < MAX_SIZE then Got(FirstOpcode(items), Joined(items), PingCount(items), rest) else Closed
  {
    CarryIs(items, Partial(0, [], 0));
    assert [] + Joined(items) == Joined(items);
    ReceiveWire(items, rest, client, Partial(0, [], 0));
  }

  /**
    Fragmented messages: for any fragments, mask keys and direction, with pings and pongs in between,
    the receiver gets the concatenation and the first data opcode, answers every ping, and stops
    exactly behind the final frame -- if and only if no fragment is empty and the whole is below the
    maximum; otherwise it closes the connection.
   */
  lemma {:induction false} ReceiveWire(items: seq<Item>, rest: seq<byte>, client: bool, p: Partial)
    requires items != [] && items[|items| - 1].Data?
    requires AllSendable(items, client)
    requires |Carry(items, p).data| < TWO_64
    ensures var q := Carry(items, p);
            Receive(Wire(items) + rest, client, p) ==
            if NonEmpty(items) && |q.data| < MAX_SIZE then Got(q.opcode, q.data, q.pongs, rest) else Closed
    decreases |items|
  {
    CarryGrows(items[1..], Add(items[0], p));
    ItemsStep(items, client);
    FirstItem(items, rest, client, p);
    if |items| > 1 {
      ReceiveWire(items[1..], rest, client, Add(items[0], p));
    }
  }

  /** The receive loop consumes the first item, and goes on behind it unless that was the last. */
  lemma FirstItem(items: seq<Item>, rest: seq<byte>, client: bool, p: Partial)
    requires items != [] && Sendable(items[0], client)
    requires items[0].Data? ==> |p.data| + |items[0].data| < TWO_64
    ensures var q := Add(items[0], p);
            Receive(Wire(items) + rest, client, p) ==
            if items[0].Data? && Refuses(items[0].data, |p.data|) then Closed
            else if items[0].Data? && |items| == 1 then Got(q.opcode, q.data, q.pongs, rest)
            else Receive(Wire(items[1..]) + rest, client, q)
  {
    var fin := |items| == 1;
    var later := Wire(items[1..]) + rest;
    Regroup(Encode(items[0], fin), Wire(items[1..]), rest);
    ItemStep(items[0], fin, later, client, p);
    assert fin ==> later == rest by { PrependNil(rest); }
  }

  lemma PrependNil(x: seq<byte>)
    ensures [] + x == x
  {
  }

  /**
    Control frames with a mask or a payload, which sections 5.1 and 5.5 of RFC 6455 demand of clients
    and allow to everybody: the receive loop takes the two header bytes only.  The frame is consumed if
    and only if it has neither; otherwise its key and payload are read as the next frame.
   */
  lemma ControlExact(opcode: nat, fin: bool, key: Option<Key>, data: seq<byte>, rest: seq<byte>, client: bool, p: Partial)
    requires opcode == PING || opcode == PONG
    ensures var s, q := Frame(opcode, fin, key, data) + rest, if opcode == PING then p.(pongs := p.pongs + 1) else p;
            && FrameStep(s, client, p) == More(q, Tail(key, data) + rest)
            && Receive(s, client, p) == Receive(Tail(key, data) + rest, client, q)
            && (FrameStep(s, client, p) == More(q, rest) <==> key == None && data == [])
  {
    HeaderStep(HeadByte(opcode, fin), LengthByte(|data|, key.Some?), Tail(key, data), rest, client, p);
    assert |Tail(key, data)| == 0 <==> key == None && data == [];
    assert Tail(key, data) + rest == rest <==> |Tail(key, data)| == 0;
  }

  /** A server gives up at every data frame without a mask, whatever it announces and whatever follows. */
  lemma UnmaskedStops(head: byte, second: byte, rest: seq<byte>, p: Partial)
    requires head % 16 == CONTINUE || head % 16 == TEXT_FRAME || head % 16 == BIN_FRAME
    requires second < 128
    ensures Receive([head, second] + rest, false, p) == Closed
  {
    var s: seq<byte> := [head, second] + rest;
    assert s[0] == head && s[1] == second && s[2..] == rest;
  }

  /** Of a frame with any other opcode two bytes are consumed and nothing is done: its key and payload are read as the next frame. */
  lemma OtherOpcode(head: byte, second: byte, rest: seq<byte>, client: bool, p: Partial)
    requires head % 16 !in {CONTINUE, TEXT_FRAME, BIN_FRAME, PING}
    ensures Receive([head, second] + rest, client, p) == Receive(rest, client, p)
  {
    var s: seq<byte> := [head, second] + rest;
    assert s[0] == head && s[1] == second && s[2..] == rest;
  }

  /**
    Every data frame that has arrived whole, whichever form its length takes, and under any key: a server
    refuses it without a mask; it is refused when it is empty or makes the message too long; otherwise its
    data are appended, and FIN ends the message.
   */
  lemma DataFrameExact(head: byte, second: byte, extra: seq<byte>, key: seq<byte>, raw: seq<byte>, rest: seq<byte>, client: bool, p: Partial)
    requires head % 16 == CONTINUE || head % 16 == TEXT_FRAME || head % 16 == BIN_FRAME
    requires |extra| == ExtraLength(second % 128) && LengthOf(second % 128, extra) == |raw|
    requires |key| == (if second >= 128 then 4 else 0) && |p.data| + |raw| < TWO_64
    ensures var data := if second >= 128 then Mask(raw, key) else raw;
            var q := Partial(if p.opcode == 0 && head % 16 != CONTINUE then head % 16 else p.opcode, p.data + data, p.pongs);
            FrameStep([head, second] + (extra + key + raw + rest), client, p) ==
            if (!client && second < 128) || raw == [] || |p.data| + |raw| >= MAX_SIZE then Stop
            else if head >= 128 then Done(q, rest) else More(q, rest)
  {
    var s: seq<byte> := [head, second] + (extra + key + raw + rest);
    assert s[0] == head && s[1] == second && s[2..] == extra + key + raw + rest;
    ReadParts(extra, key, raw, rest, second % 128, second >= 128, |p.data|);
  }

  /** The unchecked sum: a length that wraps past the size limit takes the original out of bounds once the key has arrived. */
  lemma WrapOverflows(head: byte, second: byte, extra: seq<byte>, key: seq<byte>, rest: seq<byte>, client: bool, p: Partial)
    requires head % 16 == CONTINUE || head % 16 == TEXT_FRAME || head % 16 == BIN_FRAME
    requires |extra| == ExtraLength(second % 128) && |key| == (if second >= 128 then 4 else 0) && (client || second >= 128)
    requires var total := |p.data| + LengthOf(second % 128, extra); total >= TWO_64 && total % TWO_64 < MAX_SIZE
    ensures Receive([head, second] + (extra + key + rest), client, p) == Overflow
  {
    var s: seq<byte> := [head, second] + (extra + key + rest);
    assert s[0] == head && s[1] == second && s[2..] == extra + key + rest;
    WrapRead(extra, key, rest, second % 128, second >= 128, |p.data|);
  }

  lemma WrapRead(extra: seq<byte>, key: seq<byte>, rest: seq<byte>, payload: nat, masked: bool, soFar: nat)
    requires payload < 128 && |extra| == ExtraLength(payload) && |key| == if masked then 4 else 0
    requires var total := soFar + LengthOf(payload, extra); total >= TWO_64 && total % TWO_64 < MAX_SIZE
    ensures ReadData(extra + key + rest, payload, masked, soFar) == Wraps
  {
    var t := extra + key + rest;
    assert t[..|extra|] == extra && t[|extra|..] == key + rest;
  }

  /** The parts of a data frame that a pass accepted: all that the header announced was there, and `rest` comes behind it. */
  datatype Parts = Parts(extra: seq<byte>, key: seq<byte>, raw: seq<byte>, rest: seq<byte>)

  /** Whatever arrives, a pass accepts a data frame only when it has arrived whole, is not empty and passes the size limit. */
  lemma DataFrameMeans(s: seq<byte>, client: bool, p: Partial) returns (f: Parts)
    requires |s| >= 2 && (s[0] % 16 == CONTINUE || s[0] % 16 == TEXT_FRAME || s[0] % 16 == BIN_FRAME)
    requires FrameStep(s, client, p).More? || FrameStep(s, client, p).Done?
    ensures s == [s[0], s[1]] + (f.extra + f.key + f.raw + f.rest) && FrameStep(s, client, p).rest == f.rest
    ensures |f.extra| == ExtraLength(s[1] % 128) && LengthOf(s[1] % 128, f.extra) == |f.raw| && f.raw != []
    ensures |f.key| == (if s[1] >= 128 then 4 else 0) && (client || s[1] >= 128) && (|p.data| + |f.raw|) % TWO_64 < MAX_SIZE
  {
    AcceptedIsRead(s[0], s[1], s[2..], client, p);
    f := ReadMeans(s[2..], s[1] % 128, s[1] >= 128, |p.data|);
    assert s == [s[0], s[1]] + s[2..];
  }

  lemma AcceptedIsRead(head: byte, second: byte, t: seq<byte>, client: bool, p: Partial)
    requires head % 16 == CONTINUE || head % 16 == TEXT_FRAME || head % 16 == BIN_FRAME
    requires var d := Dispatch(head, second, t, client, p); d.More? || d.Done?
    ensures (client || second >= 128) && ReadData(t, second % 128, second >= 128, |p.data|).Read?
    ensures Dispatch(head, second, t, client, p).rest == ReadData(t, second % 128, second >= 128, |p.data|).rest
  {
  }

  lemma ReadMeans(t: seq<byte>, payload: nat, masked: bool, soFar: nat) returns (f: Parts)
    requires payload < 128 && ReadData(t, payload, masked, soFar).Read?
    ensures t == f.extra + f.key + f.raw + f.rest && ReadData(t, payload, masked, soFar).rest == f.rest
    ensures |f.extra| == ExtraLength(payload) && LengthOf(payload, f.extra) == |f.raw| && f.raw != []
    ensures |f.key| == (if masked then 4 else 0) && (soFar + |f.raw|) % TWO_64 < MAX_SIZE
  {
    var x, k := ExtraLength(payload), if masked then 4 else 0;
    var length := LengthOf(payload, t[..x]);
    f := Parts(t[..x], t[x..][..k], t[x..][k..k + length], t[x..][k + length..]);
    SplitUp(t, x, k, length);
  }

  lemma SplitUp(t: seq<byte>, x: nat, k: nat, length: nat)
    requires x + k + length <= |t|
    ensures t == t[..x] + t[x..][..k] + t[x..][k..k + length] + t[x..][k + length..]
  {
  }

  /** A client's ping without payload, masked with the key 1 0 0 0, closes the connection whatever follows it. */
  lemma MaskedPingMisread(rest: seq<byte>, p: Partial)
    ensures Receive(Frame(PING, true, Some([1, 0, 0, 0]), []) + rest, false, p) == Closed
  {
    var key: Key := [1, 0, 0, 0];
    ControlExact(PING, true, Some(key), [], rest, false, p);
    var t := Tail(Some(key), []) + rest;
    assert t[0] == 1 && t[1] == 0;
  }

  /** A server's ping with the one-byte payload 0x81, and then the text "A": the client closes. */
  lemma PingPayloadMisread(text: seq<byte>)
    requires text == Frame(TEXT_FRAME, true, None, [0x41])
    ensures Receive(text, true, Partial(0, [], 0)) == Got(TEXT_FRAME, [0x41], 0, [])
    ensures Receive(Frame(PING, true, None, [0x81]) + text, true, Partial(0, [], 0)) == Closed
  {
    var p0 := Partial(0, [], 0);
    DataItemStep(TEXT_FRAME, None, [0x41], true, [], true, p0);
    AppendNil(text);
    PrependNil([0x41]);
    ControlExact(PING, true, None, [0x81], text, true, p0);
    PingTail(text);
    ShortFrameStops(Partial(0, [], 1));
  }

  /** The payload of that ping and the header of the text, taken for a header. */
  lemma PingTail(text: seq<byte>)
    requires text == Frame(TEXT_FRAME, true, None, [0x41])
    ensures Tail(None, [0x81]) + text == [0x81, 0x81, 1, 0x41]
  {
    assert Tail(None, [0x81]) == [0x81];
    assert Tail(None, [0x41]) == [0x41];
  }

  /** They announce a masked frame, but there are not enough bytes for a key. */
  lemma ShortFrameStops(p: Partial)
    ensures Receive([0x81, 0x81, 1, 0x41], true, p) == Closed
  {
    var t: seq<byte> := [0x81, 0x81, 1, 0x41];
    assert t[2..] == [1, 0x41];
    assert ReadData(t[2..], 1, true, |p.data|) == Refused || |p.data| + 1 >= TWO_64;
  }

  // ---------------------------------------------------------------- over a stream

  /** WSFrameMessage: the sender masks its data in place. */
  class FrameMessage {
    const opcode: nat
    var data: seq<byte>

    constructor (op: nat, d: seq<byte>)
      ensures opcode == op && data == d
    {
      opcode, data := op, d;
    }

    method MaskInPlace(key: Key)
      modifies this`data
      ensures data == Mask(old(data), key)
    {
      var i := 0;
      while i < |data|
        invariant 0 <= i <= |data| == |old(data)|
        invariant forall j :: 0 <= j < |data| ==> data[j] == if j < i then Xor(old(data)[j], key[j % 4]) else old(data)[j]
      {
        data := data[i := Xor(data[i], key[i % 4])];
        i := i + 1;
      }
    }
  }

  /** WSSendMessage: -1 and a closed stream when a transfer fails -- and when there is no data to send. */
  method SendMessage(stream: Stream, msg: FrameMessage, client: bool, fin: bool, key: Key) returns (r: int)
    requires msg.opcode < 16 && |msg.data| < TWO_64
    modifies stream`output, stream`plan, stream`open, msg`data
    ensures r == -1 || r == |old(msg.data)| + 2
    ensures r > 0 ==>
              && stream.output == old(stream.output) + Frame(msg.opcode, fin, if client then Some(key) else None, old(msg.data))
              && stream.open == old(stream.open)
              && msg.data == (if client then Mask(old(msg.data), key) else old(msg.data))
    ensures r == -1 ==> !stream.open
    ensures old(msg.data) == [] ==> r == -1
    ensures Healthy(old(stream.plan)) ==>
              && Healthy(stream.plan) && (old(msg.data) != [] ==> r > 0)
              && stream.output == old(stream.output) + Frame(msg.opcode, fin, if client then Some(key) else None, old(msg.data))
  {
    var size := |msg.data|;
    ghost var plain, start := msg.data, stream.output;
    var head := [HeadByte(msg.opcode, fin), LengthByte(size, client)];
    var sent := stream.WriteFixSize(head);
    if sent <= 0 {
      stream.Close();
      return -1;
    }
    if size >= 126 {
      sent := stream.WriteFixSize(LengthBytes(size));
      if sent <= 0 {
        stream.Close();
        return -1;
      }
    }
    AppendNil(start + head);
    ghost var out := start + head + LengthBytes(size);
    assert stream.output == out;
    if client {
      msg.MaskInPlace(key);
      sent := stream.WriteFixSize(key);
      if sent <= 0 {
        stream.Close();
        return -1;
      }
    }
    AppendNil(out);
    assert stream.output == out + KeyBytes(if client then Some(key) else None);
    Assembled(start, msg.opcode, fin, if client then Some(key) else None, plain);
    sent := stream.WriteFixSize(msg.data);
    if sent <= 0 {
      stream.Close();
      return -1;
    }
    r := size + 2;
  }

  lemma AppendNil(x: seq<byte>)
    ensures x + [] == x
  {
  }

  /** The pieces WSSendMessage writes one after the other make up the frame. */
  lemma Assembled(start: seq<byte>, opcode: nat, fin: bool, key: Option<Key>, data: seq<byte>)
    ensures start + [HeadByte(opcode, fin), LengthByte(|data|, key.Some?)] + LengthBytes(|data|) + KeyBytes(key) + Masked(data, key)
            == start + Frame(opcode, fin, key, data)
  {
    Regroup5(start, [HeadByte(opcode, fin), LengthByte(|data|, key.Some?)], LengthBytes(|data|), KeyBytes(key), Masked(data, key));
  }

  lemma Regroup5(a: seq<byte>, b: seq<byte>, c: seq<byte>, d: seq<byte>, e: seq<byte>)
    ensures a + b + c + d + e == a + (b + (c + d + e))
  {
  }

  /**
    A client that sends one message object twice does not send the message twice: the second frame
    carries the masked data, which is the message only if the first key left it alone.
   */
  lemma ResendCarriesMasked(data: seq<byte>, key: Key, key': Key, rest: seq<byte>)
    requires 0 < |data| < MAX_SIZE
    ensures var second := Frame(TEXT_FRAME, true, Some(key'), Mask(data, key));
            Receive(second + rest, false, Partial(0, [], 0)) == Got(TEXT_FRAME, data, 0, rest) <==>
            forall i :: 0 <= i < |data| ==> key[i % 4] == 0
  {
    var sent := Mask(data, key);
    DataItemStep(TEXT_FRAME, Some(key'), sent, true, rest, false, Partial(0, [], 0));
    assert [] + sent == sent;
    MaskChanges(data, key);
  }

  /** The receiver's in-place unmasking of the bytes from `from` on. */
  method Unmask(data: seq<byte>, from: nat, key: Key) returns (r: seq<byte>)
    requires from <= |data|
    ensures r == data[..from] + Mask(data[from..], key)
  {
    r := data;
    var i := 0;
    while from + i < |data|
      invariant 0 <= i && from + i <= |data| == |r|
      invariant forall j :: 0 <= j < |data| ==>
                  r[j] == if from <= j < from + i then Xor(data[j], key[(j - from) % 4]) else data[j]
    {
      r := r[from + i := Xor(r[from + i], key[i % 4])];
      i := i + 1;
    }
  }

  /** A read in which nothing may be wanted: readFixSize returns 0 then, and the caller gives up. */
  method ReadExactly(stream: Stream, n: nat) returns (data: seq<byte>, ok: bool)
    modifies stream`input, stream`plan
    ensures ok ==> 0 < n <= |old(stream.input)| && data == old(stream.input)[..n] && stream.input == old(stream.input)[n..]
    ensures Healthy(old(stream.plan)) ==> Healthy(stream.plan) && (0 < n <= |old(stream.input)| ==> ok)
  {
    var r;
    data, r := stream.ReadFixSize(n);
    ok := r > 0;
  }

  /** The extended length, when the length field announces one. */
  method ReadLength(stream: Stream, payload: nat) returns (length: nat, ok: bool)
    requires payload < 128
    modifies stream`input, stream`plan
    ensures Healthy(old(stream.plan)) ==> Healthy(stream.plan) && (ExtraLength(payload) <= |old(stream.input)| ==> ok)
    ensures ok ==>
              var s, extra := old(stream.input), ExtraLength(payload);
              extra <= |s| && length == LengthOf(payload, s[..extra]) && stream.input == s[extra..]
  {
    if payload == 126 || payload == 127 {
      var n := if payload == 126 then 2 else 8;
      var bytes;
      bytes, ok := ReadExactly(stream, n);
      if !ok {
        return 0, false;
      }
      length := ByteSwap(FromLittle(bytes), n);
    } else {
      length, ok := payload, true;
    }
  }

  /** The outcome of a data frame's method agrees with that on flat bytes; an unhealthy transport may break off. */
  ghost predicate AgreesWith(r: DataRead, t: FrameRead, data: seq<byte>, left: seq<byte>, healthy: bool) {
    match t
    case Read(more, rest) => (r == Extended(data + more) && left == rest) || (r == Rejected && !healthy)
    case Refused => r == Rejected
    case Wraps => r == WrapsAround || (r == Rejected && !healthy)
  }

  /** Mask key and payload of one data frame, appended to the data received so far. */
  method ReadPayload(stream: Stream, masked: bool, length: nat, wraps: bool, data: seq<byte>) returns (r: DataRead)
    modifies stream`input, stream`plan
    ensures Healthy(old(stream.plan)) ==> Healthy(stream.plan)
    ensures AgreesWith(r, ReadKeyed(old(stream.input), masked, length, wraps), data, stream.input, Healthy(old(stream.plan)))
  {
    ghost var s := stream.input;
    var key: seq<byte>, ok := [0, 0, 0, 0], true;
    if masked {
      key, ok := ReadExactly(stream, 4);
      if !ok {
        return Rejected;
      }
    }
    assert stream.input == s[if masked then 4 else 0..];
    if wraps {
      return WrapsAround;
    }
    var more;
    more, ok := ReadExactly(stream, length);
    if !ok {
      return Rejected;
    }
    var all := data + more;
    if masked {
      assert s[4..][..length] == s[4..4 + length] && s[4..][length..] == s[4 + length..];
      assert all[..|data|] == data && all[|data|..] == more;
      all := Unmask(all, |data|, key);
    }
    r := Extended(all);
  }

  /** The body of the receive loop for a data frame whose header has been read. */
  method ReceiveData(stream: Stream, payload: nat, masked: bool, data: seq<byte>) returns (r: DataRead)
    requires payload < 128
    modifies stream`input, stream`plan
    ensures Healthy(old(stream.plan)) ==> Healthy(stream.plan)
    ensures AgreesWith(r, ReadData(old(stream.input), payload, masked, |data|), data, stream.input, Healthy(old(stream.plan)))
  {
    var length, ok := ReadLength(stream, payload);
    if !ok {
      return Rejected;
    }
    var total := |data| + length;
    if total % TWO_64 >= MAX_SIZE {
      return Rejected;
    }
    r := ReadPayload(stream, masked, length, total >= TWO_64, data);
  }

  datatype DataRead = Extended(all: seq<byte>) | Rejected | WrapsAround

  datatype Result = Message(opcode: nat, data: seq<byte>) | NoMessage | OutOfBounds

  function Pongs(n: nat): seq<byte> {
    if n == 0 then [] else Pongs(n - 1) + Control(PONG)
  }

  /** What the caller sees of an outcome. */
  function Visible(t: Received): Result {
    match t
    case Got(opcode, data, _, _) => Message(opcode, data)
    case Closed => NoMessage
    case Overflow => OutOfBounds
  }

  /** How one pass of the loop in WSRecvMessage ends. */
  datatype Pass = Continue(opcode: nat, data: seq<byte>, ponged: bool) | Return(opcode: nat, data: seq<byte>) | Break | Bounds

  /** One pass of the loop in WSRecvMessage: read a header, then act on its opcode. */
  method ReceiveFrame(stream: Stream, client: bool, opcode: nat, data: seq<byte>, ghost pongs: nat) returns (r: Pass)
    modifies stream`input, stream`output, stream`plan
    ensures Healthy(old(stream.plan)) ==> Healthy(stream.plan)
    ensures PassAgrees(r, FrameStep(old(stream.input), client, Partial(opcode, data, pongs)), pongs, stream.input, Healthy(old(stream.plan)))
    ensures r.Continue? && r.ponged ==> stream.output == old(stream.output) + Control(PONG)
    ensures (r.Continue? && !r.ponged) || r.Return? ==> stream.output == old(stream.output)
  {
    ghost var s := stream.input;
    var head, ok := ReadExactly(stream, 2);
    if !ok {
      return Break;
    }
    assert head[0] == s[0] && head[1] == s[1];
    var op, fin, payload, masked := head[0] % 16, head[0] >= 128, head[1] % 128, head[1] >= 128;
    if op == PING {
      var sent := stream.WriteFixSize(Control(PONG));
      if sent <= 0 {
        return Break;
      }
      return Continue(opcode, data, true);
    } else if op == PONG {
      return Continue(opcode, data, false);
    } else if op == CONTINUE || op == TEXT_FRAME || op == BIN_FRAME {
      r := ReceiveFragment(stream, client, op, fin, payload, masked, opcode, data, pongs);
    } else {
      return Continue(opcode, data, false);
    }
  }

  /** A pass agrees with the step on flat bytes; an unhealthy transport may break off. */
  ghost predicate PassAgrees(r: Pass, t: Step, pongs: nat, left: seq<byte>, healthy: bool) {
    match t
    case More(p, rest) =>
      || (r == Break && !healthy)
      || (r.Continue? && p == Partial(r.opcode, r.data, if r.ponged then pongs + 1 else pongs) && left == rest)
    case Done(p, rest) => (r == Break && !healthy) || (r.Return? && p == Partial(r.opcode, r.data, pongs) && left == rest)
    case Stop => r == Break
    case Wrapped => r == Bounds || (r == Break && !healthy)
  }

  /** The branch of the pass for a data frame. */
  method ReceiveFragment(stream: Stream, client: bool, op: nat, fin: bool, payload: nat, masked: bool, opcode: nat, data: seq<byte>, ghost pongs: nat)
    returns (r: Pass)
    requires payload < 128
    modifies stream`input, stream`plan
    ensures Healthy(old(stream.plan)) ==> Healthy(stream.plan)
    ensures PassAgrees(r, DataStep(old(stream.input), op, fin, payload, masked, client, Partial(opcode, data, pongs)),
                       pongs, stream.input, Healthy(old(stream.plan)))
    ensures !(r.Continue? && r.ponged)
  {
    if !client && !masked {
      return Break;
    }
    var got := ReceiveData(stream, payload, masked, data);
    if got.WrapsAround? {
      return Bounds;
    }
    if got.Rejected? {
      return Break;
    }
    var first := if opcode == 0 && op != CONTINUE then op else opcode;
    return if fin then Return(first, got.all) else Continue(first, got.all, false);
  }

  /** One pass, in terms of what the whole receive yields from here on. */
  method ReceivePass(stream: Stream, client: bool, opcode: nat, data: seq<byte>, ghost pongs: nat) returns (r: Pass)
    modifies stream`input, stream`output, stream`plan
    ensures Healthy(old(stream.plan)) ==> Healthy(stream.plan)
    ensures r.Continue? && r.ponged ==> stream.output == old(stream.output) + Control(PONG)
    ensures (r.Continue? && !r.ponged) || r.Return? ==> stream.output == old(stream.output)
    ensures var t := Receive(old(stream.input), client, Partial(opcode, data, pongs));
            match r
            case Continue(op, all, ponged) =>
              |stream.input| < |old(stream.input)| && t == Receive(stream.input, client, Partial(op, all, if ponged then pongs + 1 else pongs))
            case Return(op, all) => t == Got(op, all, pongs, stream.input)
            case Break => t == Closed || !Healthy(old(stream.plan))
            case Bounds => t == Overflow
  {
    r := ReceiveFrame(stream, client, opcode, data, pongs);
  }

  /** WSRecvMessage over a stream. */
  method RecvMessage(stream: Stream, client: bool) returns (r: Result)
    modifies stream`input, stream`output, stream`plan, stream`open
    ensures var t := Receive(old(stream.input), client, Partial(0, [], 0));
            && (Healthy(old(stream.plan)) || r.Message? ==> r == Visible(t))
            && (r.Message? ==> t.Got? && stream.input == t.rest && stream.output == old(stream.output) + Pongs(t.pongs))
    ensures r.NoMessage? ==> !stream.open
  {
    ghost var t, pongs := Receive(stream.input, client, Partial(0, [], 0)), 0;
    var opcode, data := 0, [];
    assert stream.output == old(stream.output) + Pongs(0);
    while true
      invariant t == Receive(stream.input, client, Partial(opcode, data, pongs))
      invariant stream.output == old(stream.output) + Pongs(pongs)
      invariant Healthy(old(stream.plan)) ==> Healthy(stream.plan)
      decreases |stream.input|
    {
      var pass := ReceivePass(stream, client, opcode, data, pongs);
      if pass.Break? {
        stream.Close();
        return NoMessage;
      }
      if pass.Bounds? {
        return OutOfBounds;
      }
      if pass.Return? {
        return Message(pass.opcode, pass.data);
      }
      opcode, data := pass.opcode, pass.data;
      if pass.ponged {
        PongsStep(old(stream.output), pongs);
        pongs := pongs + 1;
      }
    }
  }

  lemma PongsStep(out: seq<byte>, n: nat)
    ensures (out + Pongs(n)) + Control(PONG) == out + Pongs(n + 1)
  {
  }

  // ---------------------------------------------------------------- both ends

  /** WSPing and WSPong. */
  method SendControl(stream: Stream, opcode: nat) returns (r: int)
    modifies stream`output, stream`plan, stream`open
    ensures r == 2 || (r == 0 && !stream.open && !Healthy(old(stream.plan)))
    ensures r == 2 ==> stream.output == old(stream.output) + Control(opcode) && stream.open == old(stream.open)
    ensures Healthy(old(stream.plan)) ==> Healthy(stream.plan)
  {
    r := stream.WriteFixSize(Control(opcode));
    if r <= 0 {
      stream.Close();
    }
  }

  /** The items that one side sends: a client masks its data frames, a server does not. */
  predicate FromSide(items: seq<Item>, client: bool) {
    forall i :: 0 <= i < |items| ==> Sendable(items[i], !client) && (items[i].Data? ==> items[i].key.Some? == client)
  }

  predicate IsEmpty(item: Item) { item.Data? && item.data == [] }

  /** What gets on the wire: sending stops behind the header of the first empty fragment. */
  function Sent(items: seq<Item>): seq<byte> {
    if items == [] then []
    else Encode(items[0], |items| == 1) + if IsEmpty(items[0]) then [] else Sent(items[1..])
  }

  lemma {:induction false} SentWire(items: seq<Item>)
    requires NonEmpty(items)
    ensures Sent(items) == Wire(items)
    decreases |items|
  {
    if items != [] {
      ItemsStep(items, true);
      SentWire(items[1..]);
    }
  }

  /** One item. */
  method SendItem(stream: Stream, item: Item, client: bool, fin: bool) returns (ok: bool)
    requires Sendable(item, !client) && (item.Data? ==> item.key.Some? == client && |item.data| < TWO_64)
    modifies stream`output, stream`plan, stream`open
    ensures ok ==> !IsEmpty(item) && stream.output == old(stream.output) + Encode(item, fin)
    ensures Healthy(old(stream.plan)) ==>
              Healthy(stream.plan) && ok == !IsEmpty(item) && stream.output == old(stream.output) + Encode(item, fin)
  {
    if item.Data? {
      var msg := new FrameMessage(item.opcode, item.data);
      var key := if client then item.key.value else [0, 0, 0, 0];
      var r := SendMessage(stream, msg, client, fin, key);
      ok := r > 0;
    } else {
      var r := SendControl(stream, if item.Ping? then PING else PONG);
      ok := r > 0;
    }
  }

  lemma SentStep(items: seq<Item>, i: nat, out: seq<byte>)
    requires i < |items|
    ensures var later := if IsEmpty(items[i]) then [] else Sent(items[i + 1..]);
            out + Sent(items[i..]) == (out + Encode(items[i], i + 1 == |items|)) + later
    ensures NonEmpty(items[i..]) <==> !IsEmpty(items[i]) && NonEmpty(items[i + 1..])
    ensures |Joined(items[i..])| == (if items[i].Data? then |items[i].data| else 0) + |Joined(items[i + 1..])|
  {
    assert items[i..][1..] == items[i + 1..];
    ItemsStep(items[i..], true);
    Regroup(out, Encode(items[i], i + 1 == |items|), if IsEmpty(items[i]) then [] else Sent(items[i + 1..]));
  }

  /** A message sent as fragments with control frames in between, by WSSendMessage, WSPing and WSPong; it stops when one fails. */
  method SendItems(stream: Stream, items: seq<Item>, client: bool) returns (sent: bool)
    requires FromSide(items, client) && |Joined(items)| < TWO_64
    modifies stream`output, stream`plan, stream`open
    ensures sent ==> NonEmpty(items) && stream.output == old(stream.output) + Wire(items)
    ensures Healthy(old(stream.plan)) ==>
              Healthy(stream.plan) && sent == NonEmpty(items) && stream.output == old(stream.output) + Sent(items)
  {
    ghost var all := old(stream.output) + Sent(items);
    assert items[0..] == items;
    var i := 0;
    while i < |items|
      invariant 0 <= i <= |items| && stream.output + Sent(items[i..]) == all
      invariant (NonEmpty(items) <==> NonEmpty(items[i..])) && |Joined(items[i..])| < TWO_64
      invariant Healthy(old(stream.plan)) ==> Healthy(stream.plan)
    {
      SentStep(items, i, stream.output);
      var ok := SendItem(stream, items[i], client, i + 1 == |items|);
      AppendNil(stream.output);
      if !ok {
        return false;
      }
      i := i + 1;
    }
    AppendNil(stream.output);
    SentWire(items);
    sent := true;
  }

  /** What got on the wire is received as the whole message, or not at all. */
  lemma {:induction false} ReceiveSent(items: seq<Item>, client: bool, p: Partial)
    requires items != [] && AllSendable(items, client) && !NonEmpty(items) && |p.data| + |Joined(items)| < TWO_64
    ensures Receive(Sent(items), client, p) == Closed
    decreases |items|
  {
    ItemsStep(items, client);
    var item, fin := items[0], |items| == 1;
    var later := if IsEmpty(item) then [] else Sent(items[1..]);
    ItemStep(item, fin, later, client, p);
    if !IsEmpty(item) { ReceiveSent(items[1..], client, Add(item, p)); }
  }

  lemma SideSendable(items: seq<Item>, client: bool)
    requires FromSide(items, client)
    ensures AllSendable(items, !client)
  {
  }

  /** Everything that was sent, as WSRecvMessage sees it. */
  lemma ReceiveAllSent(items: seq<Item>, client: bool)
    requires items != [] && items[|items| - 1].Data? && AllSendable(items, client) && |Joined(items)| < TWO_64
    ensures Receive(Sent(items), client, Partial(0, [], 0)) ==
            if NonEmpty(items) && |Joined(items)| < MAX_SIZE then Got(FirstOpcode(items), Joined(items), PingCount(items), []) else Closed
  {
    if NonEmpty(items) {
      SentWire(items);
      ReceiveMessage(items, [], client);
      AppendNil(Wire(items));
    } else {
      ReceiveSent(items, client, Partial(0, [], 0));
    }
  }

  /**
    Both ends together: fragments, pings and pongs sent over one transport and received over another, each
    with its own way of splitting transfers.  Sending succeeds if and only if no fragment is empty.  The
    message arrives as the concatenation under the first opcode, with a pong for every ping and nothing
    left over, if and only if moreover it is below the maximum; otherwise nothing arrives.
   */
  method SendAndReceive(items: seq<Item>, client: bool, sendPlan: seq<nat>, recvPlan: seq<nat>)
    returns (sent: bool, r: Result, pongs: seq<byte>, left: seq<byte>)
    requires items != [] && items[|items| - 1].Data? && FromSide(items, client) && |Joined(items)| < TWO_64
    requires Healthy(sendPlan) && Healthy(recvPlan)
    ensures sent <==> NonEmpty(items)
    ensures r == if NonEmpty(items) && |Joined(items)| < MAX_SIZE then Message(FirstOpcode(items), Joined(items)) else NoMessage
    ensures r.Message? ==> pongs == Pongs(PingCount(items)) && left == []
  {
    var sender := new Stream([], sendPlan);
    sent := SendItems(sender, items, client);
    PrependNil(Sent(items));
    SideSendable(items, client);
    ReceiveAllSent(items, !client);
    var receiver := new Stream(sender.output, recvPlan);
    r := RecvMessage(receiver, !client);
    PrependNil(Pongs(PingCount(items)));
    pongs, left := receiver.output, receiver.input;
  }
}
