/**
  Whole runs of a byte array against one flat byte sequence: every sequence of write, read,
  setPosition and clear gives the results, bytes, position and size that the flat model allows.
 */
module FlatRuns {
  import opened Common
  import opened Blocks

  /** The flat model: the data, the position in them, and how far the position may be moved. */
  datatype Flat = Flat(bytes: seq<byte>, position: nat, capacity: nat)

  datatype Op = Write(data: seq<byte>) | Read(n: nat) | SetPosition(v: nat) | Clear

  /** NullCursor stands for the dereference of the null block pointer; it ends a run. */
  datatype Out = Done | Got(data: seq<byte>) | OutOfRange | NullCursor

  function Overwritten(bytes: seq<byte>, p: nat, x: seq<byte>): seq<byte>
    requires p <= |bytes|
  {
    bytes[..p] + x + if p + |x| <= |bytes| then bytes[p + |x|..] else []
  }

  /** What one operation may do. */
  ghost predicate Step(base: nat, s: Flat, op: Op, out: Out, s': Flat) {
    s.position <= |s.bytes| &&
    match op
    case Write(x) =>
      && out == Done && s'.position == s.position + |x|
      && s'.bytes == Overwritten(s.bytes, s.position, x)
      && s'.position <= s'.capacity
      && (s'.capacity == s.capacity || s'.capacity - base < s'.position)       // grown by the fewest blocks
    case Read(n) =>
      if n > |s.bytes| - s.position then out == OutOfRange && s' == s
      else if n == 0 && s.position == s.capacity then out == NullCursor && s' == s
      else out == Got(s.bytes[s.position..s.position + n]) && s' == s.(position := s.position + n)
    case SetPosition(v) =>
      if v > s.capacity then out == OutOfRange && s' == s
      else
        && out == Done && s'.position == v && s'.capacity == s.capacity
        && |s'.bytes| == Max(|s.bytes|, v) && s.bytes <= s'.bytes              // bytes never written may appear
    case Clear => out == Done && s' == Flat([], 0, base)
  }

  ghost function Value(ba: ByteArray): Flat
    requires ba.size <= |ba.contents|
    reads ba
  {
    Flat(ba.Bytes(), ba.position, ba.capacity)
  }

  lemma OverwritesFlat(c: seq<byte>, size: nat, p: nat, x: seq<byte>, c': seq<byte>)
    requires p <= size <= |c| && Overwrites(c, p, x, c')
    ensures c'[..Max(size, p + |x|)] == Overwritten(c[..size], p, x)
  {
    var r := Overwritten(c[..size], p, x);
    forall i | 0 <= i < |r| ensures c'[i] == r[i] {
      if p <= i < p + |x| { assert c'[p + (i - p)] == x[i - p]; }
    }
  }

  method ApplyWrite(ba: ByteArray, x: seq<byte>) returns (out: Out)
    requires ba.Valid()
    modifies ba, ba.Repr
    ensures ba.Valid() && fresh(ba.Repr - old(ba.Repr))
    ensures Step(ba.baseSize, old(Value(ba)), Write(x), out, Value(ba))
  {
    ba.Write(x);
    OverwritesFlat(old(ba.contents), old(ba.size), old(ba.position), x, ba.contents);
    out := Done;
  }

  method ApplyRead(ba: ByteArray, n: nat) returns (out: Out)
    requires ba.Valid()
    modifies ba`position, ba`cur, ba`at
    ensures ba.Valid()
    ensures Step(ba.baseSize, old(Value(ba)), Read(n), out, Value(ba))
  {
    if n == 0 && ba.position == ba.capacity {
      return NullCursor;
    }
    var got := ba.Read(n);
    out := if got.Some? then Got(got.value) else OutOfRange;
  }

  method Apply(ba: ByteArray, op: Op) returns (out: Out)
    requires ba.Valid()
    modifies ba, ba.Repr
    ensures ba.Valid() && fresh(ba.Repr - old(ba.Repr))
    ensures Step(ba.baseSize, old(Value(ba)), op, out, Value(ba))
  {
    match op
    case Write(x) => out := ApplyWrite(ba, x);
    case Read(n) => out := ApplyRead(ba, n);
    case SetPosition(v) =>
      var ok := ba.SetPosition(v);
      out := if ok then Done else OutOfRange;
    case Clear =>
      ba.Clear();
      out := Done;
  }

  /** A run of the flat model. */
  ghost predicate FlatRun(base: nat, ops: seq<Op>, outs: seq<Out>, trace: seq<Flat>) {
    && |trace| == |outs| + 1 && |outs| <= |ops|
    && trace[0] == Flat([], 0, base)
    && forall i :: 0 <= i < |outs| ==> Step(base, trace[i], ops[i], outs[i], trace[i + 1])
  }

  /** Every run of the block list is a run of the flat model, to its end or to the first null cursor. */
  method Run(base: nat, ops: seq<Op>) returns (outs: seq<Out>, ghost trace: seq<Flat>)
    requires base > 0
    ensures FlatRun(base, ops, outs, trace)
    ensures |outs| == |ops| || (outs != [] && outs[|outs| - 1] == NullCursor)
  {
    var ba := new ByteArray(base);
    outs := [];
    trace := [Value(ba)];
    while |outs| < |ops|
      invariant ba.Valid() && ba.baseSize == base && fresh(ba) && fresh(ba.Repr)
      invariant FlatRun(base, ops, outs, trace) && trace[|outs|] == Value(ba)
      decreases |ops| - |outs|
    {
      var out := Apply(ba, ops[|outs|]);
      outs := outs + [out];
      trace := trace + [Value(ba)];
      if out == NullCursor {
        return;
      }
    }
  }
}
