/**
  The transfer loops of yk/stream.cc over the primitive transfers of yk/socket_stream.cc.

  A `Stream` is one end of a connection: `input` is what the peer has sent and we have not read,
  `output` what we have sent.  `plan` says how the transport splits the transfers: each primitive
  transfer moves at most plan[0] bytes and uses up that entry, 0 meaning that the peer is gone.
 */
module Streams {
  import opened Common
  import opened Blocks
  import opened Codec

  /** A transport that never gives up, however it splits the transfers. */
  ghost predicate Healthy(plan: seq<nat>) {
    forall i :: 0 <= i < |plan| ==> plan[i] > 0
  }

  function Min(a: nat, b: nat): nat { if a < b then a else b }

  class Stream {
    var input: seq<byte>
    var output: seq<byte>
    var plan: seq<nat>
    var open: bool

    constructor (received: seq<byte>, splits: seq<nat>)
      ensures input == received && output == [] && plan == splits && open
    {
      input, output, plan, open := received, [], splits, true;
    }

    method Close()
      modifies this`open
      ensures !open
    {
      open := false;
    }

    /** How many of `wanted` bytes the next primitive transfer moves. */
    method Grant(wanted: nat) returns (n: nat)
      modifies this`plan
      ensures n <= wanted
      ensures Healthy(old(plan)) ==> Healthy(plan) && (wanted > 0 ==> n > 0)
    {
      if plan == [] {
        n := wanted;
      } else {
        n := Min(wanted, plan[0]);
        plan := plan[1..];
      }
    }

    /** recv into a plain buffer: some of the available bytes, none at the end of the input. */
    method ReadSome(wanted: nat) returns (data: seq<byte>)
      modifies this`input, this`plan
      ensures |data| <= wanted && old(input) == data + input
      ensures Healthy(old(plan)) ==> Healthy(plan) && (wanted > 0 && old(input) != [] ==> data != [])
    {
      var n := Grant(Min(wanted, |input|));
      data := input[..n];
      input := input[n..];
    }

    /** send from a plain buffer. */
    method WriteSome(data: seq<byte>) returns (n: nat)
      modifies this`output, this`plan
      ensures n <= |data| && output == old(output) + data[..n]
      ensures Healthy(old(plan)) ==> Healthy(plan) && (data != [] ==> n > 0)
    {
      n := Grant(|data|);
      output := output + data[..n];
    }

    /**
      Reads exactly `length` bytes: returns `length`, or 0 when the peer is gone.
      Reading nothing returns 0 as well.
     */
    method ReadFixSize(length: nat) returns (data: seq<byte>, r: nat)
      modifies this`input, this`plan
      ensures old(input) == data + input
      ensures r == (if |data| == length then length else 0) && |data| <= length
      ensures Healthy(old(plan)) ==> Healthy(plan) && (length <= |old(input)| ==> r == length)
      ensures Follows(false, length, r, |data|)
    {
      data := [];
      var left := length;
      ghost var rets: seq<int> := [];
      while left > 0
        invariant 0 <= left && |data| + left == length && old(input) == data + input
        invariant Healthy(old(plan)) ==> Healthy(plan)
        invariant length + 1 < TWO_64 ==> Turned(false, length, rets, left, |data|)
        decreases left
      {
        var got := ReadSome(left);
        rets := TurnOnce(false, length, rets, left, |data|, |got|);
        if |got| == 0 {
          return data, 0;
        }
        Regroup(data, got, input);
        data := data + got;
        left := left - |got|;
      }
      r := length;
    }

    /** Writes the whole buffer: returns its length, or 0 when the peer is gone. */
    method WriteFixSize(data: seq<byte>) returns (r: nat)
      modifies this`output, this`plan
      ensures r == |data| || r == 0
      ensures r == |data| ==> output == old(output) + data
      ensures exists k :: 0 <= k <= |data| && output == old(output) + data[..k] && Follows(true, |data|, r, k)
      ensures Healthy(old(plan)) ==> Healthy(plan) && r == |data|
    {
      var offset, left := 0, |data|;
      ghost var rets: seq<int> := [];
      assert data[..0] == [];
      while left > 0
        invariant 0 <= left && 0 <= offset && offset + left == |data|
        invariant output == old(output) + data[..offset]
        invariant Healthy(old(plan)) ==> Healthy(plan)
        invariant |data| + 1 < TWO_64 ==> Turned(true, |data|, rets, left, offset)
        decreases left
      {
        var n := WriteSome(data[offset..]);
        rets := TurnOnce(true, |data|, rets, left, offset, n);
        if n == 0 {
          return 0;
        }
        Regroup(old(output), data[..offset], data[offset..][..n]);
        assert data[..offset] + data[offset..][..n] == data[..offset + n];
        offset := offset + n;
        left := left - n;
      }
      assert data[..offset] == data;
      r := |data|;
    }

    /** recv into the write slices of a byte array, then move its position behind what arrived. */
    method ReadSomeInto(ba: ByteArray, wanted: nat) returns (n: nat, ghost data: seq<byte>)
      requires ba.Valid() && wanted > 0 && this !in ba.Repr
      modifies this`input, this`plan, ba, ba.Repr
      ensures ba.Valid() && fresh(ba.Repr - old(ba.Repr)) && old(ba.Repr) <= ba.Repr && ba.littleEndian == old(ba.littleEndian)
      ensures n == |data| <= wanted && old(input) == data + input
      ensures Healthy(old(plan)) ==> Healthy(plan) && (old(input) != [] ==> n > 0)
      ensures ba.position == old(ba.position) + n && ba.size == Max(old(ba.size), ba.position)
      ensures Overwrites(old(ba.contents), old(ba.position), data, ba.contents)
      ensures old(ba.position) + wanted <= ba.capacity
      ensures ba.capacity == old(ba.capacity) || ba.capacity - ba.baseSize < old(ba.position) + wanted
    {
      var slices := ba.GetWriteBuffers(wanted);
      var got := ReadSome(wanted);
      data := got;
      SpliceOverwrites(old(ba.contents), ba.contents, ba.position, got);
      StoreSlices(ba, slices, wanted, got);
      n := |got|;
    }

    /** What arrived goes into the first of the slices. */
    method StoreSlices(ba: ByteArray, slices: seq<Slice>, ghost wanted: nat, got: seq<byte>)
      requires ba.Valid() && this !in ba.Repr && |got| <= wanted && ba.position + wanted <= ba.capacity
      requires ba.Tiles(slices, ba.at, ba.position, wanted)
      modifies ba`contents, ba`position, ba`size, ba`cur, ba`at, ba.Repr
      ensures ba.Valid() && ba.position == old(ba.position) + |got| && ba.size == Max(old(ba.size), ba.position)
      ensures ba.contents == Splice(old(ba.contents), old(ba.position), got)
    {
      ba.Fill(slices, ba.at, ba.position, wanted, got);
      if |got| > 0 {
        var ok := ba.SetPosition(ba.position + |got|);
      }
    }

    /** The same behind `data`, which has been received before. */
    method ReadMoreInto(ba: ByteArray, wanted: nat, ghost start: seq<byte>, ghost p: nat, ghost data: seq<byte>)
      returns (n: nat, ghost data': seq<byte>)
      requires ba.Valid() && wanted > 0 && this !in ba.Repr
      requires ba.position == p + |data| && Overwrites(start, p, data, ba.contents)
      modifies this`input, this`plan, ba, ba.Repr
      ensures ba.Valid() && fresh(ba.Repr - old(ba.Repr)) && ba.littleEndian == old(ba.littleEndian)
      ensures |data'| == |data| + n && n <= wanted && data' + input == data + old(input)
      ensures Healthy(old(plan)) ==> Healthy(plan) && (old(input) != [] ==> n > 0)
      ensures ba.position == old(ba.position) + n && ba.size == Max(old(ba.size), ba.position)
      ensures Overwrites(start, p, data', ba.contents)
      ensures ba.capacity == old(ba.capacity) || ba.capacity - ba.baseSize < old(ba.position) + wanted
    {
      ghost var got;
      n, got := ReadSomeInto(ba, wanted);
      OverwritesMore(start, p, data, old(ba.contents), got, ba.contents);
      Regroup(data, got, input);
      data' := data + got;
    }

    /** Receives exactly `length` bytes into a byte array. */
    method ReadFixSizeInto(ba: ByteArray, length: nat) returns (r: nat, ghost data: seq<byte>)
      requires ba.Valid() && this !in ba.Repr
      modifies this`input, this`plan, ba, ba.Repr
      ensures ba.Valid() && fresh(ba.Repr - old(ba.Repr)) && ba.littleEndian == old(ba.littleEndian)
      ensures old(input) == data + input && |data| <= length && r == if |data| == length then length else 0
      ensures Healthy(old(plan)) ==> Healthy(plan) && (length <= |old(input)| ==> r == length)
      ensures ba.position == old(ba.position) + |data| && ba.size == Max(old(ba.size), ba.position)
      ensures Overwrites(old(ba.contents), old(ba.position), data, ba.contents)
      ensures ba.capacity == old(ba.capacity) || ba.capacity - ba.baseSize < old(ba.position) + length
      ensures Follows(false, length, r, |data|)
    {
      data := [];
      var left := length;
      ghost var rets: seq<int> := [];
      while left > 0
        invariant 0 <= left && |data| + left == length && old(input) == data + input
        invariant Healthy(old(plan)) ==> Healthy(plan)
        invariant ba.Valid() && fresh(ba.Repr - old(ba.Repr)) && ba.littleEndian == old(ba.littleEndian) && this !in ba.Repr
        invariant ba.position == old(ba.position) + |data| && ba.size == Max(old(ba.size), ba.position)
        invariant Overwrites(old(ba.contents), old(ba.position), data, ba.contents)
        invariant ba.capacity == old(ba.capacity) || ba.capacity - ba.baseSize < old(ba.position) + length
        invariant length + 1 < TWO_64 ==> Turned(false, length, rets, left, |data|)
        decreases left
      {
        ghost var moved := |data|;
        var n;
        n, data := ReadMoreInto(ba, left, old(ba.contents), old(ba.position), data);
        rets := TurnOnce(false, length, rets, left, moved, n);
        if n == 0 {
          return 0, data;
        }
        left := left - n;
      }
      r := length;
    }

    /** send the read slices of a byte array, which are clipped to its readable bytes, then move its position behind what went out. */
    method WriteSomeFrom(ba: ByteArray, wanted: nat) returns (n: nat)
      requires ba.Valid() && this !in ba.Repr && this != ba as object
      modifies this`output, this`plan, ba`position, ba`size, ba`cur, ba`at
      ensures ba.Valid() && ba.size == old(ba.size)
      ensures n <= wanted && ba.position == old(ba.position) + n <= ba.size
      ensures output == old(output) + ba.contents[old(ba.position)..ba.position]
      ensures Healthy(old(plan)) ==> Healthy(plan) && (wanted > 0 && old(ba.position) < ba.size ==> n > 0)
    {
      var slices, avail := ba.GetReadBuffers(wanted);
      n := Grant(avail);
      if n > 0 {
        SendSlices(ba, slices, avail, n);
      }
    }

    /** The first n bytes of the slices go out. */
    method SendSlices(ba: ByteArray, slices: seq<Slice>, ghost avail: nat, n: nat)
      requires ba.Valid() && this !in ba.Repr && this != ba as object
      requires 0 < n <= avail <= ba.size - ba.position && ba.Tiles(slices, ba.at, ba.position, avail)
      modifies this`output, ba`position, ba`size, ba`cur, ba`at
      ensures ba.Valid() && ba.size == old(ba.size) && ba.position == old(ba.position) + n
      ensures output == old(output) + ba.contents[old(ba.position)..ba.position]
    {
      var sent := ba.Drain(slices, ba.at, ba.position, avail, n);
      output := output + sent;
      var ok := ba.SetPosition(ba.position + n);
    }

    /**
      Sends exactly `length` bytes of a byte array: returns `length`, or 0 when the peer is gone -- or
      when there are fewer readable bytes, which have then been sent over a healthy transport.
     */
    method WriteFixSizeFrom(ba: ByteArray, length: nat) returns (r: nat)
      requires ba.Valid() && this !in ba.Repr && this != ba as object
      modifies this`output, this`plan, ba`position, ba`size, ba`cur, ba`at
      ensures ba.Valid() && ba.size == old(ba.size) && old(ba.position) <= ba.position <= ba.size
      ensures output == old(output) + ba.contents[old(ba.position)..ba.position]
      ensures r == (if ba.position == old(ba.position) + length then length else 0) && ba.position <= old(ba.position) + length
      ensures Healthy(old(plan)) ==> Healthy(plan) && ba.position == Min(old(ba.position) + length, ba.size)
      ensures Follows(false, length, r, ba.position - old(ba.position))
    {
      var left := length;
      ghost var rets: seq<int> := [];
      while left > 0
        invariant 0 <= left <= length && ba.Valid() && ba.size == old(ba.size)
        invariant ba.position == old(ba.position) + length - left
        invariant output == old(output) + ba.contents[old(ba.position)..ba.position]
        invariant Healthy(old(plan)) ==> Healthy(plan)
        invariant length + 1 < TWO_64 ==> Turned(false, length, rets, left, length - left)
        decreases left
      {
        ghost var p := ba.position;
        var n := WriteSomeFrom(ba, left);
        rets := TurnOnce(false, length, rets, left, length - left, n);
        SliceConcat(ba.contents, old(ba.position), p, ba.position);
        Regroup(old(output), ba.contents[old(ba.position)..p], ba.contents[p..ba.position]);
        if n == 0 {
          return 0;
        }
        left := left - n;
      }
      r := length;
    }
  }

  // ---------------------------------------------------------------- what the loops do with return values

  /** A fix-size loop that has returned a value, or that wants more turns; what has been moved, and how often an error came. */
  datatype Outcome =
    | Returns(value: nat, moved: nat, errors: nat)
    | Loops(left: nat, moved: nat, errors: nat)

  /**
    A fix-size loop run on the values that read() or write() returns, which go through a size_t before they
    are tested for <= 0.  `clips`: writeFixSize on a plain buffer, which has a test the other three lack.
   */
  function FixLoop(clips: bool, length: nat, left: nat, moved: nat, errors: nat, rets: seq<int>): Outcome
    decreases |rets|
  {
    if left == 0 then Returns(length, moved, errors)
    else if rets == [] then Loops(left, moved, errors)
    else
      var len := rets[0] % TWO_64;
      if len <= 0 then Returns(0, moved, errors)
      else
        FixLoop(clips, length, if clips && left <= len then 0 else (left - len) % TWO_64,
                if rets[0] > 0 then moved + rets[0] else moved, if rets[0] < 0 then errors + 1 else errors, rets[1..])
  }

  /** The same as the loop it is. */
  method FixLoopMethod(clips: bool, length: nat, rets: seq<int>) returns (o: Outcome)
    ensures o == FixLoop(clips, length, length, 0, 0, rets)
  {
    var left, moved, errors, i := length, 0, 0, 0;
    assert rets[0..] == rets;
    while left > 0
      invariant 0 <= left && 0 <= moved && 0 <= errors && 0 <= i <= |rets|
      invariant FixLoop(clips, length, length, 0, 0, rets) == FixLoop(clips, length, left, moved, errors, rets[i..])
      decreases |rets| - i
    {
      if i == |rets| {
        return Loops(left, moved, errors);
      }
      assert rets[i..][0] == rets[i] && rets[i..][1..] == rets[i + 1..];
      var len := rets[i] % TWO_64;
      if len <= 0 {
        return Returns(0, moved, errors);
      }
      if rets[i] > 0 {
        moved := moved + rets[i];
      }
      if rets[i] < 0 {
        errors := errors + 1;
      }
      if clips && left <= len {
        left := 0;
      } else {
        left := (left - len) % TWO_64;
      }
      i := i + 1;
    }
    o := Returns(length, moved, errors);
  }

  /** What a primitive transfer can return when it is asked for `left` bytes: an error, or how many it moved. */
  predicate Plausible(clips: bool, left: nat, rets: seq<int>)
    decreases |rets|
  {
    left == 0 || rets == [] ||
    (-1 <= rets[0] <= left && Plausible(clips, Next(clips, left, rets[0]), rets[1..]))
  }

  /** What is left to move afterwards. */
  function Next(clips: bool, left: nat, ret: int): nat {
    var len := ret % TWO_64;
    if clips && left <= len then 0 else (left - len) % TWO_64
  }

  /** An error makes the plain writer want nothing more, and the other loops want one byte more. */
  lemma NextIs(clips: bool, left: nat, ret: int)
    requires 0 < left && left + 1 < TWO_64 && -1 <= ret <= left
    ensures ret % TWO_64 <= 0 <==> ret == 0
    ensures Next(clips, left, ret) == if ret >= 0 then left - ret else if clips then 0 else left + 1
  {
    if ret >= 0 {
      ModSmall(ret, TWO_64);
      ModSmall(left - ret, TWO_64);
    } else {
      Remainder(-1, -1, TWO_64 - 1, TWO_64);
      Remainder(left - (TWO_64 - 1), -1, left + 1, TWO_64);
    }
  }

  /** The bytes moved by values that are no errors. */
  function Sum(rets: seq<int>): int {
    if rets == [] then 0 else rets[0] + Sum(rets[1..])
  }

  /** Value i is an error, and before it some bytes were moved each time, but not all. */
  predicate ErrorAt(left: nat, rets: seq<int>, i: nat) {
    i < |rets| && rets[i] == -1 && (forall j :: 0 <= j < i ==> rets[j] > 0) && Sum(rets[..i]) < left
  }

  ghost predicate HasError(left: nat, rets: seq<int>) {
    exists i: nat :: ErrorAt(left, rets, i)
  }

  lemma ErrorLater(left: nat, rets: seq<int>, i: nat)
    requires rets != [] && 0 < rets[0] <= left
    ensures ErrorAt(left, rets, i + 1) <==> ErrorAt(left - rets[0], rets[1..], i)
  {
    if i + 1 < |rets| {
      assert rets[..i + 1][1..] == rets[1..][..i];
      assert (forall j :: 0 <= j < i + 1 ==> rets[j] > 0) <==> (forall j :: 0 <= j < i ==> rets[1..][j] > 0) by {
        assert forall j :: 1 <= j < i + 1 ==> rets[j] == rets[1..][j - 1];
      }
    }
  }

  /**
    writeFixSize on a plain buffer reports that everything was written although it was not, if and only
    if an error comes before a 0 and before everything has been written.
   */
  lemma {:induction false} WriterLiesIff(length: nat, left: nat, moved: nat, rets: seq<int>)
    requires 0 < length && moved + left == length && length + 1 < TWO_64 && Plausible(true, left, rets)
    ensures var o := FixLoop(true, length, left, moved, 0, rets);
            (o.Returns? && o.value == length && o.moved < length) <==> HasError(left, rets)
    decreases |rets|
  {
    if left > 0 && rets != [] {
      NextIs(true, left, rets[0]);
      if rets[0] > 0 {
        WriterLiesIff(length, left - rets[0], moved + rets[0], rets[1..]);
        ErrorShift(left, rets);
      } else if rets[0] == -1 {
        assert rets[..0] == [] && ErrorAt(left, rets, 0);
      } else {
        assert forall i: nat :: ErrorAt(left, rets, i) ==> i == 0;
      }
    } else if left == 0 {
      forall i: nat ensures !ErrorAt(left, rets, i) { SumPositive(rets, i); }
    }
  }

  lemma ErrorShift(left: nat, rets: seq<int>)
    requires rets != [] && 0 < rets[0] <= left
    ensures HasError(left, rets) <==> HasError(left - rets[0], rets[1..])
  {
    if HasError(left, rets) {
      var i: nat :| ErrorAt(left, rets, i);
      assert i > 0;
      ErrorLater(left, rets, i - 1);
      assert ErrorAt(left - rets[0], rets[1..], i - 1);
    }
    var rest := rets[1..];
    if HasError(left - rets[0], rest) {
      var i: nat :| ErrorAt(left - rets[0], rest, i);
      ErrorLater(left, rets, i);
      assert ErrorAt(left, rets, i + 1);
    }
  }

  lemma {:induction false} SumPositive(rets: seq<int>, i: nat)
    ensures i <= |rets| && (forall j :: 0 <= j < i ==> rets[j] > 0) ==> Sum(rets[..i]) >= 0
    decreases i
  {
    if 0 < i <= |rets| && forall j :: 0 <= j < i ==> rets[j] > 0 {
      assert rets[..i][1..] == rets[1..][..i - 1];
      SumPositive(rets[1..], i - 1);
    }
  }

  /**
    The other three loops return `length` only when that many bytes and one more for every error have
    been moved, so after an error they go beyond the buffer or keep looping; they return 0 only for a 0.
   */
  lemma {:induction false} OthersOverrun(length: nat, left: nat, moved: nat, errors: nat, rets: seq<int>)
    requires moved + left == length + errors && length + errors + |rets| + 1 < TWO_64 && Plausible(false, left, rets)
    ensures var o := FixLoop(false, length, left, moved, errors, rets);
            && (o.Returns? && o.value > 0 ==> o.value == length && o.moved == length + o.errors)
            && (o.Returns? && o.value == 0 && length > 0 ==> 0 in rets)
            && (o.Loops? ==> o.moved + o.left == length + o.errors)
    decreases |rets|
  {
    if left > 0 && rets != [] {
      NextIs(false, left, rets[0]);
      if rets[0] != 0 {
        OthersOverrun(length, Next(false, left, rets[0]), if rets[0] > 0 then moved + rets[0] else moved,
                      if rets[0] < 0 then errors + 1 else errors, rets[1..]);
      }
    }
  }

  /** Errors alone keep them looping for ever. */
  lemma {:induction false} ErrorsKeepLooping(length: nat, left: nat, moved: nat, errors: nat, rets: seq<int>)
    requires 0 < left && left + |rets| + 1 < TWO_64 && forall i :: 0 <= i < |rets| ==> rets[i] == -1
    ensures FixLoop(false, length, left, moved, errors, rets) == Loops(left + |rets|, moved, errors + |rets|)
    decreases |rets|
  {
    if rets != [] {
      NextIs(false, left, -1);
      ErrorsKeepLooping(length, left + 1, moved, errors + 1, rets[1..]);
    }
  }

  // ---------------------------------------------------------------- the loops of Stream are these loops

  /** The loop has come this far on values that are no errors. */
  ghost predicate Turned(clips: bool, length: nat, rets: seq<int>, left: nat, moved: nat) {
    FixLoop(clips, length, length, 0, 0, rets) == if left == 0 then Returns(length, moved, 0) else Loops(left, moved, 0)
  }

  /** A loop of Stream returned r after moving so many bytes: so does the loop above on some values that are no errors. */
  ghost predicate Follows(clips: bool, length: nat, r: nat, moved: nat) {
    length + 1 < TWO_64 ==>
      exists rets: seq<int> :: FixLoop(clips, length, length, 0, 0, rets) == Returns(r, moved, 0)
  }

  lemma {:induction false} OneMore(clips: bool, length: nat, left0: nat, moved0: nat, rets: seq<int>, left: nat, moved: nat, n: nat)
    requires left + 1 < TWO_64 && n <= left && left > 0
    requires FixLoop(clips, length, left0, moved0, 0, rets) == Loops(left, moved, 0)
    ensures FixLoop(clips, length, left0, moved0, 0, rets + [n]) ==
            if n == 0 then Returns(0, moved, 0) else if left == n then Returns(length, moved + n, 0) else Loops(left - n, moved + n, 0)
    decreases |rets|
  {
    if rets == [] {
      NextIs(clips, left, n);
      assert (rets + [n])[1..] == [];
    } else {
      assert (rets + [n])[1..] == rets[1..] + [n];
      ErrorsGrow(clips, length, Next(clips, left0, rets[0]), if rets[0] > 0 then moved0 + rets[0] else moved0, if rets[0] < 0 then 1 else 0, rets[1..]);
      OneMore(clips, length, Next(clips, left0, rets[0]), if rets[0] > 0 then moved0 + rets[0] else moved0, rets[1..], left, moved, n);
    }
  }

  lemma {:induction false} ErrorsGrow(clips: bool, length: nat, left: nat, moved: nat, errors: nat, rets: seq<int>)
    ensures FixLoop(clips, length, left, moved, errors, rets).errors >= errors
    decreases |rets|
  {
    if left > 0 && rets != [] {
      ErrorsGrow(clips, length, Next(clips, left, rets[0]), if rets[0] > 0 then moved + rets[0] else moved,
                 if rets[0] < 0 then errors + 1 else errors, rets[1..]);
    }
  }

  lemma TurnOnce(clips: bool, length: nat, rets: seq<int>, left: nat, moved: nat, n: nat) returns (rets': seq<int>)
    requires length + 1 < TWO_64 ==> Turned(clips, length, rets, left, moved)
    requires 0 < left <= length && n <= left
    ensures if n == 0 then Follows(clips, length, 0, moved)
            else length + 1 < TWO_64 ==> Turned(clips, length, rets', left - n, moved + n)
  {
    rets' := rets + [n];
    if length + 1 < TWO_64 {
      OneMore(clips, length, length, 0, rets, left, moved, n);
    }
  }
}
