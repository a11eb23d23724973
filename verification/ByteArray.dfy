/**
  The block-list buffer of yk/bytearray.cc.

  A ByteArray is a linked list of blocks of `baseSize` bytes with a cursor.  The ghost field
  `contents` is the one flat byte sequence it stands for; every operation is specified on it.
 */
module Blocks {
  import opened Common

  // ---------------------------------------------------------------- flat sequences

  /** `c` with the bytes from `p` on overwritten by `x`. */
  function Splice(c: seq<byte>, p: nat, x: seq<byte>): (r: seq<byte>)
    requires p + |x| <= |c|
    ensures |r| == |c|
    decreases |x|
  {
    if x == [] then c else Splice(c[p := x[0]], p + 1, x[1..])
  }

  lemma {:induction false} SpliceAt(c: seq<byte>, p: nat, x: seq<byte>)
    requires p + |x| <= |c|
    ensures forall i :: 0 <= i < |c| ==> Splice(c, p, x)[i] == if p <= i < p + |x| then x[i - p] else c[i]
    decreases |x|
  {
    if x != [] { SpliceAt(c[p := x[0]], p + 1, x[1..]); }
  }

  /** Byte i of c, 0 outside c. */
  function At(c: seq<byte>, i: int): byte {
    if 0 <= i < |c| then c[i] else 0
  }

  lemma AtFront(c: seq<byte>, x: seq<byte>, i: nat)
    requires i < |c|
    ensures At(c + x, i) == At(c, i)
  {
  }

  lemma AtBack(c: seq<byte>, x: seq<byte>, i: nat)
    requires i < |x|
    ensures At(c + x, |c| + i) == x[i]
  {
  }

  /** Where block k starts when blocks have b bytes. */
  function Off(k: nat, b: nat): nat {
    if k == 0 then 0 else Off(k - 1, b) + b
  }

  lemma OffIsProduct(k: nat, b: nat)
    ensures Off(k, b) == k * b
  {
  }

  lemma OffAdd(i: nat, j: nat, b: nat)
    ensures Off(i + j, b) == Off(i, b) + Off(j, b)
  {
    if j > 0 { OffAdd(i, j - 1, b); }
  }

  /** Blocks i < j occupy disjoint ranges, the first before the second. */
  lemma BlocksOrdered(i: nat, j: nat, b: nat)
    requires i < j
    ensures Off(i, b) + b <= Off(j, b)
  {
    if i + 1 < j { BlocksOrdered(i, j - 1, b); }
  }

  lemma BlocksReach(i: nat, j: nat, b: nat)
    requires i <= j
    ensures Off(i, b) <= Off(j, b)
  {
    if i < j { BlocksReach(i, j - 1, b); }
  }

  lemma DivMod(p: nat, b: nat)
    requires b > 0
    ensures (p / b) * b + p % b == p && 0 <= p % b < b
  {
  }

  /** The fewest blocks of b bytes that hold n bytes. */
  function BlocksFor(n: nat, b: nat): (count: nat)
    requires n > 0 && b > 0
    ensures count > 0 && n <= Off(count, b) < n + b
  {
    var count := (n + b - 1) / b;
    DivMod(n + b - 1, b);
    OffIsProduct(count, b);
    count
  }

  lemma DivUnique(p: nat, b: nat, k: nat)
    requires b > 0 && Off(k, b) <= p < Off(k, b) + b
    ensures p / b == k && p % b == p - Off(k, b)
  {
    DivMod(p, b);
    OffIsProduct(p / b, b);
    if p / b < k { BlocksOrdered(p / b, k, b); }
    if k < p / b { BlocksOrdered(k, p / b, b); }
  }

  /** Overwriting with a prefix of buf and then with the next n bytes is overwriting with the longer prefix. */
  lemma SpliceMore(c: seq<byte>, p: nat, buf: seq<byte>, done: nat, n: nat)
    requires done + n <= |buf| && p + |buf| <= |c|
    ensures Splice(Splice(c, p, buf[..done]), p + done, buf[done..done + n]) == Splice(c, p, buf[..done + n])
  {
    SpliceAt(c, p, buf[..done]);
    SpliceAt(Splice(c, p, buf[..done]), p + done, buf[done..done + n]);
    SpliceAt(c, p, buf[..done + n]);
  }

  lemma SliceConcat(c: seq<byte>, i: nat, j: nat, k: nat)
    requires i <= j <= k <= |c|
    ensures c[i..j] + c[j..k] == c[i..k]
  {
  }

  /** c' is c, possibly grown at its end, with the bytes from p on replaced by x. */
  ghost predicate Overwrites(c: seq<byte>, p: nat, x: seq<byte>, c': seq<byte>) {
    && |c| <= |c'| && p + |x| <= |c'|
    && (forall i :: 0 <= i < |x| ==> c'[p + i] == x[i])
    && (forall i :: 0 <= i < |c| && !(p <= i < p + |x|) ==> c'[i] == c[i])
  }

  /** Two writes one after the other are one write. */
  lemma OverwritesMore(c: seq<byte>, p: nat, x: seq<byte>, c1: seq<byte>, y: seq<byte>, c2: seq<byte>)
    requires Overwrites(c, p, x, c1) && Overwrites(c1, p + |x|, y, c2)
    ensures Overwrites(c, p, x + y, c2)
  {
    forall i | 0 <= i < |x + y| ensures c2[p + i] == (x + y)[i] {
      if i >= |x| { assert c2[p + |x| + (i - |x|)] == y[i - |x|]; } else { assert c2[p + i] == c1[p + i]; }
    }
  }

  lemma SpliceOverwrites(c: seq<byte>, grown: seq<byte>, p: nat, x: seq<byte>)
    requires c <= grown && p + |x| <= |grown|
    ensures Overwrites(c, p, x, Splice(grown, p, x))
  {
    SpliceAt(grown, p, x);
  }

  function Max(a: nat, b: nat): nat { if a < b then b else a }

  // ---------------------------------------------------------------- the block list

  class Node {
    const ptr: array<byte>
    var next: Node?

    constructor (s: nat)
      ensures fresh(ptr) && ptr.Length == s && next == null
    {
      ptr := new byte[s];
      next := null;
    }
  }

  /** memcpy of n bytes of src, from index `from`, to position off of a block. */
  method CopyIn(a: array<byte>, off: nat, src: seq<byte>, from: nat, n: nat)
    requires off + n <= a.Length && from + n <= |src|
    modifies a
    ensures forall j :: 0 <= j < a.Length ==> a[j] == if off <= j < off + n then src[from + j - off] else old(a[j])
  {
    for i := 0 to n
      invariant forall j :: 0 <= j < a.Length ==>
                  a[j] == if off <= j < off + i then src[from + j - off] else old(a[j])
    {
      a[off + i] := src[from + i];
    }
  }

  /** A contiguous piece of one block, as handed to the socket (struct iovec). */
  datatype Slice = Slice(ptr: array<byte>, off: nat, len: nat) {
    ghost predicate InBounds() { off + len <= ptr.Length }
  }

  class ByteArray {
    const baseSize: nat
    var position: nat
    var capacity: nat
    var size: nat
    var littleEndian: bool
    const root: Node
    var cur: Node?

    ghost var nodes: seq<Node>
    ghost var at: nat
    ghost var contents: seq<byte>
    ghost var Repr: set<object>

    ghost predicate Linked()
      reads this`nodes, this`Repr, Repr
    {
      && this !in Repr && baseSize > 0 && |nodes| > 0 && nodes[0] == root
      && (forall i :: 0 <= i < |nodes| ==> nodes[i] in Repr && nodes[i].ptr in Repr && nodes[i].ptr.Length == baseSize)
      && nodes[|nodes| - 1].next == null
      && (forall i {:trigger nodes[i].next} :: 0 <= i < |nodes| - 1 ==> nodes[i].next == nodes[i + 1])
      && (forall i, j :: 0 <= i < j < |nodes| ==> nodes[i].ptr != nodes[j].ptr)
    }

    ghost predicate Sized()
      reads this`nodes, this`contents, this`capacity
    {
      capacity == Off(|nodes|, baseSize) && |contents| == capacity
    }

    ghost predicate Stored()
      reads this`nodes, this`contents, this`Repr, Repr
    {
      && |contents| == Off(|nodes|, baseSize)
      && (forall k, j :: 0 <= k < |nodes| && 0 <= j < baseSize ==>
            nodes[k].ptr in Repr && nodes[k].ptr.Length == baseSize && nodes[k].ptr[j] == At(contents, Off(k, baseSize) + j))
    }

    /** `cur` is block number `at`, the one that holds `position`, or null behind the last block. */
    ghost predicate Cursored()
      reads this`nodes, this`at, this`cur, this`position
    {
      && at <= |nodes|
      && cur == (if at < |nodes| then nodes[at] else null)
      && Off(at, baseSize) <= position < Off(at, baseSize) + baseSize
    }

    ghost predicate Valid()
      reads this, Repr
    {
      Linked() && Sized() && Stored() && Cursored() && position <= size <= capacity
    }

    constructor (base: nat)
      requires base > 0
      ensures Valid() && fresh(Repr)
      ensures baseSize == base && position == 0 && size == 0 && capacity == base && !littleEndian
    {
      baseSize := base;
      position, capacity, size := 0, base, 0;
      littleEndian := false;
      var first := new Node(base);
      root := first;
      cur := first;
      nodes := [first];
      at := 0;
      contents := first.ptr[..];
      Repr := {first, first.ptr};
      new;
    }

    function GetReadSize(): nat
      requires position <= size
      reads this
    {
      size - position
    }

    /** Room between the position and the end of the last block. */
    function GetCapacity(): nat
      requires position <= capacity
      reads this
    {
      capacity - position
    }

    /** The cursor is always block position / baseSize, and null exactly when position == capacity. */
    lemma CursorIsBlock()
      requires Valid()
      ensures at == position / baseSize && Off(at, baseSize) + position % baseSize == position
      ensures cur == null <==> position == capacity
      ensures cur != null ==> position / baseSize < |nodes| && cur == nodes[position / baseSize]
    {
      DivUnique(position, baseSize, at);
      if at < |nodes| { BlocksOrdered(at, |nodes|, baseSize); }
    }

    /** Links one more block behind the last one. */
    method Link(last: Node) returns (node: Node)
      requires Linked() && last == nodes[|nodes| - 1]
      modifies this`nodes, this`Repr, last`next
      ensures Linked() && nodes == old(nodes) + [node]
      ensures Repr == old(Repr) + {node, node.ptr} && fresh(node) && fresh(node.ptr)
    {
      node := new Node(baseSize);
      last.next := node;
      nodes := nodes + [node];
      Repr := Repr + {node, node.ptr};
    }

    /** The same with the bytes of the new block behind the flat sequence; the cursor stays where it is. */
    method Append(last: Node) returns (node: Node)
      requires Linked() && Sized() && Stored() && last == nodes[|nodes| - 1]
      modifies this`nodes, this`contents, this`capacity, this`Repr, last`next
      ensures Linked() && Sized() && Stored()
      ensures nodes == old(nodes) + [node] && old(contents) <= contents
      ensures capacity == old(capacity) + baseSize
      ensures Repr == old(Repr) + {node, node.ptr} && fresh(node) && fresh(node.ptr)
    {
      node := Link(last);
      capacity := capacity + baseSize;
      contents := contents + node.ptr[..];
      forall k, j | 0 <= k < |nodes| && 0 <= j < baseSize
        ensures nodes[k].ptr[j] == At(contents, Off(k, baseSize) + j)
      {
        if k < |old(nodes)| {
          BlocksOrdered(k, |old(nodes)|, baseSize);
          AtFront(old(contents), node.ptr[..], Off(k, baseSize) + j);
          assert nodes[k] == old(nodes)[k];
        } else {
          AtBack(old(contents), node.ptr[..], j);
        }
      }
    }

    /** Walks the list to its last block. */
    method LastNode() returns (tmp: Node)
      requires Linked()
      ensures tmp == nodes[|nodes| - 1]
    {
      tmp := root;
      ghost var at := 0;
      while tmp.next != null
        invariant Linked() && 0 <= at < |nodes| && tmp == nodes[at]
        decreases |nodes| - at
      {
        tmp := tmp.next;
        at := at + 1;
      }
    }

    /** Links `count` new blocks behind the last one and returns the first of them. */
    method Grow(last: Node, count: nat) returns (first: Node?)
      requires Linked() && Sized() && Stored() && last == nodes[|nodes| - 1]
      modifies this, Repr
      ensures Linked() && Sized() && Stored()
      ensures fresh(Repr - old(Repr)) && old(Repr) <= Repr
      ensures position == old(position) && size == old(size) && littleEndian == old(littleEndian) && cur == old(cur) && at == old(at)
      ensures |nodes| == |old(nodes)| + count && old(nodes) <= nodes
      ensures old(contents) <= contents
      ensures if count == 0 then first == null else first == nodes[|old(nodes)|]
    {
      first := null;
      var tmp, i := last, 0;
      while i < count
        invariant 0 <= i <= count
        invariant Linked() && Sized() && Stored() && tmp == nodes[|nodes| - 1]
        invariant fresh(Repr - old(Repr)) && old(Repr) <= Repr
        invariant position == old(position) && size == old(size) && littleEndian == old(littleEndian) && cur == old(cur) && at == old(at)
        invariant |nodes| == |old(nodes)| + i && old(nodes) <= nodes
        invariant old(contents) <= contents
        invariant if i == 0 then first == null else first == nodes[|old(nodes)|]
      {
        var node := Append(tmp);
        if first == null {
          first := node;
        }
        tmp := node;
        i := i + 1;
      }
    }

    /** Adds `count` blocks and moves a null cursor to the first of them. */
    method AddBlocks(count: nat)
      requires Valid() && count > 0
      modifies this, Repr
      ensures Valid() && fresh(Repr - old(Repr)) && old(Repr) <= Repr
      ensures position == old(position) && size == old(size) && littleEndian == old(littleEndian)
      ensures |nodes| == |old(nodes)| + count && old(contents) <= contents
    {
      CursorIsBlock();
      var oldCap := GetCapacity();
      var tmp := LastNode();
      var first := Grow(tmp, count);
      if oldCap == 0 {
        cur := first;
      }
    }

    /** Makes room for n bytes behind the position, adding the fewest blocks that suffice. */
    method AddCapacity(n: nat)
      requires Valid()
      modifies this, Repr
      ensures Valid() && fresh(Repr - old(Repr)) && old(Repr) <= Repr
      ensures position == old(position) && size == old(size) && littleEndian == old(littleEndian)
      ensures old(contents) <= contents && position + n <= capacity
      ensures capacity == old(capacity) || capacity - baseSize < position + n
    {
      if n == 0 {
        return;
      }
      var oldCap := GetCapacity();
      if oldCap >= n {
        return;
      }
      var count := BlocksFor(n - oldCap, baseSize);
      AddBlocks(count);
      OffAdd(|old(nodes)|, count, baseSize);
    }

    /** The flat byte sequence written so far. */
    ghost function Bytes(): (r: seq<byte>)
      requires size <= |contents|
      reads this
      ensures |r| == size
    {
      contents[..size]
    }

    /** Copies n bytes into block k, npos bytes behind its start. */
    method Poke(ghost k: nat, a: array<byte>, npos: nat, src: seq<byte>, from: nat, n: nat)
      requires Linked() && Sized() && Stored() && k < |nodes| && a == nodes[k].ptr
      requires npos + n <= baseSize && from + n <= |src|
      modifies this`contents, a
      ensures Linked() && Sized() && Stored() && Off(k, baseSize) + npos + n <= capacity
      ensures contents == Splice(old(contents), Off(k, baseSize) + npos, src[from..from + n])
    {
      BlocksOrdered(k, |nodes|, baseSize);
      CopyIn(a, npos, src, from, n);
      SpliceAt(contents, Off(k, baseSize) + npos, src[from..from + n]);
      contents := Splice(contents, Off(k, baseSize) + npos, src[from..from + n]);
      forall i, j | 0 <= i < |nodes| && 0 <= j < baseSize
        ensures nodes[i].ptr[j] == At(contents, Off(i, baseSize) + j)
      {
        if i < k { BlocksOrdered(i, k, baseSize); }
        if k < i { BlocksOrdered(k, i, baseSize); }
      }
    }

    /** Moves the cursor to the next block. */
    method Advance()
      requires Linked() && at < |nodes| && cur == nodes[at]
      modifies this`cur, this`at
      ensures at == old(at) + 1 && cur == (if at < |nodes| then nodes[at] else null)
    {
      assert at < |nodes| - 1 ==> nodes[at].next == nodes[at + 1];
      cur := cur.next;
      at := at + 1;
    }

    /** Copies n bytes into the current block and moves on, to the next block if this one is now full. */
    method Put(npos: nat, src: seq<byte>, from: nat, n: nat)
      requires Linked() && Sized() && Stored() && Cursored() && cur != null
      requires npos == position - Off(at, baseSize) && npos + n <= baseSize && from + n <= |src|
      modifies this`contents, this`position, this`cur, this`at, cur.ptr
      ensures Linked() && Sized() && Stored() && Cursored()
      ensures position == old(position) + n <= capacity
      ensures contents == Splice(old(contents), old(position), src[from..from + n])
      ensures at == old(at) + (if npos + n == baseSize then 1 else 0)
    {
      Poke(at, cur.ptr, npos, src, from, n);
      if cur.ptr.Length == npos + n {
        Advance();
      }
      position := position + n;
    }

    /** The same, as one more step of overwriting `start` from p on with src. */
    method PutNext(ghost start: seq<byte>, ghost p: nat, npos: nat, src: seq<byte>, from: nat, n: nat)
      requires Linked() && Sized() && Stored() && Cursored() && cur != null
      requires npos == position - Off(at, baseSize) && npos + n <= baseSize && from + n <= |src|
      requires position == p + from && p + |src| <= |start| && contents == Splice(start, p, src[..from])
      modifies this`contents, this`position, this`cur, this`at, cur.ptr
      ensures Linked() && Sized() && Stored() && Cursored()
      ensures position == old(position) + n && contents == Splice(start, p, src[..from + n])
      ensures at == old(at) + (if npos + n == baseSize then 1 else 0)
    {
      SpliceMore(start, p, src, from, n);
      Put(npos, src, from, n);
    }

    /** Copies buf to the position, crossing block boundaries; only the capacity was made before. */
    method WriteChunks(buf: seq<byte>)
      requires Linked() && Sized() && Stored() && Cursored() && position + |buf| <= capacity && cur != null
      modifies this`contents, this`position, this`cur, this`at, Repr
      ensures Linked() && Sized() && Stored() && Cursored()
      ensures position == old(position) + |buf| && contents == Splice(old(contents), old(position), buf)
    {
      DivUnique(position, baseSize, at);
      var npos := position % baseSize;
      var ncap := cur.ptr.Length - npos;
      var bpos := 0;
      var left := |buf|;
      while left > 0
        invariant 0 <= bpos && 0 <= left && bpos + left == |buf| && position == old(position) + bpos
        invariant Linked() && Sized() && Stored() && Cursored()
        invariant contents == Splice(old(contents), old(position), buf[..bpos])
        invariant left > 0 ==> cur != null && npos == position - Off(at, baseSize) && ncap == baseSize - npos
        decreases left
      {
        var n := if ncap >= left then left else ncap;
        PutNext(old(contents), old(position), npos, buf, bpos, n);
        bpos := bpos + n;
        left := left - n;
        if left > 0 {
          ncap := cur.ptr.Length;
          npos := 0;
        }
      }
      assert buf[..bpos] == buf;
    }

    /** The same with the size, which follows the position. */
    method WriteWithin(buf: seq<byte>)
      requires Valid() && position + |buf| <= capacity && buf != []
      modifies this`contents, this`position, this`size, this`cur, this`at, Repr
      ensures Valid() && position == old(position) + |buf| && size == Max(old(size), position)
      ensures contents == Splice(old(contents), old(position), buf)
    {
      CursorIsBlock();
      WriteChunks(buf);
      if position > size {
        size := position;
      }
    }

    /** Writes buf at the position, growing the list by the fewest blocks that fit. */
    method Write(buf: seq<byte>)
      requires Valid()
      modifies this, Repr
      ensures Valid() && fresh(Repr - old(Repr)) && old(Repr) <= Repr && littleEndian == old(littleEndian)
      ensures position == old(position) + |buf| && size == Max(old(size), position)
      ensures Overwrites(old(contents), old(position), buf, contents)
      ensures capacity == old(capacity) || capacity - baseSize < position
    {
      if buf == [] {
        return;
      }
      AddCapacity(|buf|);
      SpliceOverwrites(old(contents), contents, position, buf);
      WriteWithin(buf);
    }

    /** The n bytes of the current block from npos on are the n bytes of the flat sequence from the position on. */
    lemma BlockBytes(k: nat, npos: nat, n: nat)
      requires Linked() && Sized() && Stored() && k < |nodes| && npos + n <= baseSize
      ensures Off(k, baseSize) + npos + n <= capacity
      ensures nodes[k].ptr[npos..npos + n] == contents[Off(k, baseSize) + npos..Off(k, baseSize) + npos + n]
    {
      BlocksOrdered(k, |nodes|, baseSize);
    }

    /** Copies n bytes out of the current block and moves on, to the next block if this one is exhausted. */
    method Get(npos: nat, n: nat) returns (chunk: seq<byte>)
      requires Linked() && Sized() && Stored() && Cursored() && cur != null
      requires npos == position - Off(at, baseSize) && npos + n <= baseSize
      modifies this`position, this`cur, this`at
      ensures Cursored() && position == old(position) + n <= capacity
      ensures chunk == contents[old(position)..position]
      ensures at == old(at) + (if npos + n == baseSize then 1 else 0)
    {
      BlockBytes(at, npos, n);
      chunk := cur.ptr[npos..npos + n];
      if cur.ptr.Length == npos + n {
        Advance();
      }
      position := position + n;
    }

    /** Copies n bytes out, crossing block boundaries. */
    method ReadChunks(n: nat) returns (out: seq<byte>)
      requires Linked() && Sized() && Stored() && Cursored() && position + n <= capacity && cur != null
      modifies this`position, this`cur, this`at
      ensures Cursored() && position == old(position) + n && out == contents[old(position)..position]
    {
      DivUnique(position, baseSize, at);
      var npos := position % baseSize;
      var ncap := cur.ptr.Length - npos;
      var left := n;
      out := [];
      while left > 0
        invariant 0 <= left && |out| + left == n && position == old(position) + |out|
        invariant Cursored() && out == contents[old(position)..position]
        invariant left > 0 ==> cur != null && npos == position - Off(at, baseSize) && ncap == baseSize - npos
        decreases left
      {
        var m := if ncap >= left then left else ncap;
        var chunk := Get(npos, m);
        out := out + chunk;
        left := left - m;
        if left > 0 {
          ncap := cur.ptr.Length;
          npos := 0;
        }
      }
    }

    /**
      Reads n bytes and moves the position behind them, or reports that too few are left.
      A read of no bytes looks at the current block, so there must be one.
     */
    method Read(n: nat) returns (r: Option<seq<byte>>)
      requires Valid()
      requires n == 0 ==> position < capacity
      modifies this`position, this`cur, this`at
      ensures Valid()
      ensures r == if n <= old(size) - old(position) then Some(contents[old(position)..old(position) + n]) else None
      ensures position == old(position) + if r.Some? then n else 0
    {
      if n > GetReadSize() {
        return None;
      }
      CursorIsBlock();
      var out := ReadChunks(n);
      r := Some(out);
    }

    /** Walks from the first block to the one that holds offset v. */
    method Seek(v: nat)
      requires Linked() && Sized() && v <= capacity
      modifies this`cur, this`at
      ensures at <= |nodes| && cur == (if at < |nodes| then nodes[at] else null)
      ensures Off(at, baseSize) <= v < Off(at, baseSize) + baseSize
    {
      cur, at := root, 0;
      var rest := v;
      while rest > cur.ptr.Length
        invariant Linked() && at < |nodes| && cur == nodes[at]
        invariant 0 <= rest && v == Off(at, baseSize) + rest
        decreases rest
      {
        rest := rest - cur.ptr.Length;
        Advance();
      }
      if rest == cur.ptr.Length {
        Advance();
      }
    }

    /** Moves the position, or reports that v is behind the last block. */
    method SetPosition(v: nat) returns (ok: bool)
      requires Valid()
      modifies this`position, this`size, this`cur, this`at
      ensures Valid()
      ensures ok <==> v <= capacity
      ensures ok ==> position == v && size == Max(old(size), v)
      ensures !ok ==> position == old(position) && size == old(size)
    {
      if v > capacity {
        return false;
      }
      position := v;
      if position > size {
        size := position;
      }
      Seek(v);
      ok := true;
    }

    /** Drops every block but the first and rewinds. */
    method Clear()
      requires Valid()
      modifies this, Repr
      ensures Valid() && Repr <= old(Repr) && littleEndian == old(littleEndian)
      ensures position == 0 && size == 0 && capacity == baseSize && contents == old(contents)[..baseSize]
    {
      BlocksOrdered(0, |nodes|, baseSize);
      position, size, capacity := 0, 0, baseSize;
      cur, at := root, 0;
      root.next := null;
      nodes := [root];
      contents := contents[..baseSize];
      Repr := {root, root.ptr};
    }

    /** Where slice i starts in the flat sequence, when the slices start at p in block k. */
    ghost function TileStart(k: nat, p: nat, i: nat): nat {
      if i == 0 then p else Off(k + i, baseSize)
    }

    /** Slice i is a piece of block k + i and covers the flat range [TileStart(k, p, i), end). */
    ghost predicate Tile(s: Slice, k: nat, p: nat, i: nat, end: nat)
      reads this`nodes
    {
      && k + i < |nodes| && s.ptr == nodes[k + i].ptr && s.len > 0 && s.off + s.len <= baseSize
      && Off(k + i, baseSize) + s.off == TileStart(k, p, i)
      && TileStart(k, p, i) + s.len == end
    }

    ghost predicate FullTiles(slices: seq<Slice>, k: nat, p: nat)
      reads this`nodes
    {
      forall i :: 0 <= i < |slices| ==> Tile(slices[i], k, p, i, TileStart(k, p, i + 1))
    }

    /**
      The slices are pieces of consecutive blocks, from block k on, and cover exactly the flat range
      [p, p + len).  Being in different blocks, they are pairwise disjoint.
     */
    ghost predicate Tiles(slices: seq<Slice>, k: nat, p: nat, len: nat)
      reads this`nodes
    {
      && |slices| > 0
      && forall i :: 0 <= i < |slices| ==>
           Tile(slices[i], k, p, i, if i == |slices| - 1 then p + len else TileStart(k, p, i + 1))
    }

    /** Cuts the flat range [p, p + len) into slices, starting in block k. */
    method Cut(ghost k: nat, start: Node, p: nat, len: nat) returns (slices: seq<Slice>)
      requires Linked() && Sized() && k < |nodes| && start == nodes[k]
      requires Off(k, baseSize) <= p < Off(k, baseSize) + baseSize && len > 0 && p + len <= capacity
      ensures Tiles(slices, k, p, len)
    {
      DivUnique(p, baseSize, k);
      var npos := p % baseSize;
      var node := start;
      var ncap := node.ptr.Length - npos;
      var left := len;
      slices := [];
      while left > 0
        invariant 0 <= left <= len
        invariant if left == 0 then Tiles(slices, k, p, len) else FullTiles(slices, k, p)
        invariant left > 0 ==>
            && k + |slices| < |nodes| && node == nodes[k + |slices|] && ncap == baseSize - npos && 0 <= npos < baseSize
            && Off(k + |slices|, baseSize) + npos == TileStart(k, p, |slices|) == p + len - left
        decreases left
      {
        ghost var i, before := |slices|, slices;
        if ncap >= left {
          slices := slices + [Slice(node.ptr, npos, left)];
          left := 0;
          assert forall j :: 0 <= j < i ==> slices[j] == before[j];
        } else {
          slices := slices + [Slice(node.ptr, npos, ncap)];
          left := left - ncap;
          assert Tile(slices[i], k, p, i, TileStart(k, p, i + 1));
          if k + i + 1 == |nodes| { assert false; }
          assert nodes[k + i].next == nodes[k + i + 1];
          node := node.next;
          ncap := node.ptr.Length;
          npos := 0;
        }
      }
    }

    lemma TilesFit(slices: seq<Slice>, k: nat, p: nat, len: nat)
      requires baseSize > 0 && Sized() && Tiles(slices, k, p, len)
      ensures p + len <= capacity
    {
      assert Tile(slices[|slices| - 1], k, p, |slices| - 1, p + len);
      BlocksOrdered(k + |slices| - 1, |nodes|, baseSize);
    }

    lemma TilesDisjoint(slices: seq<Slice>, k: nat, p: nat, len: nat)
      requires Linked() && Tiles(slices, k, p, len)
      ensures forall i :: 0 <= i < |slices| ==> slices[i].InBounds()
      ensures forall i, j :: 0 <= i < j < |slices| ==> slices[i].ptr != slices[j].ptr
    {
    }

    /** The readable bytes from the position on, at most len of them, as slices. */
    method GetReadBuffers(len: nat) returns (slices: seq<Slice>, n: nat)
      requires Valid()
      ensures n == if len > size - position then size - position else len
      ensures n == 0 ==> slices == []
      ensures n > 0 ==> Tiles(slices, at, position, n)
      ensures forall i :: 0 <= i < |slices| ==> slices[i].InBounds()
      ensures forall i, j :: 0 <= i < j < |slices| ==> slices[i].ptr != slices[j].ptr
    {
      n := if len > GetReadSize() then GetReadSize() else len;
      slices := [];
      if n > 0 {
        CursorIsBlock();
        slices := Cut(at, cur, position, n);
        TilesDisjoint(slices, at, position, n);
      }
    }

    /** The same from an explicit position on; the length is still clipped by what is left behind the cursor. */
    method GetReadBuffersAt(len: nat, pos: nat) returns (slices: seq<Slice>, n: nat)
      requires Valid()
      requires var m := if len > size - position then size - position else len; m == 0 || pos + m <= size
      ensures n == if len > size - position then size - position else len
      ensures forall i :: 0 <= i < |slices| ==> slices[i].InBounds()
      ensures forall i, j :: 0 <= i < j < |slices| ==> slices[i].ptr != slices[j].ptr
      ensures n == 0 ==> slices == []
      ensures n > 0 ==> Tiles(slices, pos / baseSize, pos, n)
    {
      n := if len > GetReadSize() then GetReadSize() else len;
      slices := [];
      if n > 0 {
        var count := pos / baseSize;
        DivMod(pos, baseSize);
        OffIsProduct(count, baseSize);
        var node := root;
        ghost var k := 0;
        while count > 0
          invariant k <= pos / baseSize && k < |nodes| && node == nodes[k] && count == pos / baseSize - k
          decreases count
        {
          if k + 1 == |nodes| { BlocksReach(k + 1, pos / baseSize, baseSize); assert false; }
          assert nodes[k].next == nodes[k + 1];
          node := node.next;
          count := count - 1;
          k := k + 1;
        }
        slices := Cut(k, node, pos, n);
        TilesDisjoint(slices, k, pos, n);
      }
    }

    /** Room for len bytes from the position on, as slices; grows the list first. */
    method GetWriteBuffers(len: nat) returns (slices: seq<Slice>)
      requires Valid()
      modifies this, Repr
      ensures Valid() && fresh(Repr - old(Repr)) && old(Repr) <= Repr && littleEndian == old(littleEndian)
      ensures position == old(position) && size == old(size) && old(contents) <= contents && position + len <= capacity
      ensures capacity == old(capacity) || capacity - baseSize < position + len
      ensures len == 0 ==> slices == []
      ensures len > 0 ==> Tiles(slices, at, position, len)
    {
      slices := [];
      if len > 0 {
        AddCapacity(len);
        CursorIsBlock();
        slices := Cut(at, cur, position, len);
      }
    }

    /** The first m bytes of a slice of block k, behind the bytes from p on that came before it. */
    method TakePrefix(before: seq<byte>, ghost p: nat, s: Slice, ghost k: nat, m: nat) returns (out: seq<byte>)
      requires Linked() && Sized() && Stored() && k < |nodes| && s.ptr == nodes[k].ptr && s.off + m <= baseSize
      requires p <= Off(k, baseSize) + s.off <= capacity && before == contents[p..Off(k, baseSize) + s.off]
      ensures Off(k, baseSize) + s.off + m <= capacity && out == contents[p..Off(k, baseSize) + s.off + m]
    {
      BlockBytes(k, s.off, m);
      SliceConcat(contents, p, Off(k, baseSize) + s.off, Off(k, baseSize) + s.off + m);
      out := before + s.ptr[s.off..s.off + m];
    }

    /** What a gathering send does with read slices: it takes the first n bytes of their concatenation. */
    method Drain(slices: seq<Slice>, ghost k: nat, ghost p: nat, ghost len: nat, n: nat) returns (out: seq<byte>)
      requires Linked() && Sized() && Stored() && Tiles(slices, k, p, len) && p <= capacity && n <= len
      ensures p + n <= capacity && out == contents[p..p + n]
    {
      TilesFit(slices, k, p, len);
      out := [];
      var got, i := 0, 0;
      while got < n
        invariant 0 <= i <= |slices| && 0 <= got <= n
        invariant got < n ==> i < |slices| && p + got == TileStart(k, p, i)
        invariant out == contents[p..p + got]
        decreases n - got
      {
        assert Tile(slices[i], k, p, i, if i == |slices| - 1 then p + len else TileStart(k, p, i + 1));
        var m := if slices[i].len < n - got then slices[i].len else n - got;
        out := TakePrefix(out, p, slices[i], k + i, m);
        got := got + m;
        i := i + 1;
      }
    }

    /**
      What a scattering receive does with write slices: it fills them from the front with data.
      On the flat sequence that is one overwrite at p.
     */
    method Fill(slices: seq<Slice>, ghost k: nat, p: nat, ghost len: nat, data: seq<byte>)
      requires Linked() && Sized() && Stored() && Tiles(slices, k, p, len) && p <= capacity && |data| <= len
      modifies this`contents, Repr
      ensures Linked() && Sized() && Stored()
      ensures p + |data| <= capacity && contents == Splice(old(contents), p, data)
    {
      TilesFit(slices, k, p, len);
      var done, i := 0, 0;
      while done < |data|
        invariant 0 <= done <= |data| && 0 <= i <= |slices|
        invariant Linked() && Sized() && Stored()
        invariant done < |data| ==> i < |slices| && p + done == TileStart(k, p, i)
        invariant contents == Splice(old(contents), p, data[..done])
        decreases |data| - done
      {
        var s := slices[i];
        assert Tile(slices[i], k, p, i, if i == |slices| - 1 then p + len else TileStart(k, p, i + 1));
        var n := if s.len < |data| - done then s.len else |data| - done;
        SpliceMore(old(contents), p, data, done, n);
        Poke(k + i, s.ptr, s.off, data, done, n);
        done := done + n;
        i := i + 1;
      }
      assert data[..done] == data;
    }
  }
}
