/**
  AsyncSocketStreamManager::get (streams/async_socket_stream.cc): round-robin over the streams with a
  32-bit index that wraps around.
 */
module RoundRobin {
  import opened Common
  import opened Codec

  /** The 32-bit index after k attempts that started at idx. */
  function Index(idx: nat, k: nat): (r: nat)
    ensures r < TWO_32
  {
    (idx + k) % TWO_32
  }

  /** The slot that attempt k of a call looks at, when the index starts at idx and there are m streams. */
  function Slot(idx: nat, k: nat, m: nat): (r: nat)
    requires m > 0
    ensures r < m
  {
    Index(idx, k) % m
  }

  class StreamManager {
    var connected: seq<bool>         // isConnected() of the streams in m_datas
    var idx: nat

    /** Returns the first connected stream in round-robin order; gives up after m_size attempts. */
    method Get() returns (r: Option<nat>)
      requires |connected| < TWO_32 && idx < TWO_32
      modifies this`idx
      ensures idx < TWO_32
      ensures match r
              case Some(i) => exists k: nat :: FoundAt(connected, old(idx), k, i) && idx == Index(old(idx), k + 1)
              case None => !Finds(connected, old(idx)) && NoneOf(connected, old(idx), |connected|) && idx == Index(old(idx), |connected|)
    {
      var i := 0;
      ModSmall(idx, TWO_32);
      while i < |connected|
        invariant 0 <= i <= |connected| && idx == Index(old(idx), i) && NoneOf(connected, old(idx), i)
      {
        var at := idx;
        IndexNext(old(idx), i);
        idx := Index(idx, 1);
        var slot := at % |connected|;
        AttemptIs(connected, old(idx), i, slot);
        if connected[slot] {
          return Some(slot);
        }
        i := i + 1;
      }
      r := None;
    }
  }

  lemma IndexNext(idx: nat, k: nat)
    ensures Index(Index(idx, k), 1) == Index(idx, k + 1)
  {
  }

  /** Attempt k is the first that meets a connected stream, and that is stream i. */
  ghost predicate FoundAt(connected: seq<bool>, idx: nat, k: nat, i: nat) {
    k < |connected| && i == Slot(idx, k, |connected|) && connected[i] && NoneOf(connected, idx, k)
  }

  lemma AttemptIs(connected: seq<bool>, idx: nat, k: nat, slot: nat)
    requires k < |connected| && slot == Index(idx, k) % |connected| && NoneOf(connected, idx, k)
    ensures slot < |connected| && if connected[slot] then FoundAt(connected, idx, k, slot) else NoneOf(connected, idx, k + 1)
  {
  }

  /** None of the first k attempts meets a connected stream. */
  ghost predicate NoneOf(connected: seq<bool>, idx: nat, k: nat)
  {
    connected != [] ==> forall j :: 0 <= j < k ==> !connected[Slot(idx, j, |connected|)]
  }

  /** Some attempt of a call looks at stream v. */
  ghost predicate Reaches(idx: nat, m: nat, v: nat)
    requires m > 0
  {
    exists k :: 0 <= k < m && Slot(idx, k, m) == v
  }

  /** The attempts of one call reach every stream. */
  ghost predicate Covers(idx: nat, m: nat)
    requires m > 0
  {
    forall v :: 0 <= v < m ==> Reaches(idx, m, v)
  }

  /** No wrap during the call, or a number of streams that divides 2^32. */
  predicate Fits(idx: nat, m: nat)
    requires m > 0
  {
    idx + m <= TWO_32 || TWO_32 % m == 0
  }

  /** The attempt that reaches v when the index does not wrap, or wraps at a multiple of m. */
  function Attempt(idx: nat, m: nat, v: nat): (k: nat)
    requires v < m
    ensures k < m
  {
    if v >= idx % m then v - idx % m else v + m - idx % m
  }

  lemma AttemptReaches(idx: nat, m: nat, v: nat)
    requires m > 0 && v < m && idx < TWO_32 && Fits(idx, m) && m < TWO_32
    ensures Slot(idx, Attempt(idx, m, v), m) == v
  {
    var k := Attempt(idx, m, v);
    var q := idx / m + if v >= idx % m then 0 else 1;
    assert idx + k == q * m + v;
    if idx + k < TWO_32 {
      ModSmall(idx + k, TWO_32);
      Remainder(idx + k, q, v, m);
    } else {
      Remainder(idx + k, 1, idx + k - TWO_32, TWO_32);
      assert (q - TWO_32 / m) * m == q * m - (TWO_32 / m) * m;
      Remainder(idx + k - TWO_32, q - TWO_32 / m, v, m);
    }
  }

  /** The stream that no attempt reaches when the index wraps in the middle. */
  function Missed(idx: nat, m: nat): (v: int)
    requires m > 0
  {
    var r, a := TWO_32 % m, TWO_32 - idx;
    if r >= a then m - 1 else m + r - a - 1
  }

  lemma NeverReached(idx: nat, m: nat, k: nat)
    requires m > 0 && idx < TWO_32 && m < TWO_32 && !Fits(idx, m) && k < m
    ensures 0 <= Missed(idx, m) < m && Slot(idx, k, m) != Missed(idx, m)
  {
    var q, r, a := TWO_32 / m, TWO_32 % m, TWO_32 - idx;
    assert q * m + r == TWO_32;
    if k < a {
      ModSmall(idx + k, TWO_32);
      var d := a - k;
      assert (q - 1) * m == q * m - m;
      if d <= r { Remainder(idx + k, q, r - d, m); } else { Remainder(idx + k, q - 1, m + r - d, m); }
    } else {
      Remainder(idx + k, 1, k - a, TWO_32);
      ModSmall(k - a, m);
    }
  }

  lemma MissedIsMissed(idx: nat, m: nat)
    requires m > 0 && idx < TWO_32 && m < TWO_32 && !Fits(idx, m)
    ensures 0 <= Missed(idx, m) < m && !Reaches(idx, m, Missed(idx, m))
  {
    NeverReached(idx, m, 0);
    forall k | 0 <= k < m ensures Slot(idx, k, m) != Missed(idx, m) {
      NeverReached(idx, m, k);
    }
  }

  /**
    One call looks at every stream exactly when the index does not wrap during the call or the number
    of streams divides 2^32.
   */
  lemma CoversIff(idx: nat, m: nat)
    requires 0 < m < TWO_32 && idx < TWO_32
    ensures Covers(idx, m) <==> Fits(idx, m)
  {
    if Fits(idx, m) {
      forall v | 0 <= v < m ensures Reaches(idx, m, v) {
        AttemptReaches(idx, m, v);
      }
    } else {
      MissedIsMissed(idx, m);
    }
  }

  /** Get finds a stream: one of its attempts meets a connected one. */
  ghost predicate Finds(connected: seq<bool>, idx: nat) {
    exists k :: 0 <= k < |connected| && connected[Slot(idx, k, |connected|)]
  }

  lemma FindsReached(connected: seq<bool>, idx: nat)
    requires connected != []
    ensures Finds(connected, idx) <==> exists v :: 0 <= v < |connected| && connected[v] && Reaches(idx, |connected|, v)
  {
    if k :| 0 <= k < |connected| && connected[Slot(idx, k, |connected|)] {
      assert Reaches(idx, |connected|, Slot(idx, k, |connected|));
    }
  }

  /** If the index fits, Get returns a stream exactly when one is connected. */
  lemma FindsConnected(connected: seq<bool>, idx: nat)
    requires 0 < |connected| < TWO_32 && idx < TWO_32 && Fits(idx, |connected|)
    ensures Finds(connected, idx) <==> true in connected
  {
    CoversIff(idx, |connected|);
    FindsReached(connected, idx);
  }

  /** If it does not, there is a pattern of connections for which Get returns nothing although a stream is connected. */
  lemma MissesConnected(m: nat, idx: nat) returns (connected: seq<bool>)
    requires 0 < m < TWO_32 && idx < TWO_32 && !Fits(idx, m)
    ensures |connected| == m && true in connected && !Finds(connected, idx)
  {
    MissedIsMissed(idx, m);
    connected := seq(m, i => i == Missed(idx, m));
    assert connected[Missed(idx, m)];
    FindsReached(connected, idx);
  }

  /** Three streams, the index about to wrap: the attempts look at streams 0, 0 and 1. */
  lemma WrapMissesOne()
    ensures !Fits(TWO_32 - 1, 3) && Missed(TWO_32 - 1, 3) == 2
    ensures Slot(TWO_32 - 1, 0, 3) == 0 && Slot(TWO_32 - 1, 1, 3) == 0 && Slot(TWO_32 - 1, 2, 3) == 1
  {
  }
}
