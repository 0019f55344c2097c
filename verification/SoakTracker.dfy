/** The soak harness's message tracker: a watermark and a small set stand for the set of ids ever seen. */
module SoakTracker {
  import opened Common

  /** Ids below `n`. */
  function Ids(n: nat): (r: set<nat>)
    ensures |r| == n && forall i: nat :: i in r <==> i < n
  {
    if n == 0 then {} else Ids(n - 1) + {n - 1}
  }

  lemma UnionSize(a: set<nat>, b: set<nat>)
    requires a !! b
    ensures |a + b| == |a| + |b|
  {
  }

  /** The set the compact form stands for. */
  function Denoted(watermark: int, residual: set<nat>): set<nat>
    requires watermark >= -1
  {
    Ids(watermark + 1) + residual
  }

  /** Every id is past `n`. */
  predicate Past(ids: set<nat>, n: int) { forall k :: k in ids ==> k > n }

  /** Raising the watermark over an id in the residual denotes the same set. */
  lemma Raise(watermark: int, residual: set<nat>)
    requires watermark >= -1 && watermark + 1 in residual
    ensures Denoted(watermark + 1, residual - {watermark + 1}) == Denoted(watermark, residual)
    ensures Past(residual, watermark) ==> Past(residual - {watermark + 1}, watermark + 1)
  {
  }

  /** As far as the watermark can be raised. */
  function Compacted(watermark: int, residual: set<nat>): (int, set<nat>)
    requires watermark >= -1
    decreases |residual|
  {
    if watermark + 1 in residual then Compacted(watermark + 1, residual - {watermark + 1}) else (watermark, residual)
  }

  lemma {:induction false} CompactedMeans(watermark: int, residual: set<nat>)
    requires watermark >= -1 && Past(residual, watermark)
    ensures var (w, r) := Compacted(watermark, residual);
            w >= watermark && Denoted(w, r) == Denoted(watermark, residual) && Past(r, w + 1)
    decreases |residual|
  {
    if watermark + 1 in residual {
      Raise(watermark, residual);
      CompactedMeans(watermark + 1, residual - {watermark + 1});
    }
  }

  /** A duplicate changes nothing; a new id joins the residual. */
  lemma Arrives(arrivals: seq<nat>, watermark: int, residual: set<nat>, i: nat)
    requires watermark >= -1 && Elements(arrivals) == Denoted(watermark, residual)
    ensures i <= watermark || i in residual ==> Elements(arrivals + [i]) == Denoted(watermark, residual)
    ensures Elements(arrivals + [i]) == Denoted(watermark, residual + {i})
  {
    assert Elements(arrivals + [i]) == Elements(arrivals) + {i};
  }

  class Tracker {
    var watermark: int
    var residual: set<nat>
    var receivedTotal: nat
    ghost var arrivals: seq<nat>

    /** The compact form stands for the full set, and the watermark is as far as it can be. */
    ghost predicate Valid()
      reads this
    {
      && watermark >= -1 && receivedTotal == |arrivals|
      && Elements(arrivals) == Denoted(watermark, residual)
      && Past(residual, watermark + 1)
    }

    constructor ()
      ensures Valid() && arrivals == [] && watermark == -1
    {
      watermark, residual, receivedTotal, arrivals := -1, {}, 0, [];
    }

    method Handle(i: nat)
      requires Valid()
      modifies this
      ensures Valid() && arrivals == old(arrivals) + [i]
      ensures watermark >= old(watermark)
    {
      receivedTotal := receivedTotal + 1;
      Arrives(arrivals, watermark, residual, i);
      arrivals := arrivals + [i];
      if i <= watermark || i in residual { return; }
      residual := residual + {i};
      Compact();
    }

    /** The loop at the end of the handler. */
    method Compact()
      requires watermark >= -1 && Past(residual, watermark)
      modifies this`watermark, this`residual
      ensures watermark >= old(watermark) && Denoted(watermark, residual) == old(Denoted(watermark, residual))
      ensures Past(residual, watermark + 1)
    {
      ghost var w0, r0 := watermark, residual;
      while watermark + 1 in residual
        invariant watermark >= -1 && Compacted(watermark, residual) == Compacted(w0, r0)
        decreases |residual|
      {
        watermark := watermark + 1;
        residual := residual - {watermark};
      }
      CompactedMeans(w0, r0);
    }

    /** The distinct ids received so far. */
    method UniqueSeen() returns (n: int)
      requires Valid()
      ensures n == |Elements(arrivals)|
    {
      n := (watermark + 1) + |residual|;
      UnionSize(Ids(watermark + 1), residual);
    }

    /** Every id up to the watermark has arrived, and the next has not. */
    lemma WatermarkIsLongestPrefix()
      requires Valid()
      ensures Ids(watermark + 1) <= Elements(arrivals) && watermark + 1 !in Elements(arrivals)
    {
    }

    /** Residual ids inside the confirmed range. */
    method InRange(confirmed: nat) returns (n: nat)
      ensures n == |Part(residual, confirmed)|
    {
      n := 0;
      var left := residual;
      assert Part({}, confirmed) == {} && residual - left == {};
      while left != {}
        invariant left <= residual && n == |Part(residual - left, confirmed)|
        decreases |left|
      {
        var r :| r in left;
        PartSnoc(residual - left, r, confirmed);
        assert residual - (left - {r}) == (residual - left) + {r};
        left := left - {r};
        if r < confirmed { n := n + 1; }
      }
      assert residual - left == residual;
    }

    /** Confirmed ids that never arrived. */
    method LostCount(confirmed: nat) returns (lost: int)
      requires Valid()
      ensures lost == |Ids(confirmed) - Elements(arrivals)|
    {
      var inRange := InRange(confirmed);
      var covered := (if watermark + 1 < confirmed then watermark + 1 else confirmed) + inRange;
      lost := confirmed - covered;
      CoveredSize(watermark, residual, confirmed);
    }
  }

  function Part(ids: set<nat>, n: nat): set<nat> { set i | i in ids && i < n }

  lemma PartSnoc(ids: set<nat>, r: nat, n: nat)
    requires r !in ids
    ensures |Part(ids + {r}, n)| == |Part(ids, n)| + if r < n then 1 else 0
  {
    assert Part(ids + {r}, n) == Part(ids, n) + if r < n then {r} else {};
  }

  lemma PartitionSize(all: set<nat>, low: set<nat>, mid: set<nat>, denoted: set<nat>)
    requires low <= all && mid <= all && low !! mid && forall i :: i in all ==> (i in denoted <==> i in low || i in mid)
    ensures |all - denoted| == |all| - (|low| + |mid|)
  {
    assert all == (all - denoted) + (low + mid);
    UnionSize(low, mid);
    UnionSize(all - denoted, low + mid);
  }

  lemma CoveredSize(watermark: int, residual: set<nat>, confirmed: nat)
    requires watermark >= -1 && Past(residual, watermark + 1)
    ensures |Ids(confirmed) - Denoted(watermark, residual)| ==
            confirmed - ((if watermark + 1 < confirmed then watermark + 1 else confirmed) + |Part(residual, confirmed)|)
  {
    PartitionSize(Ids(confirmed), Ids(if watermark + 1 < confirmed then watermark + 1 else confirmed),
                  Part(residual, confirmed), Denoted(watermark, residual));
  }
}
