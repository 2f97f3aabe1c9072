/** The bucketing behind the resampler, in place of pandas'
    `resample(freq, offset=...).agg(...)`.  Times are UTC seconds.  Buckets
    are `period` minutes long, left-closed and labelled by their start, and
    their edges lie `offset` minutes after UTC midnight plus whole periods
    (every period divides a day, so this is the same grid on every day).
    Each non-empty bucket yields one candle: the open of its earliest candle,
    the highest high, the lowest low, the close of its latest candle and the
    summed volume.  Buckets without candles yield nothing. */
module Buckets {
  import opened PriceData
  import opened CandleSeqs

  /** The start of the bucket holding instant `t`. */
  function BucketStart(t: int, offset: nat, period: nat): (b: int)
    requires period > 0
    ensures b <= t < b + period * 60
    ensures (b - offset * 60) % (period * 60) == 0
  {
    var p := period * 60;
    var q := (t - offset * 60) / p;
    MultipleMod(q, p);
    offset * 60 + q * p
  }

  lemma {:induction false} MulMonotone(a: int, b: int, p: int)
    requires a <= b && p > 0
    ensures a * p <= b * p
    decreases b - a
  {
    if a < b {
      MulMonotone(a + 1, b, p);
      assert (a + 1) * p == a * p + p;
    }
  }

  /** Euclidean division has one answer. */
  lemma DivUnique(x: int, p: int, q: int, r: int)
    requires p > 0 && 0 <= r < p && x == q * p + r
    ensures x / p == q
  {
    var q' := x / p;
    assert x == q' * p + x % p;
    assert (q + 1) * p == q * p + p;
    assert (q' + 1) * p == q' * p + p;
    if q' > q {
      MulMonotone(q + 1, q', p);
      assert false;
    } else if q' < q {
      MulMonotone(q' + 1, q, p);
      assert false;
    }
  }

  lemma MultipleMod(q: int, p: int)
    requires p > 0
    ensures (q * p) % p == 0
  {
    DivUnique(q * p, p, q, 0);
    assert q * p == (q * p) / p * p + (q * p) % p;
  }

  /** Two edges of the same grid are at least a period apart. */
  lemma EdgesApart(b1: int, b2: int, offset: nat, period: nat)
    requires period > 0
    requires (b1 - offset * 60) % (period * 60) == 0 && (b2 - offset * 60) % (period * 60) == 0
    requires b1 < b2
    ensures b1 + period * 60 <= b2
  {
    var p := period * 60;
    var k1 := (b1 - offset * 60) / p;
    var k2 := (b2 - offset * 60) / p;
    assert b1 - offset * 60 == k1 * p + (b1 - offset * 60) % p;
    assert b2 - offset * 60 == k2 * p + (b2 - offset * 60) % p;
    if k2 <= k1 {
      MulMonotone(k2, k1, p);
    }
    MulMonotone(k1 + 1, k2, p);
    assert (k1 + 1) * p == k1 * p + p;
  }

  /** The bucket of an instant is the only grid interval that holds it. */
  lemma BucketStartUnique(t: int, b: int, offset: nat, period: nat)
    requires period > 0
    requires b <= t < b + period * 60
    requires (b - offset * 60) % (period * 60) == 0
    ensures b == BucketStart(t, offset, period)
  {
    var s := BucketStart(t, offset, period);
    if b < s {
      EdgesApart(b, s, offset, period);
    } else if s < b {
      EdgesApart(s, b, offset, period);
    }
  }

  /** A later instant is never in an earlier bucket. */
  lemma BucketStartMonotone(t1: int, t2: int, offset: nat, period: nat)
    requires period > 0
    requires t1 <= t2
    ensures BucketStart(t1, offset, period) <= BucketStart(t2, offset, period)
  {
    var b1 := BucketStart(t1, offset, period);
    var b2 := BucketStart(t2, offset, period);
    if b2 < b1 {
      EdgesApart(b2, b1, offset, period);
    }
  }

  /** An offset of whole periods gives the grid of UTC midnight. */
  lemma WholePeriodOffset(t: int, offset: nat, period: nat)
    requires period > 0
    requires offset % period == 0
    ensures BucketStart(t, offset, period) == BucketStart(t, 0, period)
  {
    var b := BucketStart(t, offset, period);
    var m := offset / period;
    assert offset * 60 == (m * 60) * period;
    assert b - offset * 60 == ((b - offset * 60) / (period * 60)) * (period * 60);
    assert b == (m + (b - offset * 60) / (period * 60)) * (period * 60);
    MultipleMod(m + (b - offset * 60) / (period * 60), period * 60);
    BucketStartUnique(t, b, 0, period);
  }

  function Min(a: int, b: int): int
  {
    if a <= b then a else b
  }

  function Max(a: int, b: int): int
  {
    if a <= b then b else a
  }

  /** A bucket's first candle, relabelled with the bucket's start. */
  function Opening(c: Candle, b: int): Candle
  {
    c.(time := b)
  }

  /** A bucket's candle after one more, later, candle. */
  function Absorb(a: Candle, c: Candle): Candle
  {
    a.(low := Min(a.low, c.low), high := Max(a.high, c.high), close := c.close, volume := a.volume + c.volume)
  }

  /** A way of assigning instants to buckets that respects time order. */
  ghost predicate Monotone(bucket: int -> int)
  {
    forall t1, t2 :: t1 <= t2 ==> bucket(t1) <= bucket(t2)
  }

  lemma GridMonotone(offset: nat, period: nat)
    requires period > 0
    ensures forall t1, t2 :: t1 <= t2 ==> BucketStart(t1, offset, period) <= BucketStart(t2, offset, period)
  {
    forall t1, t2 | t1 <= t2
      ensures BucketStart(t1, offset, period) <= BucketStart(t2, offset, period)
    {
      BucketStartMonotone(t1, t2, offset, period);
    }
  }

  /** The grid of `period`-minute buckets with edges `offset` minutes after
      UTC midnight, as a bucket assignment. */
  function Grid(offset: nat, period: nat): (bucket: int -> int)
    requires period > 0
    ensures forall t :: bucket(t) == BucketStart(t, offset, period)
    ensures Monotone(bucket)
  {
    GridMonotone(offset, period);
    t => BucketStart(t, offset, period)
  }

  /** The fold: candles in time order, each one opening a new bucket or
      joining the last. */
  function Aggregate(cs: seq<Candle>, bucket: int -> int): seq<Candle>
  {
    if |cs| == 0 then []
    else
      var r := Aggregate(cs[..|cs| - 1], bucket);
      var c := cs[|cs| - 1];
      var b := bucket(c.time);
      if |r| > 0 && r[|r| - 1].time == b then r[..|r| - 1] + [Absorb(r[|r| - 1], c)]
      else r + [Opening(c, b)]
  }

  /** The candles of bucket `b`, in their order. */
  function InBucket(cs: seq<Candle>, b: int, bucket: int -> int): seq<Candle>
  {
    if |cs| == 0 then []
    else
      InBucket(cs[..|cs| - 1], b, bucket)
      + (if bucket(cs[|cs| - 1].time) == b then [cs[|cs| - 1]] else [])
  }

  /** A candle is in the group of `b` exactly when it is one of `cs` and its
      bucket is `b`. */
  lemma {:induction false} InBucketMeaning(cs: seq<Candle>, b: int, bucket: int -> int)
    ensures forall c :: c in InBucket(cs, b, bucket) <==> c in cs && bucket(c.time) == b
  {
    if |cs| > 0 {
      var init := cs[..|cs| - 1];
      InBucketMeaning(init, b, bucket);
      assert forall c :: c in cs <==> c in init || c == cs[|cs| - 1];
    }
  }

  function Lowest(g: seq<Candle>): int
    requires |g| > 0
  {
    if |g| == 1 then g[0].low else Min(Lowest(g[..|g| - 1]), g[|g| - 1].low)
  }

  function Highest(g: seq<Candle>): int
    requires |g| > 0
  {
    if |g| == 1 then g[0].high else Max(Highest(g[..|g| - 1]), g[|g| - 1].high)
  }

  /** `Lowest` is the least low of the group and `Highest` the greatest
      high, each attained by some candle of it. */
  lemma {:induction false} ExtremesMeaning(g: seq<Candle>)
    requires |g| > 0
    ensures forall c :: c in g ==> Lowest(g) <= c.low && c.high <= Highest(g)
    ensures exists c :: c in g && c.low == Lowest(g)
    ensures exists c :: c in g && c.high == Highest(g)
  {
    if |g| > 1 {
      var init := g[..|g| - 1];
      ExtremesMeaning(init);
      assert forall c :: c in g <==> c in init || c == g[|g| - 1];
    }
  }

  function TotalVolume(g: seq<Candle>): int
  {
    if |g| == 0 then 0 else TotalVolume(g[..|g| - 1]) + g[|g| - 1].volume
  }

  /** The reference: the candle of a bucket from all of its candles at once. */
  function Combined(g: seq<Candle>, b: int): Candle
    requires |g| > 0
  {
    Candle(b, g[0].open, Lowest(g), Highest(g), g[|g| - 1].close, TotalVolume(g))
  }

  lemma CombinedSnoc(g: seq<Candle>, c: Candle, b: int)
    requires |g| > 0
    ensures Combined(g + [c], b) == Absorb(Combined(g, b), c)
  {
    assert (g + [c])[..|g|] == g;
  }

  lemma InBucketSnoc(cs: seq<Candle>, c: Candle, b: int, bucket: int -> int)
    ensures InBucket(cs + [c], b, bucket) == InBucket(cs, b, bucket) + (if bucket(c.time) == b then [c] else [])
  {
    assert (cs + [c])[..|cs|] == cs;
  }

  /** The bucket starts of a fold, in order. */
  function Labels(r: seq<Candle>): (ls: seq<int>)
    ensures |ls| == |r|
    ensures forall i :: 0 <= i < |r| ==> ls[i] == r[i].time
  {
    seq(|r|, i requires 0 <= i < |r| => r[i].time)
  }

  predicate Increasing(ls: seq<int>)
  {
    forall i, j :: 0 <= i < j < |ls| ==> ls[i] < ls[j]
  }

  /** One step of the fold: a candle of the last bucket leaves the labels
      as they are; a candle of a new bucket appends its bucket. */
  lemma AggregateStep(cs: seq<Candle>, bucket: int -> int)
    requires |cs| > 0
    ensures var r0 := Aggregate(cs[..|cs| - 1], bucket);
      var b := bucket(cs[|cs| - 1].time);
      Labels(Aggregate(cs, bucket)) ==
        if |r0| > 0 && r0[|r0| - 1].time == b then Labels(r0) else Labels(r0) + [b]
  {
    var r0 := Aggregate(cs[..|cs| - 1], bucket);
    var b := bucket(cs[|cs| - 1].time);
    var r := Aggregate(cs, bucket);
    if |r0| > 0 && r0[|r0| - 1].time == b {
      assert Labels(r) == Labels(r0);
    } else {
      assert Labels(r) == Labels(r0) + [b];
    }
  }

  lemma SortedInit(cs: seq<Candle>)
    requires SortedByTime(cs) && |cs| > 0
    ensures SortedByTime(cs[..|cs| - 1])
    ensures |cs| > 1 ==> cs[|cs| - 2].time <= cs[|cs| - 1].time
  {
  }

  /** The bucket starts of the fold: strictly increasing, the last one that
      of the latest candle, and one for every candle. */
  lemma {:induction false} AggregateTimes(cs: seq<Candle>, bucket: int -> int)
    requires Monotone(bucket)
    requires SortedByTime(cs)
    ensures var ls := Labels(Aggregate(cs, bucket));
      && Increasing(ls)
      && (|cs| > 0 ==> |ls| > 0 && ls[|ls| - 1] == bucket(cs[|cs| - 1].time))
      && (|cs| == 0 ==> |ls| == 0)
      && (forall c :: c in cs ==> bucket(c.time) in ls)
  {
    if |cs| > 0 {
      var init := cs[..|cs| - 1];
      var c := cs[|cs| - 1];
      var b := bucket(c.time);
      var l0 := Labels(Aggregate(init, bucket));
      var ls := Labels(Aggregate(cs, bucket));
      SortedInit(cs);
      AggregateTimes(init, bucket);
      AggregateStep(cs, bucket);
      if |init| > 0 {
        assert bucket(init[|init| - 1].time) <= b;
      }
      forall x | x in cs
        ensures bucket(x.time) in ls
      {
        if x != c {
          assert x in init;
        }
      }
      if !(|l0| > 0 && l0[|l0| - 1] == b) {
        assert ls == l0 + [b];
        forall i, j | 0 <= i < j < |ls|
          ensures ls[i] < ls[j]
        {
          if j == |l0| {
            assert l0[i] <= l0[|l0| - 1];
          }
        }
      }
    }
  }

  lemma {:induction false} InBucketNone(cs: seq<Candle>, b: int, bucket: int -> int)
    requires forall x :: x in cs ==> bucket(x.time) != b
    ensures InBucket(cs, b, bucket) == []
  {
    if |cs| > 0 {
      assert cs[|cs| - 1] in cs;
      assert forall x :: x in cs[..|cs| - 1] ==> x in cs;
      InBucketNone(cs[..|cs| - 1], b, bucket);
    }
  }

  lemma NoCandleInLaterBucket(cs: seq<Candle>, b: int, bucket: int -> int)
    requires Monotone(bucket)
    requires SortedByTime(cs) && |cs| > 0
    requires bucket(cs[|cs| - 1].time) < b
    ensures InBucket(cs, b, bucket) == []
  {
    forall x | x in cs
      ensures bucket(x.time) != b
    {
      var i :| 0 <= i < |cs| && cs[i] == x;
      assert cs[i].time <= cs[|cs| - 1].time;
    }
    InBucketNone(cs, b, bucket);
  }

  /** `x` is the reference candle of its bucket among `cs`. */
  predicate Reference(cs: seq<Candle>, x: Candle, bucket: int -> int)
  {
    var g := InBucket(cs, x.time, bucket);
    |g| > 0 && x == Combined(g, x.time)
  }

  predicate Faithful(cs: seq<Candle>, r: seq<Candle>, bucket: int -> int)
  {
    forall i :: 0 <= i < |r| ==> Reference(cs, r[i], bucket)
  }

  lemma ReferenceKept(cs: seq<Candle>, c: Candle, x: Candle, bucket: int -> int)
    requires Reference(cs, x, bucket) && bucket(c.time) != x.time
    ensures Reference(cs + [c], x, bucket)
  {
    InBucketSnoc(cs, c, x.time, bucket);
    assert InBucket(cs + [c], x.time, bucket) == InBucket(cs, x.time, bucket);
  }

  lemma ReferenceAbsorb(cs: seq<Candle>, c: Candle, x: Candle, bucket: int -> int)
    requires Reference(cs, x, bucket) && bucket(c.time) == x.time
    ensures Reference(cs + [c], Absorb(x, c), bucket)
  {
    InBucketSnoc(cs, c, x.time, bucket);
    CombinedSnoc(InBucket(cs, x.time, bucket), c, x.time);
  }

  lemma ReferenceOpen(cs: seq<Candle>, c: Candle, bucket: int -> int)
    requires InBucket(cs, bucket(c.time), bucket) == []
    ensures Reference(cs + [c], Opening(c, bucket(c.time)), bucket)
  {
    InBucketSnoc(cs, c, bucket(c.time), bucket);
    assert InBucket(cs + [c], bucket(c.time), bucket) == [c];
    assert [c][..0] == [];
    assert TotalVolume([c]) == c.volume;
  }

  /** The step where the new candle joins the last bucket. */
  lemma ContentsJoin(cs: seq<Candle>, c: Candle, r: seq<Candle>, bucket: int -> int)
    requires Faithful(cs, r, bucket) && Increasing(Labels(r))
    requires |r| > 0 && r[|r| - 1].time == bucket(c.time)
    ensures Faithful(cs + [c], r[..|r| - 1] + [Absorb(r[|r| - 1], c)], bucket)
  {
    var n := |r| - 1;
    var r' := r[..n] + [Absorb(r[n], c)];
    forall i | 0 <= i < |r'|
      ensures Reference(cs + [c], r'[i], bucket)
    {
      if i < n {
        assert Labels(r)[i] < Labels(r)[n];
        assert r'[i] == r[i];
        ReferenceKept(cs, c, r[i], bucket);
      } else {
        ReferenceAbsorb(cs, c, r[n], bucket);
      }
    }
  }

  /** The step where the new candle opens a bucket after all others. */
  lemma ContentsOpen(cs: seq<Candle>, c: Candle, r: seq<Candle>, bucket: int -> int)
    requires Faithful(cs, r, bucket)
    requires forall i :: 0 <= i < |r| ==> r[i].time != bucket(c.time)
    requires InBucket(cs, bucket(c.time), bucket) == []
    ensures Faithful(cs + [c], r + [Opening(c, bucket(c.time))], bucket)
  {
    var r' := r + [Opening(c, bucket(c.time))];
    ReferenceOpen(cs, c, bucket);
    forall i | 0 <= i < |r'|
      ensures Reference(cs + [c], r'[i], bucket)
    {
      if i < |r| {
        assert r'[i] == r[i];
        ReferenceKept(cs, c, r[i], bucket);
      }
    }
  }

  /** Every candle of the fold is the reference candle of its bucket, and
      no bucket of the fold is empty. */
  lemma {:induction false} AggregateContents(cs: seq<Candle>, bucket: int -> int)
    requires Monotone(bucket)
    requires SortedByTime(cs)
    ensures Faithful(cs, Aggregate(cs, bucket), bucket)
  {
    if |cs| > 0 {
      var init := cs[..|cs| - 1];
      var c := cs[|cs| - 1];
      var b := bucket(c.time);
      var r0 := Aggregate(init, bucket);
      assert cs == init + [c];
      SortedInit(cs);
      AggregateContents(init, bucket);
      AggregateTimes(init, bucket);
      var l0 := Labels(r0);
      if |r0| > 0 && r0[|r0| - 1].time == b {
        ContentsJoin(init, c, r0, bucket);
      } else {
        if |init| > 0 {
          assert bucket(init[|init| - 1].time) <= b;
          NoCandleInLaterBucket(init, b, bucket);
        }
        forall i | 0 <= i < |r0|
          ensures r0[i].time != b
        {
          assert l0[i] <= l0[|l0| - 1];
        }
        ContentsOpen(init, c, r0, bucket);
      }
    }
  }

  /** The combined candle of well-formed candles is well-formed. */
  lemma CombinedWellFormed(g: seq<Candle>, b: int)
    requires |g| > 0
    requires forall c :: c in g ==> WellFormed(c)
    ensures WellFormed(Combined(g, b))
  {
    assert g[0] in g && g[|g| - 1] in g;
    ExtremesMeaning(g);
    VolumeNonNegative(g);
  }

  lemma {:induction false} VolumeNonNegative(g: seq<Candle>)
    requires forall c :: c in g ==> c.volume >= 0
    ensures TotalVolume(g) >= 0
  {
    if |g| > 0 {
      assert g[|g| - 1] in g;
      assert forall c :: c in g[..|g| - 1] ==> c in g;
      VolumeNonNegative(g[..|g| - 1]);
    }
  }

  /** The fold of well-formed candles gives well-formed candles. */
  lemma AggregateWellFormed(cs: seq<Candle>, bucket: int -> int)
    requires Monotone(bucket)
    requires SortedByTime(cs)
    requires forall c :: c in cs ==> WellFormed(c)
    ensures forall x :: x in Aggregate(cs, bucket) ==> WellFormed(x)
  {
    var r := Aggregate(cs, bucket);
    AggregateContents(cs, bucket);
    forall x | x in r
      ensures WellFormed(x)
    {
      var i :| 0 <= i < |r| && r[i] == x;
      assert Reference(cs, r[i], bucket);
      InBucketMeaning(cs, x.time, bucket);
      CombinedWellFormed(InBucket(cs, x.time, bucket), x.time);
    }
  }

  /** Every bucket of the fold is the bucket of one of the candles. */
  lemma AggregateLabelsOfCandles(cs: seq<Candle>, bucket: int -> int)
    requires Monotone(bucket)
    requires SortedByTime(cs)
    ensures forall x :: x in Aggregate(cs, bucket) ==> exists c :: c in cs && bucket(c.time) == x.time
  {
    var r := Aggregate(cs, bucket);
    AggregateContents(cs, bucket);
    forall x | x in r
      ensures exists c :: c in cs && bucket(c.time) == x.time
    {
      var i :| 0 <= i < |r| && r[i] == x;
      assert Reference(cs, r[i], bucket);
      var g := InBucket(cs, x.time, bucket);
      InBucketMeaning(cs, x.time, bucket);
      assert g[0] in g;
    }
  }
}
