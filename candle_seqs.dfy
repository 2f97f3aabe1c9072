/** Orderings of candle lists by time: the `sort_values("date")` and
    `drop_duplicates(subset=["date"], keep="last")` steps used throughout the
    storage, resampling, gap-filling and fetch code. */
module CandleSeqs {
  import opened PriceData

  predicate SortedByTime(cs: seq<Candle>)
  {
    forall i, j :: 0 <= i < j < |cs| ==> cs[i].time <= cs[j].time
  }

  /** Sorted with no two candles at the same time. */
  predicate StrictlyIncreasing(cs: seq<Candle>)
  {
    forall i, j :: 0 <= i < j < |cs| ==> cs[i].time < cs[j].time
  }

  function Times(cs: seq<Candle>): set<int>
  {
    set c | c in cs :: c.time
  }

  /** Inserts `c` after every candle of `cs` at the same or an earlier time. */
  function InsertByTime(c: Candle, cs: seq<Candle>): (r: seq<Candle>)
    requires SortedByTime(cs)
    ensures |r| == |cs| + 1
    ensures SortedByTime(r)
    ensures forall x :: x in r <==> x == c || x in cs
  {
    if |cs| == 0 then [c]
    else if c.time < cs[0].time then [c] + cs
    else
      var rest := InsertByTime(c, cs[1..]);
      assert forall x :: x in cs[1..] ==> cs[0].time <= x.time;
      assert forall k :: 0 <= k < |rest| ==> rest[k] == c || rest[k] in cs[1..];
      [cs[0]] + rest
  }

  lemma {:induction false} InsertByTimeMultiset(c: Candle, cs: seq<Candle>)
    requires SortedByTime(cs)
    ensures multiset(InsertByTime(c, cs)) == multiset(cs) + multiset{c}
  {
    if |cs| > 0 && c.time >= cs[0].time {
      InsertByTimeMultiset(c, cs[1..]);
      assert cs == [cs[0]] + cs[1..];
    }
  }

  /** A stable sort by time (insertion sort, input order kept among equal times). */
  function SortByTime(cs: seq<Candle>): (r: seq<Candle>)
    ensures |r| == |cs|
    ensures SortedByTime(r)
    ensures forall x :: x in r <==> x in cs
  {
    if |cs| == 0 then []
    else
      assert cs == cs[..|cs| - 1] + [cs[|cs| - 1]];
      InsertByTime(cs[|cs| - 1], SortByTime(cs[..|cs| - 1]))
  }

  /** Sorting only reorders: the result is a permutation of the input. */
  lemma {:induction false} SortByTimePermutes(cs: seq<Candle>)
    ensures multiset(SortByTime(cs)) == multiset(cs)
  {
    if |cs| > 0 {
      var init := cs[..|cs| - 1];
      SortByTimePermutes(init);
      InsertByTimeMultiset(cs[|cs| - 1], SortByTime(init));
      assert cs == init + [cs[|cs| - 1]];
    }
  }

  /** The candle kept for each time of a sorted list: the last one at that time. */
  function DedupeSorted(cs: seq<Candle>): (r: seq<Candle>)
    requires SortedByTime(cs)
    ensures StrictlyIncreasing(r)
    ensures Times(r) == Times(cs)
    ensures forall x :: x in r ==> x in cs
    ensures |cs| > 0 ==> |r| > 0 && r[0].time == cs[0].time
  {
    if |cs| <= 1 then cs
    else
      var rest := DedupeSorted(cs[1..]);
      assert cs == [cs[0]] + cs[1..];
      assert Times(cs) == {cs[0].time} + Times(cs[1..]);
      if cs[0].time == cs[1].time then rest
      else
        assert forall k :: 0 <= k < |rest| ==> rest[k] in cs[1..];
        [cs[0]] + rest
  }

  /** The sorted, de-duplicated concatenation of `existing` and `incoming`: a
      file's content after `concat`, `sort_values` and
      `drop_duplicates(keep="last")`.  The stable sort puts the incoming
      candle last among equal times, so it is the one kept. */
  function MergeKeepLast(existing: seq<Candle>, incoming: seq<Candle>): (r: seq<Candle>)
    ensures StrictlyIncreasing(r)
    ensures Times(r) == Times(existing) + Times(incoming)
    ensures forall x :: x in r ==> x in existing || x in incoming
  {
    var sorted := SortByTime(existing + incoming);
    TimesOfSameElements(sorted, existing + incoming);
    TimesOfConcat(existing, incoming);
    DedupeSorted(sorted)
  }

  lemma TimesOfSameElements(a: seq<Candle>, b: seq<Candle>)
    requires forall x :: x in a <==> x in b
    ensures Times(a) == Times(b)
  {
  }

  lemma TimesOfConcat(a: seq<Candle>, b: seq<Candle>)
    ensures Times(a + b) == Times(a) + Times(b)
  {
  }
}
