/** Runs of consecutive minutes.  Minutes are numbered from the epoch
    (UTC), so the minute after `m` is `m + 1`.  A strictly increasing list
    of minutes is grouped into maximal half-open periods
    `[first, last + 1)`; expanding the periods again gives back the list,
    and consecutive periods are separated by at least one minute that is
    not in the list. */
module MinuteRuns {

  /** The minutes of `[a, b)`. */
  function Expand(a: int, b: int): (r: seq<int>)
    decreases b - a
  {
    if a >= b then [] else [a] + Expand(a + 1, b)
  }

  lemma {:induction false} ExpandMember(a: int, b: int, t: int)
    ensures t in Expand(a, b) <==> a <= t < b
    decreases b - a
  {
    if a < b {
      ExpandMember(a + 1, b, t);
    }
  }

  /** Extending a run by its next minute appends that minute. */
  lemma {:induction false} ExpandSnoc(a: int, e: int)
    requires a <= e
    ensures Expand(a, e + 1) == Expand(a, e) + [e]
    decreases e - a
  {
    if a < e {
      ExpandSnoc(a + 1, e);
    }
  }

  /** Every minute of every period, period by period. */
  function Flatten(ps: seq<(int, int)>): seq<int>
  {
    if |ps| == 0 then [] else Flatten(ps[..|ps| - 1]) + Expand(ps[|ps| - 1].0, ps[|ps| - 1].1)
  }

  lemma {:induction false} FlattenMember(ps: seq<(int, int)>, t: int)
    ensures t in Flatten(ps) <==> exists i :: 0 <= i < |ps| && t in Expand(ps[i].0, ps[i].1)
  {
    if |ps| > 0 {
      var init := ps[..|ps| - 1];
      FlattenMember(init, t);
      if t in Flatten(init) {
        var i :| 0 <= i < |init| && t in Expand(init[i].0, init[i].1);
        assert ps[i] == init[i];
      }
      if exists i :: 0 <= i < |ps| && t in Expand(ps[i].0, ps[i].1) {
        var i :| 0 <= i < |ps| && t in Expand(ps[i].0, ps[i].1);
        if i < |ps| - 1 {
          assert init[i] == ps[i];
        }
      }
    }
  }

  predicate StrictlyIncreasing(ms: seq<int>)
  {
    forall i, j :: 0 <= i < j < |ms| ==> ms[i] < ms[j]
  }

  /** Non-empty periods in increasing order, each ending strictly before the
      next begins. */
  ghost predicate Separated(ps: seq<(int, int)>)
  {
    (forall i :: 0 <= i < |ps| ==> ps[i].0 < ps[i].1)
    && (forall i, j :: 0 <= i < j < |ps| && j == i + 1 ==> ps[i].1 < ps[j].0)
  }

  /** The grouping loop, from position `i` of `ms`, with the open run
      `[start, end]` and the closed periods `acc`. */
  function GroupFrom(ms: seq<int>, i: nat, start: int, end: int, acc: seq<(int, int)>): seq<(int, int)>
    requires i <= |ms|
    decreases |ms| - i
  {
    if i == |ms| then acc + [(start, end + 1)]
    else if ms[i] == end + 1 then GroupFrom(ms, i + 1, start, ms[i], acc)
    else GroupFrom(ms, i + 1, ms[i], ms[i], acc + [(start, end + 1)])
  }

  /** Maximal runs of consecutive minutes, in order. */
  function GroupRuns(ms: seq<int>): seq<(int, int)>
  {
    if |ms| == 0 then [] else GroupFrom(ms, 1, ms[0], ms[0], [])
  }

  lemma FlattenSnoc(acc: seq<(int, int)>, p: (int, int))
    ensures Flatten(acc + [p]) == Flatten(acc) + Expand(p.0, p.1)
  {
    assert (acc + [p])[..|acc|] == acc;
  }

  /** The grouping loop loses and adds no minute: the closed runs, the
      open run and the rest of the list, in order. */
  lemma {:induction false} GroupFromFlatten(ms: seq<int>, i: nat, start: int, end: int, acc: seq<(int, int)>)
    requires i <= |ms| && start <= end
    ensures Flatten(GroupFrom(ms, i, start, end, acc)) == Flatten(acc) + Expand(start, end + 1) + ms[i..]
    decreases |ms| - i
  {
    if i == |ms| {
      FlattenSnoc(acc, (start, end + 1));
    } else if ms[i] == end + 1 {
      GroupFromFlatten(ms, i + 1, start, ms[i], acc);
      ExpandSnoc(start, ms[i]);
      assert ms[i..] == [ms[i]] + ms[i + 1..];
    } else {
      GroupFromFlatten(ms, i + 1, ms[i], ms[i], acc + [(start, end + 1)]);
      FlattenSnoc(acc, (start, end + 1));
      assert Expand(ms[i], ms[i] + 1) == [ms[i]];
      assert ms[i..] == [ms[i]] + ms[i + 1..];
    }
  }

  /** On a strictly increasing list the runs the loop closes are non-empty,
      ordered and separated by a gap. */
  lemma {:induction false} GroupFromSeparated(ms: seq<int>, i: nat, start: int, end: int, acc: seq<(int, int)>)
    requires StrictlyIncreasing(ms)
    requires 1 <= i <= |ms| && end == ms[i - 1] && start <= end
    requires Separated(acc)
    requires |acc| > 0 ==> acc[|acc| - 1].1 < start
    ensures Separated(GroupFrom(ms, i, start, end, acc))
    decreases |ms| - i
  {
    if i == |ms| {
      CloseSeparated(acc, start, end);
    } else if ms[i] == end + 1 {
      GroupFromSeparated(ms, i + 1, start, ms[i], acc);
    } else {
      CloseSeparated(acc, start, end);
      assert ms[i - 1] < ms[i];
      GroupFromSeparated(ms, i + 1, ms[i], ms[i], acc + [(start, end + 1)]);
    }
  }

  /** Closing a run after the closed ones keeps them separated. */
  lemma CloseSeparated(acc: seq<(int, int)>, start: int, end: int)
    requires Separated(acc) && start <= end
    requires |acc| > 0 ==> acc[|acc| - 1].1 < start
    ensures Separated(acc + [(start, end + 1)])
  {
  }

  /** The grouping is a partition: the runs expand back to the list, and
      they are non-empty, ordered and separated by a gap. */
  lemma GroupRunsPartition(ms: seq<int>)
    requires StrictlyIncreasing(ms)
    ensures Flatten(GroupRuns(ms)) == ms
    ensures Separated(GroupRuns(ms))
  {
    if |ms| > 0 {
      assert Expand(ms[0], ms[0] + 1) == [ms[0]];
      assert ms == [ms[0]] + ms[1..];
      GroupFromFlatten(ms, 1, ms[0], ms[0], []);
      GroupFromSeparated(ms, 1, ms[0], ms[0], []);
    }
  }

  /** A minute lies in the list exactly when some run covers it. */
  lemma GroupRunsCover(ms: seq<int>, t: int)
    requires StrictlyIncreasing(ms)
    ensures t in ms <==> exists i :: 0 <= i < |GroupRuns(ms)| && GroupRuns(ms)[i].0 <= t < GroupRuns(ms)[i].1
  {
    var ps := GroupRuns(ms);
    GroupRunsPartition(ms);
    FlattenMember(ps, t);
    if exists i :: 0 <= i < |ps| && ps[i].0 <= t < ps[i].1 {
      var i :| 0 <= i < |ps| && ps[i].0 <= t < ps[i].1;
      ExpandMember(ps[i].0, ps[i].1, t);
    }
    if t in ms {
      var i :| 0 <= i < |ps| && t in Expand(ps[i].0, ps[i].1);
      ExpandMember(ps[i].0, ps[i].1, t);
    }
  }

  /** The grouping loop of the validator over a sorted list of missing
      minutes. */
  method GroupConsecutive(ms: seq<int>) returns (periods: seq<(int, int)>)
    ensures periods == GroupRuns(ms)
  {
    periods := [];
    if |ms| == 0 {
      return;
    }
    var start := ms[0];
    var end := ms[0];
    var i := 1;
    while i < |ms|
      invariant 1 <= i <= |ms|
      invariant GroupFrom(ms, i, start, end, periods) == GroupRuns(ms)
    {
      if ms[i] == end + 1 {
        end := ms[i];
      } else {
        periods := periods + [(start, end + 1)];
        start := ms[i];
        end := ms[i];
      }
      i := i + 1;
    }
    periods := periods + [(start, end + 1)];
  }
}
