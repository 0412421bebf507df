/**
 * The monthly pre-aggregation: for one grouping column, one bucket per
 * (group, month) that occurs, holding the three counters `count_all`,
 * `count_1st` and `count_top3`.
 */
module Buckets {
  import opened Wrappers
  import opened Rows

  datatype Bucket = Bucket(group: string, month: int, countAll: nat, count1st: nat, countTop3: nat)

  /** The counter a finish tier reads (`metric_col`). */
  function Metric(b: Bucket, f: Finish): nat
  {
    match f
    case All => b.countAll
    case First => b.count1st
    case Top3 => b.countTop3
  }

  /** One more row with placement `p` in the bucket. */
  function Inc(b: Bucket, p: Option<int>): (b': Bucket)
    ensures b'.group == b.group && b'.month == b.month
    ensures forall f :: Metric(b', f) == Metric(b, f) + (if TierPass(f, p) then 1 else 0)
  {
    Bucket(b.group, b.month,
      b.countAll + 1,
      b.count1st + (if TierPass(First, p) then 1 else 0),
      b.countTop3 + (if TierPass(Top3, p) then 1 else 0))
  }

  function Empty(group: string, month: int): Bucket
  {
    Bucket(group, month, 0, 0, 0)
  }

  /** Count one row with key (group, month) and placement `p`. */
  function Bump(bs: seq<Bucket>, group: string, month: int, p: Option<int>): seq<Bucket>
  {
    if bs == [] then [Inc(Empty(group, month), p)]
    else if bs[0].group == group && bs[0].month == month then [Inc(bs[0], p)] + bs[1..]
    else [bs[0]] + Bump(bs[1..], group, month, p)
  }

  /**
   * The bucket table of one grouping column: rows without a month belong to
   * no bucket, as in a group-by that drops missing keys.
   */
  function Tally(rows: seq<Row>, key: GroupKey): seq<Bucket>
  {
    if rows == [] then []
    else
      var r := rows[|rows| - 1];
      var t := Tally(rows[..|rows| - 1], key);
      if r.date.None? then t else Bump(t, Label(r, key), r.date.value.month, r.placement)
  }

  /** The bucket with key (group, month), if there is one. */
  function Find(bs: seq<Bucket>, group: string, month: int): (r: Option<Bucket>)
    ensures r.Some? ==> r.value in bs && r.value.group == group && r.value.month == month
    ensures r.None? ==> forall i :: 0 <= i < |bs| ==> !(bs[i].group == group && bs[i].month == month)
  {
    if bs == [] then None
    else if bs[0].group == group && bs[0].month == month then Some(bs[0])
    else Find(bs[1..], group, month)
  }

  /** The bucket with key (group, month), or an empty one when there is none. */
  function Current(bs: seq<Bucket>, group: string, month: int): Bucket
  {
    match Find(bs, group, month)
    case Some(b) => b
    case None => Empty(group, month)
  }

  /** No two buckets share a (group, month) key. */
  predicate DistinctKeys(bs: seq<Bucket>)
  {
    forall i, j :: 0 <= i < j < |bs| ==> !(bs[i].group == bs[j].group && bs[i].month == bs[j].month)
  }

  /** Every bucket has a row in it, and 1st finishes are among the top-3 finishes. */
  predicate Ordered(b: Bucket)
  {
    b.count1st <= b.countTop3 <= b.countAll && b.countAll >= 1
  }

  /** The number of rows in the bucket (group, month) that pass the tier. */
  function BucketCount(rows: seq<Row>, key: GroupKey, group: string, month: int, f: Finish): nat
  {
    if rows == [] then 0
    else
      var r := rows[|rows| - 1];
      BucketCount(rows[..|rows| - 1], key, group, month, f)
      + (if r.date.Some? && r.date.value.month == month && Label(r, key) == group && TierPass(f, r.placement)
         then 1 else 0)
  }

  lemma {:induction false} FindOfMember(bs: seq<Bucket>, i: nat)
    requires DistinctKeys(bs) && i < |bs|
    ensures Find(bs, bs[i].group, bs[i].month) == Some(bs[i])
  {
    if i > 0 {
      FindOfMember(bs[1..], i - 1);
    }
  }

  /** What one row does to the lookup: exactly its own bucket changes. */
  lemma {:induction false} BumpFind(bs: seq<Bucket>, group: string, month: int, p: Option<int>, l: string, m: int)
    ensures Find(Bump(bs, group, month, p), l, m) ==
      if l == group && m == month
      then Some(Inc(Current(bs, l, m), p))
      else Find(bs, l, m)
  {
    if bs != [] && !(bs[0].group == group && bs[0].month == month) {
      BumpFind(bs[1..], group, month, p, l, m);
    }
  }

  /** A bucket after one more row is the row's own bucket or an old one. */
  lemma {:induction false} BumpMembers(bs: seq<Bucket>, group: string, month: int, p: Option<int>)
    ensures forall b :: b in Bump(bs, group, month, p) ==> (b.group == group && b.month == month) || b in bs
  {
    if bs != [] && !(bs[0].group == group && bs[0].month == month) {
      BumpMembers(bs[1..], group, month, p);
    }
  }

  lemma {:induction false} BumpDistinct(bs: seq<Bucket>, group: string, month: int, p: Option<int>)
    requires DistinctKeys(bs)
    ensures DistinctKeys(Bump(bs, group, month, p))
  {
    if bs != [] && !(bs[0].group == group && bs[0].month == month) {
      BumpDistinct(bs[1..], group, month, p);
      BumpMembers(bs[1..], group, month, p);
      var r := Bump(bs[1..], group, month, p);
      forall k | 0 <= k < |r| ensures !(bs[0].group == r[k].group && bs[0].month == r[k].month) {
        assert r[k] in r;
        if r[k] in bs[1..] {
          var j :| 0 <= j < |bs[1..]| && bs[1..][j] == r[k];
          assert bs[j + 1] == r[k];
        }
      }
    }
  }

  lemma {:induction false} BumpOrdered(bs: seq<Bucket>, group: string, month: int, p: Option<int>)
    requires forall i :: 0 <= i < |bs| ==> Ordered(bs[i])
    ensures forall i :: 0 <= i < |Bump(bs, group, month, p)| ==> Ordered(Bump(bs, group, month, p)[i])
  {
    if bs != [] && !(bs[0].group == group && bs[0].month == month) {
      BumpOrdered(bs[1..], group, month, p);
    }
  }

  /** Fewer rows finish 1st than in the top 3, and fewer in the top 3 than in all. */
  lemma {:induction false} BucketCountOrder(rows: seq<Row>, key: GroupKey, group: string, month: int)
    ensures BucketCount(rows, key, group, month, First) <= BucketCount(rows, key, group, month, Top3)
      <= BucketCount(rows, key, group, month, All)
  {
    if rows != [] {
      BucketCountOrder(rows[..|rows| - 1], key, group, month);
    }
  }

  /** No key occurs twice in the table, and every bucket keeps count_1st <= count_top3 <= count_all. */
  lemma {:induction false} TallyWellFormed(rows: seq<Row>, key: GroupKey)
    ensures DistinctKeys(Tally(rows, key))
    ensures forall i :: 0 <= i < |Tally(rows, key)| ==> Ordered(Tally(rows, key)[i])
  {
    if rows != [] {
      var init := rows[..|rows| - 1];
      var r := rows[|rows| - 1];
      TallyWellFormed(init, key);
      if r.date.Some? {
        BumpDistinct(Tally(init, key), Label(r, key), r.date.value.month, r.placement);
        BumpOrdered(Tally(init, key), Label(r, key), r.date.value.month, r.placement);
      }
    }
  }

  /** The bucket that the rows of key (group, month) make, if there are any. */
  function BucketOf(rows: seq<Row>, key: GroupKey, group: string, month: int): Option<Bucket>
  {
    if BucketCount(rows, key, group, month, All) == 0 then None
    else Some(Bucket(group, month,
      BucketCount(rows, key, group, month, All),
      BucketCount(rows, key, group, month, First),
      BucketCount(rows, key, group, month, Top3)))
  }

  /**
   * The bucket table in closed form: a (group, month) key has a bucket
   * exactly when some dated row has that key, and then its three counters
   * are the numbers of such rows overall, with placement 1, and with
   * placement 1 to 3.
   */
  lemma {:induction false} TallyFind(rows: seq<Row>, key: GroupKey, group: string, month: int)
    ensures Find(Tally(rows, key), group, month) == BucketOf(rows, key, group, month)
  {
    if rows != [] {
      var init := rows[..|rows| - 1];
      var r := rows[|rows| - 1];
      TallyFind(init, key, group, month);
      BucketOfStep(rows, key, group, month);
      if r.date.Some? {
        BumpFind(Tally(init, key), Label(r, key), r.date.value.month, r.placement, group, month);
      }
    }
  }

  /** What the last row adds to the closed-form bucket of a key. */
  lemma BucketOfStep(rows: seq<Row>, key: GroupKey, group: string, month: int)
    requires rows != []
    ensures var init, r := rows[..|rows| - 1], rows[|rows| - 1];
      var before := BucketOf(init, key, group, month);
      BucketOf(rows, key, group, month) ==
        if r.date.Some? && r.date.value.month == month && Label(r, key) == group
        then Some(Inc(if before.Some? then before.value else Empty(group, month), r.placement))
        else before
  {
    var init := rows[..|rows| - 1];
    BucketCountOrder(init, key, group, month);
  }

  /** Each bucket of the table holds exactly the rows of its key. */
  lemma BucketCounters(rows: seq<Row>, key: GroupKey, i: nat)
    requires i < |Tally(rows, key)|
    ensures var b := Tally(rows, key)[i];
      && b.countAll == BucketCount(rows, key, b.group, b.month, All)
      && b.count1st == BucketCount(rows, key, b.group, b.month, First)
      && b.countTop3 == BucketCount(rows, key, b.group, b.month, Top3)
      && b.count1st <= b.countTop3 <= b.countAll
  {
    var b := Tally(rows, key)[i];
    TallyWellFormed(rows, key);
    TallyFind(rows, key, b.group, b.month);
    FindOfMember(Tally(rows, key), i);
  }

  /** The sum of the tier's counter over the buckets of `group` at or after `cutoff`. */
  function WindowSum(bs: seq<Bucket>, group: string, cutoff: int, f: Finish): nat
  {
    if bs == [] then 0
    else
      var here := if bs[0].group == group && bs[0].month >= cutoff then Metric(bs[0], f) else 0;
      here + WindowSum(bs[1..], group, cutoff, f)
  }

  /** The sum of the tier's counter over all buckets at or after `cutoff`. */
  function TotalSum(bs: seq<Bucket>, cutoff: int, f: Finish): nat
  {
    if bs == [] then 0
    else
      var here := if bs[0].month >= cutoff then Metric(bs[0], f) else 0;
      here + TotalSum(bs[1..], cutoff, f)
  }

  /** Counting one row raises the windowed sums by one exactly when the row is in the window and passes the tier. */
  lemma BumpSums(bs: seq<Bucket>, l: string, m: int, p: Option<int>, group: string, cutoff: int, f: Finish)
    ensures WindowSum(Bump(bs, l, m, p), group, cutoff, f)
      == WindowSum(bs, group, cutoff, f) + (if l == group && m >= cutoff && TierPass(f, p) then 1 else 0)
    ensures TotalSum(Bump(bs, l, m, p), cutoff, f)
      == TotalSum(bs, cutoff, f) + (if m >= cutoff && TierPass(f, p) then 1 else 0)
  {
    BumpWindowSum(bs, l, m, p, group, cutoff, f);
    BumpTotalSum(bs, l, m, p, cutoff, f);
  }

  lemma {:induction false} BumpWindowSum(bs: seq<Bucket>, l: string, m: int, p: Option<int>, group: string, cutoff: int, f: Finish)
    ensures WindowSum(Bump(bs, l, m, p), group, cutoff, f)
      == WindowSum(bs, group, cutoff, f) + (if l == group && m >= cutoff && TierPass(f, p) then 1 else 0)
  {
    if bs == [] {
    } else if bs[0].group == l && bs[0].month == m {
      assert Bump(bs, l, m, p)[1..] == bs[1..];
    } else {
      BumpWindowSum(bs[1..], l, m, p, group, cutoff, f);
      assert Bump(bs, l, m, p)[1..] == Bump(bs[1..], l, m, p);
    }
  }

  lemma {:induction false} BumpTotalSum(bs: seq<Bucket>, l: string, m: int, p: Option<int>, cutoff: int, f: Finish)
    ensures TotalSum(Bump(bs, l, m, p), cutoff, f)
      == TotalSum(bs, cutoff, f) + (if m >= cutoff && TierPass(f, p) then 1 else 0)
  {
    if bs == [] {
    } else if bs[0].group == l && bs[0].month == m {
      assert Bump(bs, l, m, p)[1..] == bs[1..];
    } else {
      BumpTotalSum(bs[1..], l, m, p, cutoff, f);
      assert Bump(bs, l, m, p)[1..] == Bump(bs[1..], l, m, p);
    }
  }

  /**
   * The pre-aggregation equivalence: summing the buckets of a group from the
   * cutoff month on counts exactly the rows the drill-down mask selects.
   */
  lemma {:induction false} TallyWindowSum(rows: seq<Row>, key: GroupKey, group: string, cutoff: int, f: Finish)
    ensures WindowSum(Tally(rows, key), group, cutoff, f) == |Mask(rows, key, group, cutoff, f)|
  {
    if rows != [] {
      var init := rows[..|rows| - 1];
      var r := rows[|rows| - 1];
      TallyWindowSum(init, key, group, cutoff, f);
      if r.date.Some? {
        BumpSums(Tally(init, key), Label(r, key), r.date.value.month, r.placement, group, cutoff, f);
      }
    }
  }

  /** Conservation: all buckets from the cutoff on count the rows that pass window and tier. */
  lemma {:induction false} TallyTotalSum(rows: seq<Row>, key: GroupKey, cutoff: int, f: Finish)
    ensures TotalSum(Tally(rows, key), cutoff, f) == |WindowRows(rows, cutoff, f)|
  {
    if rows != [] {
      var init := rows[..|rows| - 1];
      var r := rows[|rows| - 1];
      TallyTotalSum(init, key, cutoff, f);
      if r.date.Some? {
        BumpSums(Tally(init, key), Label(r, key), r.date.value.month, r.placement, "", cutoff, f);
      }
    }
  }
}
