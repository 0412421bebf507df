/**
 * The leaderboard query: the cutoff month, the slice of the bucket table,
 * the per-label sum, the `min_usage` filter, the sort, the total and the
 * share of each row.
 */
module Leaderboard {
  import opened Wrappers
  import opened Text
  import opened Rows
  import opened Buckets
  import opened Sorting

  /** A calendar month; `month` runs from 1 to 12. */
  datatype YearMonth = YearMonth(year: int, month: int)

  predicate ValidMonth(ym: YearMonth)
  {
    1 <= ym.month <= 12
  }

  /** The monthly period as a month count, the index used by `Stamp.month`. */
  function MonthIndex(ym: YearMonth): int
  {
    ym.year * 12 + ym.month - 1
  }

  /** Distinct calendar months have distinct indices. */
  lemma MonthIndexInjective(a: YearMonth, b: YearMonth)
    requires ValidMonth(a) && ValidMonth(b) && MonthIndex(a) == MonthIndex(b)
    ensures a == b
  {
  }

  /**
   * The month of `now - DateOffset(months=monthsBack)`: calendar-month
   * subtraction, borrowing from the year when needed.
   */
  function CutoffMonth(now: YearMonth, monthsBack: nat): (c: YearMonth)
    requires ValidMonth(now)
    ensures ValidMonth(c)
    ensures MonthIndex(c) == MonthIndex(now) - monthsBack
    ensures monthsBack < now.month ==> c == YearMonth(now.year, now.month - monthsBack)
  {
    var k := now.month - 1 - monthsBack;
    YearMonth(now.year + k / 12, k % 12 + 1)
  }

  /** `view_slice`: the buckets whose month is at or after the cutoff. */
  function Slice(bs: seq<Bucket>, cutoff: int): (r: seq<Bucket>)
    ensures forall b :: b in r <==> b in bs && b.month >= cutoff
  {
    if bs == [] then []
    else if bs[0].month >= cutoff then [bs[0]] + Slice(bs[1..], cutoff)
    else Slice(bs[1..], cutoff)
  }

  /** A leaderboard row: the group value and its Usage. */
  datatype Entry = Entry(name: string, usage: nat)

  function NameOf(e: Entry): string { e.name }

  /** Add `n` to the row of `name`, making the row if there is none. */
  function AddUsage(es: seq<Entry>, name: string, n: nat): seq<Entry>
  {
    if es == [] then [Entry(name, n)]
    else if es[0].name == name then [Entry(name, es[0].usage + n)] + es[1..]
    else [es[0]] + AddUsage(es[1..], name, n)
  }

  /** `groupby(group_col)[metric_col].sum()` over a slice. */
  function GroupSum(bs: seq<Bucket>, f: Finish): seq<Entry>
  {
    if bs == [] then [] else AddUsage(GroupSum(bs[1..], f), bs[0].group, Metric(bs[0], f))
  }

  /** The Usage of `name`, or 0 when it has no row. */
  function UsageOf(es: seq<Entry>, name: string): nat
  {
    if es == [] then 0 else if es[0].name == name then es[0].usage else UsageOf(es[1..], name)
  }

  function SumUsage(es: seq<Entry>): nat
  {
    if es == [] then 0 else es[0].usage + SumUsage(es[1..])
  }

  /** `agg[agg["Usage"] >= min_usage]`. */
  function KeepAtLeast(es: seq<Entry>, minUsage: nat): (r: seq<Entry>)
    ensures forall e :: e in r <==> e in es && e.usage >= minUsage
  {
    if es == [] then []
    else if es[0].usage >= minUsage then [es[0]] + KeepAtLeast(es[1..], minUsage)
    else KeepAtLeast(es[1..], minUsage)
  }

  /** The sort order: Usage descending, then the label ascending. */
  predicate EntryBefore(a: Entry, b: Entry)
  {
    a.usage > b.usage || (a.usage == b.usage && LexLe(a.name, b.name))
  }

  /** The leaderboard of a bucket table for one cutoff month, tier and floor. */
  function Board(bs: seq<Bucket>, cutoff: int, f: Finish, minUsage: nat): seq<Entry>
  {
    InsertionSort(KeepAtLeast(GroupSum(Slice(bs, cutoff), f), minUsage), EntryBefore)
  }

  /** `total_usage`: the sum of the remaining Usage values, or 1 when that is 0. */
  function TotalUsage(es: seq<Entry>): (t: nat)
    ensures t >= 1
    ensures SumUsage(es) > 0 ==> t == SumUsage(es)
    ensures SumUsage(es) == 0 ==> t == 1
  {
    if SumUsage(es) == 0 then 1 else SumUsage(es)
  }

  /**
   * The exact percentage `usage / total * 100` (the one-decimal rounding is
   * not modelled): the one number that, taken `total` times, gives 100 times
   * the usage.
   */
  function Share(usage: nat, total: nat): (pct: real)
    requires total > 0
    ensures pct * (total as real) == (usage as real) * 100.0
    ensures pct >= 0.0
  {
    (usage as real) * 100.0 / (total as real)
  }

  function SumShares(es: seq<Entry>, total: nat): real
    requires total > 0
  {
    if es == [] then 0.0 else Share(es[0].usage, total) + SumShares(es[1..], total)
  }

  /** The query for one grouping column: no bucket table means "No data for this view". */
  function Query(pre: map<GroupKey, seq<Bucket>>, key: GroupKey, now: YearMonth, monthsBack: nat,
                 f: Finish, minUsage: nat): (r: Option<seq<Entry>>)
    requires ValidMonth(now)
    ensures r.None? <==> key !in pre
    ensures key in pre ==> r == Some(Board(pre[key], MonthIndex(CutoffMonth(now, monthsBack)), f, minUsage))
  {
    if key !in pre then None
    else Some(Board(pre[key], MonthIndex(CutoffMonth(now, monthsBack)), f, minUsage))
  }

  // ---------------------------------------------------------------------------
  // The group sum

  lemma {:induction false} AddUsageOf(es: seq<Entry>, name: string, n: nat, other: string)
    ensures UsageOf(AddUsage(es, name, n), other) == UsageOf(es, other) + (if other == name then n else 0)
    ensures SumUsage(AddUsage(es, name, n)) == SumUsage(es) + n
  {
    if es != [] && es[0].name != name {
      AddUsageOf(es[1..], name, n, other);
    }
  }

  lemma {:induction false} AddUsageMembers(es: seq<Entry>, name: string, n: nat)
    ensures forall e :: e in AddUsage(es, name, n) ==> e.name == name || e in es
  {
    if es != [] && es[0].name != name {
      AddUsageMembers(es[1..], name, n);
    }
  }

  lemma {:induction false} AddUsageDistinct(es: seq<Entry>, name: string, n: nat)
    requires DistinctBy(es, NameOf)
    ensures DistinctBy(AddUsage(es, name, n), NameOf)
  {
    if es != [] && es[0].name != name {
      AddUsageDistinct(es[1..], name, n);
      AddUsageMembers(es[1..], name, n);
      var r := AddUsage(es[1..], name, n);
      forall k | 0 <= k < |r| ensures es[0].name != r[k].name {
        assert r[k] in r;
        if r[k] in es[1..] {
          var j :| 0 <= j < |es[1..]| && es[1..][j] == r[k];
          assert es[j + 1] == r[k];
        }
      }
    } else if es != [] {
      assert AddUsage(es, name, n)[1..] == es[1..];
    }
  }

  /** In a table of distinct labels, a row's Usage is the Usage of its label. */
  lemma {:induction false} UsageOfMember(es: seq<Entry>, i: nat)
    requires DistinctBy(es, NameOf) && i < |es|
    ensures UsageOf(es, es[i].name) == es[i].usage
  {
    if i > 0 {
      UsageOfMember(es[1..], i - 1);
    }
  }

  /** A label with positive Usage has a row. */
  lemma {:induction false} UsageOfPositive(es: seq<Entry>, name: string)
    requires UsageOf(es, name) > 0
    ensures exists i :: 0 <= i < |es| && es[i].name == name && es[i].usage == UsageOf(es, name)
  {
    if es[0].name != name {
      UsageOfPositive(es[1..], name);
      var i :| 0 <= i < |es[1..]| && es[1..][i].name == name && es[1..][i].usage == UsageOf(es, name);
      assert es[i + 1] == es[1..][i];
    }
  }

  /**
   * Summing the slice per label: the labels are distinct, a label's Usage is
   * the window sum of its buckets, and the Usage values add up to the sum
   * of all buckets in the window.
   */
  lemma {:induction false} GroupSumSlice(bs: seq<Bucket>, cutoff: int, f: Finish, name: string)
    ensures DistinctBy(GroupSum(Slice(bs, cutoff), f), NameOf)
    ensures UsageOf(GroupSum(Slice(bs, cutoff), f), name) == WindowSum(bs, name, cutoff, f)
    ensures SumUsage(GroupSum(Slice(bs, cutoff), f)) == TotalSum(bs, cutoff, f)
  {
    if bs != [] {
      GroupSumSlice(bs[1..], cutoff, f, name);
      var rest := GroupSum(Slice(bs[1..], cutoff), f);
      if bs[0].month >= cutoff {
        assert Slice(bs, cutoff)[1..] == Slice(bs[1..], cutoff);
        AddUsageOf(rest, bs[0].group, Metric(bs[0], f), name);
        AddUsageDistinct(rest, bs[0].group, Metric(bs[0], f));
      }
    }
  }

  // ---------------------------------------------------------------------------
  // Filter and sort

  lemma {:induction false} KeepAtLeastDistinct(es: seq<Entry>, minUsage: nat)
    requires DistinctBy(es, NameOf)
    ensures DistinctBy(KeepAtLeast(es, minUsage), NameOf)
  {
    if es != [] {
      KeepAtLeastDistinct(es[1..], minUsage);
      var r := KeepAtLeast(es[1..], minUsage);
      forall k | 0 <= k < |r| ensures es[0].name != r[k].name {
        assert r[k] in r;
        var j :| 0 <= j < |es[1..]| && es[1..][j] == r[k];
        assert es[j + 1] == r[k];
      }
    }
  }

  /** The default floor of 1 drops only rows of Usage 0, so the Usage sum stays the same. */
  lemma {:induction false} KeepAtLeastOneSum(es: seq<Entry>)
    ensures SumUsage(KeepAtLeast(es, 1)) == SumUsage(es)
  {
    if es != [] {
      KeepAtLeastOneSum(es[1..]);
    }
  }

  lemma EntryBeforePreorder()
    ensures TotalPreorder(EntryBefore)
  {
    forall a: Entry, b: Entry ensures EntryBefore(a, b) || EntryBefore(b, a) {
      LexLeTotal(a.name, b.name);
    }
    forall a: Entry, b: Entry, c: Entry | EntryBefore(a, b) && EntryBefore(b, c) ensures EntryBefore(a, c) {
      if a.usage == b.usage == c.usage {
        LexLeTransitive(a.name, b.name, c.name);
      }
    }
  }

  lemma {:induction false} InsertSum(x: Entry, s: seq<Entry>)
    ensures SumUsage(Insert(x, s, EntryBefore)) == x.usage + SumUsage(s)
  {
    if s != [] && !EntryBefore(x, s[0]) {
      InsertSum(x, s[1..]);
    }
  }

  lemma {:induction false} SortSum(s: seq<Entry>)
    ensures SumUsage(InsertionSort(s, EntryBefore)) == SumUsage(s)
  {
    if s != [] {
      SortSum(s[1..]);
      InsertSum(s[0], InsertionSort(s[1..], EntryBefore));
    }
  }

  // ---------------------------------------------------------------------------
  // The properties of the leaderboard

  /**
   * The shape of every leaderboard: each row has Usage at least the floor,
   * labels are distinct, Usage never increases down the table and equal
   * Usage values come in ascending label order. Its rows are exactly the
   * per-label sums that reach the floor.
   */
  lemma BoardShape(bs: seq<Bucket>, cutoff: int, f: Finish, minUsage: nat)
    ensures var board := Board(bs, cutoff, f, minUsage);
      && (forall i :: 0 <= i < |board| ==> board[i].usage >= minUsage)
      && (forall i, j :: 0 <= i < j < |board| ==> board[i].name != board[j].name)
      && (forall i, j :: 0 <= i < j < |board| ==>
            board[i].usage >= board[j].usage
            && (board[i].usage == board[j].usage ==> LexLe(board[i].name, board[j].name)))
    ensures var sums := GroupSum(Slice(bs, cutoff), f);
      forall e :: e in Board(bs, cutoff, f, minUsage) <==> e in sums && e.usage >= minUsage
  {
    var sums := GroupSum(Slice(bs, cutoff), f);
    var kept := KeepAtLeast(sums, minUsage);
    var board := InsertionSort(kept, EntryBefore);
    GroupSumSlice(bs, cutoff, f, "");
    KeepAtLeastDistinct(sums, minUsage);
    SortDistinct(kept, EntryBefore, NameOf);
    SortPermutes(kept, EntryBefore);
    EntryBeforePreorder();
    SortSorted(kept, EntryBefore);
    forall e ensures e in board <==> e in kept {
      assert e in board <==> e in multiset(board);
      assert e in kept <==> e in multiset(kept);
    }
    forall i, j | 0 <= i < j < |board| ensures board[i].name != board[j].name {
      assert NameOf(board[i]) != NameOf(board[j]);
    }
  }

  /** A leaderboard row's Usage is the number of rows the drill-down mask selects for its label. */
  lemma BoardRowUsage(rows: seq<Row>, key: GroupKey, cutoff: int, f: Finish, minUsage: nat, i: nat)
    requires i < |Board(Tally(rows, key), cutoff, f, minUsage)|
    ensures var e := Board(Tally(rows, key), cutoff, f, minUsage)[i];
      e.usage == |Mask(rows, key, e.name, cutoff, f)| && e.usage >= minUsage
  {
    var bs := Tally(rows, key);
    var sums := GroupSum(Slice(bs, cutoff), f);
    var board := Board(bs, cutoff, f, minUsage);
    var e := board[i];
    BoardShape(bs, cutoff, f, minUsage);
    GroupSumSlice(bs, cutoff, f, e.name);
    assert e in board;
    var k :| 0 <= k < |sums| && sums[k] == e;
    UsageOfMember(sums, k);
    TallyWindowSum(rows, key, e.name, cutoff, f);
  }

  /** A label whose drill-down count reaches the floor (at least 1) has a leaderboard row. */
  lemma BoardHasLabel(rows: seq<Row>, key: GroupKey, cutoff: int, f: Finish, minUsage: nat, name: string)
    requires minUsage >= 1
    requires |Mask(rows, key, name, cutoff, f)| >= minUsage
    ensures var board := Board(Tally(rows, key), cutoff, f, minUsage);
      exists i :: 0 <= i < |board| && board[i].name == name
  {
    var bs := Tally(rows, key);
    var sums := GroupSum(Slice(bs, cutoff), f);
    var board := Board(bs, cutoff, f, minUsage);
    BoardShape(bs, cutoff, f, minUsage);
    GroupSumSlice(bs, cutoff, f, name);
    TallyWindowSum(rows, key, name, cutoff, f);
    UsageOfPositive(sums, name);
    var k :| 0 <= k < |sums| && sums[k].name == name && sums[k].usage == UsageOf(sums, name);
    assert sums[k] in sums;
    assert sums[k] in board;
    var i :| 0 <= i < |board| && board[i] == sums[k];
  }

  /**
   * Pre-aggregation equivalence: the leaderboard built from the bucket table
   * has a row for a label exactly when the number of rows the drill-down mask
   * selects for it reaches the floor, and that row's Usage is that number.
   */
  lemma BoardCountsRows(rows: seq<Row>, key: GroupKey, cutoff: int, f: Finish, minUsage: nat)
    requires minUsage >= 1
    ensures var board := Board(Tally(rows, key), cutoff, f, minUsage);
      forall i :: 0 <= i < |board| ==> board[i].usage == |Mask(rows, key, board[i].name, cutoff, f)|
    ensures var board := Board(Tally(rows, key), cutoff, f, minUsage);
      forall name :: |Mask(rows, key, name, cutoff, f)| >= minUsage ==>
        exists i :: 0 <= i < |board| && board[i].name == name
  {
    var board := Board(Tally(rows, key), cutoff, f, minUsage);
    forall i | 0 <= i < |board| ensures board[i].usage == |Mask(rows, key, board[i].name, cutoff, f)| {
      BoardRowUsage(rows, key, cutoff, f, minUsage, i);
    }
    forall name | |Mask(rows, key, name, cutoff, f)| >= minUsage
      ensures exists i :: 0 <= i < |board| && board[i].name == name
    {
      BoardHasLabel(rows, key, cutoff, f, minUsage, name);
    }
  }

  /**
   * Conservation: with the default floor of 1 the leaderboard's Usage adds up
   * to the number of rows in the window that pass the tier, so the total is
   * that number, or 1 when no row passes.
   */
  lemma BoardTotal(rows: seq<Row>, key: GroupKey, cutoff: int, f: Finish)
    ensures SumUsage(Board(Tally(rows, key), cutoff, f, 1)) == |WindowRows(rows, cutoff, f)|
    ensures TotalUsage(Board(Tally(rows, key), cutoff, f, 1)) ==
      if |WindowRows(rows, cutoff, f)| == 0 then 1 else |WindowRows(rows, cutoff, f)|
  {
    var bs := Tally(rows, key);
    var sums := GroupSum(Slice(bs, cutoff), f);
    GroupSumSlice(bs, cutoff, f, "");
    TallyTotalSum(rows, key, cutoff, f);
    KeepAtLeastOneSum(sums);
    SortSum(KeepAtLeast(sums, 1));
  }

  lemma {:induction false} UsageAtMostSum(es: seq<Entry>, i: nat)
    requires i < |es|
    ensures es[i].usage <= SumUsage(es)
  {
    if i > 0 {
      UsageAtMostSum(es[1..], i - 1);
    }
  }

  /** Every share of a leaderboard lies between 0 and 100. */
  lemma ShareBounds(es: seq<Entry>, i: nat)
    requires i < |es|
    ensures 0.0 <= Share(es[i].usage, TotalUsage(es)) <= 100.0
  {
    UsageAtMostSum(es, i);
    PercentAtMostHundred(es[i].usage as real, TotalUsage(es) as real);
  }

  /** A part of a positive whole is between 0 and 100 percent of it. */
  lemma PercentAtMostHundred(u: real, t: real)
    requires 0.0 <= u <= t && t > 0.0
    ensures 0.0 <= u * 100.0 / t <= 100.0
  {
    var q := u * 100.0 / t;
    assert q * t == u * 100.0;
  }

  lemma {:induction false} SumSharesScale(es: seq<Entry>, total: nat)
    requires total > 0
    ensures SumShares(es, total) == (SumUsage(es) as real) * 100.0 / (total as real)
  {
    if es != [] {
      SumSharesScale(es[1..], total);
      var t := total as real;
      var a, b := es[0].usage as real, SumUsage(es[1..]) as real;
      DivAdd(a * 100.0, b * 100.0, t);
      assert a * 100.0 + b * 100.0 == (a + b) * 100.0;
    }
  }

  /** Fractions over one denominator add up by their numerators. */
  lemma DivAdd(x: real, y: real, t: real)
    requires t > 0.0
    ensures x / t + y / t == (x + y) / t
  {
  }

  /** A helper of `SharesTotal`: a positive amount is 100 percent of itself. */
  lemma WholeIsHundred(s: real)
    requires s > 0.0
    ensures s * 100.0 / s == 100.0
  {
  }

  /** The shares add up to exactly 100 when any row has Usage, and are all 0 otherwise. */
  lemma SharesTotal(es: seq<Entry>)
    ensures SumUsage(es) > 0 ==> SumShares(es, TotalUsage(es)) == 100.0
    ensures SumUsage(es) == 0 ==> forall i :: 0 <= i < |es| ==> Share(es[i].usage, TotalUsage(es)) == 0.0
  {
    var t := TotalUsage(es);
    SumSharesScale(es, t);
    if SumUsage(es) > 0 {
      var s := t as real;
      assert SumShares(es, t) == s * 100.0 / s;
      WholeIsHundred(s);
    } else {
      forall i | 0 <= i < |es| ensures Share(es[i].usage, t) == 0.0 {
        UsageAtMostSum(es, i);
      }
    }
  }
}
