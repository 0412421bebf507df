/**
 * The drill-down resolver: the rows behind a leaderboard row, selected with
 * the same window and tier predicates plus equality on the group column,
 * newest first and then by event name.
 */
module Drilldown {
  import opened Wrappers
  import opened Text
  import opened Rows
  import opened Buckets
  import opened Sorting
  import opened Leaderboard

  /** `x` is a later instant than `y`. */
  predicate StampLater(x: Stamp, y: Stamp)
  {
    x.month > y.month || (x.month == y.month && x.tick > y.tick)
  }

  /** The sort order: `_date` descending with missing dates last, then Event ascending. */
  predicate RowBefore(a: Row, b: Row)
  {
    match (a.date, b.date)
    case (Some(x), Some(y)) => StampLater(x, y) || (x == y && LexLe(a.event, b.event))
    case (Some(_), None) => true
    case (None, Some(_)) => false
    case (None, None) => LexLe(a.event, b.event)
  }

  /** A column that the resolver reads is absent from the table. */
  datatype DrillError = MissingColumn(column: string)

  /**
   * The matching rows, sorted. The tier test reads Placement, the group test
   * reads the group column (always present for the combo), and sorting a
   * non-empty selection reads Event.
   */
  function Resolve(columns: seq<string>, rows: seq<Row>, key: GroupKey, item: string, cutoff: int, f: Finish)
    : (r: Result<seq<Row>, DrillError>)
    ensures r.Err? <==>
      || (f != All && "Placement" !in columns)
      || (key != ComboKey && ColumnName(key) !in columns)
      || (Mask(rows, key, item, cutoff, f) != [] && "Event" !in columns)
  {
    if f != All && "Placement" !in columns then Err(MissingColumn("Placement"))
    else if key != ComboKey && ColumnName(key) !in columns then Err(MissingColumn(ColumnName(key)))
    else
      var sub := Mask(rows, key, item, cutoff, f);
      if sub == [] then Ok([])
      else if "Event" !in columns then Err(MissingColumn("Event"))
      else Ok(InsertionSort(sub, RowBefore))
  }

  /** The share shown beside the drill-down: of the leaderboard's total, 0 for a zero total. */
  function DetailShare(usage: nat, total: nat): real
  {
    if total != 0 then Share(usage, total) else 0.0
  }

  lemma RowBeforePreorder()
    ensures TotalPreorder(RowBefore)
  {
    forall a: Row, b: Row ensures RowBefore(a, b) || RowBefore(b, a) {
      LexLeTotal(a.event, b.event);
    }
    forall a: Row, b: Row, c: Row | RowBefore(a, b) && RowBefore(b, c) ensures RowBefore(a, c) {
      if a.date == b.date == c.date {
        LexLeTransitive(a.event, b.event, c.event);
      }
    }
  }

  /**
   * A successful drill-down holds exactly the rows the mask selects (as a
   * multiset), each of them matching, newest first and, on equal dates, in
   * ascending event order.
   */
  lemma ResolveSpec(columns: seq<string>, rows: seq<Row>, key: GroupKey, item: string, cutoff: int, f: Finish)
    requires Resolve(columns, rows, key, item, cutoff, f).Ok?
    ensures var sub := Resolve(columns, rows, key, item, cutoff, f).value;
      && multiset(sub) == multiset(Mask(rows, key, item, cutoff, f))
      && (forall i :: 0 <= i < |sub| ==> Matches(sub[i], key, item, cutoff, f))
      && (forall i, j :: 0 <= i < j < |sub| ==>
            sub[i].date.Some? && sub[j].date.Some?
            && !StampLater(sub[j].date.value, sub[i].date.value)
            && (sub[i].date == sub[j].date ==> LexLe(sub[i].event, sub[j].event)))
  {
    var mask := Mask(rows, key, item, cutoff, f);
    var sub := Resolve(columns, rows, key, item, cutoff, f).value;
    if mask != [] {
      assert sub == InsertionSort(mask, RowBefore);
      SortPermutes(mask, RowBefore);
      RowBeforePreorder();
      SortSorted(mask, RowBefore);
    }
    SortedSelection(mask, sub, key, item, cutoff, f);
  }

  /** A sorted rearrangement of matching rows consists of matching rows, all dated, in drill-down order. */
  lemma SortedSelection(mask: seq<Row>, sub: seq<Row>, key: GroupKey, item: string, cutoff: int, f: Finish)
    requires multiset(sub) == multiset(mask)
    requires forall i :: 0 <= i < |mask| ==> Matches(mask[i], key, item, cutoff, f)
    requires SortedBy(sub, RowBefore)
    ensures forall i :: 0 <= i < |sub| ==> Matches(sub[i], key, item, cutoff, f)
    ensures forall i, j :: 0 <= i < j < |sub| ==>
      sub[i].date.Some? && sub[j].date.Some?
      && !StampLater(sub[j].date.value, sub[i].date.value)
      && (sub[i].date == sub[j].date ==> LexLe(sub[i].event, sub[j].event))
  {
    forall i | 0 <= i < |sub| ensures Matches(sub[i], key, item, cutoff, f) {
      assert sub[i] in multiset(mask);
    }
    forall i, j | 0 <= i < j < |sub|
      ensures sub[i].date.Some? && sub[j].date.Some?
        && !StampLater(sub[j].date.value, sub[i].date.value)
        && (sub[i].date == sub[j].date ==> LexLe(sub[i].event, sub[j].event))
    {
      assert RowBefore(sub[i], sub[j]);
    }
  }

  /**
   * Drill-down consistency: the number of rows a successful drill-down
   * returns is the Usage the pre-aggregated path gives that label, and, when
   * the label is on the leaderboard, that row's Usage and share.
   */
  lemma ResolveMatchesBoard(columns: seq<string>, rows: seq<Row>, key: GroupKey, item: string,
                            cutoff: int, f: Finish, minUsage: nat)
    requires minUsage >= 1
    requires Resolve(columns, rows, key, item, cutoff, f).Ok?
    ensures var sub := Resolve(columns, rows, key, item, cutoff, f).value;
      |sub| == UsageOf(GroupSum(Slice(Tally(rows, key), cutoff), f), item)
    ensures var sub := Resolve(columns, rows, key, item, cutoff, f).value;
      var board := Board(Tally(rows, key), cutoff, f, minUsage);
      forall i :: 0 <= i < |board| && board[i].name == item ==>
        |sub| == board[i].usage
        && DetailShare(|sub|, TotalUsage(board)) == Share(board[i].usage, TotalUsage(board)) <= 100.0
  {
    var sub := Resolve(columns, rows, key, item, cutoff, f).value;
    var mask := Mask(rows, key, item, cutoff, f);
    ResolveSpec(columns, rows, key, item, cutoff, f);
    assert |sub| == |multiset(sub)| == |multiset(mask)| == |mask|;
    GroupSumSlice(Tally(rows, key), cutoff, f, item);
    TallyWindowSum(rows, key, item, cutoff, f);
    BoardCountsRows(rows, key, cutoff, f, minUsage);
    var board := Board(Tally(rows, key), cutoff, f, minUsage);
    forall i | 0 <= i < |board| && board[i].name == item
      ensures Share(board[i].usage, TotalUsage(board)) <= 100.0
    {
      ShareBounds(board, i);
    }
  }

  /** The two-row table of the example below. */
  function Twice(): seq<Row>
  {
    var r := Row("Cup", Some(Stamp(24300, 0)), None, Some(1), "u", "A", "B", "C", "", "A B C");
    [r, r]
  }

  lemma TwiceResolves()
    ensures Resolve(Expected, Twice(), ComboKey, "A B C", 24295, Top3) == Ok(Twice())
  {
    var rows := Twice();
    var r := rows[0];
    assert rows == [r, r];
    assert Matches(r, ComboKey, "A B C", 24295, Top3);
    MaskAll(rows, ComboKey, "A B C", 24295, Top3);
    assert "Event" in Expected && "Placement" in Expected;
    assert RowBefore(r, r) by { LexLeTotal(r.event, r.event); }
    assert InsertionSort([r, r], RowBefore) == [r, r];
  }

  /** A floor above the number of rows leaves the leaderboard empty. */
  lemma BoardEmptyBelowFloor(rows: seq<Row>, key: GroupKey, cutoff: int, f: Finish, minUsage: nat)
    requires |rows| < minUsage
    ensures Board(Tally(rows, key), cutoff, f, minUsage) == []
  {
    var board := Board(Tally(rows, key), cutoff, f, minUsage);
    if board != [] {
      BoardRowUsage(rows, key, cutoff, f, minUsage, 0);
      assert false;
    }
  }

  /**
   * The detail share is not bounded by 100: two matching rows under a floor
   * of 3 leave the leaderboard empty, its total falls back to 1, and the
   * detail view reports 200.
   */
  lemma DetailShareCanExceedHundred()
    ensures var board := Board(Tally(Twice(), ComboKey), 24295, Top3, 3);
      && Resolve(Expected, Twice(), ComboKey, "A B C", 24295, Top3) == Ok(Twice())
      && board == []
      && DetailShare(|Twice()|, TotalUsage(board)) == 200.0
  {
    TwiceResolves();
    BoardEmptyBelowFloor(Twice(), ComboKey, 24295, Top3, 3);
  }
}
