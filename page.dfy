/**
 * One page view end to end: the prepared table and its bucket dictionary,
 * the leaderboard read from the dictionary and the drill-down read from the
 * table, for the view, finish and period that navigation settled on.
 */
module Page {
  import opened Wrappers
  import opened Text
  import opened Rows
  import opened Buckets
  import opened Leaderboard
  import opened Drilldown
  import opened Preprocess
  import opened Navigation

  /** The leaderboard one run shows: the query for the run's view, period and finish tier. */
  function RunBoard(pre: map<GroupKey, seq<Bucket>>, p: Pass, now: YearMonth, minUsage: nat): (r: Option<seq<Entry>>)
    requires ValidMonth(now)
    ensures r.None? <==> ViewGroup(p.view) !in pre
  {
    Query(pre, ViewGroup(p.view), now, MonthsBack(p.period), p.finish, minUsage)
  }

  /**
   * The drill-down one run shows: it fails only for want of a column, and
   * otherwise lists every row of the run's item, window and finish tier,
   * newest first and, on equal dates, in ascending event order.
   */
  function RunDetail(columns: seq<string>, rows: seq<Row>, p: Pass, now: YearMonth): (r: Result<seq<Row>, DrillError>)
    requires ValidMonth(now)
    ensures var key, cutoff := ViewGroup(p.view), MonthIndex(CutoffMonth(now, MonthsBack(p.period)));
      r.Err? <==>
        || (p.finish != All && "Placement" !in columns)
        || (key != ComboKey && ColumnName(key) !in columns)
        || (Mask(rows, key, p.item, cutoff, p.finish) != [] && "Event" !in columns)
    ensures var key, cutoff := ViewGroup(p.view), MonthIndex(CutoffMonth(now, MonthsBack(p.period)));
      r.Ok? ==>
        && multiset(r.value) == multiset(Mask(rows, key, p.item, cutoff, p.finish))
        && (forall i :: 0 <= i < |r.value| ==> Matches(r.value[i], key, p.item, cutoff, p.finish))
        && (forall i, j :: 0 <= i < j < |r.value| ==>
              r.value[i].date.Some? && r.value[j].date.Some?
              && !StampLater(r.value[j].date.value, r.value[i].date.value)
              && (r.value[i].date == r.value[j].date ==> LexLe(r.value[i].event, r.value[j].event)))
  {
    var d := Resolve(columns, rows, ViewGroup(p.view), p.item, MonthIndex(CutoffMonth(now, MonthsBack(p.period))), p.finish);
    if d.Ok? then
      ResolveSpec(columns, rows, ViewGroup(p.view), p.item, MonthIndex(CutoffMonth(now, MonthsBack(p.period))), p.finish);
      d
    else d
  }

  /**
   * On a prepared dataset, the leaderboard of any run exists exactly when
   * the sheet has the column of the run's view, and each of its rows counts
   * the rows of its label in the run's window and tier.
   */
  lemma RunBoardCounts(columns: seq<string>, rows: seq<Row>, pre: map<GroupKey, seq<Bucket>>, q: Params,
                       vc: Option<View>, fc: Option<Finish>, pc: Option<Period>, now: YearMonth, minUsage: nat)
    requires ValidMonth(now) && minUsage >= 1
    requires Prepared(columns, rows, pre)
    ensures var p := Render(q, vc, fc, pc);
      var r := RunBoard(pre, p, now, minUsage);
      && (r.None? <==> !HasColumn(columns, ViewGroup(p.view)))
      && (r.Some? ==> forall i :: 0 <= i < |r.value| ==>
            r.value[i].usage == |Mask(rows, ViewGroup(p.view), r.value[i].name,
                                      MonthIndex(CutoffMonth(now, MonthsBack(p.period))), p.finish)|)
  {
    var p := Render(q, vc, fc, pc);
    PreparedQuery(columns, rows, pre, ViewGroup(p.view), now, MonthsBack(p.period), p.finish, minUsage, "");
  }

  /**
   * Following the detail link of a leaderboard row opens the detail page of
   * that row's label in the same view, period and tier; when the drill-down
   * succeeds it lists as many rows as the leaderboard row's Usage, and its
   * share is that row's share.
   */
  lemma FollowBoardRow(columns: seq<string>, rows: seq<Row>, pre: map<GroupKey, seq<Bucket>>, q: Params,
                       vc: Option<View>, fc: Option<Finish>, pc: Option<Period>, now: YearMonth, minUsage: nat, i: nat)
    requires ValidMonth(now) && minUsage >= 1
    requires Prepared(columns, rows, pre)
    requires var p := Render(q, vc, fc, pc);
      var r := RunBoard(pre, p, now, minUsage);
      r.Some? && i < |r.value| && r.value[i].name != ""
    ensures var p := Render(q, vc, fc, pc);
      var board := RunBoard(pre, p, now, minUsage).value;
      var e := board[i];
      var p2 := Render(LinkParams(ModeSlug(p.view), e.name, FinishSlug(p.finish), PeriodSlug(p.period)), None, None, None);
      var d := RunDetail(columns, rows, p2, now);
      && p2.page == "detail" && p2.item == e.name
      && RunBoard(pre, p2, now, minUsage) == Some(board)
      && (d.Err? <==> (p.finish != All && "Placement" !in columns) || "Event" !in columns)
      && (d.Ok? ==> (|d.value| == e.usage
            && DetailShare(|d.value|, TotalUsage(board)) == Share(e.usage, TotalUsage(board))))
  {
    var p := Render(q, vc, fc, pc);
    var e := RunBoard(pre, p, now, minUsage).value[i];
    FollowDetailLink(q, vc, fc, pc, e.name);
    var key := ViewGroup(p.view);
    var cutoff := MonthIndex(CutoffMonth(now, MonthsBack(p.period)));
    DetailMatchesRow(columns, rows, key, e.name, cutoff, p.finish, minUsage, RunBoard(pre, p, now, minUsage).value, i);
  }

  /** A successful drill-down of a leaderboard row's label counts that row's Usage. */
  lemma DetailMatchesRow(columns: seq<string>, rows: seq<Row>, key: GroupKey, item: string, cutoff: int,
                         f: Finish, minUsage: nat, board: seq<Entry>, i: nat)
    requires minUsage >= 1
    requires board == Board(Tally(rows, key), cutoff, f, minUsage)
    requires i < |board| && board[i].name == item
    requires HasColumn(columns, key)
    ensures var d := Resolve(columns, rows, key, item, cutoff, f);
      d.Err? <==> (f != All && "Placement" !in columns) || "Event" !in columns
    ensures var d := Resolve(columns, rows, key, item, cutoff, f);
      d.Ok? ==> (|d.value| == board[i].usage
        && DetailShare(|d.value|, TotalUsage(board)) == Share(board[i].usage, TotalUsage(board)))
  {
    BoardRowUsage(rows, key, cutoff, f, minUsage, i);
    assert Mask(rows, key, item, cutoff, f) != [];
    if Resolve(columns, rows, key, item, cutoff, f).Ok? {
      ResolveMatchesBoard(columns, rows, key, item, cutoff, f, minUsage);
    }
  }

  /** What `Dataset.Prepare` leaves behind when it succeeds. */
  predicate Prepared(columns: seq<string>, rows: seq<Row>, pre: map<GroupKey, seq<Bucket>>)
  {
    && (forall key :: key in pre <==> HasColumn(columns, key))
    && (forall key :: key in pre ==> pre[key] == Tally(rows, key))
  }

  /**
   * On a prepared dataset the leaderboard exists exactly when the view's
   * column does; then each row's Usage is the drill-down count of its label,
   * and the drill-down can only fail for want of Placement (for a tier that
   * tests it) or of Event (to sort a non-empty selection).
   */
  lemma PreparedQuery(columns: seq<string>, rows: seq<Row>, pre: map<GroupKey, seq<Bucket>>, key: GroupKey,
                      now: YearMonth, monthsBack: nat, f: Finish, minUsage: nat, item: string)
    requires ValidMonth(now) && minUsage >= 1
    requires Prepared(columns, rows, pre)
    ensures Query(pre, key, now, monthsBack, f, minUsage).None? <==> !HasColumn(columns, key)
    ensures var cutoff := MonthIndex(CutoffMonth(now, monthsBack));
      var r := Query(pre, key, now, monthsBack, f, minUsage);
      r.Some? ==> forall i :: 0 <= i < |r.value| ==> r.value[i].usage == |Mask(rows, key, r.value[i].name, cutoff, f)|
    ensures var cutoff := MonthIndex(CutoffMonth(now, monthsBack));
      Query(pre, key, now, monthsBack, f, minUsage).Some? ==>
        (Resolve(columns, rows, key, item, cutoff, f).Err? <==>
          (f != All && "Placement" !in columns)
          || (Mask(rows, key, item, cutoff, f) != [] && "Event" !in columns))
  {
    var cutoff := MonthIndex(CutoffMonth(now, monthsBack));
    if key in pre {
      assert Query(pre, key, now, monthsBack, f, minUsage).value == Board(Tally(rows, key), cutoff, f, minUsage);
      BoardCountsRows(rows, key, cutoff, f, minUsage);
    }
  }

  /** After a successful `Prepare`, every view whose column the sheet has gets its leaderboard. */
  method PrepareThenQuery(rawColumns: seq<string>, rawRows: seq<Row>, key: GroupKey, now: YearMonth,
                          monthsBack: nat, f: Finish, minUsage: nat)
      returns (board: Option<seq<Entry>>, err: Option<PrepareError>)
    requires ValidMonth(now) && minUsage >= 1
    ensures err.Some? ==> board == None
    ensures err.None? ==> (board.Some? <==> HasColumn(KeepIn(Expected, rawColumns), key))
    ensures err.None? && board.Some? ==> forall i :: 0 <= i < |board.value| ==>
      board.value[i].usage >= minUsage
  {
    var ds := new Dataset(rawColumns, rawRows);
    err := ds.Prepare();
    if err.Some? {
      return None, err;
    }
    board := Query(ds.pre, key, now, monthsBack, f, minUsage);
    if key in ds.pre {
      BoardShape(ds.pre[key], MonthIndex(CutoffMonth(now, monthsBack)), f, minUsage);
    }
  }
}
