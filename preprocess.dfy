/**
 * `preprocess_and_preaggregate`: the working copy of the main sheet, its
 * column clean-up, the derived `_combo` column and the dictionary of monthly
 * bucket tables it fills key by key.
 */
module Preprocess {
  import opened Wrappers
  import opened Text
  import opened Rows
  import opened Buckets

  /** `a` is `b` with some of its members left out, the rest in the order of `b`. */
  predicate SubsequenceOf(a: seq<string>, b: seq<string>)
  {
    a == [] || (b != [] && ((a[0] == b[0] && SubsequenceOf(a[1..], b[1..])) || SubsequenceOf(a, b[1..])))
  }

  /** The members of `order` that are also in `columns`, in the order of `order`. */
  function KeepIn(order: seq<string>, columns: seq<string>): (kept: seq<string>)
    ensures forall c :: c in kept <==> c in order && c in columns
    ensures SubsequenceOf(kept, order)
  {
    if order == [] then []
    else if order[0] in columns then [order[0]] + KeepIn(order[1..], columns)
    else KeepIn(order[1..], columns)
  }

  /** The text columns that the clean-up loop strips. */
  datatype TextColumn = EventText | UsernameText | BladeText | RatchetText | BitText | AssistText

  /** The name of a text column in the sheet. */
  function TextName(c: TextColumn): string
  {
    match c
    case EventText => "Event"
    case UsernameText => "Username"
    case BladeText => "Blade"
    case RatchetText => "Ratchet"
    case BitText => "Bit"
    case AssistText => "Assist Blade"
  }

  /** Two text columns have the same name only if they are the same column. */
  lemma TextNameInjective(a: TextColumn, b: TextColumn)
    ensures TextName(a) == TextName(b) ==> a == b
  {
    if TextName(a) == TextName(b) {
      assert |TextName(a)| == |TextName(b)| && TextName(a)[0] == TextName(b)[0];
    }
  }

  /** The text column a column name names, if any. */
  function TextColumnOf(column: string): (c: Option<TextColumn>)
    ensures c.Some? ==> TextName(c.value) == column
    ensures c.None? ==> forall t :: TextName(t) != column
  {
    if column == "Event" then Some(EventText)
    else if column == "Username" then Some(UsernameText)
    else if column == "Blade" then Some(BladeText)
    else if column == "Ratchet" then Some(RatchetText)
    else if column == "Bit" then Some(BitText)
    else if column == "Assist Blade" then Some(AssistText)
    else None
  }

  /** The cell of a text column. */
  function Cell(r: Row, c: TextColumn): string
  {
    match c
    case EventText => r.event
    case UsernameText => r.username
    case BladeText => r.blade
    case RatchetText => r.ratchet
    case BitText => r.bit
    case AssistText => r.assist
  }

  /** `str.strip()` applied to one text cell. */
  function StripCell(r: Row, c: TextColumn): Row
  {
    match c
    case EventText => r.(event := Strip(r.event))
    case UsernameText => r.(username := Strip(r.username))
    case BladeText => r.(blade := Strip(r.blade))
    case RatchetText => r.(ratchet := Strip(r.ratchet))
    case BitText => r.(bit := Strip(r.bit))
    case AssistText => r.(assist := Strip(r.assist))
  }

  /** `str.strip()` applied to the text cell of one column; other columns are left alone. */
  function StripField(r: Row, column: string): Row
  {
    match TextColumnOf(column)
    case Some(c) => StripCell(r, c)
    case None => r
  }

  /** The columns stripped one after another, as the column loop does. */
  function StripFields(r: Row, columns: seq<string>): Row
  {
    if columns == [] then r
    else StripField(StripFields(r, columns[..|columns| - 1]), columns[|columns| - 1])
  }

  /** The cells of the columns that are not text, which the clean-up leaves alone. */
  predicate SameNonText(a: Row, b: Row)
  {
    a.date == b.date && a.participants == b.participants && a.placement == b.placement
    && a.combo == b.combo
  }

  /** Stripping one column strips that column's cell and no other. */
  lemma StripFieldCell(r: Row, column: string, other: TextColumn)
    ensures Cell(StripField(r, column), other)
      == if column == TextName(other) then Strip(Cell(r, other)) else Cell(r, other)
    ensures SameNonText(StripField(r, column), r)
  {
    var c := TextColumnOf(column);
    if c.Some? {
      TextNameInjective(c.value, other);
    }
  }

  /** One more column stripped: the cell of a text column is stripped iff its column has come by. */
  lemma StripFieldsStep(r: Row, init: seq<string>, last: string, c: TextColumn)
    requires Cell(StripFields(r, init), c) == if TextName(c) in init then Strip(Cell(r, c)) else Cell(r, c)
    ensures Cell(StripFields(r, init + [last]), c)
      == if TextName(c) in init + [last] then Strip(Cell(r, c)) else Cell(r, c)
  {
    assert (init + [last])[..|init + [last]| - 1] == init;
    StripFieldCell(StripFields(r, init), last, c);
    StripIdempotent(Cell(r, c));
  }

  /** A present text column ends up stripped (once or many times, alike); nothing else changes. */
  lemma {:induction false} StripFieldsEffect(r: Row, columns: seq<string>)
    ensures forall c: TextColumn ::
      Cell(StripFields(r, columns), c) == if TextName(c) in columns then Strip(Cell(r, c)) else Cell(r, c)
    ensures SameNonText(StripFields(r, columns), r)
  {
    if columns != [] {
      var init, last := columns[..|columns| - 1], columns[|columns| - 1];
      StripFieldsEffect(r, init);
      assert columns == init + [last];
      forall c: TextColumn
        ensures Cell(StripFields(r, columns), c) == if TextName(c) in columns then Strip(Cell(r, c)) else Cell(r, c)
      {
        StripFieldsStep(r, init, last, c);
      }
      StripFieldCell(StripFields(r, init), last, EventText);
    }
  }

  /** The grouping column exists in the working table; `_combo` always does. */
  predicate HasColumn(columns: seq<string>, key: GroupKey)
  {
    key == ComboKey || ColumnName(key) in columns
  }

  /** A row after the whole normalisation: text cells stripped, then `_combo` derived from them. */
  function Normalise(columns: seq<string>, r: Row): Row
  {
    var s := StripFields(r, columns);
    s.(combo := ComboOf(columns, s))
  }

  /**
   * The uncaught failures of the preprocessing: without a Date column the
   * monthly period cannot be taken, and without a Placement column the
   * counters cannot be aggregated.
   */
  datatype PrepareError = MissingDate | MissingPlacement

  class Dataset {
    var columns: seq<string>
    var rows: seq<Row>
    var pre: map<GroupKey, seq<Bucket>>

    /** The working copy: the expected columns that the sheet has, in the expected order. */
    constructor (rawColumns: seq<string>, rawRows: seq<Row>)
      ensures columns == KeepIn(Expected, rawColumns)
      ensures rows == rawRows && pre == map[]
    {
      columns := KeepIn(Expected, rawColumns);
      rows := rawRows;
      pre := map[];
    }

    /** The loop over the columns that strips every text column. */
    method StripText()
      modifies this
      ensures columns == old(columns) && pre == old(pre)
      ensures |rows| == |old(rows)|
      ensures forall j :: 0 <= j < |rows| ==> rows[j] == StripFields(old(rows)[j], columns)
    {
      for i := 0 to |columns|
        invariant columns == old(columns) && pre == old(pre)
        invariant |rows| == |old(rows)|
        invariant forall j :: 0 <= j < |rows| ==> rows[j] == StripFields(old(rows)[j], columns[..i])
      {
        var c := columns[i];
        var rs := rows;
        rows := seq(|rs|, j requires 0 <= j < |rs| => StripField(rs[j], c));
        assert columns[..i + 1][..i] == columns[..i];
      }
      assert columns[..|columns|] == columns;
    }

    /** The `_combo` column: `combo_label` per row, or the sentinel for every row. */
    method DeriveCombo()
      modifies this
      ensures columns == old(columns) && pre == old(pre)
      ensures |rows| == |old(rows)|
      ensures forall j :: 0 <= j < |rows| ==> rows[j] == old(rows)[j].(combo := ComboOf(columns, old(rows)[j]))
    {
      for j := 0 to |rows|
        invariant columns == old(columns) && pre == old(pre)
        invariant |rows| == |old(rows)|
        invariant forall k :: 0 <= k < j ==> rows[k] == old(rows)[k].(combo := ComboOf(columns, old(rows)[k]))
        invariant forall k :: j <= k < |rows| ==> rows[k] == old(rows)[k]
      {
        rows := rows[j := rows[j].(combo := ComboOf(columns, rows[j]))];
      }
    }

    /** The loop that fills `pre` with one bucket table per grouping column present. */
    method PreAggregate()
      modifies this
      ensures columns == old(columns) && rows == old(rows)
      ensures forall key :: key in pre <==> HasColumn(columns, key)
      ensures forall key :: key in pre ==> pre[key] == Tally(rows, key)
    {
      pre := map[];
      for i := 0 to |GroupKeys|
        invariant columns == old(columns) && rows == old(rows)
        invariant forall key :: key in pre <==> key in GroupKeys[..i] && HasColumn(columns, key)
        invariant forall key :: key in pre ==> pre[key] == Tally(rows, key)
      {
        var key := GroupKeys[i];
        if HasColumn(columns, key) {
          pre := pre[key := Tally(rows, key)];
        }
      }
      assert GroupKeys[..|GroupKeys|] == GroupKeys;
      GroupKeysComplete();
    }

    /**
     * The whole preprocessing of `df_raw` (already projected by the
     * constructor): strip, derive `_combo`, pre-aggregate; it stops with an
     * error where the program raises.
     */
    method Prepare() returns (err: Option<PrepareError>)
      modifies this
      ensures columns == old(columns)
      ensures err == None <==> "Date" in columns && "Placement" in columns
      ensures err == Some(MissingDate) <==> "Date" !in columns
      ensures err == None ==> |rows| == |old(rows)|
      ensures err == None ==> forall j :: 0 <= j < |rows| ==> rows[j] == Normalise(columns, old(rows)[j])
      ensures err == None ==> forall key :: key in pre <==> HasColumn(columns, key)
      ensures err == None ==> forall key :: key in pre ==> pre[key] == Tally(rows, key)
    {
      StripText();
      if "Date" !in columns {
        return Some(MissingDate);
      }
      DeriveCombo();
      if "Placement" !in columns {
        return Some(MissingPlacement);
      }
      PreAggregate();
      return None;
    }
  }
}
