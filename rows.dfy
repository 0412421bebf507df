/**
 * The result rows of the main sheet after normalisation, the grouping keys,
 * the finish tiers and the derived combo label.
 */
module Rows {
  import opened Wrappers
  import opened Text

  /**
   * A parsed `_date`: `month` is the monthly period `_ym` written as the
   * index year * 12 + (month - 1); `tick` orders instants inside that month.
   */
  datatype Stamp = Stamp(month: int, tick: int)

  /**
   * One row of the working table. Text cells are strings (an absent column's
   * field is never read, see `Label`); `participants` and `placement` are the
   * numeric coercions (None for a value that did not parse); `combo` is the
   * derived `_combo` column.
   */
  datatype Row = Row(
    event: string,
    date: Option<Stamp>,
    participants: Option<int>,
    placement: Option<int>,
    username: string,
    blade: string,
    ratchet: string,
    bit: string,
    assist: string,
    combo: string)

  /** The grouping columns of the pre-aggregation, in the order it visits them. */
  datatype GroupKey = ComboKey | BladeKey | RatchetKey | BitKey

  const GroupKeys: seq<GroupKey> := [ComboKey, BladeKey, RatchetKey, BitKey]

  lemma GroupKeysComplete()
    ensures forall key :: key in GroupKeys
  {
    forall key ensures key in GroupKeys {
      match key
      case ComboKey => assert GroupKeys[0] == key;
      case BladeKey => assert GroupKeys[1] == key;
      case RatchetKey => assert GroupKeys[2] == key;
      case BitKey => assert GroupKeys[3] == key;
    }
  }

  /** The column a grouping key names in the table. */
  function ColumnName(key: GroupKey): string
  {
    match key
    case ComboKey => "_combo"
    case BladeKey => "Blade"
    case RatchetKey => "Ratchet"
    case BitKey => "Bit"
  }

  /** The columns of the main sheet that the program keeps, in its order. */
  const Expected: seq<string> :=
    ["Event", "Date", "Participants", "Placement", "Username", "Blade", "Ratchet", "Bit", "Assist Blade"]

  /** The value of a row in a grouping column. */
  function Label(r: Row, key: GroupKey): string
  {
    match key
    case ComboKey => r.combo
    case BladeKey => r.blade
    case RatchetKey => r.ratchet
    case BitKey => r.bit
  }

  /** The finish tiers: only 1st, 1st to 3rd, every placement. */
  datatype Finish = First | Top3 | All

  /**
   * The placement test of a tier; a missing placement behaves like NaN and
   * fails both comparisons.
   */
  predicate TierPass(f: Finish, placement: Option<int>)
  {
    match f
    case First => placement == Some(1)
    case Top3 => placement.Some? && 1 <= placement.value <= 3
    case All => true
  }

  /** The row has a month and it is at or after the cutoff month. */
  predicate InWindow(r: Row, cutoff: int)
  {
    r.date.Some? && r.date.value.month >= cutoff
  }

  /** The drill-down predicate: window, finish tier and group value. */
  predicate Matches(r: Row, key: GroupKey, item: string, cutoff: int, f: Finish)
  {
    InWindow(r, cutoff) && TierPass(f, r.placement) && Label(r, key) == item
  }

  /** The rows selected by the drill-down mask, in table order. */
  function Mask(rows: seq<Row>, key: GroupKey, item: string, cutoff: int, f: Finish): (sub: seq<Row>)
    ensures |sub| <= |rows|
    ensures forall x :: x in sub ==> x in rows && Matches(x, key, item, cutoff, f)
    ensures forall x :: x in rows && Matches(x, key, item, cutoff, f) ==> x in sub
  {
    if rows == [] then []
    else
      var last := rows[|rows| - 1];
      var init := Mask(rows[..|rows| - 1], key, item, cutoff, f);
      assert forall i :: 0 <= i < |rows| - 1 ==> rows[i] == rows[..|rows| - 1][i];
      if Matches(last, key, item, cutoff, f) then init + [last] else init
  }

  /** When every row matches, the mask selects the whole table. */
  lemma {:induction false} MaskAll(rows: seq<Row>, key: GroupKey, item: string, cutoff: int, f: Finish)
    requires forall i :: 0 <= i < |rows| ==> Matches(rows[i], key, item, cutoff, f)
    ensures Mask(rows, key, item, cutoff, f) == rows
  {
    if rows != [] {
      var init, last := rows[..|rows| - 1], rows[|rows| - 1];
      InitMatches(rows, init, key, item, cutoff, f);
      MaskAll(init, key, item, cutoff, f);
      MaskUnfold(rows, key, item, cutoff, f);
      LastSplit(rows);
    }
  }

  /** A non-empty table is its rows but the last, then the last. */
  lemma LastSplit(rows: seq<Row>)
    requires rows != []
    ensures rows == rows[..|rows| - 1] + [rows[|rows| - 1]]
  {
  }

  /** When every row matches, every row but the last does. */
  lemma InitMatches(rows: seq<Row>, init: seq<Row>, key: GroupKey, item: string, cutoff: int, f: Finish)
    requires rows != [] && init == rows[..|rows| - 1]
    requires forall i :: 0 <= i < |rows| ==> Matches(rows[i], key, item, cutoff, f)
    ensures forall i :: 0 <= i < |init| ==> Matches(init[i], key, item, cutoff, f)
  {
    assert forall i :: 0 <= i < |init| ==> init[i] == rows[i];
  }

  /** The last row of a non-empty table is selected after the rest exactly when it matches. */
  lemma MaskUnfold(rows: seq<Row>, key: GroupKey, item: string, cutoff: int, f: Finish)
    requires rows != []
    ensures var init, last := rows[..|rows| - 1], rows[|rows| - 1];
      Mask(rows, key, item, cutoff, f) == if Matches(last, key, item, cutoff, f) then Mask(init, key, item, cutoff, f) + [last] else Mask(init, key, item, cutoff, f)
  {
  }

  /** The rows that pass the window and the finish tier, whatever their label. */
  function WindowRows(rows: seq<Row>, cutoff: int, f: Finish): (sub: seq<Row>)
    ensures |sub| <= |rows|
    ensures forall i :: 0 <= i < |sub| ==> sub[i] in rows && InWindow(sub[i], cutoff) && TierPass(f, sub[i].placement)
  {
    if rows == [] then []
    else
      var last := rows[|rows| - 1];
      var init := WindowRows(rows[..|rows| - 1], cutoff, f);
      if InWindow(last, cutoff) && TierPass(f, last.placement) then init + [last] else init
  }

  /**
   * The mask keeps multiplicity: a row that matches is selected as many
   * times as it occurs in the table, and a row that does not, never.
   */
  lemma {:induction false} MaskCounts(rows: seq<Row>, key: GroupKey, item: string, cutoff: int, f: Finish)
    ensures forall x ::
      multiset(Mask(rows, key, item, cutoff, f))[x] == if Matches(x, key, item, cutoff, f) then multiset(rows)[x] else 0
  {
    if rows != [] {
      var init := rows[..|rows| - 1];
      MaskCounts(init, key, item, cutoff, f);
      assert rows == init + [rows[|rows| - 1]];
    }
  }

  /**
   * The window keeps multiplicity: a row in the window that passes the tier
   * is counted as many times as it occurs in the table, any other row never.
   */
  lemma {:induction false} WindowRowsCounts(rows: seq<Row>, cutoff: int, f: Finish)
    ensures forall x ::
      multiset(WindowRows(rows, cutoff, f))[x] == if InWindow(x, cutoff) && TierPass(f, x.placement) then multiset(rows)[x] else 0
  {
    if rows != [] {
      var init := rows[..|rows| - 1];
      WindowRowsCounts(init, cutoff, f);
      assert rows == init + [rows[|rows| - 1]];
    }
  }

  const UnknownCombo: string := "(Unknown Combo)"

  /** The non-empty strings of `ps`, in order. */
  function NonEmpty(ps: seq<string>): (r: seq<string>)
    ensures |r| <= |ps|
    ensures forall i :: 0 <= i < |r| ==> r[i] != "" && r[i] in ps
    ensures forall i :: 0 <= i < |ps| && ps[i] != "" ==> ps[i] in r
  {
    if ps == [] then []
    else if ps[0] == "" then NonEmpty(ps[1..])
    else [ps[0]] + NonEmpty(ps[1..])
  }

  /** A part as the filter keeps it: itself when non-empty, nothing otherwise. */
  function Present(s: string): seq<string>
  {
    if s != "" then [s] else []
  }

  /** The filter over Blade, Ratchet and Bit keeps the non-empty parts in that order. */
  lemma NonEmptyThree(blade: string, ratchet: string, bit: string)
    ensures NonEmpty([blade, ratchet, bit]) == Present(blade) + Present(ratchet) + Present(bit)
  {
    NonEmptyTwo(ratchet, bit);
    NonEmptyCons(blade, [ratchet, bit]);
    assert [blade] + [ratchet, bit] == [blade, ratchet, bit];
  }

  lemma NonEmptyTwo(ratchet: string, bit: string)
    ensures NonEmpty([ratchet, bit]) == Present(ratchet) + Present(bit)
  {
    NonEmptyCons(ratchet, [bit]);
    NonEmptyCons(bit, []);
    assert [ratchet] + [bit] == [ratchet, bit];
    assert [bit] + [] == [bit];
  }

  /** The filter takes the first part or drops it, then goes on with the rest. */
  lemma NonEmptyCons(s: string, rest: seq<string>)
    ensures NonEmpty([s] + rest) == Present(s) + NonEmpty(rest)
  {
    assert ([s] + rest)[1..] == rest;
  }

  /**
   * `combo_label`: the non-empty parts among Blade, Ratchet and Bit, in that
   * order, joined by single spaces, or the sentinel when all three are empty.
   */
  function ComboLabel(blade: string, ratchet: string, bit: string): (lbl: string)
    ensures var parts := Present(blade) + Present(ratchet) + Present(bit);
      lbl == if parts == [] then UnknownCombo else Join(parts)
    ensures blade != "" && ratchet != "" && bit != "" ==> lbl == blade + " " + ratchet + " " + bit
  {
    NonEmptyThree(blade, ratchet, bit);
    JoinThree(blade, ratchet, bit);
    var parts := NonEmpty([blade, ratchet, bit]);
    if parts != [] then Join(parts) else UnknownCombo
  }

  /** Three parts joined by single spaces. */
  lemma JoinThree(a: string, b: string, c: string)
    ensures Join([a, b, c]) == a + " " + b + " " + c
  {
    assert [a, b, c][1..] == [b, c];
    assert [b, c][1..] == [c];
    assert Join([b, c]) == b + " " + c;
    assert Join([a, b, c]) == a + " " + (b + " " + c);
  }

  /** The `_combo` cell of a row, given the table's columns. */
  function ComboOf(columns: seq<string>, r: Row): (combo: string)
    ensures !("Blade" in columns && "Ratchet" in columns && "Bit" in columns) ==> combo == UnknownCombo
    ensures "Blade" in columns && "Ratchet" in columns && "Bit" in columns ==>
      combo == ComboLabel(r.blade, r.ratchet, r.bit)
  {
    if "Blade" in columns && "Ratchet" in columns && "Bit" in columns
    then ComboLabel(r.blade, r.ratchet, r.bit)
    else UnknownCombo
  }

  /**
   * With space-free parts, splitting the label on spaces gives back exactly
   * the non-empty parts, in Blade, Ratchet, Bit order.
   */
  lemma ComboSplit(blade: string, ratchet: string, bit: string)
    requires ' ' !in blade && ' ' !in ratchet && ' ' !in bit
    requires blade != "" || ratchet != "" || bit != ""
    ensures SplitSpace(ComboLabel(blade, ratchet, bit)) == NonEmpty([blade, ratchet, bit])
  {
    var ps := [blade, ratchet, bit];
    var parts := NonEmpty(ps);
    assert ps[0] == blade && ps[1] == ratchet && ps[2] == bit;
    assert blade != "" ==> blade in parts;
    assert ratchet != "" ==> ratchet in parts;
    assert bit != "" ==> bit in parts;
    assert parts != [];
    assert forall i :: 0 <= i < |parts| ==> ' ' !in parts[i];
    SplitJoin(parts);
  }

  /** A non-empty blade is the start of the label: the whole of it, or followed by a space. */
  lemma ComboStartsWithBlade(blade: string, ratchet: string, bit: string)
    requires blade != ""
    ensures var lbl := ComboLabel(blade, ratchet, bit);
      lbl == blade || (|blade| < |lbl| && lbl[..|blade|] == blade && lbl[|blade|] == ' ')
  {
    var ps := [blade, ratchet, bit];
    var parts := NonEmpty(ps);
    assert parts == [blade] + NonEmpty(ps[1..]);
    var lbl := Join(parts);
    if |parts| > 1 {
      assert lbl == blade + " " + Join(parts[1..]);
      assert lbl[..|blade|] == blade;
    }
  }

  /** A space-free blade is the first token of the label. */
  lemma ComboFirstToken(blade: string, ratchet: string, bit: string)
    requires blade != "" && ' ' !in blade
    ensures FirstToken(ComboLabel(blade, ratchet, bit)) == blade
  {
    ComboStartsWithBlade(blade, ratchet, bit);
  }
}
