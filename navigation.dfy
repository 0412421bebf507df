/**
 * The URL state of the page: reading query parameters with defaults, the
 * compare-then-write of the five parameters the page owns, the tables
 * between widget labels and URL slugs, the routing rule for the detail
 * view and the detail links of the leaderboard.
 */
module Navigation {
  import opened Wrappers
  import opened Text
  import opened Rows

  /** The query parameters of the page, one value per key. */
  type Params = map<string, string>

  /** The keys the page reads and writes. */
  const OurKeys: set<string> := {"view", "mode", "finish", "period", "item"}

  /** `qp_get`: the value of `name`, or `default` when it is absent or empty. */
  function QpGet(q: Params, name: string, default: string): (v: string)
    ensures name in q && q[name] != "" ==> v == q[name]
    ensures !(name in q && q[name] != "") ==> v == default
  {
    var v := GetOr(q, name, default);
    if v == "" then default else v
  }

  /** The part of a parameter map the page owns. */
  function Restrict(q: Params): (r: Params)
    ensures forall k :: k in r <==> k in q && k in OurKeys
    ensures forall k :: k in r ==> r[k] == q[k]
  {
    map k | k in q && k in OurKeys :: q[k]
  }

  /**
   * `qp_set`: when the owned part of the current map differs from the owned
   * part of the target, the map is cleared and refilled with the latter;
   * otherwise it is left as it is.
   */
  function QpSetResult(q: Params, target: Params): (r: Params)
    ensures Restrict(r) == Restrict(target)
    ensures r == q || r == Restrict(target)
    ensures Restrict(q) == Restrict(target) ==> r == q
  {
    if Restrict(q) != Restrict(target) then Restrict(target) else q
  }

  /** Restricting twice is restricting once. */
  lemma RestrictIdempotent(q: Params)
    ensures Restrict(Restrict(q)) == Restrict(q)
  {
  }

  /** A second write of the same target changes nothing. */
  lemma QpSetIdempotent(q: Params, target: Params)
    ensures QpSetResult(QpSetResult(q, target), target) == QpSetResult(q, target)
  {
  }

  /** After a write, reading an owned key gives back the value written (or the default for ""). */
  lemma QpSetThenGet(q: Params, target: Params, name: string, default: string)
    requires name in OurKeys
    ensures QpGet(QpSetResult(q, target), name, default) == QpGet(target, name, default)
  {
    var r := QpSetResult(q, target);
    assert name in r <==> name in Restrict(r);
    assert name in target <==> name in Restrict(target);
    if name in r {
      assert r[name] == Restrict(r)[name] == Restrict(target)[name] == target[name];
    }
  }

  /** Reading an owned key looks only at the owned part of the map. */
  lemma QpGetRestrict(q: Params, name: string, default: string)
    requires name in OurKeys
    ensures QpGet(Restrict(q), name, default) == QpGet(q, name, default)
  {
  }

  /** The browser's query-parameter map, which `qp_set` clears and refills in place. */
  class QueryParams {
    var params: Params

    constructor (initial: Params)
      ensures params == initial
    {
      params := initial;
    }

    /** `qp_get` on the current map. */
    method Get(name: string, default: string) returns (v: string)
      ensures v == QpGet(params, name, default)
    {
      v := default;
      if name in params && params[name] != "" {
        v := params[name];
      }
    }

    /** `qp_set`: clear and update only when the owned parts differ. */
    method Set(target: Params)
      modifies this
      ensures params == QpSetResult(old(params), target)
    {
      var cur := Restrict(params);
      var tgt := Restrict(target);
      if cur != tgt {
        params := map[];
        params := params + tgt;
      }
    }
  }

  /** The options of the "View" control (`view_map`'s keys). */
  datatype View = TopCombos | Blades | Ratchets | Bits

  /**
   * `view_map`: the grouping column of a view. Only "Top combos" reads the
   * derived `_combo` column; the other views read the column whose name,
   * lower-cased, is the view's mode slug.
   */
  function ViewGroup(v: View): (g: GroupKey)
    ensures g == ComboKey <==> v == TopCombos
    ensures v != TopCombos ==> Lower(ColumnName(g)) == ModeSlug(v)
  {
    match v
    case TopCombos => ComboKey
    case Blades => BladeKey
    case Ratchets => RatchetKey
    case Bits => BitKey
  }

  /** `view_map`: the mode slug written to the URL, already lower case. */
  function ModeSlug(v: View): (slug: string)
    ensures Lower(slug) == slug
  {
    match v
    case TopCombos => "combo"
    case Blades => "blade"
    case Ratchets => "ratchet"
    case Bits => "bit"
  }

  /** `finish_slug`; `metric_col` maps it back to the counter of `f`. */
  function FinishSlug(f: Finish): (slug: string)
    ensures Lower(slug) == slug
  {
    match f
    case First => "1st"
    case Top3 => "top3"
    case All => "all"
  }

  /** The options of the "Date range" control. */
  datatype Period = PastMonth | Past3Months | Past6Months

  /** `period_slug`, already lower case. */
  function PeriodSlug(p: Period): (slug: string)
    ensures Lower(slug) == slug
  {
    match p
    case PastMonth => "1m"
    case Past3Months => "3m"
    case Past6Months => "6m"
  }

  /** `months_back`, looked up by the period's slug: the slug is the digit of `n` followed by "m". */
  function MonthsBack(p: Period): (n: nat)
    ensures n == 1 || n == 3 || n == 6
    ensures |PeriodSlug(p)| == 2 && PeriodSlug(p)[1] == 'm' && PeriodSlug(p)[0] as int == '0' as int + n
  {
    match p
    case PastMonth => 1
    case Past3Months => 3
    case Past6Months => 6
  }

  /** `default_view`: the view whose slug is `mode`, "Top combos" for anything else. */
  function DefaultView(mode: string): (v: View)
    ensures mode == ModeSlug(v) || v == TopCombos
    ensures forall w :: ModeSlug(w) == mode ==> v == w
  {
    if mode == "blade" then Blades
    else if mode == "ratchet" then Ratchets
    else if mode == "bit" then Bits
    else TopCombos
  }

  /** `default_finish`: the tier whose slug is `finish`, "1st - 3rd" for anything else. */
  function DefaultFinish(finish: string): (f: Finish)
    ensures finish == FinishSlug(f) || f == Top3
    ensures forall g :: FinishSlug(g) == finish ==> f == g
  {
    if finish == "1st" then First
    else if finish == "all" then All
    else Top3
  }

  /** `default_period`: the period whose slug is `period`, "Past 6 months" for anything else. */
  function DefaultPeriod(period: string): (p: Period)
    ensures period == PeriodSlug(p) || p == Past6Months
    ensures forall q :: PeriodSlug(q) == period ==> p == q
  {
    if period == "1m" then PastMonth
    else if period == "3m" then Past3Months
    else Past6Months
  }

  /** Reading a slug back gives the option it was written from. */
  lemma SlugsRoundTrip(v: View, f: Finish, p: Period)
    ensures DefaultView(ModeSlug(v)) == v
    ensures DefaultFinish(FinishSlug(f)) == f
    ensures DefaultPeriod(PeriodSlug(p)) == p
  {
  }

  /** The routing rule: the detail view needs a non-empty item. */
  function EffectiveView(qpView: string, qpItem: string): (view: string)
    ensures view == "detail" <==> qpView == "detail" && qpItem != ""
    ensures view == "detail" || view == "home"
  {
    if qpView == "detail" && qpItem != "" then "detail" else "home"
  }

  /** `params_to_set`: the four state parameters, and the item only in the detail view. */
  function ParamsToSet(view: string, mode: string, finish: string, period: string, item: string): (t: Params)
    ensures forall k :: k in t ==> k in OurKeys
    ensures "item" in t <==> view == "detail"
    ensures "item" in t ==> t["item"] == item
    ensures "view" in t && "mode" in t && "finish" in t && "period" in t
    ensures t["view"] == view && t["mode"] == mode && t["finish"] == finish && t["period"] == period
  {
    var base := map["view" := view, "mode" := mode, "finish" := finish, "period" := period];
    if view == "detail" then base["item" := item] else base
  }

  /** The navigation state one run of the page settles on. */
  datatype Pass = Pass(
    page: string,       // "home" or "detail"
    view: View,
    finish: Finish,
    period: Period,
    item: string)       // the item shown by the detail page, "" on the leaderboard

  /** What a run hands to `qp_set`. */
  function Target(p: Pass): Params
  {
    ParamsToSet(p.page, ModeSlug(p.view), FinishSlug(p.finish), PeriodSlug(p.period), p.item)
  }

  /**
   * One run of the page: the URL is read with its defaults, each control
   * shows its default unless the user picked one of its options (`Some`),
   * and the routing follows; `Target` gives the parameters it writes.
   */
  function Render(q: Params, viewChoice: Option<View>, finishChoice: Option<Finish>,
                  periodChoice: Option<Period>): (p: Pass)
    ensures p.page == "detail" <==> Lower(QpGet(q, "view", "home")) == "detail" && QpGet(q, "item", "") != ""
    ensures p.item == if p.page == "detail" then QpGet(q, "item", "") else ""
    ensures viewChoice.None? ==> p.view == DefaultView(Lower(QpGet(q, "mode", "combo")))
    ensures viewChoice.Some? ==> p.view == viewChoice.value
    ensures finishChoice.None? ==> p.finish == DefaultFinish(Lower(QpGet(q, "finish", "top3")))
    ensures finishChoice.Some? ==> p.finish == finishChoice.value
    ensures periodChoice.None? ==> p.period == DefaultPeriod(Lower(QpGet(q, "period", "6m")))
    ensures periodChoice.Some? ==> p.period == periodChoice.value
  {
    var qpMode := Lower(QpGet(q, "mode", "combo"));
    var qpFinish := Lower(QpGet(q, "finish", "top3"));
    var qpPeriod := Lower(QpGet(q, "period", "6m"));
    var qpView := Lower(QpGet(q, "view", "home"));
    var qpItem := QpGet(q, "item", "");
    var view := if viewChoice.Some? then viewChoice.value else DefaultView(qpMode);
    var finish := if finishChoice.Some? then finishChoice.value else DefaultFinish(qpFinish);
    var period := if periodChoice.Some? then periodChoice.value else DefaultPeriod(qpPeriod);
    var page := EffectiveView(qpView, qpItem);
    var item := if page == "detail" then qpItem else "";
    Pass(page, view, finish, period, item)
  }

  /** A run depends on the owned parameters only. */
  lemma RenderRestrict(q: Params, viewChoice: Option<View>, finishChoice: Option<Finish>,
                       periodChoice: Option<Period>)
    ensures Render(Restrict(q), viewChoice, finishChoice, periodChoice)
      == Render(q, viewChoice, finishChoice, periodChoice)
  {
    QpGetRestrict(q, "mode", "combo");
    QpGetRestrict(q, "finish", "top3");
    QpGetRestrict(q, "period", "6m");
    QpGetRestrict(q, "view", "home");
    QpGetRestrict(q, "item", "");
  }

  /** A run on a URL that names its state outright reads that state back. */
  lemma RenderOfState(q: Params, view: View, f: Finish, period: Period)
    requires "mode" in q && q["mode"] == ModeSlug(view)
    requires "finish" in q && q["finish"] == FinishSlug(f)
    requires "period" in q && q["period"] == PeriodSlug(period)
    ensures var p := Render(q, None, None, None);
      p.view == view && p.finish == f && p.period == period
  {
    SlugsRoundTrip(view, f, period);
  }

  /** A run on a URL that names its page outright shows that page. */
  lemma RenderOfPage(q: Params, page: string, item: string)
    requires page == "detail" ==> item != ""
    requires page == "detail" || (page == "home" && item == "")
    requires "view" in q && q["view"] == page
    requires if page == "detail" then "item" in q && q["item"] == item else "item" !in q
    ensures var p := Render(q, None, None, None);
      p.page == page && p.item == item
  {
    LowerFixed("detail");
    LowerFixed("home");
  }

  /** What `qp_set` is handed is a URL whose run is that same state. */
  lemma RenderOfTarget(p: Pass)
    requires p.page == "detail" ==> p.item != ""
    requires p.page == "detail" || (p.page == "home" && p.item == "")
    ensures Render(Target(p), None, None, None) == p
  {
    RenderOfState(Target(p), p.view, p.finish, p.period);
    RenderOfPage(Target(p), p.page, p.item);
  }

  /**
   * The URL written by a run captures that run: the next run, with every
   * control left alone, reads back the same state from the URL and writes
   * nothing.
   */
  lemma RerunStable(q: Params, viewChoice: Option<View>, finishChoice: Option<Finish>,
                    periodChoice: Option<Period>)
    ensures var p := Render(q, viewChoice, finishChoice, periodChoice);
      var q2 := QpSetResult(q, Target(p));
      Render(q2, None, None, None) == p && QpSetResult(q2, Target(Render(q2, None, None, None))) == q2
  {
    var p := Render(q, viewChoice, finishChoice, periodChoice);
    var q2 := QpSetResult(q, Target(p));
    assert Restrict(Target(p)) == Target(p);
    assert Restrict(q2) == Target(p);
    RenderRestrict(q2, None, None, None);
    RenderOfTarget(p);
  }

  /** `mk_detail_link`: the URL of the detail page of one leaderboard entry. */
  function DetailLink(mode: string, item: string, finish: string, period: string): string
  {
    "?" + AmpJoin([Field("view", "detail"), Field("mode", mode), Field("item", item),
                   Field("finish", finish), Field("period", period)])
  }

  /** One `key=value` field of a query string. */
  function Field(key: string, value: string): string
  {
    key + "=" + value
  }

  /** Fields joined by `&`. */
  function AmpJoin(fs: seq<string>): string
  {
    if |fs| == 0 then ""
    else if |fs| == 1 then fs[0]
    else fs[0] + "&" + AmpJoin(fs[1..])
  }

  /** The position of the first `c` in `s`. */
  function IndexOf(s: string, c: char): (i: nat)
    requires c in s
    ensures i < |s| && s[i] == c && c !in s[..i]
  {
    if s[0] == c then 0 else 1 + IndexOf(s[1..], c)
  }

  /** The fields of a query string: the pieces between `&` separators. */
  function Fields(s: string): (fs: seq<string>)
    ensures |fs| >= 1
    decreases |s|
  {
    if '&' !in s then [s]
    else
      var i := IndexOf(s, '&');
      [s[..i]] + Fields(s[i + 1..])
  }

  /** A field as a key and a value, split at its first `=`; a field without one has the empty value. */
  function Pair(field: string): (string, string)
  {
    if '=' in field then
      var i := IndexOf(field, '=');
      (field[..i], field[i + 1..])
    else (field, "")
  }

  /** The parameters of a list of fields; a later field overrides an earlier one with the same key. */
  function Decode(fields: seq<string>): Params
  {
    if fields == [] then map[]
    else
      var kv := Pair(fields[|fields| - 1]);
      Decode(fields[..|fields| - 1])[kv.0 := kv.1]
  }

  /** The query parameters the browser reads from a relative link `?...`. */
  function QueryOf(link: string): Params
  {
    if link != [] && link[0] == '?' then Decode(Fields(link[1..])) else map[]
  }

  /** The first `c` of `a + [c] + b` is the one after `a` when `a` holds none. */
  lemma {:induction false} IndexOfAfter(a: string, c: char, b: string)
    requires c !in a
    ensures IndexOf(a + [c] + b, c) == |a|
  {
    if a != [] {
      assert (a + [c] + b)[1..] == a[1..] + [c] + b;
      IndexOfAfter(a[1..], c, b);
    }
  }

  /** A field free of `&` followed by `&` is the first field. */
  lemma FieldsCons(a: string, b: string)
    requires '&' !in a
    ensures Fields(a + "&" + b) == [a] + Fields(b)
  {
    var s := a + "&" + b;
    IndexOfAfter(a, '&', b);
    assert s[|a|] == '&';
    assert s[..|a|] == a && s[|a| + 1..] == b;
  }

  /** A key free of `=`, then `=`, then a value, is that key and that value. */
  lemma PairOf(k: string, v: string)
    requires '=' !in k
    ensures Pair(Field(k, v)) == (k, v)
  {
    var f := Field(k, v);
    IndexOfAfter(k, '=', v);
    assert f[|k|] == '=';
    assert f[..|k|] == k && f[|k| + 1..] == v;
  }

  /** Splitting a join of `&`-free fields at `&` gives the fields back. */
  lemma {:induction false} FieldsOfJoin(fs: seq<string>)
    requires |fs| >= 1 && forall i :: 0 <= i < |fs| ==> '&' !in fs[i]
    ensures Fields(AmpJoin(fs)) == fs
  {
    if |fs| > 1 {
      var rest := fs[1..];
      assert forall i :: 0 <= i < |rest| ==> rest[i] == fs[i + 1];
      FieldsOfJoin(rest);
      assert AmpJoin(fs) == fs[0] + "&" + AmpJoin(rest);
      FieldsCons(fs[0], AmpJoin(rest));
      assert fs == [fs[0]] + rest;
    }
  }

  /**
   * The browser reads a detail link back as the five parameters it was built
   * from, as long as no value holds the separator `&` (which percent-encoding
   * would escape).
   */
  lemma DetailLinkDecodes(mode: string, item: string, finish: string, period: string)
    requires '&' !in mode && '&' !in item && '&' !in finish && '&' !in period
    ensures QueryOf(DetailLink(mode, item, finish, period)) == LinkParams(mode, item, finish, period)
  {
    DetailLinkQuery(mode, item, finish, period);
    DecodeFive("view", "detail", "mode", mode, "item", item, "finish", finish, "period", period);
    BindingsAreLink(mode, item, finish, period);
  }

  /** A detail link is read as the decoding of its five fields. */
  lemma DetailLinkQuery(mode: string, item: string, finish: string, period: string)
    requires '&' !in mode && '&' !in item && '&' !in finish && '&' !in period
    ensures QueryOf(DetailLink(mode, item, finish, period)) == Decode([Field("view", "detail"),
      Field("mode", mode), Field("item", item), Field("finish", finish), Field("period", period)])
  {
    FieldNoAmp("view", "detail");
    FieldNoAmp("mode", mode);
    FieldNoAmp("item", item);
    FieldNoAmp("finish", finish);
    FieldNoAmp("period", period);
    FieldsOfFive(Field("view", "detail"), Field("mode", mode), Field("item", item),
                 Field("finish", finish), Field("period", period));
  }

  /** A field of an `&`-free key and value holds no `&`. */
  lemma FieldNoAmp(k: string, v: string)
    requires '&' !in k && '&' !in v
    ensures '&' !in Field(k, v)
  {
  }

  /** Five `&`-free fields joined by `&` split back into those fields. */
  lemma FieldsOfFive(f0: string, f1: string, f2: string, f3: string, f4: string)
    requires '&' !in f0 && '&' !in f1 && '&' !in f2 && '&' !in f3 && '&' !in f4
    ensures Fields(("?" + AmpJoin([f0, f1, f2, f3, f4]))[1..]) == [f0, f1, f2, f3, f4]
  {
    var fs := [f0, f1, f2, f3, f4];
    assert ("?" + AmpJoin(fs))[1..] == AmpJoin(fs);
    FieldsOfJoin(fs);
  }

  /** The five bindings of a detail link, one after the other. */
  lemma BindingsAreLink(mode: string, item: string, finish: string, period: string)
    ensures map["view" := "detail"]["mode" := mode]["item" := item]["finish" := finish]["period" := period]
      == LinkParams(mode, item, finish, period)
  {
  }

  /** One more field updates the parameters with its key and value. */
  lemma DecodeSnoc(fs: seq<string>, f: string)
    ensures Decode(fs + [f]) == Decode(fs)[Pair(f).0 := Pair(f).1]
  {
    assert (fs + [f])[..|fs|] == fs;
  }

  /** Five `key=value` fields with `=`-free keys decode to those five bindings. */
  lemma DecodeFive(k0: string, v0: string, k1: string, v1: string, k2: string, v2: string,
                   k3: string, v3: string, k4: string, v4: string)
    requires '=' !in k0 && '=' !in k1 && '=' !in k2 && '=' !in k3 && '=' !in k4
    ensures Decode([Field(k0, v0), Field(k1, v1), Field(k2, v2), Field(k3, v3), Field(k4, v4)])
      == map[k0 := v0][k1 := v1][k2 := v2][k3 := v3][k4 := v4]
  {
    var f0, f1, f2, f3, f4 := Field(k0, v0), Field(k1, v1), Field(k2, v2), Field(k3, v3), Field(k4, v4);
    PairOf(k0, v0);
    PairOf(k1, v1);
    PairOf(k2, v2);
    PairOf(k3, v3);
    PairOf(k4, v4);
    DecodeSnoc([], f0);
    assert [] + [f0] == [f0];
    DecodeSnoc([f0], f1);
    assert [f0] + [f1] == [f0, f1];
    DecodeSnoc([f0, f1], f2);
    assert [f0, f1] + [f2] == [f0, f1, f2];
    DecodeSnoc([f0, f1, f2], f3);
    assert [f0, f1, f2] + [f3] == [f0, f1, f2, f3];
    DecodeSnoc([f0, f1, f2, f3], f4);
    assert [f0, f1, f2, f3] + [f4] == [f0, f1, f2, f3, f4];
  }

  /** The parameters a detail link carries, once the browser has decoded it. */
  function LinkParams(mode: string, item: string, finish: string, period: string): (q: Params)
    ensures q.Keys == OurKeys
    ensures q["view"] == "detail" && q["mode"] == mode && q["item"] == item
    ensures q["finish"] == finish && q["period"] == period
  {
    map["view" := "detail", "mode" := mode, "item" := item, "finish" := finish, "period" := period]
  }

  /** A detail link carries exactly what a detail page of that entry writes. */
  lemma LinkIsTarget(mode: string, item: string, finish: string, period: string)
    ensures LinkParams(mode, item, finish, period) == ParamsToSet("detail", mode, finish, period, item)
  {
    var a, b := LinkParams(mode, item, finish, period), ParamsToSet("detail", mode, finish, period, item);
    assert a.Keys == b.Keys;
    forall k | k in a
      ensures a[k] == b[k]
    {
    }
  }

  /**
   * Following the detail link of a non-empty entry, made in any run, opens
   * the detail page of that entry in the same view, finish and period, and
   * that run writes nothing back.
   */
  lemma FollowDetailLink(q: Params, viewChoice: Option<View>, finishChoice: Option<Finish>,
                         periodChoice: Option<Period>, item: string)
    requires item != ""
    ensures var p := Render(q, viewChoice, finishChoice, periodChoice);
      var link := LinkParams(ModeSlug(p.view), item, FinishSlug(p.finish), PeriodSlug(p.period));
      var p2 := Render(link, None, None, None);
      && p2.page == "detail" && p2.item == item
      && p2.view == p.view && p2.finish == p.finish && p2.period == p.period
      && Target(p2) == link
  {
    var p := Render(q, viewChoice, finishChoice, periodChoice);
    var link := LinkParams(ModeSlug(p.view), item, FinishSlug(p.finish), PeriodSlug(p.period));
    LinkIsTarget(ModeSlug(p.view), item, FinishSlug(p.finish), PeriodSlug(p.period));
    RenderOfTarget(Pass("detail", p.view, p.finish, p.period, item));
  }
}
