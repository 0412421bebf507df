/**
 * The spreadsheet address handling of `load_sheet_csv`: the ID is what the
 * pattern `/spreadsheets/d/([a-zA-Z0-9-_]+)` captures at its leftmost match
 * in the sheet URL, and the CSV export URL is built around that ID.
 */
module SheetSource {
  import opened Wrappers

  /** The characters of the capture group `[a-zA-Z0-9-_]`. */
  predicate IdChar(c: char)
  {
    ('a' <= c <= 'z') || ('A' <= c <= 'Z') || ('0' <= c <= '9') || c == '-' || c == '_'
  }

  /** The literal part of the pattern. */
  const Marker: string := "/spreadsheets/d/"

  /** The message of the error raised when the URL has no match. */
  const NoIdMessage: string := "Could not parse spreadsheet ID from URL."

  /** The pattern matches at position `p`: the marker, then at least one ID character. */
  predicate MatchAt(url: string, p: nat)
  {
    p + |Marker| < |url| && url[p..p + |Marker|] == Marker && IdChar(url[p + |Marker|])
  }

  /** The length of the longest run of ID characters starting at `i` (the greedy `+`). */
  function IdRun(s: string, i: nat): (n: nat)
    requires i <= |s|
    ensures i + n <= |s|
    ensures forall k :: i <= k < i + n ==> IdChar(s[k])
    ensures i + n == |s| || !IdChar(s[i + n])
    decreases |s| - i
  {
    if i < |s| && IdChar(s[i]) then 1 + IdRun(s, i + 1) else 0
  }

  /** The leftmost match at or after `p`. */
  function FirstMatch(url: string, p: nat): (r: Option<nat>)
    ensures r.Some? ==> p <= r.value && MatchAt(url, r.value)
    ensures r.Some? ==> forall q :: p <= q < r.value ==> !MatchAt(url, q)
    ensures r.None? ==> forall q :: p <= q ==> !MatchAt(url, q)
    decreases |url| - p
  {
    if p + |Marker| >= |url| then None
    else if MatchAt(url, p) then Some(p)
    else FirstMatch(url, p + 1)
  }

  /** `re.search(...).group(1)`, or the error when the URL has no match. */
  function SheetId(url: string): (r: Result<string, string>)
    ensures r.Err? <==> forall p :: !MatchAt(url, p)
    ensures r.Err? ==> r.error == NoIdMessage
    ensures r.Ok? ==> r.value != [] && forall k :: 0 <= k < |r.value| ==> IdChar(r.value[k])
  {
    match FirstMatch(url, 0)
    case None => Err(NoIdMessage)
    case Some(p) =>
      var start := p + |Marker|;
      Ok(url[start..start + IdRun(url, start)])
  }

  /**
   * When `p` is the leftmost match, the captured ID sits right after its
   * marker and runs up to the first character that cannot be part of an ID.
   */
  lemma SheetIdSpec(url: string, p: nat)
    requires MatchAt(url, p) && forall q :: 0 <= q < p ==> !MatchAt(url, q)
    ensures SheetId(url).Ok?
    ensures var id, start := SheetId(url).value, p + |Marker|;
      && start + |id| <= |url| && url[start..start + |id|] == id
      && (start + |id| == |url| || !IdChar(url[start + |id|]))
  {
    FirstMatchFrom(url, 0, p);
    SheetIdAt(url, p);
    var start := p + |Marker|;
    assert |SheetId(url).value| == IdRun(url, start);
  }

  /** The ID is read after the marker of the match the search finds. */
  lemma SheetIdAt(url: string, p: nat)
    requires FirstMatch(url, 0) == Some(p)
    ensures p + |Marker| <= |url|
    ensures SheetId(url) == Ok(url[p + |Marker|..p + |Marker| + IdRun(url, p + |Marker|)])
  {
    assert MatchAt(url, p);
  }

  /** The CSV export URL of one tab (`csv_url`), with the tab name taken as already encoded. */
  function CsvUrl(sid: string, tab: string): string
  {
    Host + Marker + sid + "/gviz/tq?tqx=out:csv&sheet=" + tab
  }

  /** The scheme and host in front of the marker of an export URL. */
  const Host: string := "https://docs.google.com"

  /** No match starts inside the scheme and host of an export URL. */
  lemma NoMatchInHost(url: string)
    requires |url| >= |Host| + |Marker| && url[..|Host| + |Marker|] == Host + Marker
    ensures forall q :: 0 <= q < |Host| ==> !MatchAt(url, q)
  {
    forall q | 0 <= q < |Host|
      ensures !MatchAt(url, q)
    {
      HostHasNoMarkerStart(q);
      MatchStartsWithMarker(url, q);
      assert url[q] == (Host + Marker)[q];
      assert url[q + 1] == (Host + Marker)[q + 1];
    }
  }

  /** A match begins with the first two characters of the marker. */
  lemma MatchStartsWithMarker(url: string, p: nat)
    ensures MatchAt(url, p) ==> url[p] == '/' && url[p + 1] == 's'
  {
    if MatchAt(url, p) {
      assert url[p..p + |Marker|][0] == url[p] && url[p..p + |Marker|][1] == url[p + 1];
    }
  }

  /** The marker starts with "/s", and no "/s" starts inside the host part. */
  lemma HostHasNoMarkerStart(q: nat)
    requires q < |Host|
    ensures (Host + Marker)[q] != '/' || (Host + Marker)[q + 1] != 's'
  {
  }

  /** The export URL of a well-formed ID gives back that ID. */
  lemma CsvUrlRoundTrip(sid: string, tab: string)
    requires sid != [] && forall k :: 0 <= k < |sid| ==> IdChar(sid[k])
    ensures SheetId(CsvUrl(sid, tab)) == Ok(sid)
  {
    CsvUrlLayout(sid, tab);
    ReadBackId(CsvUrl(sid, tab), sid);
  }

  /** Where the parts of an export URL sit. */
  lemma CsvUrlLayout(sid: string, tab: string)
    ensures var url, start := CsvUrl(sid, tab), |Host| + |Marker|;
      && start + |sid| < |url| && url[..start] == Host + Marker
      && url[start..start + |sid|] == sid && url[start + |sid|] == '/'
  {
    var url := CsvUrl(sid, tab);
    assert url == (Host + Marker) + sid + ("/gviz/tq?tqx=out:csv&sheet=" + tab);
  }

  /** An ID right after the host and the marker, ended by a slash, is what the search captures. */
  lemma ReadBackId(url: string, sid: string)
    requires sid != [] && forall k :: 0 <= k < |sid| ==> IdChar(sid[k])
    requires var start := |Host| + |Marker|;
      && start + |sid| < |url| && url[..start] == Host + Marker
      && url[start..start + |sid|] == sid && url[start + |sid|] == '/'
    ensures SheetId(url) == Ok(sid)
  {
    IdRunOfCopy(url, |Host| + |Marker|, sid);
    FirstMatchAfterHost(url);
    SheetIdAt(url, |Host|);
  }

  /** The greedy run over a copy of an ID that a slash ends is exactly that ID. */
  lemma IdRunOfCopy(url: string, start: nat, sid: string)
    requires sid != [] && forall k :: 0 <= k < |sid| ==> IdChar(sid[k])
    requires start + |sid| < |url| && url[start..start + |sid|] == sid && url[start + |sid|] == '/'
    ensures IdChar(url[start]) && IdRun(url, start) == |sid|
  {
    IdCharsAt(url, start, sid);
    IdRunOf(url, start, |sid|);
  }

  /** The marker right after the host, followed by an ID character, is the leftmost match. */
  lemma FirstMatchAfterHost(url: string)
    requires |Host| + |Marker| < |url| && url[..|Host| + |Marker|] == Host + Marker
    requires IdChar(url[|Host| + |Marker|])
    ensures FirstMatch(url, 0) == Some(|Host|)
  {
    NoMatchInHost(url);
    assert url[|Host|..|Host| + |Marker|] == Marker;
    FirstMatchFrom(url, 0, |Host|);
  }

  /** A copy of an ID inside `url` consists of ID characters. */
  lemma IdCharsAt(url: string, start: nat, sid: string)
    requires forall k :: 0 <= k < |sid| ==> IdChar(sid[k])
    requires start + |sid| <= |url| && url[start..start + |sid|] == sid
    ensures forall k :: start <= k < start + |sid| ==> IdChar(url[k])
  {
    forall k | start <= k < start + |sid|
      ensures IdChar(url[k])
    {
      assert url[start..start + |sid|][k - start] == url[k];
    }
  }

  /** The search moves past positions that do not match until it reaches one that does. */
  lemma {:induction false} FirstMatchFrom(url: string, p: nat, m: nat)
    requires p <= m && MatchAt(url, m)
    requires forall q :: p <= q < m ==> !MatchAt(url, q)
    ensures FirstMatch(url, p) == Some(m)
    decreases m - p
  {
    if p < m {
      FirstMatchFrom(url, p + 1, m);
    }
  }

  /** A run of `n` ID characters followed by something else has length `n`. */
  lemma {:induction false} IdRunOf(s: string, i: nat, n: nat)
    requires i + n <= |s|
    requires forall k :: i <= k < i + n ==> IdChar(s[k])
    requires i + n == |s| || !IdChar(s[i + n])
    ensures IdRun(s, i) == n
    decreases n
  {
    if n > 0 {
      IdRunOf(s, i + 1, n - 1);
    }
  }
}
