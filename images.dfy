/**
 * The optional thumbnails: the images tab becomes one name-to-URL
 * dictionary per part type, and `image_for_label` looks a leaderboard label
 * up in the dictionary of its mode.
 */
module Images {
  import opened Wrappers
  import opened Text
  import opened Rows

  /** One row of the images tab. */
  datatype ImageRow = ImageRow(partType: string, name: string, url: string)

  /** The images tab as loaded: its column names and its rows. */
  datatype ImageSheet = ImageSheet(columns: seq<string>, rows: seq<ImageRow>)

  /** The three lookup dictionaries (`blade_img`, `ratchet_img`, `bit_img`). */
  datatype ImageMaps = ImageMaps(blades: map<string, string>, ratchets: map<string, string>,
                                 bits: map<string, string>)

  /** A row after the clean-up: part type stripped and lower-cased, name and URL stripped. */
  function Clean(r: ImageRow): ImageRow
  {
    ImageRow(Lower(Strip(r.partType)), Strip(r.name), Strip(r.url))
  }

  /** The clean-up applied to every row of the tab. */
  function CleanAll(rows: seq<ImageRow>): (cleaned: seq<ImageRow>)
    ensures |cleaned| == |rows|
    ensures forall i :: 0 <= i < |rows| ==> cleaned[i] == Clean(rows[i])
  {
    seq(|rows|, i requires 0 <= i < |rows| => Clean(rows[i]))
  }

  /**
   * `set_index("Name")["ImageURL"].to_dict()` over the cleaned rows of one
   * part type; of two rows with the same name the later one wins.
   */
  function ImageMap(rows: seq<ImageRow>, kind: string): (m: map<string, string>)
    ensures forall i :: 0 <= i < |rows| && rows[i].partType == kind ==> rows[i].name in m
  {
    if rows == [] then map[]
    else
      var m := ImageMap(rows[..|rows| - 1], kind);
      var r := rows[|rows| - 1];
      if r.partType == kind then m[r.name := r.url] else m
  }

  /** Every key of the dictionary is the name of a row of that part type. */
  lemma {:induction false} ImageMapKeys(rows: seq<ImageRow>, kind: string, k: string)
    requires k in ImageMap(rows, kind)
    ensures exists i :: 0 <= i < |rows| && rows[i].partType == kind && rows[i].name == k
  {
    var init, r := rows[..|rows| - 1], rows[|rows| - 1];
    if !(r.partType == kind && r.name == k) {
      ImageMapKeys(init, kind, k);
      var i :| 0 <= i < |init| && init[i].partType == kind && init[i].name == k;
      assert rows[i] == init[i];
    }
  }

  /** A name's URL is that of the last row of that part type with that name. */
  lemma {:induction false} ImageMapLastWins(rows: seq<ImageRow>, kind: string, i: nat)
    requires i < |rows| && rows[i].partType == kind
    requires forall j :: i < j < |rows| ==> !(rows[j].partType == kind && rows[j].name == rows[i].name)
    ensures ImageMap(rows, kind)[rows[i].name] == rows[i].url
  {
    var init := rows[..|rows| - 1];
    if i < |rows| - 1 {
      assert init[i] == rows[i];
      forall j | i < j < |init|
        ensures !(init[j].partType == kind && init[j].name == init[i].name)
      {
        assert init[j] == rows[j];
      }
      ImageMapLastWins(init, kind, i);
    }
  }

  /** `need.issubset(df.columns)`: the images tab has the three columns the lookup needs. */
  predicate HasImageColumns(columns: seq<string>)
  {
    "PartType" in columns && "Name" in columns && "ImageURL" in columns
  }

  /** The three dictionaries of a cleaned tab. */
  function ImageTables(cleaned: seq<ImageRow>): ImageMaps
  {
    ImageMaps(ImageMap(cleaned, "blade"), ImageMap(cleaned, "ratchet"), ImageMap(cleaned, "bit"))
  }

  /** The dictionaries are empty without an images tab or when it lacks a needed column. */
  function LoadImageMaps(sheet: Option<ImageSheet>): (maps: ImageMaps)
    ensures sheet.None? ==> maps == ImageMaps(map[], map[], map[])
    ensures sheet.Some? && !HasImageColumns(sheet.value.columns) ==> maps == ImageMaps(map[], map[], map[])
    ensures sheet.Some? && HasImageColumns(sheet.value.columns) ==> maps == ImageTables(CleanAll(sheet.value.rows))
  {
    match sheet
    case None => ImageMaps(map[], map[], map[])
    case Some(s) =>
      if HasImageColumns(s.columns) then
        ImageTables(CleanAll(s.rows))
      else ImageMaps(map[], map[], map[])
  }

  /**
   * `image_for_label` as written: the label itself in the blade, ratchet and
   * bit modes, and the first space-separated token of the label in the
   * combo mode.
   */
  function ImageForLabel(maps: ImageMaps, lbl: string, mode: string): (url: Option<string>)
    ensures lbl == "" ==> url == None
    ensures lbl != "" && mode == "blade" ==> url == Get(maps.blades, lbl)
    ensures lbl != "" && mode == "ratchet" ==> url == Get(maps.ratchets, lbl)
    ensures lbl != "" && mode == "bit" ==> url == Get(maps.bits, lbl)
    ensures lbl != "" && mode == "combo" ==> url == Get(maps.blades, FirstToken(lbl))
    ensures mode !in {"blade", "ratchet", "bit", "combo"} ==> url == None
  {
    if lbl == "" then None
    else if mode == "blade" then Get(maps.blades, lbl)
    else if mode == "ratchet" then Get(maps.ratchets, lbl)
    else if mode == "bit" then Get(maps.bits, lbl)
    else if mode == "combo" then Get(maps.blades, FirstToken(lbl))
    else None
  }

  /** The combo-mode lookup as written finds the blade of a combo whose blade name is one word. */
  lemma ComboImageOneWordBlade(maps: ImageMaps, blade: string, ratchet: string, bit: string)
    requires blade != "" && ' ' !in blade && blade in maps.blades
    ensures ImageForLabel(maps, ComboLabel(blade, ratchet, bit), "combo") == Some(maps.blades[blade])
  {
    ComboFirstToken(blade, ratchet, bit);
  }

  /** A combo whose blade name has two words, with a thumbnail for that blade. */
  function WizardRodImages(): ImageMaps
  {
    ImageMaps(map["Wizard Rod" := "wizard-rod.png"], map[], map[])
  }

  /**
   * As written, the combo of a blade whose name has several words is looked
   * up under the blade's first word only.
   */
  lemma ComboImageFirstWord(maps: ImageMaps, word: string, more: string, ratchet: string, bit: string)
    requires word != "" && ' ' !in word && ratchet != "" && bit != ""
    ensures ImageForLabel(maps, ComboLabel(word + " " + more, ratchet, bit), "combo") == Get(maps.blades, word)
  {
    var blade := word + " " + more;
    assert blade + " " + ratchet + " " + bit == word + " " + (more + " " + ratchet + " " + bit);
    FirstTokenOf(word, more + " " + ratchet + " " + bit);
  }

  /** As written, the combo of a two-word blade gets no thumbnail although its blade has one. */
  lemma ComboImageMissesTwoWordBlade()
    ensures ImageForLabel(WizardRodImages(), ComboLabel("Wizard Rod", "5-60", "Ball"), "combo") == None
  {
    assert "Wizard Rod" == "Wizard" + " " + "Rod";
    ComboImageFirstWord(WizardRodImages(), "Wizard", "Rod", "5-60", "Ball");
    assert "Wizard" !in WizardRodImages().blades;
  }

  /** A token boundary of `s`: the end of `s` or a position holding a space. */
  predicate Boundary(s: string, n: nat)
  {
    0 < n <= |s| && (n == |s| || s[n] == ' ')
  }

  /**
   * The longest prefix of `s`, ending at a token boundary no later than
   * `n`, that names a blade.
   */
  function LongestBlade(blades: map<string, string>, s: string, n: nat): (b: Option<string>)
    requires n <= |s|
    ensures b.Some? ==> b.value in blades && Boundary(s, |b.value|) && |b.value| <= n && s[..|b.value|] == b.value
    ensures b.Some? ==> forall m :: |b.value| < m <= n && Boundary(s, m) ==> s[..m] !in blades
    ensures b.None? ==> forall m :: 0 < m <= n && Boundary(s, m) ==> s[..m] !in blades
  {
    if n == 0 then None
    else if Boundary(s, n) && s[..n] in blades then Some(s[..n])
    else LongestBlade(blades, s, n - 1)
  }

  /**
   * `image_for_label` as intended: in the combo mode the blade is the
   * longest run of whole words at the start of the label that names a blade.
   */
  function ImageForLabelFixed(maps: ImageMaps, lbl: string, mode: string): (url: Option<string>)
    ensures mode != "combo" ==> url == ImageForLabel(maps, lbl, mode)
    ensures lbl != "" && mode == "combo" && url.Some? ==> exists n: nat :: (Boundary(lbl, n) && lbl[..n] in maps.blades
      && url.value == maps.blades[lbl[..n]])
  {
    if lbl != "" && mode == "combo" then
      match LongestBlade(maps.blades, lbl, |lbl|)
      case Some(b) => Some(maps.blades[b])
      case None => None
    else ImageForLabel(maps, lbl, mode)
  }

  /**
   * The corrected lookup finds the blade of every combo whose blade is in
   * the images tab, one word or several, unless a longer run of the
   * combo's words is itself a blade name.
   */
  lemma ComboImageFindsBlade(maps: ImageMaps, blade: string, ratchet: string, bit: string)
    requires blade != "" && blade in maps.blades
    requires var c := ComboLabel(blade, ratchet, bit);
      forall m :: |blade| < m <= |c| && Boundary(c, m) ==> c[..m] !in maps.blades
    ensures ImageForLabelFixed(maps, ComboLabel(blade, ratchet, bit), "combo") == Some(maps.blades[blade])
  {
    var c := ComboLabel(blade, ratchet, bit);
    ComboStartsWithBlade(blade, ratchet, bit);
    assert Boundary(c, |blade|);
    var b := LongestBlade(maps.blades, c, |c|);
    assert c[..|blade|] == blade;
    if b.None? {
      assert false;
    }
    assert |b.value| >= |blade|;
    assert b.value == blade;
  }

  /** The corrected lookup gives the two-word blade its thumbnail. */
  lemma ComboImageFixedTwoWordBlade()
    ensures ImageForLabelFixed(WizardRodImages(), ComboLabel("Wizard Rod", "5-60", "Ball"), "combo")
      == Some("wizard-rod.png")
  {
    var c := ComboLabel("Wizard Rod", "5-60", "Ball");
    ComboStartsWithBlade("Wizard Rod", "5-60", "Ball");
    forall m | 10 < m <= |c| && Boundary(c, m)
      ensures c[..m] !in WizardRodImages().blades
    {
      assert |c[..m]| != 10;
    }
    ComboImageFindsBlade(WizardRodImages(), "Wizard Rod", "5-60", "Ball");
  }
}
