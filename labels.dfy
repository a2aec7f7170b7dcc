/**
 * Label normalisation: the fixed plug and country tables of the dashboard and
 * the lookups that map raw labels from query rows onto them.  Plug labels
 * that miss the table are dropped by the callers; country labels that miss
 * it are bucketed as "Other".
 */
module Labels {
  import opened Wrappers

  // ---------------------------------------------------------------- strings

  /** `str.lower()` on one character (ASCII letters only, see README). */
  function LowerChar(c: char): char {
    if 'A' <= c <= 'Z' then (c as int + 32) as char else c
  }

  predicate IsUpper(c: char) {
    'A' <= c <= 'Z'
  }

  /** `str.lower()`, character by character. */
  function Lower(s: string): (r: string)
    ensures |r| == |s| && forall i :: 0 <= i < |s| ==> r[i] == LowerChar(s[i])
  {
    seq(|s|, i requires 0 <= i < |s| => LowerChar(s[i]))
  }

  /**
   * What lower-casing does: no upper-case letter is left, every other
   * character is kept as it was, and each upper-case letter becomes its own
   * lower-case form.  (Kept apart from `Lower` so that these quantifiers are
   * only in scope where they are asked for.)
   */
  lemma LowerFolds(s: string)
    ensures forall i :: 0 <= i < |s| ==> !IsUpper(Lower(s)[i])
    ensures forall i :: 0 <= i < |s| && !IsUpper(s[i]) ==> Lower(s)[i] == s[i]
    ensures forall i :: 0 <= i < |s| && IsUpper(s[i]) ==> Lower(s)[i] as int == s[i] as int + 32
  {
  }

  /** Lower-casing twice is lower-casing once. */
  lemma LowerIdempotent(s: string)
    ensures Lower(Lower(s)) == Lower(s)
  {
  }

  /** The characters `str.strip()` removes: those for which `str.isspace()` holds. */
  predicate IsSpace(c: char) {
    var n := c as int;
    n == 32 || 9 <= n <= 13 || 28 <= n <= 31 || n == 0x85 || n == 0xA0 || n == 0x1680
    || 0x2000 <= n <= 0x200A || n == 0x2028 || n == 0x2029 || n == 0x202F || n == 0x205F
    || n == 0x3000
  }

  function StripLeft(s: string): (r: string)
    ensures |r| <= |s| && r == s[|s| - |r|..]
    ensures forall i :: 0 <= i < |s| - |r| ==> IsSpace(s[i])
    ensures r == [] || !IsSpace(r[0])
  {
    if |s| > 0 && IsSpace(s[0]) then StripLeft(s[1..]) else s
  }

  function StripRight(s: string): (r: string)
    ensures |r| <= |s| && r == s[..|r|]
    ensures forall i :: |r| <= i < |s| ==> IsSpace(s[i])
    ensures r == [] || !IsSpace(r[|r| - 1])
  {
    if |s| > 0 && IsSpace(s[|s| - 1]) then StripRight(s[..|s| - 1]) else s
  }

  /** No whitespace at either end. */
  predicate Unspaced(s: string) {
    s == [] || (!IsSpace(s[0]) && !IsSpace(s[|s| - 1]))
  }

  /** `str.strip()`. */
  function Strip(s: string): string {
    StripRight(StripLeft(s))
  }

  /** Python's `x or default` for a text cell that may be NULL or empty. */
  function OrText(cell: Option<string>, default: string): string {
    if cell.None? || cell.value == "" then default else cell.value
  }

  lemma LowerKeepsSpaces(c: char)
    ensures IsSpace(LowerChar(c)) <==> IsSpace(c)
  {
  }

  lemma {:induction false} LowerStripLeft(s: string)
    ensures Lower(StripLeft(s)) == StripLeft(Lower(s))
    decreases |s|
  {
    LowerKeepsSpaces(if |s| > 0 then s[0] else ' ');
    if |s| > 0 && IsSpace(s[0]) {
      assert Lower(s)[1..] == Lower(s[1..]);
      LowerStripLeft(s[1..]);
    }
  }

  lemma {:induction false} LowerStripRight(s: string)
    ensures Lower(StripRight(s)) == StripRight(Lower(s))
    decreases |s|
  {
    LowerKeepsSpaces(if |s| > 0 then s[|s| - 1] else ' ');
    if |s| > 0 && IsSpace(s[|s| - 1]) {
      assert Lower(s)[..|s| - 1] == Lower(s[..|s| - 1]);
      LowerStripRight(s[..|s| - 1]);
    }
  }

  /**
   * Stripping then lower-casing (the user-count path) and lower-casing then
   * stripping (the revenue path) give the same lookup key.
   */
  lemma LowerCommutesWithStrip(s: string)
    ensures Lower(Strip(s)) == Strip(Lower(s))
  {
    LowerStripLeft(s);
    LowerStripRight(StripLeft(s));
  }

  // ----------------------------------------------------------------- tables

  /** `PP_MAP`, in its declaration order. */
  const PP_MAP: map<string, string> := map[
    "afib" := "AFib",
    "cardio" := "Cardio",
    "cardio adaptability" := "Cardio",
    "cno_pro_n_plus" := "CnO Pro",
    "cno pro" := "CnO Pro",
    "c&o_pro_offering" := "CnO Pro",
    "cno_pro_offering" := "CnO Pro",
    "respiratory_health" := "Respiratory",
    "respiratory" := "Respiratory",
    "respiratoryhealth" := "Respiratory",
    "tesla" := "Tesla"
  ]

  /** `PLUGS`: the canonical plug names, in dashboard order. */
  const PLUGS: seq<string> := ["AFib", "Cardio", "CnO Pro", "Respiratory", "Tesla"]

  /** `COUNTRY_MAP`, in its declaration order. */
  const COUNTRY_MAP: map<string, string> := map[
    "united states of america" := "USA",
    "united states" := "USA",
    "us" := "USA",
    "usa" := "USA",
    "india" := "India",
    "canada" := "Canada",
    "united kingdom of great britain and northern ireland" := "UK + IR",
    "united kingdom" := "UK + IR",
    "ireland" := "UK + IR",
    "uk" := "UK + IR",
    "australia" := "Australia",
    "germany" := "Germany",
    "united arab emirates" := "UAE",
    "uae" := "UAE",
    "czech republic" := "Czech Republic",
    "czechia" := "Czech Republic",
    "thailand" := "Thailand",
    "switzerland" := "Switzerland",
    "spain" := "Spain",
    "netherlands" := "Netherlands",
    "singapore" := "Singapore",
    "philippines" := "Philippines",
    "france" := "France",
    "mexico" := "Mexico",
    "poland" := "Poland",
    "saudi arabia" := "Saudi Arabia",
    "austria" := "Austria",
    "italy" := "Italy",
    "italia" := "Italy",
    "belgium" := "Belgium",
    "new zealand" := "New Zealand",
    "taiwan" := "Taiwan",
    "taiwan, province of china" := "Taiwan"
  ]

  /** `DASHBOARD_COUNTRIES`. */
  const DASHBOARD_COUNTRIES: seq<string> := [
    "USA", "India", "Canada", "UK + IR", "Australia", "Germany",
    "UAE", "Czech Republic", "Thailand", "Switzerland", "Spain",
    "Netherlands", "Singapore", "Philippines", "France", "Mexico",
    "Poland", "Saudi Arabia", "Austria", "Italy", "Belgium", "New Zealand",
    "Taiwan"
  ]

  /** The bucket for countries outside the table. */
  const OTHER: string := "Other"

  /** `table.get(key)`. */
  function Lookup(table: map<string, string>, key: string): (r: Option<string>)
    ensures r.Some? <==> key in table
    ensures r.Some? ==> r.value == table[key]
  {
    if key in table then Some(table[key]) else None
  }

  // ---------------------------------------------------- the source's lookups

  /**
   * Trial path (`PP_MAP.get(pp_raw.lower() if pp_raw else '', None)`):
   * lower-cased, not stripped; None means the row is skipped.
   */
  function TrialPlug(raw: Option<string>): (r: Option<string>)
    ensures r.Some? ==> r.value in PLUGS
    ensures r.None? <==> Lower(OrText(raw, "")) !in PP_MAP
  {
    TablesMapIntoVocabulary();
    Lookup(PP_MAP, Lower(OrText(raw, "")))
  }

  /**
   * Country-revenue path: `COUNTRY_MAP.get(country_raw.lower().strip())`,
   * and "Other" on a miss.
   */
  function RevenueCountry(raw: Option<string>): (c: string)
    ensures c in DASHBOARD_COUNTRIES || c == OTHER
    ensures c == OTHER <==> Strip(Lower(OrText(raw, ""))) !in COUNTRY_MAP
  {
    TablesMapIntoVocabulary();
    OtherIsNoDashboardCountry();
    match Lookup(COUNTRY_MAP, Strip(Lower(OrText(raw, ""))))
    case Some(c) => c
    case None => OTHER
  }

  /**
   * User-count path: `COUNTRY_MAP.get((raw or 'Unknown').strip().lower())`;
   * the callers send a miss to "Other".
   */
  function UserCountry(raw: Option<string>): (r: Option<string>)
    ensures r.Some? ==> r.value in DASHBOARD_COUNTRIES
    ensures r.None? <==> Lower(Strip(OrText(raw, "Unknown"))) !in COUNTRY_MAP
  {
    TablesMapIntoVocabulary();
    Lookup(COUNTRY_MAP, Lower(Strip(OrText(raw, "Unknown"))))
  }

  /**
   * The display-name fallback of the revenue path: a value of `PP_MAP` whose
   * lower-cased form equals the key.  The source scans the items in order and
   * stops at the first hit; since no two plug names lower-case alike
   * (PlugNamesFoldApart), the scan order cannot change the answer, and the
   * model scans the values in any order.
   */
  method DisplayNameFallback(key: string) returns (pp: Option<string>)
    ensures pp.None? <==> forall v :: v in PP_MAP.Values ==> Lower(v) != key
    ensures pp.Some? ==> pp.value in PP_MAP.Values && Lower(pp.value) == key
  {
    pp := None;
    var rest := PP_MAP.Values;
    while rest != {}
      invariant rest <= PP_MAP.Values
      invariant forall v :: v in PP_MAP.Values - rest ==> Lower(v) != key
      decreases |rest|
    {
      var v :| v in rest;
      if Lower(v) == key {
        pp := Some(v);
        return;
      }
      rest := rest - {v};
    }
  }

  /**
   * Revenue path: `PP_MAP.get(pp_raw.lower().strip())`, then the display-name
   * fallback.  The contract shows the fallback never changes the outcome.
   */
  method RevenuePlug(raw: Option<string>) returns (pp: Option<string>)
    ensures pp == Lookup(PP_MAP, Strip(Lower(OrText(raw, ""))))
    ensures pp.Some? ==> pp.value in PLUGS
  {
    TablesMapIntoVocabulary();
    var key := Strip(Lower(OrText(raw, "")));
    pp := Lookup(PP_MAP, key);
    if pp.None? {
      ValuesAreKeysWhenLowered();
      pp := DisplayNameFallback(key);
    }
  }

  // ------------------------------------------------------------ properties

  /** Every `PP_MAP` value is in `PLUGS`, every `COUNTRY_MAP` value in `DASHBOARD_COUNTRIES`. */
  lemma TablesMapIntoVocabulary()
    ensures forall k :: k in PP_MAP ==> PP_MAP[k] in PLUGS
    ensures forall k :: k in COUNTRY_MAP ==> COUNTRY_MAP[k] in DASHBOARD_COUNTRIES
  {
  }

  /** "Other" is not one of the dashboard's countries, so a bucketed miss never merges with a listed country. */
  lemma OtherIsNoDashboardCountry()
    ensures OTHER !in DASHBOARD_COUNTRIES
  {
  }

  /** A string with no space at either end is its own strip. */
  lemma StripUnspaced(s: string)
    requires Unspaced(s)
    ensures Strip(s) == s
  {
  }

  /** Re-normalising a canonical plug name gives it back, on both paths. */
  lemma PlugRenormalises(p: string)
    requires p in PLUGS
    ensures Lookup(PP_MAP, Lower(p)) == Some(p)
  {
    var i :| 0 <= i < |PLUGS| && PLUGS[i] == p;
    if i < 3 { PlugKeyBelow3(i); } else { PlugKeyFrom3(i); }
  }

  /*
   * The helpers below (PlugKey*, Unspaced*, LoweredKey*) model nothing of
   * their own.  They check one fixed table entry at a time: a check over the
   * whole table in one proof expands every string literal at once, which the
   * solver cannot finish within its resource limit.  Only the lemmas above
   * each group state something about the tables.
   */
  lemma PlugKeyBelow3(i: int)
    requires 0 <= i < 3
    ensures Lower(PLUGS[i]) in PP_MAP && PP_MAP[Lower(PLUGS[i])] == PLUGS[i]
  {
    if i == 0 { assert Lower("AFib") == "afib"; }
    else if i == 1 { assert Lower("Cardio") == "cardio"; }
    else { assert Lower("CnO Pro") == "cno pro"; }
  }

  lemma PlugKeyFrom3(i: int)
    requires 3 <= i < |PLUGS|
    ensures Lower(PLUGS[i]) in PP_MAP && PP_MAP[Lower(PLUGS[i])] == PLUGS[i]
  {
    if i == 3 { assert Lower("Respiratory") == "respiratory"; }
    else { assert Lower("Tesla") == "tesla"; }
  }

  /** A canonical plug name has no surrounding whitespace, so the revenue path's strip keeps it. */
  lemma PlugNameUnspaced(p: string)
    requires p in PLUGS
    ensures Strip(Lower(p)) == Lower(p)
  {
    assert !IsSpace(p[0]) && !IsSpace(p[|p| - 1]);
    LowerKeepsSpaces(p[0]);
    LowerKeepsSpaces(p[|p| - 1]);
    StripUnspaced(Lower(p));
  }

  /** Each value of `PP_MAP`, lower-cased, is itself a key mapping to that value. */
  lemma ValuesAreKeysWhenLowered()
    ensures forall v :: v in PP_MAP.Values ==> Lower(v) in PP_MAP && PP_MAP[Lower(v)] == v
  {
    forall v | v in PP_MAP.Values ensures Lower(v) in PP_MAP && PP_MAP[Lower(v)] == v {
      TablesMapIntoVocabulary();
      var k :| k in PP_MAP && PP_MAP[k] == v;
      PlugRenormalises(v);
    }
  }

  /** No two plug names lower-case to the same string. */
  lemma PlugNamesFoldApart(p: string, q: string)
    requires p in PLUGS && q in PLUGS && Lower(p) == Lower(q)
    ensures p == q
  {
    PlugRenormalises(p);
    PlugRenormalises(q);
  }

  /** Re-normalising a canonical country name gives it back, except for "UK + IR". */
  lemma CountryRenormalises(c: string)
    requires c in DASHBOARD_COUNTRIES && c != "UK + IR"
    ensures RevenueCountry(Some(c)) == c
  {
    CountryNameUnspaced(c);
    CountryNameIsLoweredKey(c);
    assert OrText(Some(c), "") == c;
  }

  lemma CountryNameUnspaced(c: string)
    requires c in DASHBOARD_COUNTRIES
    ensures Strip(Lower(c)) == Lower(c)
  {
    DashboardCountriesUnspaced();
    LowerKeepsSpaces(c[0]);
    LowerKeepsSpaces(c[|c| - 1]);
    StripUnspaced(Lower(c));
  }

  lemma DashboardCountriesUnspaced()
    ensures forall c :: c in DASHBOARD_COUNTRIES ==> c != [] && Unspaced(c)
  {
    forall c | c in DASHBOARD_COUNTRIES ensures c != [] && Unspaced(c) {
      var i :| 0 <= i < |DASHBOARD_COUNTRIES| && DASHBOARD_COUNTRIES[i] == c;
      if i < 12 { UnspacedBelow12(i); } else { UnspacedFrom12(i); }
    }
  }

  /** Split helpers: see the note above `PlugKeyBelow3`. */
  lemma UnspacedBelow12(i: int)
    requires 0 <= i < 12
    ensures DASHBOARD_COUNTRIES[i] != [] && Unspaced(DASHBOARD_COUNTRIES[i])
  {
  }

  lemma UnspacedFrom12(i: int)
    requires 12 <= i < |DASHBOARD_COUNTRIES|
    ensures DASHBOARD_COUNTRIES[i] != [] && Unspaced(DASHBOARD_COUNTRIES[i])
  {
  }

  lemma CountryNameIsLoweredKey(c: string)
    requires c in DASHBOARD_COUNTRIES && c != "UK + IR"
    ensures Lower(c) in COUNTRY_MAP && COUNTRY_MAP[Lower(c)] == c
  {
    var i :| 0 <= i < |DASHBOARD_COUNTRIES| && DASHBOARD_COUNTRIES[i] == c;
    if i < 12 { LoweredKeyBelow12(i); } else { LoweredKeyFrom12(i); }
  }

  /** Split helpers, one per country of the table: see the note above `PlugKeyBelow3`. */
  lemma LoweredKeyBelow12(i: int)
    requires 0 <= i < 12 && i != 3
    ensures Lower(DASHBOARD_COUNTRIES[i]) in COUNTRY_MAP && COUNTRY_MAP[Lower(DASHBOARD_COUNTRIES[i])] == DASHBOARD_COUNTRIES[i]
  {
    if i == 0 { LoweredKey0(); }
    else if i == 1 { LoweredKey1(); }
    else if i == 2 { LoweredKey2(); }
    else if i == 4 { LoweredKey4(); }
    else if i == 5 { LoweredKey5(); }
    else if i == 6 { LoweredKey6(); }
    else if i == 7 { LoweredKey7(); }
    else if i == 8 { LoweredKey8(); }
    else if i == 9 { LoweredKey9(); }
    else if i == 10 { LoweredKey10(); }
    else { LoweredKey11(); }
  }

  lemma LoweredKeyFrom12(i: int)
    requires 12 <= i < |DASHBOARD_COUNTRIES|
    ensures Lower(DASHBOARD_COUNTRIES[i]) in COUNTRY_MAP && COUNTRY_MAP[Lower(DASHBOARD_COUNTRIES[i])] == DASHBOARD_COUNTRIES[i]
  {
    if i == 12 { LoweredKey12(); }
    else if i == 13 { LoweredKey13(); }
    else if i == 14 { LoweredKey14(); }
    else if i == 15 { LoweredKey15(); }
    else if i == 16 { LoweredKey16(); }
    else if i == 17 { LoweredKey17(); }
    else if i == 18 { LoweredKey18(); }
    else if i == 19 { LoweredKey19(); }
    else if i == 20 { LoweredKey20(); }
    else if i == 21 { LoweredKey21(); }
    else { LoweredKey22(); }
  }

  lemma LoweredKey0()
    ensures Lower(DASHBOARD_COUNTRIES[0]) == "usa" && "usa" in COUNTRY_MAP && COUNTRY_MAP["usa"] == DASHBOARD_COUNTRIES[0]
  {
  }

  lemma LoweredKey1()
    ensures Lower(DASHBOARD_COUNTRIES[1]) == "india" && "india" in COUNTRY_MAP && COUNTRY_MAP["india"] == DASHBOARD_COUNTRIES[1]
  {
  }

  lemma LoweredKey2()
    ensures Lower(DASHBOARD_COUNTRIES[2]) == "canada" && "canada" in COUNTRY_MAP && COUNTRY_MAP["canada"] == DASHBOARD_COUNTRIES[2]
  {
  }

  lemma LoweredKey4()
    ensures Lower(DASHBOARD_COUNTRIES[4]) == "australia" && "australia" in COUNTRY_MAP && COUNTRY_MAP["australia"] == DASHBOARD_COUNTRIES[4]
  {
  }

  lemma LoweredKey5()
    ensures Lower(DASHBOARD_COUNTRIES[5]) == "germany" && "germany" in COUNTRY_MAP && COUNTRY_MAP["germany"] == DASHBOARD_COUNTRIES[5]
  {
  }

  lemma LoweredKey6()
    ensures Lower(DASHBOARD_COUNTRIES[6]) == "uae" && "uae" in COUNTRY_MAP && COUNTRY_MAP["uae"] == DASHBOARD_COUNTRIES[6]
  {
  }

  lemma LoweredKey7()
    ensures Lower(DASHBOARD_COUNTRIES[7]) == "czech republic" && "czech republic" in COUNTRY_MAP && COUNTRY_MAP["czech republic"] == DASHBOARD_COUNTRIES[7]
  {
  }

  lemma LoweredKey8()
    ensures Lower(DASHBOARD_COUNTRIES[8]) == "thailand" && "thailand" in COUNTRY_MAP && COUNTRY_MAP["thailand"] == DASHBOARD_COUNTRIES[8]
  {
  }

  lemma LoweredKey9()
    ensures Lower(DASHBOARD_COUNTRIES[9]) == "switzerland" && "switzerland" in COUNTRY_MAP && COUNTRY_MAP["switzerland"] == DASHBOARD_COUNTRIES[9]
  {
  }

  lemma LoweredKey10()
    ensures Lower(DASHBOARD_COUNTRIES[10]) == "spain" && "spain" in COUNTRY_MAP && COUNTRY_MAP["spain"] == DASHBOARD_COUNTRIES[10]
  {
  }

  lemma LoweredKey11()
    ensures Lower(DASHBOARD_COUNTRIES[11]) == "netherlands" && "netherlands" in COUNTRY_MAP && COUNTRY_MAP["netherlands"] == DASHBOARD_COUNTRIES[11]
  {
  }

  lemma LoweredKey12()
    ensures Lower(DASHBOARD_COUNTRIES[12]) == "singapore" && "singapore" in COUNTRY_MAP && COUNTRY_MAP["singapore"] == DASHBOARD_COUNTRIES[12]
  {
  }

  lemma LoweredKey13()
    ensures Lower(DASHBOARD_COUNTRIES[13]) == "philippines" && "philippines" in COUNTRY_MAP && COUNTRY_MAP["philippines"] == DASHBOARD_COUNTRIES[13]
  {
  }

  lemma LoweredKey14()
    ensures Lower(DASHBOARD_COUNTRIES[14]) == "france" && "france" in COUNTRY_MAP && COUNTRY_MAP["france"] == DASHBOARD_COUNTRIES[14]
  {
  }

  lemma LoweredKey15()
    ensures Lower(DASHBOARD_COUNTRIES[15]) == "mexico" && "mexico" in COUNTRY_MAP && COUNTRY_MAP["mexico"] == DASHBOARD_COUNTRIES[15]
  {
  }

  lemma LoweredKey16()
    ensures Lower(DASHBOARD_COUNTRIES[16]) == "poland" && "poland" in COUNTRY_MAP && COUNTRY_MAP["poland"] == DASHBOARD_COUNTRIES[16]
  {
  }

  lemma LoweredKey17()
    ensures Lower(DASHBOARD_COUNTRIES[17]) == "saudi arabia" && "saudi arabia" in COUNTRY_MAP && COUNTRY_MAP["saudi arabia"] == DASHBOARD_COUNTRIES[17]
  {
  }

  lemma LoweredKey18()
    ensures Lower(DASHBOARD_COUNTRIES[18]) == "austria" && "austria" in COUNTRY_MAP && COUNTRY_MAP["austria"] == DASHBOARD_COUNTRIES[18]
  {
  }

  lemma LoweredKey19()
    ensures Lower(DASHBOARD_COUNTRIES[19]) == "italy" && "italy" in COUNTRY_MAP && COUNTRY_MAP["italy"] == DASHBOARD_COUNTRIES[19]
  {
  }

  lemma LoweredKey20()
    ensures Lower(DASHBOARD_COUNTRIES[20]) == "belgium" && "belgium" in COUNTRY_MAP && COUNTRY_MAP["belgium"] == DASHBOARD_COUNTRIES[20]
  {
  }

  lemma LoweredKey21()
    ensures Lower(DASHBOARD_COUNTRIES[21]) == "new zealand" && "new zealand" in COUNTRY_MAP && COUNTRY_MAP["new zealand"] == DASHBOARD_COUNTRIES[21]
  {
  }

  lemma LoweredKey22()
    ensures Lower(DASHBOARD_COUNTRIES[22]) == "taiwan" && "taiwan" in COUNTRY_MAP && COUNTRY_MAP["taiwan"] == DASHBOARD_COUNTRIES[22]
  {
  }

  /** "UK + IR" is not a key of `COUNTRY_MAP`, so re-normalising it yields "Other". */
  lemma UkIrelandRenormalisesToOther()
    ensures RevenueCountry(Some("UK + IR")) == OTHER
  {
    assert OrText(Some("UK + IR"), "") == "UK + IR";
    assert Lower("UK + IR") == "uk + ir";
    StripUnspaced("uk + ir");
    UkIrelandIsNoKey();
  }

  lemma UkIrelandIsNoKey()
    ensures "uk + ir" !in COUNTRY_MAP
  {
  }
}
