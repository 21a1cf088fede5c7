/**
 * `standardiseColumn`: brings the headers of a LUCAS survey table and of the country-code table
 * to one schema, then attaches each point's country name by a left join on the ISO2 code.
 */
module Standardise {
  import opened Wrappers
  import opened Text
  import opened Table

  const UK_LONG_NAME := "United Kingdom of Great Britain and Northern Ireland"

  /** The country table's renames: `alpha-2` becomes ISO2 and `name` becomes Country. */
  const COUNTRY_RENAMES: map<string, string> := map["alpha-2" := "ISO2", "name" := "Country"]

  /** The renames of a table that has a GRAZING column. */
  const GRAZING_RENAMES: map<string, string> := map["GRAZING" := "LAND_MNGT", "NUTS0" := "ISO2"]

  /** The renames of a table that has TH_LAT (and no GRAZING or SURVEY_GRAZING) column. */
  const TH_RENAMES: map<string, string> := map["TH_LAT" := "LAT", "TH_LONG" := "LONG", "NUTS0" := "ISO2"]

  /** The country table after standardisation, and the KeyError that cut it short, if any. */
  datatype CountryOutcome = CountryOutcome(table: FrameData, error: Option<FrameError>)

  /**
   * The country table's part of standardiseColumn (functions.py:16-18): rename the two headers,
   * then ISO2 'GB' becomes 'UK', then the long UK name becomes "Great Britain". A missing ISO2
   * or Country column raises KeyError; the steps already done stay done.
   */
  function StandardiseCountry(d: FrameData): (o: CountryOutcome)
    requires d.Rectangular()
    ensures o.table.Rectangular() && |o.table.rows| == |d.rows|
    ensures o.table.columns == RenameColumns(d.columns, COUNTRY_RENAMES)
    ensures o.error.None? <==> "ISO2" in o.table.columns && "Country" in o.table.columns
    ensures "ISO2" !in o.table.columns ==> o.error == Some(KeyError("ISO2")) && o.table.rows == d.rows
    ensures "ISO2" in o.table.columns && "Country" !in o.table.columns ==> o.error == Some(KeyError("Country"))
  {
    var renamed := FrameData(RenameColumns(d.columns, COUNTRY_RENAMES), d.rows);
    match ReplaceInColumn(renamed, "ISO2", Text("GB"), Text("UK"))
    case Err(e) => CountryOutcome(renamed, Some(e))
    case Ok(iso) =>
      match ReplaceInColumn(iso, "Country", Text(UK_LONG_NAME), Text("Great Britain"))
      case Err(e) => CountryOutcome(iso, Some(e))
      case Ok(named) => CountryOutcome(named, None)
  }

  /**
   * After a successful standardisation no ISO2 code is 'GB' and no country is the long UK name;
   * every other code and name is as it was.
   */
  lemma CountryOverrides(d: FrameData)
    requires d.Rectangular()
    requires StandardiseCountry(d).error.None?
    ensures var t := StandardiseCountry(d).table;
      var iso, name := ColumnIndex(t.columns, "ISO2").value, ColumnIndex(t.columns, "Country").value;
      && iso != name
      && (forall i :: 0 <= i < |t.rows| ==> t.rows[i][iso] == (if d.rows[i][iso] == Text("GB") then Text("UK") else d.rows[i][iso]))
      && (forall i :: 0 <= i < |t.rows| ==>
            t.rows[i][name] == (if d.rows[i][name] == Text(UK_LONG_NAME) then Text("Great Britain") else d.rows[i][name]))
      && (forall i, m :: 0 <= i < |t.rows| && 0 <= m < |t.columns| && m != iso && m != name ==> t.rows[i][m] == d.rows[i][m])
  {
    var renamed := FrameData(RenameColumns(d.columns, COUNTRY_RENAMES), d.rows);
    var iso := ColumnIndex(renamed.columns, "ISO2").value;
    var name := ColumnIndex(renamed.columns, "Country").value;
    var afterIso := ReplaceInColumn(renamed, "ISO2", Text("GB"), Text("UK")).value;
    assert afterIso.rows == ReplaceCells(d.rows, iso, Text("GB"), Text("UK"));
    var afterName := ReplaceInColumn(afterIso, "Country", Text(UK_LONG_NAME), Text("Great Britain")).value;
    assert afterName.rows == ReplaceCells(afterIso.rows, name, Text(UK_LONG_NAME), Text("Great Britain"));
  }

  /**
   * Standardising an already standardised country table changes nothing, so the shared country
   * table survives any number of uploads.
   */
  lemma StandardiseCountryIdempotent(d: FrameData)
    requires d.Rectangular()
    requires StandardiseCountry(d).error.None?
    ensures StandardiseCountry(StandardiseCountry(d).table) == StandardiseCountry(d)
  {
    var t := StandardiseCountry(d).table;
    RenameAbsentKeys(t.columns, COUNTRY_RENAMES);
    var renamed := FrameData(RenameColumns(d.columns, COUNTRY_RENAMES), d.rows);
    var iso := ColumnIndex(renamed.columns, "ISO2").value;
    var name := ColumnIndex(renamed.columns, "Country").value;
    var afterIso := ReplaceInColumn(renamed, "ISO2", Text("GB"), Text("UK")).value;
    var afterName := ReplaceInColumn(afterIso, "Country", Text(UK_LONG_NAME), Text("Great Britain")).value;
    assert t == afterName;
    CountryOverrides(d);
    var again := ReplaceCells(t.rows, iso, Text("GB"), Text("UK"));
    forall i | 0 <= i < |t.rows| ensures again[i] == t.rows[i] {
      assert |again[i]| == |t.rows[i]|;
    }
    var againName := ReplaceCells(again, name, Text(UK_LONG_NAME), Text("Great Britain"));
    forall i | 0 <= i < |t.rows| ensures againName[i] == t.rows[i] {
      assert |againName[i]| == |t.rows[i]|;
    }
  }

  /**
   * The country-table half of standardiseColumn, renaming and replacing in place
   * (functions.py:16-18).
   */
  method StandardiseCountryTable(country: DataFrame) returns (err: Option<FrameError>)
    requires country.Data().Rectangular()
    modifies country
    ensures CountryOutcome(country.Data(), err) == StandardiseCountry(old(country.Data()))
  {
    country.Rename(COUNTRY_RENAMES);
    err := country.ReplaceValue("ISO2", Text("GB"), Text("UK"));
    if err.Some? {
      return;
    }
    err := country.ReplaceValue("Country", Text(UK_LONG_NAME), Text("Great Britain"));
  }

  /** A column name the SURVEY_GRAZING branch rewrites. */
  predicate Prefixed(name: string) {
    StartsWith(name, "SURVEY_") || StartsWith(name, "POINT_")
  }

  /** The new name of a prefixed column: every `SURVEY_` (or, failing that, every `POINT_`) removed. */
  function Stripped(name: string): (r: string)
    ensures !Prefixed(name) ==> r == name
  {
    if StartsWith(name, "SURVEY_") then ReplaceAll(name, "SURVEY_", "")
    else if StartsWith(name, "POINT_") then ReplaceAll(name, "POINT_", "")
    else name
  }

  /** `SURVEY_x` becomes x when x holds no further `SURVEY_`. */
  lemma StrippedSurvey(x: string)
    requires !Contains(x, "SURVEY_")
    ensures Stripped("SURVEY_" + x) == x
  {
    assert StartsWith("SURVEY_" + x, "SURVEY_");
    assert ("SURVEY_" + x)[|"SURVEY_"|..] == x;
  }

  /** `POINT_x` becomes x when x holds no further `POINT_`. */
  lemma StrippedPoint(x: string)
    requires !Contains(x, "POINT_")
    ensures Stripped("POINT_" + x) == x
  {
    assert ("POINT_" + x)[0] != "SURVEY_"[0];
    assert StartsWith("POINT_" + x, "POINT_");
    assert ("POINT_" + x)[|"POINT_"|..] == x;
  }

  /** One pass of the loop at functions.py:26-30: rename every column currently named col. */
  function StripStep(current: seq<string>, col: string): (r: seq<string>)
    ensures |r| == |current|
  {
    if Prefixed(col) then RenameColumns(current, map[col := Stripped(col)]) else current
  }

  /** The loop at functions.py:26-30 as a fold over the names it iterates. */
  function StripPrefixes(current: seq<string>, pending: seq<string>): (r: seq<string>)
    ensures |r| == |current|
    decreases |pending|
  {
    if pending == [] then current else StripPrefixes(StripStep(current, pending[0]), pending[1..])
  }

  /** A column whose name has neither prefix keeps it through the loop. */
  lemma {:induction false} StripKeepsUnprefixed(current: seq<string>, pending: seq<string>, name: string)
    requires name in current && !Prefixed(name)
    ensures name in StripPrefixes(current, pending)
    decreases |pending|
  {
    if pending != [] {
      if Prefixed(pending[0]) {
        RenameKeepsUnmapped(current, map[pending[0] := Stripped(pending[0])], name);
      }
      StripKeepsUnprefixed(StripStep(current, pending[0]), pending[1..], name);
    }
  }

  /**
   * A column the loop reaches leaves it under its stripped name, whatever else the loop
   * renames, provided the stripped name has no prefix left.
   */
  lemma {:induction false} StripReaches(current: seq<string>, pending: seq<string>, name: string)
    requires name in current && name in pending && !Prefixed(Stripped(name))
    ensures Stripped(name) in StripPrefixes(current, pending)
    decreases |pending|
  {
    var next := StripStep(current, pending[0]);
    if pending[0] == name {
      if Prefixed(name) {
        RenamedPresent(current, map[name := Stripped(name)], name);
      }
      StripKeepsUnprefixed(next, pending[1..], Stripped(name));
    } else {
      if Prefixed(pending[0]) {
        RenameKeepsUnmapped(current, map[pending[0] := Stripped(pending[0])], name);
      }
      StripReaches(next, pending[1..], name);
    }
  }

  /**
   * No two columns share a name, and no stripped name is the name of another column: then the
   * renames of the loop never touch a column other than the one they are for.
   */
  predicate NoCollision(names: seq<string>) {
    forall p, q :: 0 <= p < |names| && 0 <= q < |names| && p != q ==>
      names[p] != names[q] && Stripped(names[p]) != names[q]
  }

  /** The names after the first k columns have been stripped. */
  function StrippedUpTo(names: seq<string>, k: nat): (r: seq<string>)
    ensures |r| == |names|
  {
    seq(|names|, p requires 0 <= p < |names| => if p < k then Stripped(names[p]) else names[p])
  }

  lemma {:induction false} StripFromK(names: seq<string>, k: nat)
    requires k <= |names| && NoCollision(names)
    ensures StripPrefixes(StrippedUpTo(names, k), names[k..]) == StrippedUpTo(names, |names|)
    decreases |names| - k
  {
    if k < |names| {
      var current := StrippedUpTo(names, k);
      var col := names[k];
      assert names[k..][0] == col && names[k..][1..] == names[k + 1..];
      var next := StripStep(current, col);
      forall p | 0 <= p < |names| ensures next[p] == StrippedUpTo(names, k + 1)[p] {
        if Prefixed(col) && p != k {
          assert current[p] != col;
        }
      }
      assert next == StrippedUpTo(names, k + 1);
      StripFromK(names, k + 1);
    } else {
      assert names[k..] == [];
    }
  }

  /** Without collisions, the loop strips every column's own prefix and nothing else. */
  lemma StripPrefixesPointwise(names: seq<string>)
    requires NoCollision(names)
    ensures |StripPrefixes(names, names)| == |names|
    ensures forall p :: 0 <= p < |names| ==> StripPrefixes(names, names)[p] == Stripped(names[p])
  {
    assert StrippedUpTo(names, 0) == names;
    StripFromK(names, 0);
  }

  /** The loop at functions.py:26-30 over the names the frame had when the loop began. */
  method StripPrefixesInPlace(df: DataFrame)
    modifies df
    ensures df.Data() == FrameData(StripPrefixes(old(df.columns), old(df.columns)), old(df.rows))
  {
    var names := df.columns;
    var i := 0;
    while i < |names|
      invariant 0 <= i <= |names|
      invariant df.rows == old(df.rows)
      invariant StripPrefixes(df.columns, names[i..]) == StripPrefixes(names, names)
    {
      var col := names[i];
      assert names[i..][0] == col && names[i..][1..] == names[i + 1..];
      if StartsWith(col, "SURVEY_") {
        df.Rename(map[col := ReplaceAll(col, "SURVEY_", "")]);
      } else if StartsWith(col, "POINT_") {
        df.Rename(map[col := ReplaceAll(col, "POINT_", "")]);
      }
      i := i + 1;
    }
    assert names[i..] == [];
  }

  /** The headers of the survey table after the three-way branch at functions.py:21-33. */
  function RawColumns(columns: seq<string>): (r: seq<string>)
    ensures |r| == |columns|
  {
    if "GRAZING" in columns then RenameColumns(columns, GRAZING_RENAMES)
    else if "SURVEY_GRAZING" in columns then
      var managed := RenameColumns(columns, map["SURVEY_GRAZING" := "LAND_MNGT"]);
      RenameColumns(StripPrefixes(managed, managed), map["NUTS0" := "ISO2"])
    else if "TH_LAT" in columns then RenameColumns(columns, TH_RENAMES)
    else columns
  }

  /**
   * The headers the later steps look up: GRAZING wins over SURVEY_GRAZING, which wins over
   * TH_LAT, and each branch yields LAND_MNGT, LAT/LONG and ISO2 from the columns it renames.
   */
  lemma RawHeaders(columns: seq<string>)
    ensures "GRAZING" in columns ==> RawColumns(columns) == RenameColumns(columns, GRAZING_RENAMES)
    ensures "GRAZING" in columns ==> "LAND_MNGT" in RawColumns(columns)
    ensures "GRAZING" !in columns && "SURVEY_GRAZING" in columns ==> "LAND_MNGT" in RawColumns(columns)
    ensures "GRAZING" !in columns && "SURVEY_GRAZING" !in columns && "TH_LAT" in columns ==>
      RawColumns(columns) == RenameColumns(columns, TH_RENAMES)
    ensures "GRAZING" !in columns && "SURVEY_GRAZING" !in columns && "TH_LAT" in columns ==>
      "LAT" in RawColumns(columns) && ("TH_LONG" in columns ==> "LONG" in RawColumns(columns))
    ensures ("GRAZING" in columns || "SURVEY_GRAZING" in columns || "TH_LAT" in columns) && "NUTS0" in columns ==>
      "ISO2" in RawColumns(columns)
    ensures "GRAZING" !in columns && "SURVEY_GRAZING" !in columns && "TH_LAT" !in columns ==> RawColumns(columns) == columns
  {
    if "GRAZING" in columns {
      RenamedPresent(columns, GRAZING_RENAMES, "GRAZING");
      if "NUTS0" in columns {
        RenamedPresent(columns, GRAZING_RENAMES, "NUTS0");
      }
    } else if "SURVEY_GRAZING" in columns {
      var rename := map["SURVEY_GRAZING" := "LAND_MNGT"];
      var managed := RenameColumns(columns, rename);
      var stripped := StripPrefixes(managed, managed);
      RenamedPresent(columns, rename, "SURVEY_GRAZING");
      assert !Prefixed("LAND_MNGT") by {
        assert "LAND_MNGT"[..7][0] != "SURVEY_"[0] && "LAND_MNGT"[..6][0] != "POINT_"[0];
      }
      StripKeepsUnprefixed(managed, managed, "LAND_MNGT");
      RenameKeepsUnmapped(stripped, map["NUTS0" := "ISO2"], "LAND_MNGT");
      if "NUTS0" in columns {
        RenameKeepsUnmapped(columns, rename, "NUTS0");
        assert !Prefixed("NUTS0") by {
          assert |"NUTS0"| < |"SURVEY_"| && |"NUTS0"| < |"POINT_"|;
        }
        StripKeepsUnprefixed(managed, managed, "NUTS0");
        RenamedPresent(stripped, map["NUTS0" := "ISO2"], "NUTS0");
      }
    } else if "TH_LAT" in columns {
      RenamedPresent(columns, TH_RENAMES, "TH_LAT");
      if "TH_LONG" in columns {
        RenamedPresent(columns, TH_RENAMES, "TH_LONG");
      }
      if "NUTS0" in columns {
        RenamedPresent(columns, TH_RENAMES, "NUTS0");
      }
    }
  }

  /**
   * In the SURVEY_GRAZING branch every other prefixed header is renamed to its stripped name,
   * and a stripped NUTS0 then becomes ISO2.
   */
  lemma SurveyBranchStrips(columns: seq<string>, name: string)
    requires "GRAZING" !in columns && "SURVEY_GRAZING" in columns
    requires name in columns && name != "SURVEY_GRAZING" && !Prefixed(Stripped(name))
    ensures Stripped(name) != "NUTS0" ==> Stripped(name) in RawColumns(columns)
    ensures Stripped(name) == "NUTS0" ==> "ISO2" in RawColumns(columns)
  {
    var managed := RenameColumns(columns, map["SURVEY_GRAZING" := "LAND_MNGT"]);
    RenameKeepsUnmapped(columns, map["SURVEY_GRAZING" := "LAND_MNGT"], name);
    StripReaches(managed, managed, name);
    var stripped := StripPrefixes(managed, managed);
    if Stripped(name) == "NUTS0" {
      RenamedPresent(stripped, map["NUTS0" := "ISO2"], "NUTS0");
    } else {
      RenameKeepsUnmapped(stripped, map["NUTS0" := "ISO2"], Stripped(name));
    }
  }

  /** The SURVEY_ land-cover headers of a SURVEY_GRAZING survey file come out as LC1 and LC2. */
  lemma SurveyHeaders(columns: seq<string>)
    ensures "GRAZING" !in columns && "SURVEY_GRAZING" in columns ==>
      && ("SURVEY_LC1" in columns ==> "LC1" in RawColumns(columns))
      && ("SURVEY_LC2" in columns ==> "LC2" in RawColumns(columns))
  {
    if "GRAZING" !in columns && "SURVEY_GRAZING" in columns {
      assert "SURVEY_" + "LC1" == "SURVEY_LC1";
      SurveyHeader(columns, "SURVEY_", "LC1");
      assert "SURVEY_" + "LC2" == "SURVEY_LC2";
      SurveyHeader(columns, "SURVEY_", "LC2");
    }
  }

  /** The POINT_ coordinate headers of a SURVEY_GRAZING survey file come out as LAT and LONG. */
  lemma PointHeaders(columns: seq<string>)
    ensures "GRAZING" !in columns && "SURVEY_GRAZING" in columns ==>
      && ("POINT_LAT" in columns ==> "LAT" in RawColumns(columns))
      && ("POINT_LONG" in columns ==> "LONG" in RawColumns(columns))
  {
    if "GRAZING" !in columns && "SURVEY_GRAZING" in columns {
      assert "POINT_" + "LAT" == "POINT_LAT";
      SurveyHeader(columns, "POINT_", "LAT");
      assert "POINT_" + "LONG" == "POINT_LONG";
      SurveyHeader(columns, "POINT_", "LONG");
    }
  }

  /** POINT_NUTS0 in a SURVEY_GRAZING survey file is stripped to NUTS0 and then renamed ISO2. */
  lemma PointNutsHeader(columns: seq<string>)
    ensures "GRAZING" !in columns && "SURVEY_GRAZING" in columns && "POINT_NUTS0" in columns ==>
      "ISO2" in RawColumns(columns)
  {
    if "GRAZING" !in columns && "SURVEY_GRAZING" in columns && "POINT_NUTS0" in columns {
      assert "POINT_" + "NUTS0" == "POINT_NUTS0";
      SurveyHeader(columns, "POINT_", "NUTS0");
    }
  }

  /** One short header with one prefix, in the SURVEY_GRAZING branch. */
  lemma SurveyHeader(columns: seq<string>, prefix: string, x: string)
    requires "GRAZING" !in columns && "SURVEY_GRAZING" in columns
    requires prefix == "SURVEY_" || prefix == "POINT_"
    requires 0 < |x| < 6
    ensures prefix + x in columns && x != "NUTS0" ==> x in RawColumns(columns)
    ensures prefix + x in columns && x == "NUTS0" ==> "ISO2" in RawColumns(columns)
  {
    if prefix + x !in columns {
      return;
    }
    ShorterNotContains(x, prefix);
    if prefix == "SURVEY_" {
      StrippedSurvey(x);
    } else {
      StrippedPoint(x);
    }
    assert !Prefixed(x);
    assert prefix + x != "SURVEY_GRAZING" by {
      assert |prefix + x| < |"SURVEY_GRAZING"|;
    }
    SurveyBranchStrips(columns, prefix + x);
  }

  /** The survey-table half of standardiseColumn, renaming in place (functions.py:21-33). */
  method StandardiseRawColumns(raw: DataFrame)
    modifies raw
    ensures raw.Data() == FrameData(RawColumns(old(raw.columns)), old(raw.rows))
  {
    if "GRAZING" in raw.columns {
      raw.Rename(GRAZING_RENAMES);
    } else if "SURVEY_GRAZING" in raw.columns {
      raw.Rename(map["SURVEY_GRAZING" := "LAND_MNGT"]);
      StripPrefixesInPlace(raw);
      raw.Rename(map["NUTS0" := "ISO2"]);
    } else if "TH_LAT" in raw.columns {
      raw.Rename(TH_RENAMES);
    }
  }

  /** One row of `country[['ISO2', 'Country']]`. */
  datatype CountryEntry = CountryEntry(iso2: Value, name: Value)

  /** The ISO2 and Country cells of each country row. */
  function Entries(rows: seq<seq<Value>>, iso: nat, name: nat): (r: seq<CountryEntry>)
    requires forall i :: 0 <= i < |rows| ==> iso < |rows[i]| && name < |rows[i]|
    ensures |r| == |rows|
    ensures forall i :: 0 <= i < |r| ==> r[i] == CountryEntry(rows[i][iso], rows[i][name])
  {
    seq(|rows|, i requires 0 <= i < |rows| => CountryEntry(rows[i][iso], rows[i][name]))
  }

  /** The country names whose ISO2 equals the key, in table order (a missing key matches a missing ISO2). */
  function Matches(entries: seq<CountryEntry>, key: Value): (r: seq<Value>)
    ensures |r| <= |entries|
    decreases |entries|
  {
    if entries == [] then []
    else (if entries[0].iso2 == key then [entries[0].name] else []) + Matches(entries[1..], key)
  }

  /** The joined rows of one survey row: one per matching country, or one with a missing Country. */
  function JoinOne(row: seq<Value>, matches: seq<Value>): (r: seq<seq<Value>>)
    ensures |r| == if matches == [] then 1 else |matches|
  {
    if matches == [] then [row + [Missing]] else seq(|matches|, k requires 0 <= k < |matches| => row + [matches[k]])
  }

  /** `merge(..., on='ISO2', how='left')`: survey rows in order, each with its matching country names. */
  function LeftJoinRows(rows: seq<seq<Value>>, key: nat, entries: seq<CountryEntry>): (r: seq<seq<Value>>)
    requires forall i :: 0 <= i < |rows| ==> key < |rows[i]|
    ensures |r| >= |rows|
    decreases |rows|
  {
    if rows == [] then []
    else JoinOne(rows[0], Matches(entries, rows[0][key])) + LeftJoinRows(rows[1..], key, entries)
  }

  /** The merged headers: a Country column clashing with the joined one takes pandas' suffixes. */
  function MergedColumns(columns: seq<string>): (r: seq<string>)
    ensures |r| == |columns| + 1
    ensures "Country" !in columns ==> r == columns + ["Country"]
  {
    if "Country" in columns then RenameColumns(columns, map["Country" := "Country_x"]) + ["Country_y"]
    else columns + ["Country"]
  }

  /** The left join at functions.py:36; KeyError when either table lacks the ISO2 or Country column. */
  function MergeCountry(raw: FrameData, country: FrameData): (r: Result<FrameData, FrameError>)
    requires raw.Rectangular() && country.Rectangular()
    ensures r.Err? <==> "ISO2" !in raw.columns || "ISO2" !in country.columns || "Country" !in country.columns
    ensures r.Ok? ==> r.value.columns == MergedColumns(raw.columns) && r.value.Rectangular()
  {
    match (ColumnIndex(country.columns, "ISO2"), ColumnIndex(country.columns, "Country"), ColumnIndex(raw.columns, "ISO2"))
    case (None, _, _) => Err(KeyError("ISO2"))
    case (_, None, _) => Err(KeyError("Country"))
    case (_, _, None) => Err(KeyError("ISO2"))
    case (Some(iso), Some(name), Some(key)) =>
      var joined := LeftJoinRows(raw.rows, key, Entries(country.rows, iso, name));
      JoinedRectangular(raw.rows, key, Entries(country.rows, iso, name), |raw.columns|);
      Ok(FrameData(MergedColumns(raw.columns), joined))
  }

  lemma {:induction false} JoinedRectangular(rows: seq<seq<Value>>, key: nat, entries: seq<CountryEntry>, width: nat)
    requires forall i :: 0 <= i < |rows| ==> key < |rows[i]| && |rows[i]| == width
    ensures forall i :: 0 <= i < |LeftJoinRows(rows, key, entries)| ==> |LeftJoinRows(rows, key, entries)[i]| == width + 1
    decreases |rows|
  {
    if rows != [] {
      JoinedRectangular(rows[1..], key, entries, width);
    }
  }

  /** Each ISO2 code appears on at most one country row. */
  predicate UniqueCodes(entries: seq<CountryEntry>) {
    forall a, b :: 0 <= a < b < |entries| ==> entries[a].iso2 != entries[b].iso2
  }

  /** With unique codes a key matches at most one country; with none it matches nothing. */
  lemma {:induction false} MatchesOfUnique(entries: seq<CountryEntry>, key: Value)
    requires UniqueCodes(entries)
    ensures |Matches(entries, key)| <= 1
    ensures Matches(entries, key) == [] <==> forall a :: 0 <= a < |entries| ==> entries[a].iso2 != key
    ensures forall a :: 0 <= a < |entries| && entries[a].iso2 == key ==> Matches(entries, key) == [entries[a].name]
    decreases |entries|
  {
    if entries != [] {
      MatchesOfUnique(entries[1..], key);
      if entries[0].iso2 == key {
        assert forall a :: 1 <= a < |entries| ==> entries[a].iso2 != key;
        assert forall a :: 0 <= a < |entries[1..]| ==> entries[1..][a] == entries[a + 1];
      } else {
        assert forall a :: 0 <= a < |entries[1..]| ==> entries[1..][a] == entries[a + 1];
      }
    }
  }

  /** The Country a left join gives a survey row whose codes are unique: the match, or missing. */
  function JoinedName(entries: seq<CountryEntry>, key: Value): Value {
    var m := Matches(entries, key);
    if m == [] then Missing else m[0]
  }

  /**
   * With unique ISO2 codes the left join keeps every survey row once and in order, appending the
   * matching country name, or a missing value when the code has no country.
   */
  lemma {:induction false} LeftJoinOfUnique(rows: seq<seq<Value>>, key: nat, entries: seq<CountryEntry>)
    requires forall i :: 0 <= i < |rows| ==> key < |rows[i]|
    requires UniqueCodes(entries)
    ensures |LeftJoinRows(rows, key, entries)| == |rows|
    ensures forall i :: 0 <= i < |rows| ==> LeftJoinRows(rows, key, entries)[i] == rows[i] + [JoinedName(entries, rows[i][key])]
    decreases |rows|
  {
    if rows != [] {
      MatchesOfUnique(entries, rows[0][key]);
      LeftJoinOfUnique(rows[1..], key, entries);
      var head := JoinOne(rows[0], Matches(entries, rows[0][key]));
      assert head == [rows[0] + [JoinedName(entries, rows[0][key])]];
    }
  }

  /** With unique ISO2 codes the left join has exactly as many rows as the survey table. */
  lemma LeftJoinLengthOfUnique(rows: seq<seq<Value>>, key: nat, entries: seq<CountryEntry>)
    requires forall i :: 0 <= i < |rows| ==> key < |rows[i]|
    requires UniqueCodes(entries)
    ensures |LeftJoinRows(rows, key, entries)| == |rows|
  {
    LeftJoinOfUnique(rows, key, entries);
  }

  /** An unmatched ISO2 code gives a missing Country (unique codes). */
  lemma UnmatchedCodeGivesMissing(rows: seq<seq<Value>>, key: nat, entries: seq<CountryEntry>, i: nat)
    requires forall j :: 0 <= j < |rows| ==> key < |rows[j]|
    requires UniqueCodes(entries) && i < |rows|
    requires forall a :: 0 <= a < |entries| ==> entries[a].iso2 != rows[i][key]
    ensures LeftJoinRows(rows, key, entries)[i] == rows[i] + [Missing]
  {
    LeftJoinOfUnique(rows, key, entries);
    MatchesOfUnique(entries, rows[i][key]);
  }

  /**
   * What standardiseColumn returns, from the tables it was given: the country table's KeyError,
   * or the merge of the renamed survey table with the standardised country table.
   */
  function Standardised(raw: FrameData, country: FrameData): (r: Result<FrameData, FrameError>)
    requires raw.Rectangular() && country.Rectangular()
    ensures StandardiseCountry(country).error.Some? ==> r == Err(StandardiseCountry(country).error.value)
    ensures r.Ok? ==> r.value.columns == MergedColumns(RawColumns(raw.columns)) && r.value.Rectangular()
  {
    var o := StandardiseCountry(country);
    if o.error.Some? then Err(o.error.value)
    else MergeCountry(FrameData(RawColumns(raw.columns), raw.rows), o.table)
  }

  /** The rows standardiseColumn returns: the left join of the survey rows with the standardised country entries. */
  lemma StandardisedRows(raw: FrameData, country: FrameData)
    requires raw.Rectangular() && country.Rectangular()
    requires Standardised(raw, country).Ok?
    ensures var t := StandardiseCountry(country).table;
      && "ISO2" in t.columns && "Country" in t.columns && "ISO2" in RawColumns(raw.columns)
      && Standardised(raw, country).value.rows
         == LeftJoinRows(raw.rows, ColumnIndex(RawColumns(raw.columns), "ISO2").value,
                         Entries(t.rows, ColumnIndex(t.columns, "ISO2").value, ColumnIndex(t.columns, "Country").value))
  {
  }

  /**
   * `standardiseColumn(rawDF, country)`: renames both tables in place and returns the merge
   * (functions.py:6-37). On a KeyError from the country table the survey table is untouched.
   */
  method StandardiseColumn(raw: DataFrame, country: DataFrame) returns (r: Result<FrameData, FrameError>)
    requires raw != country
    requires raw.Data().Rectangular() && country.Data().Rectangular()
    modifies raw, country
    ensures country.Data() == StandardiseCountry(old(country.Data())).table
    ensures r == Standardised(old(raw.Data()), old(country.Data()))
    ensures StandardiseCountry(old(country.Data())).error.Some? ==> raw.Data() == old(raw.Data())
    ensures StandardiseCountry(old(country.Data())).error.None? ==>
      raw.Data() == FrameData(RawColumns(old(raw.columns)), old(raw.rows))
  {
    var err := StandardiseCountryTable(country);
    if err.Some? {
      return Err(err.value);
    }
    StandardiseRawColumns(raw);
    r := MergeCountry(raw.Data(), country.Data());
  }
}
