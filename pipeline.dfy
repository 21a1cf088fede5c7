/**
 * `processLucasData`: standardise a copy of the uploaded survey table, classify its points and
 * summarise them per country.
 */
module Pipeline {
  import opened Wrappers
  import opened Table
  import opened Classifier
  import opened Aggregator
  import opened Standardise

  /** The columns filterClasses selects for its output (functions.py:90). */
  const SELECTED: seq<string> := ["LAT", "LONG", "LC1", "LC2", "LAND_MNGT"]

  /** The first of the names that is not a column: the KeyError `loc` raises for a column list. */
  function FirstMissing(columns: seq<string>, names: seq<string>): (r: Option<string>)
    ensures r.None? <==> forall n :: n in names ==> n in columns
    ensures r.Some? ==> r.value in names && r.value !in columns
    decreases |names|
  {
    if names == [] then None
    else if names[0] !in columns then Some(names[0])
    else FirstMissing(columns, names[1..])
  }

  /** Every column the classification reads. */
  predicate HasSurveyColumns(columns: seq<string>) {
    "Country" in columns && forall n :: n in SELECTED ==> n in columns
  }

  /** The survey points of a standardised table: the five carried cells and the Country cell of each row. */
  function ToPoints(d: FrameData): (r: seq<Point>)
    requires d.Rectangular() && HasSurveyColumns(d.columns)
    ensures |r| == |d.rows|
    ensures forall i :: 0 <= i < |r| ==>
      r[i].country == AsText(d.rows[i][ColumnIndex(d.columns, "Country").value])
      && r[i].cells.lc1 == d.rows[i][ColumnIndex(d.columns, "LC1").value]
      && r[i].cells.lc2 == d.rows[i][ColumnIndex(d.columns, "LC2").value]
      && r[i].cells.landMngt == d.rows[i][ColumnIndex(d.columns, "LAND_MNGT").value]
      && r[i].cells.lat == d.rows[i][ColumnIndex(d.columns, "LAT").value]
      && r[i].cells.long == d.rows[i][ColumnIndex(d.columns, "LONG").value]
  {
    assert "LAT" in SELECTED && "LONG" in SELECTED && "LC1" in SELECTED && "LC2" in SELECTED && "LAND_MNGT" in SELECTED;
    var lat, long := ColumnIndex(d.columns, "LAT").value, ColumnIndex(d.columns, "LONG").value;
    var lc1, lc2 := ColumnIndex(d.columns, "LC1").value, ColumnIndex(d.columns, "LC2").value;
    var mngt, country := ColumnIndex(d.columns, "LAND_MNGT").value, ColumnIndex(d.columns, "Country").value;
    seq(|d.rows|, i requires 0 <= i < |d.rows| =>
      Point(Cells(d.rows[i][lat], d.rows[i][long], d.rows[i][lc1], d.rows[i][lc2], d.rows[i][mngt]), AsText(d.rows[i][country])))
  }

  /**
   * filterLandUseCoverClasses on a standardised table, with the errors its column accesses raise
   * in the order it makes them: Country (functions.py:47), the first row (47), LC1 and LAND_MNGT
   * (97), then the selected columns (102).
   */
  function ClassifyFrame(d: FrameData, year: int): (r: Result<seq<ClassifiedPoint>, FrameError>)
    requires d.Rectangular()
    ensures r.Ok? <==> HasSurveyColumns(d.columns) && d.rows != []
    ensures "Country" !in d.columns ==> r == Err(KeyError("Country"))
    ensures "Country" in d.columns && d.rows == [] ==> r == Err(IndexError)
    ensures r.Ok? ==> |r.value| <= |d.rows|
    ensures r.Ok? ==> forall o :: o in r.value ==>
      o.year == year && o.country == AsText(d.rows[0][ColumnIndex(d.columns, "Country").value])
  {
    if "Country" !in d.columns then Err(KeyError("Country"))
    else if d.rows == [] then Err(IndexError)
    else if "LC1" !in d.columns then Err(KeyError("LC1"))
    else if "LAND_MNGT" !in d.columns then Err(KeyError("LAND_MNGT"))
    else match FirstMissing(d.columns, SELECTED)
      case Some(n) => Err(KeyError(n))
      case None =>
        var points := ToPoints(d);
        assert points[0].country == AsText(d.rows[0][ColumnIndex(d.columns, "Country").value]);
        var classified := FilterLandUseCoverClasses(points, year);
        Ok(classified.value)
  }

  /** The two tables processLucasData returns: the classified points and the summary. */
  datatype Processed = Processed(points: seq<ClassifiedPoint>, summary: seq<SummaryRow>)

  /** What processLucasData returns, from the tables it was given (functions.py:195-206). */
  function Process(raw: FrameData, country: FrameData, year: int): (r: Result<Processed, FrameError>)
    requires raw.Rectangular() && country.Rectangular()
    ensures r.Ok? ==> Standardised(raw, country).Ok? && r.value.summary == CreateSummarisedTable(r.value.points, year)
    ensures r.Ok? ==> ClassifyFrame(Standardised(raw, country).value, year) == Ok(r.value.points)
  {
    var merged :- Standardised(raw, country);
    var points :- ClassifyFrame(merged, year);
    Ok(Processed(points, CreateSummarisedTable(points, year)))
  }

  /**
   * `processLucasData(rawData, countryID, year)`: works on a copy, so the caller's survey table is
   * unchanged, while the caller's country table is standardised in place.
   */
  method ProcessLucasData(raw: DataFrame, country: DataFrame, year: int) returns (r: Result<Processed, FrameError>)
    requires raw != country
    requires raw.Data().Rectangular() && country.Data().Rectangular()
    modifies country
    ensures raw.Data() == old(raw.Data())
    ensures country.Data() == StandardiseCountry(old(country.Data())).table
    ensures r == Process(old(raw.Data()), old(country.Data()), year)
  {
    ghost var rawData, countryData := raw.Data(), country.Data();
    var copy := new DataFrame.Copy(raw);
    var merged := StandardiseColumn(copy, country);
    assert merged == Standardised(rawData, countryData);
    if merged.Err? {
      return Err(merged.error);
    }
    var points := ClassifyFrame(merged.value, year);
    if points.Err? {
      return Err(points.error);
    }
    r := Ok(Processed(points.value, CreateSummarisedTable(points.value, year)));
  }

  /** The summary of points sharing one year and one country. */
  lemma UniformSummary(points: seq<ClassifiedPoint>, year: int)
    requires forall i :: 0 <= i < |points| ==> points[i].year == year && points[i].country == points[0].country
    ensures var s := CreateSummarisedTable(points, year);
      && |s| <= 1
      && (|s| == 1 ==> points != [] && Some(s[0].country) == points[0].country)
      && (points != [] && points[0].country.Some? ==> |s| == 1 && s[0].total == |points|)
      && (forall j :: 0 <= j < |s| ==> s[j].counts.Sum() == s[j].total)
  {
    var s := CreateSummarisedTable(points, year);
    if points != [] {
      SingleCountrySummary(points, year, points[0].country);
      if |s| == 1 {
        SummaryRowContents(points, year, 0);
      }
    } else {
      SummaryCountriesPresent(points, year);
    }
  }

  /**
   * One upload is one country and one year: every point has the year and the first row's
   * country, the summary has at most one row, and when the country is known its Total is the
   * number of classified points.
   */
  lemma ProcessedTotals(raw: FrameData, country: FrameData, year: int)
    requires raw.Rectangular() && country.Rectangular()
    requires Process(raw, country, year).Ok?
    ensures var p := Process(raw, country, year).value;
      && (forall i :: 0 <= i < |p.points| ==> p.points[i].year == year && p.points[i].country == p.points[0].country)
      && |p.summary| <= 1
      && (|p.summary| == 1 ==> p.points != [] && Some(p.summary[0].country) == p.points[0].country)
      && (p.points != [] && p.points[0].country.Some? ==> |p.summary| == 1 && p.summary[0].total == |p.points|)
      && (forall j :: 0 <= j < |p.summary| ==> p.summary[j].counts.Sum() == p.summary[j].total)
  {
    var p := Process(raw, country, year).value;
    ProcessedUniform(raw, country, year);
    UniformSummary(p.points, year);
  }

  /** All points of one upload carry the given year and the first point's country. */
  lemma ProcessedUniform(raw: FrameData, country: FrameData, year: int)
    requires raw.Rectangular() && country.Rectangular()
    requires Process(raw, country, year).Ok?
    ensures var points := Process(raw, country, year).value.points;
      forall i :: 0 <= i < |points| ==> points[i].year == year && points[i].country == points[0].country
  {
    var points := Process(raw, country, year).value.points;
    forall i | 0 <= i < |points| ensures points[i].year == year && points[i].country == points[0].country {
      assert points[i] in points && points[0] in points;
    }
  }

  /** The country table's ISO2 column holds each code at most once. */
  predicate UniqueIso(t: FrameData)
    requires t.Rectangular()
  {
    "ISO2" in t.columns &&
    var iso := ColumnIndex(t.columns, "ISO2").value;
    forall a, b :: 0 <= a < b < |t.rows| ==> t.rows[a][iso] != t.rows[b][iso]
  }

  /**
   * With unique ISO2 codes the join adds no row, so an upload yields at most one classified point
   * per survey row.
   */
  lemma ProcessedRowsBound(raw: FrameData, country: FrameData, year: int)
    requires raw.Rectangular() && country.Rectangular()
    requires UniqueIso(StandardiseCountry(country).table)
    requires Process(raw, country, year).Ok?
    ensures |Process(raw, country, year).value.points| <= |raw.rows|
  {
    StandardisedLengthOfUnique(raw, country);
  }

  /** With unique ISO2 codes standardiseColumn returns exactly one row per survey row. */
  lemma StandardisedLengthOfUnique(raw: FrameData, country: FrameData)
    requires raw.Rectangular() && country.Rectangular()
    requires UniqueIso(StandardiseCountry(country).table)
    requires Standardised(raw, country).Ok?
    ensures |Standardised(raw, country).value.rows| == |raw.rows|
  {
    var t := StandardiseCountry(country).table;
    StandardisedRows(raw, country);
    var iso, name := ColumnIndex(t.columns, "ISO2").value, ColumnIndex(t.columns, "Country").value;
    UniqueIsoEntries(t, name);
    var key := ColumnIndex(RawColumns(raw.columns), "ISO2").value;
    LeftJoinLengthOfUnique(raw.rows, key, Entries(t.rows, iso, name));
  }

  lemma UniqueIsoEntries(t: FrameData, name: nat)
    requires t.Rectangular() && UniqueIso(t) && name < |t.columns|
    ensures UniqueCodes(Entries(t.rows, ColumnIndex(t.columns, "ISO2").value, name))
  {
  }
}
