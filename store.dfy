/**
 * The dashboard's store of uploads (the module globals DF1 and DF2 of src/app.py) and the
 * duplicate-guarded append `update_storage1` performs on it.
 */
module Storage {
  import opened Wrappers
  import opened Table
  import opened Classifier
  import opened Aggregator
  import opened Standardise
  import opened Pipeline
  import opened CountryYear
  import opened Dashboard

  /** The two tables an accepted upload adds: its keyed points and its keyed summary rows. */
  datatype Batch = Batch(points: seq<StoredPoint>, summaries: seq<StoredSummary>)

  /**
   * The tables a processed upload contributes, each keyed by countryYear (src/app.py:448-450). An
   * upload with no complete point is refused, since its first key (`iloc[0]`, src/app.py:453)
   * does not exist.
   */
  function BatchOf(processed: Result<Processed, FrameError>): (r: Result<Batch, UploadError>)
    ensures r.Ok? ==> r.value.points != []
    ensures processed.Err? ==> r == Err(Frame(processed.error))
    ensures processed.Ok? ==> (r.Ok? <==> CountryYearPoints(processed.value.points) != [])
    ensures r.Ok? ==>
      r.value.points == CountryYearPoints(processed.value.points)
      && r.value.summaries == CountryYearSummary(processed.value.summary)
  {
    match processed
    case Err(e) => Err(Frame(e))
    case Ok(p) =>
      var points := CountryYearPoints(p.points);
      if points == [] then Err(NoPoints) else Ok(Batch(points, CountryYearSummary(p.summary)))
  }

  /** What one upload contributes (src/app.py:445-450): the year from the file name, then the processed tables. */
  function Upload(raw: FrameData, country: FrameData, filename: string): (r: Result<Batch, UploadError>)
    requires raw.Rectangular() && country.Rectangular()
    ensures r.Ok? ==> r.value.points != []
    ensures ParseYear(filename).Err? ==> r == Err(ParseYear(filename).error)
    ensures ParseYear(filename).Ok? ==> r == BatchOf(Process(raw, country, ParseYear(filename).value))
  {
    var year :- ParseYear(filename);
    BatchOf(Process(raw, country, year))
  }

  /**
   * The batch of processed points that share a country and a year is one countryYear: all its
   * points carry the first point's key, and its summary is one row under that same key, whose
   * Total counts every classified point.
   */
  lemma BatchIsOneKey(p: Processed, year: int)
    requires forall i :: 0 <= i < |p.points| ==> p.points[i].year == year && p.points[i].country == p.points[0].country
    requires p.summary == CreateSummarisedTable(p.points, year)
    requires BatchOf(Ok(p)).Ok?
    ensures var b := BatchOf(Ok(p)).value;
      && (forall i :: 0 <= i < |b.points| ==> b.points[i].key == b.points[0].key)
      && |b.summaries| == 1 && b.summaries[0].key == b.points[0].key
      && b.summaries[0].row.total == |p.points|
  {
    UniformKey(p.points, year, p.points[0].country);
    UniformSummary(p.points, year);
    SummaryRowContents(p.points, year, 0);
  }

  /** An accepted upload is one countryYear (BatchIsOneKey), since processing keeps one country and one year. */
  lemma UploadIsOneKey(raw: FrameData, country: FrameData, filename: string)
    requires raw.Rectangular() && country.Rectangular()
    requires Upload(raw, country, filename).Ok?
    ensures var b := Upload(raw, country, filename).value;
      && b.points != []
      && (forall i :: 0 <= i < |b.points| ==> b.points[i].key == b.points[0].key)
      && |b.summaries| == 1 && b.summaries[0].key == b.points[0].key
      && b.summaries[0].row.total == |Process(raw, country, ParseYear(filename).value).value.points|
  {
    var year := ParseYear(filename).value;
    ProcessedUniform(raw, country, year);
    BatchIsOneKey(Process(raw, country, year).value, year);
  }

  /** The countryYear keys of stored points. */
  function Keys(points: seq<StoredPoint>): (r: set<string>)
    ensures forall key :: key in r <==> exists p :: p in points && p.key == key
  {
    set p | p in points :: p.key
  }

  /**
   * The answer `update_storage1` gives an upload, given the points already stored: the upload's
   * own error, else a duplicate when its countryYear is already stored, else none.
   */
  function Outcome(stored: seq<StoredPoint>, u: Result<Batch, UploadError>): (r: Option<UploadError>)
    requires u.Ok? ==> u.value.points != []
    ensures u.Err? ==> r == Some(u.error)
    ensures u.Ok? ==> (r.None? <==> u.value.points[0].key !in Keys(stored))
    ensures u.Ok? && r.Some? ==> r == Some(Duplicate(u.value.points[0].key))
  {
    match u
    case Err(e) => Some(e)
    case Ok(b) => if b.points[0].key in Keys(stored) then Some(Duplicate(b.points[0].key)) else None
  }

  /** DF1 after the upload: the old points and the upload's, sorted by countryYear, when accepted. */
  function PointsAfter(stored: seq<StoredPoint>, u: Result<Batch, UploadError>): (r: seq<StoredPoint>)
    requires u.Ok? ==> u.value.points != []
    ensures Outcome(stored, u).Some? ==> r == stored
    ensures Outcome(stored, u).None? ==> SortedBy(r, PointKey) && multiset(r) == multiset(stored) + multiset(u.value.points)
  {
    if Outcome(stored, u).None? then SortBy(stored + u.value.points, PointKey) else stored
  }

  /** DF2 after the upload: the old summary rows and the upload's, sorted by countryYear, when accepted. */
  function SummariesAfter(stored: seq<StoredPoint>, summaries: seq<StoredSummary>, u: Result<Batch, UploadError>): (r: seq<StoredSummary>)
    requires u.Ok? ==> u.value.points != []
    ensures Outcome(stored, u).Some? ==> r == summaries
    ensures Outcome(stored, u).None? ==> SortedBy(r, SummaryKey) && multiset(r) == multiset(summaries) + multiset(u.value.summaries)
  {
    if Outcome(stored, u).None? then SortBy(summaries + u.value.summaries, SummaryKey) else summaries
  }

  class Store {
    /** DF1: the classified points of every accepted upload. */
    var points: seq<StoredPoint>
    /** DF2: the summary rows of every accepted upload. */
    var summaries: seq<StoredSummary>

    constructor (points0: seq<StoredPoint>, summaries0: seq<StoredSummary>)
      ensures points == points0 && summaries == summaries0
    {
      points, summaries := points0, summaries0;
    }

    /**
     * The duplicate check and the append of `update_storage1` (src/app.py:452-457): a refused
     * batch leaves both tables as they were; an accepted one is appended to both, each then sorted
     * by countryYear.
     */
    method Append(batch: Result<Batch, UploadError>) returns (err: Option<UploadError>)
      requires batch.Ok? ==> batch.value.points != []
      modifies this
      ensures err == Outcome(old(points), batch)
      ensures points == PointsAfter(old(points), batch)
      ensures summaries == SummariesAfter(old(points), old(summaries), batch)
    {
      err := Outcome(points, batch);
      if err.None? {
        points := SortBy(points + batch.value.points, PointKey);
        summaries := SortBy(summaries + batch.value.summaries, SummaryKey);
      }
    }

    /**
     * `update_storage1` (src/app.py:438-457). With no upload nothing changes. Otherwise the
     * country table is standardised in place once the year is read, whatever happens next; the
     * answer is the upload's Outcome; the store changes only for an accepted upload, which is
     * appended to both tables, each then sorted by countryYear.
     */
    method UpdateStorage(upload: Option<FrameData>, filename: string, country: DataFrame) returns (err: Option<UploadError>)
      requires upload.Some? ==> upload.value.Rectangular()
      requires country.Data().Rectangular()
      modifies this, country
      ensures upload.None? ==>
        err.None? && points == old(points) && summaries == old(summaries) && country.Data() == old(country.Data())
      ensures upload.Some? && ParseYear(filename).Ok? ==> country.Data() == StandardiseCountry(old(country.Data())).table
      ensures upload.Some? && ParseYear(filename).Err? ==> country.Data() == old(country.Data())
      ensures upload.Some? ==> err == Outcome(old(points), Upload(upload.value, old(country.Data()), filename))
      ensures upload.Some? ==> points == PointsAfter(old(points), Upload(upload.value, old(country.Data()), filename))
      ensures upload.Some? ==>
        summaries == SummariesAfter(old(points), old(summaries), Upload(upload.value, old(country.Data()), filename))
    {
      if upload.None? {
        return None;
      }
      var year := ParseYear(filename);
      if year.Err? {
        return Some(year.error);
      }
      var raw := new DataFrame.Of(upload.value);
      var processed := ProcessLucasData(raw, country, year.value);
      err := Append(BatchOf(processed));
    }
  }

  /**
   * After an accepted upload (PointsAfter when the Outcome is none) the points under the upload's
   * key are exactly the upload's, since the duplicate guard means no earlier upload shares it, and
   * the stored keys grow by that one key.
   */
  lemma AcceptedUpload(old_: seq<StoredPoint>, b: Batch)
    requires b.points != [] && b.points[0].key !in Keys(old_)
    requires forall i :: 0 <= i < |b.points| ==> b.points[i].key == b.points[0].key
    ensures var stored := SortBy(old_ + b.points, PointKey);
      && (forall p :: p in stored && p.key == b.points[0].key <==> p in b.points)
      && Keys(stored) == Keys(old_) + {b.points[0].key}
  {
    var stored := SortBy(old_ + b.points, PointKey);
    forall p ensures p in stored <==> p in old_ || p in b.points {
      assert p in stored <==> p in multiset(stored);
    }
    assert b.points[0] in stored;
  }
}
