/**
 * The aggregator: `createBinaryClassColumn`, `createFrequencyTable`, `createPercentageTable` and
 * `createSummarisedTable`. The classified table gets one 0/1 indicator column per class; the
 * indicators are summed per country; the counts become percentages of the row sum; counts,
 * percentages, the year and a Total are merged into one summary row per country.
 */
module Aggregator {
  import opened Wrappers
  import opened Classifier

  /** A row of the classified table together with the indicator columns added so far. */
  datatype BinaryRow = BinaryRow(point: ClassifiedPoint, columns: map<LandClass, nat>)

  /** The classified table before any indicator column is added. */
  function NoColumns(t: seq<ClassifiedPoint>): (r: seq<BinaryRow>)
    ensures |r| == |t|
    ensures forall i :: 0 <= i < |r| ==> r[i] == BinaryRow(t[i], map[])
  {
    seq(|t|, i requires 0 <= i < |t| => BinaryRow(t[i], map[]))
  }

  /** The indicator a row gets in column k: 1 when its CLASS label equals k's label. */
  function IndicatorValue(cls: LandClass, k: LandClass): (v: nat)
    ensures v == 1 <==> cls == k
    ensures v == 0 <==> cls != k
  {
    if Label(cls) == Label(k) then 1 else (assert Label(cls)[0] != Label(k)[0]; 0)
  }

  /** One row with column k added (or overwritten) by its indicator. */
  function WithIndicator(row: BinaryRow, k: LandClass): (r: BinaryRow)
    ensures r.point == row.point && r.columns == row.columns[k := if row.point.cls == k then 1 else 0]
  {
    BinaryRow(row.point, row.columns[k := IndicatorValue(row.point.cls, k)])
  }

  /** `createBinaryClassColumn`: a copy of the table with column k added (or overwritten). */
  function CreateBinaryClassColumn(t: seq<BinaryRow>, k: LandClass): (r: seq<BinaryRow>)
    ensures |r| == |t|
    ensures forall i :: 0 <= i < |r| ==>
      r[i].point == t[i].point && r[i].columns == t[i].columns[k := if t[i].point.cls == k then 1 else 0]
  {
    seq(|t|, i requires 0 <= i < |t| => WithIndicator(t[i], k))
  }

  /** The loop that threads the table through createBinaryClassColumn once per class. */
  function AddClassColumns(t: seq<BinaryRow>, classes: seq<LandClass>): seq<BinaryRow>
    decreases |classes|
  {
    if classes == [] then t else AddClassColumns(CreateBinaryClassColumn(t, classes[0]), classes[1..])
  }

  /**
   * Each pass of the loop sets one class's indicator: afterwards every listed class has its
   * indicator, every other column is as it was, and no other column appears.
   */
  lemma {:induction false} AddClassColumnsAdds(t: seq<BinaryRow>, classes: seq<LandClass>)
    ensures |AddClassColumns(t, classes)| == |t|
    ensures forall i :: 0 <= i < |t| ==> AddClassColumns(t, classes)[i].point == t[i].point
    ensures forall i, k :: 0 <= i < |t| && k in classes ==>
      k in AddClassColumns(t, classes)[i].columns
      && AddClassColumns(t, classes)[i].columns[k] == (if t[i].point.cls == k then 1 else 0)
    ensures forall i, k :: 0 <= i < |t| && k !in classes && k in t[i].columns ==>
      k in AddClassColumns(t, classes)[i].columns && AddClassColumns(t, classes)[i].columns[k] == t[i].columns[k]
    ensures forall i, k :: 0 <= i < |t| && k in AddClassColumns(t, classes)[i].columns ==>
      k in classes || k in t[i].columns
    decreases |classes|
  {
    if classes != [] {
      var t1 := CreateBinaryClassColumn(t, classes[0]);
      AddClassColumnsAdds(t1, classes[1..]);
      var r := AddClassColumns(t, classes);
      assert forall k :: k in classes <==> k == classes[0] || k in classes[1..] by {
        assert classes == [classes[0]] + classes[1..];
      }
      forall i, k | 0 <= i < |t| && k in classes
        ensures k in r[i].columns && r[i].columns[k] == (if t[i].point.cls == k then 1 else 0)
      {
        assert t1[i].point == t[i].point;
        if k !in classes[1..] {
          assert k == classes[0] && k in t1[i].columns;
        }
      }
    }
  }

  /** Every class is one of the five column labels. */
  lemma AllClassesListed(k: LandClass)
    ensures k in CLASS_ORDER
  {
    match k
    case Livestock => assert CLASS_ORDER[0] == k;
    case Arable => assert CLASS_ORDER[1] == k;
    case Forest => assert CLASS_ORDER[2] == k;
    case Shrubland => assert CLASS_ORDER[3] == k;
    case Grassland => assert CLASS_ORDER[4] == k;
  }

  /** Starting from no columns, the five passes give every row exactly the five indicators. */
  lemma FiveIndicators(t: seq<ClassifiedPoint>)
    ensures |AddClassColumns(NoColumns(t), CLASS_ORDER)| == |t|
    ensures forall i :: 0 <= i < |t| ==> AddClassColumns(NoColumns(t), CLASS_ORDER)[i].point == t[i]
    ensures forall i, k :: 0 <= i < |t| ==>
      k in AddClassColumns(NoColumns(t), CLASS_ORDER)[i].columns
      && AddClassColumns(NoColumns(t), CLASS_ORDER)[i].columns[k] == (if t[i].cls == k then 1 else 0)
  {
    var empty := NoColumns(t);
    var r := AddClassColumns(empty, CLASS_ORDER);
    AddClassColumnsAdds(empty, CLASS_ORDER);
    forall i, k | 0 <= i < |t| ensures k in r[i].columns && r[i].columns[k] == (if t[i].cls == k then 1 else 0) {
      AllClassesListed(k);
      assert empty[i].point == t[i];
    }
  }

  /**
   * Lines 177-178: the classified table with the five indicator columns, each 1 exactly on the
   * rows of its own class and 0 elsewhere.
   */
  function BinaryColumns(t: seq<ClassifiedPoint>): (r: seq<BinaryRow>)
    ensures |r| == |t|
    ensures forall i :: 0 <= i < |r| ==> r[i].point == t[i]
    ensures forall i, k :: 0 <= i < |r| ==> k in r[i].columns && r[i].columns[k] == (if t[i].cls == k then 1 else 0)
  {
    FiveIndicators(t);
    AddClassColumns(NoColumns(t), CLASS_ORDER)
  }

  /** The five counts (or the five percentages) of one country, one per class. */
  datatype Tally = Tally(livestock: nat, arable: nat, forest: nat, shrubland: nat, grassland: nat) {
    function Get(k: LandClass): nat {
      match k
      case Livestock => livestock
      case Arable => arable
      case Forest => forest
      case Shrubland => shrubland
      case Grassland => grassland
    }

    /** The row sum over the five class columns (`sum(axis=1)`). */
    function Sum(): nat {
      livestock + arable + forest + shrubland + grassland
    }
  }

  /** The five percentages of one country. */
  datatype Shares = Shares(livestock: real, arable: real, forest: real, shrubland: real, grassland: real) {
    function Get(k: LandClass): real {
      match k
      case Livestock => livestock
      case Arable => arable
      case Forest => forest
      case Shrubland => shrubland
      case Grassland => grassland
    }

    function Sum(): real {
      livestock + arable + forest + shrubland + grassland
    }
  }

  /**
   * The groups `groupby('Country')` forms: each present Country value once, in order of first
   * appearance; a missing Country forms no group.
   */
  function Countries(keys: seq<Option<string>>): (r: seq<string>)
    ensures forall i, j :: 0 <= i < j < |r| ==> r[i] != r[j]
    ensures forall c :: c in r <==> Some(c) in keys
    decreases |keys|
  {
    if keys == [] then []
    else
      var prev := Countries(keys[..|keys| - 1]);
      var last := keys[|keys| - 1];
      assert keys == keys[..|keys| - 1] + [last];
      if last.Some? && last.value !in prev then prev + [last.value] else prev
  }

  /** The sum of indicator column k over the rows of country c (`groupby(...).sum()`). */
  function ColumnSum(t: seq<BinaryRow>, c: string, k: LandClass): nat
    requires forall i :: 0 <= i < |t| ==> k in t[i].columns
    decreases |t|
  {
    if t == [] then 0
    else (if t[0].point.country == Some(c) then t[0].columns[k] else 0) + ColumnSum(t[1..], c, k)
  }

  /** A row of the frequency table: a country and its five class counts. */
  datatype FrequencyRow = FrequencyRow(country: string, counts: Tally)

  /** All five indicator columns are present on every row. */
  predicate HasClassColumns(t: seq<BinaryRow>) {
    forall i, k :: 0 <= i < |t| ==> k in t[i].columns
  }

  function GroupCounts(t: seq<BinaryRow>, c: string): Tally
    requires HasClassColumns(t)
  {
    Tally(ColumnSum(t, c, Livestock), ColumnSum(t, c, Arable), ColumnSum(t, c, Forest),
          ColumnSum(t, c, Shrubland), ColumnSum(t, c, Grassland))
  }

  /** The Country column of the table. */
  function CountryKeys(t: seq<BinaryRow>): (r: seq<Option<string>>)
    ensures |r| == |t|
    ensures forall i :: 0 <= i < |r| ==> r[i] == t[i].point.country
  {
    seq(|t|, i requires 0 <= i < |t| => t[i].point.country)
  }

  /** `createFrequencyTable`: one row per country group, holding the column sums of its rows. */
  function CreateFrequencyTable(t: seq<BinaryRow>): (r: seq<FrequencyRow>)
    requires HasClassColumns(t)
    ensures forall i, j :: 0 <= i < j < |r| ==> r[i].country != r[j].country
    ensures forall i :: 0 <= i < |r| ==> r[i].counts == GroupCounts(t, r[i].country)
  {
    var cs := Countries(CountryKeys(t));
    seq(|cs|, i requires 0 <= i < |cs| => FrequencyRow(cs[i], GroupCounts(t, cs[i])))
  }

  /** The frequency table has a row for every country present in the table, and for no other. */
  lemma FrequencyTableCountries(t: seq<BinaryRow>)
    requires HasClassColumns(t)
    ensures var r := CreateFrequencyTable(t);
      && (forall i :: 0 <= i < |r| ==> exists j :: 0 <= j < |t| && t[j].point.country == Some(r[i].country))
      && (forall j :: 0 <= j < |t| && t[j].point.country.Some? ==>
            exists i :: 0 <= i < |r| && r[i].country == t[j].point.country.value)
  {
    var keys := CountryKeys(t);
    var cs := Countries(keys);
    var r := CreateFrequencyTable(t);
    forall i | 0 <= i < |r| ensures exists j :: 0 <= j < |t| && t[j].point.country == Some(r[i].country) {
      assert r[i].country == cs[i] && cs[i] in cs;
      var j :| 0 <= j < |keys| && keys[j] == Some(cs[i]);
      assert t[j].point.country == Some(r[i].country);
    }
    forall j | 0 <= j < |t| && t[j].point.country.Some?
      ensures exists i :: 0 <= i < |r| && r[i].country == t[j].point.country.value
    {
      assert keys[j] in keys;
      var i :| 0 <= i < |cs| && cs[i] == keys[j].value;
      assert r[i].country == t[j].point.country.value;
    }
  }

  /** Reference count: the classified rows of country c with class k. */
  function CountOf(t: seq<ClassifiedPoint>, c: string, k: LandClass): nat
    decreases |t|
  {
    if t == [] then 0 else (if t[0].country == Some(c) && t[0].cls == k then 1 else 0) + CountOf(t[1..], c, k)
  }

  /** Reference count: the classified rows of country c. */
  function RowsOf(t: seq<ClassifiedPoint>, c: string): nat
    decreases |t|
  {
    if t == [] then 0 else (if t[0].country == Some(c) then 1 else 0) + RowsOf(t[1..], c)
  }

  /** Summing an indicator column over a country counts that country's rows of class k. */
  lemma {:induction false} ColumnSumCounts(rows: seq<BinaryRow>, t: seq<ClassifiedPoint>, c: string, k: LandClass)
    requires |rows| == |t|
    requires forall i :: 0 <= i < |rows| ==>
      rows[i].point == t[i] && k in rows[i].columns && rows[i].columns[k] == (if t[i].cls == k then 1 else 0)
    ensures ColumnSum(rows, c, k) == CountOf(t, c, k)
    decreases |t|
  {
    if t != [] {
      ColumnSumCounts(rows[1..], t[1..], c, k);
    }
  }

  /** Every row is counted in exactly one class: the five counts add up to the country's row count. */
  lemma {:induction false} ClassCountsAddUp(t: seq<ClassifiedPoint>, c: string)
    ensures CountOf(t, c, Livestock) + CountOf(t, c, Arable) + CountOf(t, c, Forest)
      + CountOf(t, c, Shrubland) + CountOf(t, c, Grassland) == RowsOf(t, c)
    decreases |t|
  {
    if t != [] {
      ClassCountsAddUp(t[1..], c);
    }
  }

  /** Each indicator column, summed over a country, counts that country's rows of the class. */
  lemma ColumnSumsCount(t: seq<ClassifiedPoint>, c: string)
    ensures HasClassColumns(BinaryColumns(t))
    ensures forall k :: ColumnSum(BinaryColumns(t), c, k) == CountOf(t, c, k)
  {
    var rows := BinaryColumns(t);
    forall k ensures ColumnSum(rows, c, k) == CountOf(t, c, k) {
      ColumnSumCounts(rows, t, c, k);
    }
  }

  /** The frequency table of the classified table: each count is the country's number of rows of that class. */
  lemma FrequencyCounts(t: seq<ClassifiedPoint>, c: string)
    ensures HasClassColumns(BinaryColumns(t))
    ensures GroupCounts(BinaryColumns(t), c)
      == Tally(CountOf(t, c, Livestock), CountOf(t, c, Arable), CountOf(t, c, Forest), CountOf(t, c, Shrubland), CountOf(t, c, Grassland))
    ensures GroupCounts(BinaryColumns(t), c).Sum() == RowsOf(t, c)
  {
    ColumnSumsCount(t, c);
    ClassCountsAddUp(t, c);
  }

  /**
   * One percentage: count / row sum * 100, and 0 where the row sum is 0 (0/0 is NaN, which
   * `fillna(0)` replaces). Exact reals: the rounding to one decimal is not modelled.
   */
  function Percent(count: nat, total: nat): (p: real)
    ensures total == 0 ==> p == 0.0
    ensures count <= total ==> 0.0 <= p <= 100.0
  {
    if total == 0 then 0.0 else (count as real / total as real) * 100.0
  }

  /** The five percentages of a row of counts. */
  function SharesOf(counts: Tally): (s: Shares)
    ensures forall k :: s.Get(k) == Percent(counts.Get(k), counts.Sum())
  {
    var total := counts.Sum();
    Shares(Percent(counts.livestock, total), Percent(counts.arable, total), Percent(counts.forest, total),
           Percent(counts.shrubland, total), Percent(counts.grassland, total))
  }

  /** Percentages of one row sum add like the counts they come from. */
  lemma PercentAdd(x: nat, y: nat, total: nat)
    requires 0 < total
    ensures Percent(x, total) + Percent(y, total) == Percent(x + y, total)
  {
    var m := total as real;
    assert (x as real / m) + (y as real / m) == (x + y) as real / m;
  }

  /** The five percentages of a row with a positive sum add up to 100. */
  lemma PercentsAddUp(c: Tally)
    requires c.Sum() > 0
    ensures Percent(c.livestock, c.Sum()) + Percent(c.arable, c.Sum()) + Percent(c.forest, c.Sum())
      + Percent(c.shrubland, c.Sum()) + Percent(c.grassland, c.Sum()) == 100.0
  {
    var total := c.Sum();
    PercentAdd(c.livestock, c.arable, total);
    PercentAdd(c.livestock + c.arable, c.forest, total);
    PercentAdd(c.livestock + c.arable + c.forest, c.shrubland, total);
    PercentAdd(c.livestock + c.arable + c.forest + c.shrubland, c.grassland, total);
    assert Percent(total, total) == 100.0;
  }

  /** Shares given class by class are the row's SharesOf. */
  lemma SharesAreSharesOf(counts: Tally, s: Shares)
    requires forall k :: s.Get(k) == Percent(counts.Get(k), counts.Sum())
    ensures s == SharesOf(counts)
  {
    assert s.Get(Livestock) == s.livestock && s.Get(Arable) == s.arable && s.Get(Forest) == s.forest;
    assert s.Get(Shrubland) == s.shrubland && s.Get(Grassland) == s.grassland;
  }

  /** The percentages lie in [0, 100]; they sum to 100 when there is a row, and are all 0 otherwise. */
  lemma SharesBounds(counts: Tally, s: Shares)
    requires forall k :: s.Get(k) == Percent(counts.Get(k), counts.Sum())
    ensures forall k :: 0.0 <= s.Get(k) <= 100.0
    ensures counts.Sum() > 0 ==> s.Sum() == 100.0
    ensures counts.Sum() == 0 ==> forall k :: s.Get(k) == 0.0
  {
    forall k ensures 0.0 <= s.Get(k) <= 100.0 {
      assert counts.Get(k) <= counts.Sum();
    }
    if counts.Sum() > 0 {
      SharesAreSharesOf(counts, s);
      PercentsAddUp(counts);
    }
  }

  /** A row of the percentage table. */
  datatype PercentageRow = PercentageRow(country: string, shares: Shares)

  /** `createPercentageTable`: each row of counts divided by its row sum, times 100. */
  function CreatePercentageTable(freq: seq<FrequencyRow>): (r: seq<PercentageRow>)
    ensures |r| == |freq|
    ensures forall i :: 0 <= i < |r| ==> r[i].country == freq[i].country
    ensures forall i, k :: 0 <= i < |r| ==> r[i].shares.Get(k) == Percent(freq[i].counts.Get(k), freq[i].counts.Sum())
  {
    seq(|freq|, i requires 0 <= i < |freq| => PercentageRow(freq[i].country, SharesOf(freq[i].counts)))
  }

  /** The header of the percentage table: every column but Country gets the suffix " %". */
  function PercentColumnName(x: string): string {
    if x != "Country" then x + " %" else x
  }

  /** A row of the summarised table. */
  datatype SummaryRow = SummaryRow(country: string, year: int, counts: Tally, shares: Shares, total: nat)

  /** The percentage rows whose Country is c, in order. */
  function SharesFor(pct: seq<PercentageRow>, c: string): seq<PercentageRow>
    decreases |pct|
  {
    if pct == [] then []
    else (if pct[0].country == c then [pct[0]] else []) + SharesFor(pct[1..], c)
  }

  /** `pd.merge(frequencyDF, percentageDF, on='Country')`: an inner join, then Year and Total. */
  function MergeOnCountry(freq: seq<FrequencyRow>, pct: seq<PercentageRow>, year: int): (r: seq<SummaryRow>)
    ensures forall i :: 0 <= i < |r| ==> r[i].year == year && r[i].total == r[i].counts.Sum()
    decreases |freq|
  {
    if freq == [] then []
    else
      var f := freq[0];
      var matches := SharesFor(pct, f.country);
      seq(|matches|, i requires 0 <= i < |matches| => SummaryRow(f.country, year, f.counts, matches[i].shares, f.counts.Sum()))
        + MergeOnCountry(freq[1..], pct, year)
  }

  /** A key that occurs once among distinct keys matches exactly one row. */
  lemma {:induction false} SharesForUnique(pct: seq<PercentageRow>, j: int)
    requires 0 <= j < |pct|
    requires forall a, b :: 0 <= a < b < |pct| ==> pct[a].country != pct[b].country
    ensures SharesFor(pct, pct[j].country) == [pct[j]]
    decreases |pct|
  {
    if j == 0 {
      SharesForAbsent(pct[1..], pct[0].country);
    } else {
      SharesForUnique(pct[1..], j - 1);
    }
  }

  lemma {:induction false} SharesForAbsent(pct: seq<PercentageRow>, c: string)
    requires forall i :: 0 <= i < |pct| ==> pct[i].country != c
    ensures SharesFor(pct, c) == []
    decreases |pct|
  {
    if pct != [] {
      SharesForAbsent(pct[1..], c);
    }
  }

  /** Row i of the counts paired with row i of the percentages, with the year and the Total. */
  function Paired(freq: seq<FrequencyRow>, pct: seq<PercentageRow>, year: int): (r: seq<SummaryRow>)
    requires |pct| == |freq|
    ensures |r| == |freq|
    ensures forall i :: 0 <= i < |r| ==>
      r[i] == SummaryRow(freq[i].country, year, freq[i].counts, pct[i].shares, freq[i].counts.Sum())
  {
    seq(|freq|, i requires 0 <= i < |freq| =>
      SummaryRow(freq[i].country, year, freq[i].counts, pct[i].shares, freq[i].counts.Sum()))
  }

  /** A frequency row with exactly one partner contributes one merged row, ahead of the rest. */
  lemma MergeStep(freq: seq<FrequencyRow>, pct: seq<PercentageRow>, year: int, p: PercentageRow)
    requires freq != [] && SharesFor(pct, freq[0].country) == [p]
    ensures MergeOnCountry(freq, pct, year)
      == [SummaryRow(freq[0].country, year, freq[0].counts, p.shares, freq[0].counts.Sum())] + MergeOnCountry(freq[1..], pct, year)
  {
  }

  /** When every frequency row has exactly one partner, the merge pairs each row with its partner. */
  lemma {:induction false} MergeIsPointwise(freq: seq<FrequencyRow>, partners: seq<PercentageRow>, pct: seq<PercentageRow>, year: int)
    requires |partners| == |freq|
    requires forall i :: 0 <= i < |freq| ==> SharesFor(pct, freq[i].country) == [partners[i]]
    ensures MergeOnCountry(freq, pct, year) == Paired(freq, partners, year)
    decreases |freq|
  {
    if freq != [] {
      var paired := Paired(freq, partners, year);
      var rest := MergeOnCountry(freq[1..], pct, year);
      assert MergeOnCountry(freq, pct, year) == [paired[0]] + rest by {
        MergeStep(freq, pct, year, partners[0]);
      }
      assert rest == Paired(freq[1..], partners[1..], year) by {
        forall i | 0 <= i < |freq[1..]| ensures SharesFor(pct, freq[1..][i].country) == [partners[1..][i]] {
          assert freq[1..][i] == freq[i + 1] && partners[1..][i] == partners[i + 1];
        }
        MergeIsPointwise(freq[1..], partners[1..], pct, year);
      }
      PairedCons(freq, partners, year);
    }
  }

  /** The pairing of a non-empty table is its first pair ahead of the pairing of the rest. */
  lemma PairedCons(freq: seq<FrequencyRow>, partners: seq<PercentageRow>, year: int)
    requires |partners| == |freq| && freq != []
    ensures Paired(freq, partners, year) == [Paired(freq, partners, year)[0]] + Paired(freq[1..], partners[1..], year)
  {
    var p, q := Paired(freq, partners, year), Paired(freq[1..], partners[1..], year);
    forall i | 1 <= i < |p| ensures p[i] == q[i - 1] {
      assert freq[1..][i - 1] == freq[i] && partners[1..][i - 1] == partners[i];
    }
  }

  /** Merging two tables keyed alike, on distinct keys, pairs row i with row i. */
  lemma MergeAligned(freq: seq<FrequencyRow>, pct: seq<PercentageRow>, year: int)
    requires forall a, b :: 0 <= a < b < |freq| ==> freq[a].country != freq[b].country
    requires |pct| == |freq| && forall i :: 0 <= i < |pct| ==> pct[i].country == freq[i].country
    ensures var s := MergeOnCountry(freq, pct, year);
      && |s| == |freq|
      && forall i :: 0 <= i < |s| ==>
        s[i] == SummaryRow(freq[i].country, year, freq[i].counts, pct[i].shares, freq[i].counts.Sum())
  {
    assert forall a, b :: 0 <= a < b < |pct| ==> pct[a].country != pct[b].country by {
      forall a, b | 0 <= a < b < |pct| ensures pct[a].country != pct[b].country {
        assert pct[a].country == freq[a].country && pct[b].country == freq[b].country;
      }
    }
    forall i | 0 <= i < |freq| ensures SharesFor(pct, freq[i].country) == [pct[i]] {
      SharesForUnique(pct, i);
    }
    MergeIsPointwise(freq, pct, pct, year);
  }

  /**
   * `createSummarisedTable`: indicator columns, frequency table, percentage table, merged on
   * Country, with Year inserted and Total the sum of the five counts.
   */
  function CreateSummarisedTable(t: seq<ClassifiedPoint>, year: int): seq<SummaryRow> {
    var binary := BinaryColumns(t);
    var freq := CreateFrequencyTable(binary);
    var pct := CreatePercentageTable(freq);
    MergeOnCountry(freq, pct, year)
  }

  /** The merge pairs each frequency row with the percentage row of the same country. */
  lemma SummaryMatchesFrequency(t: seq<ClassifiedPoint>, year: int)
    ensures HasClassColumns(BinaryColumns(t))
    ensures var freq := CreateFrequencyTable(BinaryColumns(t));
      var s := CreateSummarisedTable(t, year);
      && |s| == |freq|
      && (forall i :: 0 <= i < |s| ==>
        && s[i].country == freq[i].country && s[i].year == year
        && s[i].counts == freq[i].counts && s[i].total == freq[i].counts.Sum())
      && (forall i, k :: 0 <= i < |s| ==> s[i].shares.Get(k) == Percent(s[i].counts.Get(k), s[i].total))
  {
    var freq := CreateFrequencyTable(BinaryColumns(t));
    var pct := CreatePercentageTable(freq);
    assert CreateSummarisedTable(t, year) == MergeOnCountry(freq, pct, year);
    MergeAligned(freq, pct, year);
  }

  /** The summary rows follow the frequency rows: same country, counts and Total. */
  lemma SummaryKeys(t: seq<ClassifiedPoint>, year: int)
    ensures HasClassColumns(BinaryColumns(t))
    ensures var freq := CreateFrequencyTable(BinaryColumns(t));
      var s := CreateSummarisedTable(t, year);
      && |s| == |freq|
      && (forall i :: 0 <= i < |s| ==> s[i].country == freq[i].country && s[i].counts == freq[i].counts)
  {
    var freq := CreateFrequencyTable(BinaryColumns(t));
    var pct := CreatePercentageTable(freq);
    assert CreateSummarisedTable(t, year) == MergeOnCountry(freq, pct, year);
    MergeAligned(freq, pct, year);
  }

  /** Each summary row belongs to a country that has a row in the classified table. */
  lemma SummaryCountriesPresent(t: seq<ClassifiedPoint>, year: int)
    ensures var s := CreateSummarisedTable(t, year);
      forall i :: 0 <= i < |s| ==> exists j :: 0 <= j < |t| && t[j].country == Some(s[i].country)
  {
    SummaryKeys(t, year);
    var binary := BinaryColumns(t);
    FrequencyTableCountries(binary);
    var freq := CreateFrequencyTable(binary);
    var s := CreateSummarisedTable(t, year);
    forall i | 0 <= i < |s| ensures exists j :: 0 <= j < |t| && t[j].country == Some(s[i].country) {
      var j :| 0 <= j < |binary| && binary[j].point.country == Some(freq[i].country);
      assert t[j].country == Some(s[i].country);
    }
  }

  /** Every country of the classified table has a summary row; a missing Country has none. */
  lemma SummaryCountriesComplete(t: seq<ClassifiedPoint>, year: int)
    ensures var s := CreateSummarisedTable(t, year);
      forall j :: 0 <= j < |t| && t[j].country.Some? ==> exists i :: 0 <= i < |s| && s[i].country == t[j].country.value
  {
    SummaryKeys(t, year);
    var binary := BinaryColumns(t);
    FrequencyTableCountries(binary);
    var freq := CreateFrequencyTable(binary);
    var s := CreateSummarisedTable(t, year);
    forall j | 0 <= j < |t| && t[j].country.Some? ensures exists i :: 0 <= i < |s| && s[i].country == t[j].country.value {
      assert binary[j].point.country == t[j].country;
      var i :| 0 <= i < |freq| && freq[i].country == t[j].country.value;
      assert s[i].country == t[j].country.value;
    }
  }

  /** The summary has one row per country present in the classified table, and no other row. */
  lemma SummaryCountries(t: seq<ClassifiedPoint>, year: int)
    ensures var s := CreateSummarisedTable(t, year);
      && (forall i, j :: 0 <= i < j < |s| ==> s[i].country != s[j].country)
      && (forall i :: 0 <= i < |s| ==> exists j :: 0 <= j < |t| && t[j].country == Some(s[i].country))
      && (forall j :: 0 <= j < |t| && t[j].country.Some? ==> exists i :: 0 <= i < |s| && s[i].country == t[j].country.value)
  {
    SummaryKeys(t, year);
    SummaryCountriesPresent(t, year);
    SummaryCountriesComplete(t, year);
  }

  /** Each summary row holds the year, the country's count of each class, and a Total equal to its row count. */
  lemma SummaryRowCounts(t: seq<ClassifiedPoint>, year: int, i: int)
    requires 0 <= i < |CreateSummarisedTable(t, year)|
    ensures var r := CreateSummarisedTable(t, year)[i];
      && r.year == year
      && r.counts == Tally(CountOf(t, r.country, Livestock), CountOf(t, r.country, Arable), CountOf(t, r.country, Forest),
                           CountOf(t, r.country, Shrubland), CountOf(t, r.country, Grassland))
      && r.total == r.counts.Sum() == RowsOf(t, r.country) > 0
  {
    SummaryMatchesFrequency(t, year);
    SummaryCountriesPresent(t, year);
    var c := CreateSummarisedTable(t, year)[i].country;
    FrequencyCounts(t, c);
    var j :| 0 <= j < |t| && t[j].country == Some(c);
    RowsOfPositive(t, c, j);
  }

  /**
   * Each summary row holds the year, the country's count of each class, a Total equal to the sum
   * of the counts and to the country's number of classified rows, and percentages in [0, 100]
   * that add up to 100.
   */
  lemma SummaryRowContents(t: seq<ClassifiedPoint>, year: int, i: int)
    requires 0 <= i < |CreateSummarisedTable(t, year)|
    ensures var r := CreateSummarisedTable(t, year)[i];
      && r.year == year
      && (forall k :: r.counts.Get(k) == CountOf(t, r.country, k))
      && r.total == r.counts.Sum() == RowsOf(t, r.country) > 0
      && (forall k :: r.shares.Get(k) == Percent(r.counts.Get(k), r.total))
      && (forall k :: 0.0 <= r.shares.Get(k) <= 100.0)
      && r.shares.Sum() == 100.0
  {
    SummaryRowCounts(t, year, i);
    SummaryRowShares(t, year, i);
    RowContents(CreateSummarisedTable(t, year)[i], t);
  }

  /** The facts of one summary row, separated from how the table was built. */
  lemma RowContents(r: SummaryRow, t: seq<ClassifiedPoint>)
    requires r.counts == Tally(CountOf(t, r.country, Livestock), CountOf(t, r.country, Arable), CountOf(t, r.country, Forest),
                               CountOf(t, r.country, Shrubland), CountOf(t, r.country, Grassland))
    requires r.total == r.counts.Sum() > 0
    requires forall k :: r.shares.Get(k) == Percent(r.counts.Get(k), r.total)
    ensures forall k :: r.counts.Get(k) == CountOf(t, r.country, k)
    ensures forall k :: 0.0 <= r.shares.Get(k) <= 100.0
    ensures r.shares.Sum() == 100.0
  {
    forall k ensures r.counts.Get(k) == CountOf(t, r.country, k) {
    }
    SharesBounds(r.counts, r.shares);
  }

  /** Each summary row's percentages are its counts over its Total. */
  lemma SummaryRowShares(t: seq<ClassifiedPoint>, year: int, i: int)
    requires 0 <= i < |CreateSummarisedTable(t, year)|
    ensures var r := CreateSummarisedTable(t, year)[i];
      forall k :: r.shares.Get(k) == Percent(r.counts.Get(k), r.total)
  {
    SummaryMatchesFrequency(t, year);
  }

  /** A country with a row in the table has a positive row count. */
  lemma {:induction false} RowsOfPositive(t: seq<ClassifiedPoint>, c: string, j: int)
    requires 0 <= j < |t| && t[j].country == Some(c)
    ensures RowsOf(t, c) > 0
    decreases |t|
  {
    if j > 0 {
      RowsOfPositive(t[1..], c, j - 1);
    }
  }

  /** When every row has the same Country, that country's row count is the table's length. */
  lemma {:induction false} RowsOfUniform(t: seq<ClassifiedPoint>, c: string)
    requires forall j :: 0 <= j < |t| ==> t[j].country == Some(c)
    ensures RowsOf(t, c) == |t|
    decreases |t|
  {
    if t != [] {
      RowsOfUniform(t[1..], c);
    }
  }

  /** Distinct keys: the first two rows have different countries. */
  lemma FirstTwoKeysDiffer(s: seq<SummaryRow>)
    requires |s| > 1
    requires forall i, j :: 0 <= i < j < |s| ==> s[i].country != s[j].country
    ensures s[0].country != s[1].country
  {
  }

  /** Keys that all equal one value: the first row's key is that value. */
  lemma FirstKeyPresent(s: seq<SummaryRow>, country: Option<string>)
    requires |s| > 0
    requires forall i :: 0 <= i < |s| ==> Some(s[i].country) == country
    ensures country == Some(s[0].country)
  {
  }

  /** Distinct keys drawn from a table with a single key value: at most one, and one if the table has rows. */
  lemma UniformKeys(s: seq<SummaryRow>, t: seq<ClassifiedPoint>, country: Option<string>)
    requires t != [] && forall j :: 0 <= j < |t| ==> t[j].country == country
    requires forall i, j :: 0 <= i < j < |s| ==> s[i].country != s[j].country
    requires forall i :: 0 <= i < |s| ==> exists j :: 0 <= j < |t| && t[j].country == Some(s[i].country)
    requires forall j :: 0 <= j < |t| && t[j].country.Some? ==> exists i :: 0 <= i < |s| && s[i].country == t[j].country.value
    ensures country.None? ==> s == []
    ensures country.Some? ==> |s| == 1 && s[0].country == country.value
  {
    assert forall i :: 0 <= i < |s| ==> Some(s[i].country) == country;
    if country.Some? {
      assert t[0].country.Some?;
      if |s| > 1 {
        FirstTwoKeysDiffer(s);
        assert false;
      }
    } else if |s| > 0 {
      FirstKeyPresent(s, country);
      assert false;
    }
  }

  /**
   * The table of one upload, where every row carries the same Country: with a missing Country
   * the summary is empty; otherwise it is one row whose Total is the number of classified rows.
   */
  lemma SingleCountrySummary(t: seq<ClassifiedPoint>, year: int, country: Option<string>)
    requires t != [] && forall j :: 0 <= j < |t| ==> t[j].country == country
    ensures country.None? ==> CreateSummarisedTable(t, year) == []
    ensures country.Some? ==>
      (&& |CreateSummarisedTable(t, year)| == 1
       && CreateSummarisedTable(t, year)[0].country == country.value
       && CreateSummarisedTable(t, year)[0].total == |t|)
  {
    SummaryCountries(t, year);
    UniformKeys(CreateSummarisedTable(t, year), t, country);
    if country.Some? {
      RowsOfUniform(t, country.value);
      SummaryRowContents(t, year, 0);
    }
  }
}
