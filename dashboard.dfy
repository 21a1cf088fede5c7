/**
 * The data handling of the Dash app around the pipeline: the year read from an upload's file
 * name, the long-format reshape behind the bar chart, and the point selection behind the map.
 */
module Dashboard {
  import opened Wrappers
  import opened Text
  import opened Table
  import opened Classifier
  import opened Aggregator
  import opened CountryYear

  /** Why an upload is not stored. */
  datatype UploadError =
    | NotCsv                     // parse_contents returns nothing, and unpacking its result fails
    | BadYear(text: string)      // int() of the sliced year raises ValueError
    | Frame(error: FrameError)   // processLucasData raised KeyError or IndexError
    | NoPoints                   // iloc[0] of an upload with no complete point raises IndexError
    | Duplicate(key: string)     // the upload's countryYear is already stored
    | NoRecords                  // reorder_df on records without the percentage columns

  /** `int()` of the sliced year text: the year, or the ValueError that refuses the upload. */
  function YearOf(text: string): (r: Result<int, UploadError>)
    ensures r.Ok? <==> PyInt(text).Some?
    ensures r.Ok? ==> r.value == PyInt(text).value
    ensures r.Err? ==> r == Err(BadYear(text))
  {
    match PyInt(text)
    case Some(year) => Ok(year)
    case None => Err(BadYear(text))
  }

  /**
   * The year branch of parse_contents (src/app.py:33-40): only for a name containing "csv";
   * characters 3 to 6 of a name of 18 characters or more, else the four characters before the
   * last four (fewer when the name is shorter than eight).
   */
  function ParseYear(filename: string): (r: Result<int, UploadError>)
    ensures r == Err(NotCsv) <==> !Contains(filename, "csv")
    ensures r.Err? && r.error.BadYear? ==> Contains(filename, "csv") && PyInt(r.error.text).None?
  {
    if !Contains(filename, "csv") then Err(NotCsv)
    else
      var text := if |filename| >= 18 then PySlice(filename, 3, 7) else PySlice(filename, -8, -4);
      YearOf(text)
  }

  /** Which characters of a CSV file name ParseYear reads the year from. */
  lemma ParseYearReads(filename: string)
    ensures Contains(filename, "csv") && |filename| >= 18 ==> ParseYear(filename) == YearOf(filename[3..7])
    ensures Contains(filename, "csv") && 8 <= |filename| < 18 ==>
      ParseYear(filename) == YearOf(filename[|filename| - 8..|filename| - 4])
    ensures Contains(filename, "csv") && 4 <= |filename| < 8 ==>
      ParseYear(filename) == YearOf(filename[..|filename| - 4])
    ensures Contains(filename, "csv") && |filename| < 4 ==> ParseYear(filename) == YearOf([])
  {
    if |filename| >= 18 {
      assert PySlice(filename, 3, 7) == filename[3..7];
    } else if |filename| >= 8 {
      assert PySlice(filename, -8, -4) == filename[|filename| - 8..|filename| - 4];
    } else if |filename| >= 4 {
      assert PySlice(filename, -8, -4) == filename[..|filename| - 4];
    } else {
      assert PySlice(filename, -8, -4) == [];
    }
  }

  /** A long LUCAS file name: three characters, the year, then anything ending in ".csv". */
  lemma LongNameYear(prefix: string, year: string, rest: string)
    requires |prefix| == 3 && |year| == 4 && AllDigits(year)
    requires |prefix + year + rest + ".csv"| >= 18
    ensures ParseYear(prefix + year + rest + ".csv") == Ok(DigitsValue(year))
  {
    var name := prefix + year + rest + ".csv";
    ContainsInfix(prefix + year + rest + ".", "csv", "");
    assert name == (prefix + year + rest + ".") + "csv" + "";
    assert name[3..7] == (prefix + year)[3..7] == year;
    assert PySlice(name, 3, 7) == year;
    DigitsParse(year);
  }

  /** A short file name: anything, the year, then ".csv". */
  lemma ShortNameYear(stem: string, year: string)
    requires |year| == 4 && AllDigits(year)
    requires |stem + year + ".csv"| < 18
    ensures ParseYear(stem + year + ".csv") == Ok(DigitsValue(year))
  {
    var name := stem + year + ".csv";
    ContainsInfix(stem + year + ".", "csv", "");
    assert name == (stem + year + ".") + "csv" + "";
    assert name[|name| - 8..|name| - 4] == year;
    DigitsParse(year);
  }

  /** A name of 18 characters or more whose characters 3 to 6 are not a number is refused. */
  lemma LongNameWithoutYear()
    ensures ParseYear("LUCAS_survey_2018.csv") == Err(BadYear("AS_s"))
  {
    var name := "LUCAS_survey_2018.csv";
    ContainsInfix("LUCAS_survey_2018.", "csv", "");
    assert name == "LUCAS_survey_2018." + "csv" + "";
    assert PySlice(name, 3, 7) == "AS_s";
    NotAnInteger("AS_s");
  }

  /** Two labels are equal only for the same class. */
  lemma LabelsDistinct(j: LandClass, k: LandClass)
    ensures Label(j) == Label(k) <==> j == k
  {
    if Label(j) == Label(k) {
      assert Label(j)[0] == Label(k)[0];
    }
  }

  /** A record of the long-format table reorder_df returns. */
  datatype ClassRecord = ClassRecord(key: string, cls: string, count: nat, percentage: real)

  /** A record of a melted table: the key, the melted column's name and its value. */
  datatype Melted<V> = Melted(key: string, cls: string, value: V)

  /** The countryYear reorder_df recomputes from Country and Year (src/app.py:64). */
  function RowKey(s: StoredSummary): string {
    Key(s.row.country, s.row.year)
  }

  /** The melted count records of one class, one per row. */
  function CountBlock(rows: seq<StoredSummary>, k: LandClass): (r: seq<Melted<nat>>)
    ensures |r| == |rows|
    ensures forall i :: 0 <= i < |r| ==> r[i] == Melted(RowKey(rows[i]), Label(k), rows[i].row.counts.Get(k))
  {
    seq(|rows|, i requires 0 <= i < |rows| => Melted(RowKey(rows[i]), Label(k), rows[i].row.counts.Get(k)))
  }

  /** The name a percentage column has once " %" is removed from it (src/app.py:75). */
  function StrippedName(k: LandClass): string {
    ReplaceAll(PercentColumnName(Label(k)), " %", "")
  }

  /** Removing " %" from a name with a " %" suffix gives back the name, when it holds no '%'. */
  lemma {:induction false} StripPercentSuffix(x: string)
    requires '%' !in x
    ensures ReplaceAll(x + " %", " %", "") == x
    decreases |x|
  {
    var s := x + " %";
    if x != [] {
      assert s[1] != '%';
      assert s[..2] != " %";
      assert s[1..] == x[1..] + " %";
      StripPercentSuffix(x[1..]);
    } else {
      assert s[..2] == " %" && s[2..] == [];
    }
  }

  /** Removing " %" from a percentage column's name gives back the class label. */
  lemma StrippedNameIsLabel(k: LandClass)
    ensures StrippedName(k) == Label(k)
  {
    assert '%' !in Label(k);
    StripPercentSuffix(Label(k));
  }

  /** The melted percentage records of one class, one per row. */
  function ShareBlock(rows: seq<StoredSummary>, k: LandClass): (r: seq<Melted<real>>)
    ensures |r| == |rows|
    ensures forall i :: 0 <= i < |r| ==> r[i] == Melted(RowKey(rows[i]), StrippedName(k), rows[i].row.shares.Get(k))
  {
    seq(|rows|, i requires 0 <= i < |rows| => Melted(RowKey(rows[i]), StrippedName(k), rows[i].row.shares.Get(k)))
  }

  /** `pd.melt` of the count columns: the blocks of the classes in column order. */
  function MeltCounts(rows: seq<StoredSummary>, classes: seq<LandClass>): (r: seq<Melted<nat>>)
    decreases |classes|
  {
    if classes == [] then [] else CountBlock(rows, classes[0]) + MeltCounts(rows, classes[1..])
  }

  /** `pd.melt` of the percentage columns, with " %" removed from the class names. */
  function MeltShares(rows: seq<StoredSummary>, classes: seq<LandClass>): (r: seq<Melted<real>>)
    decreases |classes|
  {
    if classes == [] then [] else ShareBlock(rows, classes[0]) + MeltShares(rows, classes[1..])
  }

  /** The percentage records with the given key and class, in order. */
  function Matching(right: seq<Melted<real>>, key: string, cls: string): seq<Melted<real>>
    decreases |right|
  {
    if right == [] then []
    else (if right[0].key == key && right[0].cls == cls then [right[0]] else []) + Matching(right[1..], key, cls)
  }

  /** One count record joined with each of its matching percentage records. */
  function JoinRecord(l: Melted<nat>, matches: seq<Melted<real>>): (r: seq<ClassRecord>)
    ensures |r| == |matches|
  {
    seq(|matches|, i requires 0 <= i < |matches| => ClassRecord(l.key, l.cls, l.value, matches[i].value))
  }

  /** `pd.merge(counts, percentages, on=['countryYear', 'Class'])`: an inner join in the order of the count records. */
  function MergeMelted(left: seq<Melted<nat>>, right: seq<Melted<real>>): seq<ClassRecord>
    decreases |left|
  {
    if left == [] then []
    else JoinRecord(left[0], Matching(right, left[0].key, left[0].cls)) + MergeMelted(left[1..], right)
  }

  /**
   * `reorder_df` (src/app.py:53-79): ValueError when the records carry no percentage columns,
   * which for the stored summaries means there are none; otherwise the merged long format.
   */
  function ReorderDf(rows: seq<StoredSummary>): (r: Result<seq<ClassRecord>, UploadError>)
    ensures r.Err? <==> rows == []
  {
    if rows == [] then Err(NoRecords)
    else Ok(MergeMelted(MeltCounts(rows, CLASS_ORDER), MeltShares(rows, CLASS_ORDER)))
  }

  /** The records reorder_df should give: for each class in order, one per row with its count and percentage. */
  function ClassRecords(rows: seq<StoredSummary>, k: LandClass): (r: seq<ClassRecord>)
    ensures |r| == |rows|
  {
    seq(|rows|, i requires 0 <= i < |rows| =>
      ClassRecord(RowKey(rows[i]), Label(k), rows[i].row.counts.Get(k), rows[i].row.shares.Get(k)))
  }

  function Records(rows: seq<StoredSummary>, classes: seq<LandClass>): (r: seq<ClassRecord>)
    decreases |classes|
  {
    if classes == [] then []
    else
      ClassRecords(rows, classes[0]) + Records(rows, classes[1..])
  }

  /** n copies of m added up. */
  function Times(n: nat, m: nat): nat {
    if n == 0 then 0 else m + Times(n - 1, m)
  }

  /** Adding m up n times is multiplying by n. */
  lemma {:induction false} TimesIsProduct(n: nat, m: nat)
    ensures Times(n, m) == n * m
  {
    if n > 0 {
      TimesIsProduct(n - 1, m);
      assert n * m == m + (n - 1) * m;
    }
  }

  /** The reference long format has one record per class and row. */
  lemma {:induction false} RecordsLength(rows: seq<StoredSummary>, classes: seq<LandClass>)
    ensures |Records(rows, classes)| == Times(|classes|, |rows|)
    decreases |classes|
  {
    if classes != [] {
      var head, rest := ClassRecords(rows, classes[0]), Records(rows, classes[1..]);
      assert Records(rows, classes) == head + rest;
      assert |head| == |rows|;
      RecordsLength(rows, classes[1..]);
    }
  }

  /** Each stored summary row has its own countryYear. */
  predicate UniqueKeys(rows: seq<StoredSummary>) {
    forall i, j :: 0 <= i < j < |rows| ==> RowKey(rows[i]) != RowKey(rows[j])
  }

  lemma {:induction false} MatchingConcat(a: seq<Melted<real>>, b: seq<Melted<real>>, key: string, cls: string)
    ensures Matching(a + b, key, cls) == Matching(a, key, cls) + Matching(b, key, cls)
    decreases |a|
  {
    if a != [] {
      assert (a + b)[0] == a[0];
      assert (a + b)[1..] == a[1..] + b;
      MatchingConcat(a[1..], b, key, cls);
    } else {
      assert a + b == b;
    }
  }

  lemma {:induction false} MergeConcat(a: seq<Melted<nat>>, b: seq<Melted<nat>>, right: seq<Melted<real>>)
    ensures MergeMelted(a + b, right) == MergeMelted(a, right) + MergeMelted(b, right)
    decreases |a|
  {
    if a != [] {
      assert (a + b)[0] == a[0];
      assert (a + b)[1..] == a[1..] + b;
      MergeConcat(a[1..], b, right);
    } else {
      assert a + b == b;
    }
  }

  /** Records none of which has class cls match nothing. */
  lemma {:induction false} MatchingNoClass(block: seq<Melted<real>>, key: string, cls: string)
    requires forall a :: 0 <= a < |block| ==> block[a].cls != cls
    ensures Matching(block, key, cls) == []
    decreases |block|
  {
    if block != [] {
      assert forall a :: 0 <= a < |block[1..]| ==> block[1..][a] == block[a + 1];
      MatchingNoClass(block[1..], key, cls);
    }
  }

  /** A percentage block of another class matches no count record of class k. */
  lemma MatchingOtherClass(rows: seq<StoredSummary>, j: LandClass, key: string, k: LandClass)
    requires j != k
    ensures Matching(ShareBlock(rows, j), key, Label(k)) == []
  {
    StrippedNameIsLabel(j);
    LabelsDistinct(j, k);
    MatchingNoClass(ShareBlock(rows, j), key, Label(k));
  }

  /** In records of one class with pairwise different keys, record i's key matches record i alone. */
  lemma {:induction false} MatchingDistinctKeys(block: seq<Melted<real>>, cls: string, i: nat, from: nat)
    requires i < |block| && from <= |block|
    requires forall a :: 0 <= a < |block| ==> block[a].cls == cls
    requires forall a, b :: 0 <= a < b < |block| ==> block[a].key != block[b].key
    ensures Matching(block[from..], block[i].key, cls) == if from <= i then [block[i]] else []
    decreases |block| - from
  {
    if from < |block| {
      var tail := block[from..];
      assert tail[0] == block[from];
      assert tail[1..] == block[from + 1..];
      MatchingDistinctKeys(block, cls, i, from + 1);
      if from != i {
        assert block[from].key != block[i].key;
      }
    }
  }

  /** Every record of the percentage block of class k is named after k. */
  lemma ShareBlockClass(rows: seq<StoredSummary>, k: LandClass)
    ensures forall a :: 0 <= a < |ShareBlock(rows, k)| ==> ShareBlock(rows, k)[a].cls == Label(k)
  {
    StrippedNameIsLabel(k);
  }

  /** The records of a percentage block carry the rows' keys, so distinct rows give distinct keys. */
  lemma ShareBlockKeys(rows: seq<StoredSummary>, k: LandClass)
    requires UniqueKeys(rows)
    ensures forall a, b :: 0 <= a < b < |ShareBlock(rows, k)| ==> ShareBlock(rows, k)[a].key != ShareBlock(rows, k)[b].key
  {
    var block := ShareBlock(rows, k);
    forall a, b | 0 <= a < b < |block| ensures block[a].key != block[b].key {
      assert block[a].key == RowKey(rows[a]) && block[b].key == RowKey(rows[b]);
    }
  }

  /** Among the rows' own percentage records of class k, the key of row i matches exactly row i's. */
  lemma MatchingOwnRow(rows: seq<StoredSummary>, k: LandClass, i: nat)
    requires UniqueKeys(rows) && i < |rows|
    ensures Matching(ShareBlock(rows, k), RowKey(rows[i]), Label(k))
      == [Melted(RowKey(rows[i]), Label(k), rows[i].row.shares.Get(k))]
  {
    var block := ShareBlock(rows, k);
    ShareBlockClass(rows, k);
    ShareBlockKeys(rows, k);
    assert block[0..] == block;
    MatchingDistinctKeys(block, Label(k), i, 0);
    assert block[i].cls == Label(k);
  }

  /** No class is listed twice. */
  predicate DistinctClasses(classes: seq<LandClass>) {
    forall a, b :: 0 <= a < b < |classes| ==> classes[a] != classes[b]
  }

  /** Dropping the first of distinct classes leaves distinct classes, none of them the first. */
  lemma DistinctTail(classes: seq<LandClass>)
    requires classes != [] && DistinctClasses(classes)
    ensures DistinctClasses(classes[1..]) && classes[0] !in classes[1..]
  {
    var tail := classes[1..];
    assert forall b :: 0 <= b < |tail| ==> tail[b] == classes[b + 1];
  }

  /**
   * When the block of class k matches the key once, the percentage records of distinct classes
   * match it once if k is among them, and not at all otherwise.
   */
  lemma {:induction false} MatchingInShares(rows: seq<StoredSummary>, classes: seq<LandClass>, k: LandClass, key: string, share: real)
    requires DistinctClasses(classes)
    requires Matching(ShareBlock(rows, k), key, Label(k)) == [Melted(key, Label(k), share)]
    ensures Matching(MeltShares(rows, classes), key, Label(k)) == if k in classes then [Melted(key, Label(k), share)] else []
    decreases |classes|
  {
    if classes != [] {
      MatchingConcat(ShareBlock(rows, classes[0]), MeltShares(rows, classes[1..]), key, Label(k));
      DistinctTail(classes);
      MatchingInShares(rows, classes[1..], k, key, share);
      if classes[0] != k {
        MatchingOtherClass(rows, classes[0], key, k);
      }
    }
  }

  /** The five classes are listed once each. */
  lemma ClassOrderDistinct()
    ensures DistinctClasses(CLASS_ORDER)
  {
    forall a, b | 0 <= a < b < |CLASS_ORDER| ensures CLASS_ORDER[a] != CLASS_ORDER[b] {
      LabelsDistinct(CLASS_ORDER[a], CLASS_ORDER[b]);
      assert Label(CLASS_ORDER[a])[0] != Label(CLASS_ORDER[b])[0];
    }
  }

  /** A count record with one partner gives one joined record. */
  lemma JoinSingle(l: Melted<nat>, m: Melted<real>)
    ensures JoinRecord(l, [m]) == [ClassRecord(l.key, l.cls, l.value, m.value)]
  {
  }

  /** A merge in which every count record finds exactly one partner yields one record per count record. */
  lemma {:induction false} MergeOnePartnerEach(left: seq<Melted<nat>>, right: seq<Melted<real>>, out: seq<ClassRecord>)
    requires |left| == |out|
    requires forall a :: 0 <= a < |left| ==> JoinRecord(left[a], Matching(right, left[a].key, left[a].cls)) == [out[a]]
    ensures MergeMelted(left, right) == out
    decreases |left|
  {
    if left != [] {
      assert forall a :: 0 <= a < |left[1..]| ==> left[1..][a] == left[a + 1] && out[1..][a] == out[a + 1];
      MergeOnePartnerEach(left[1..], right, out[1..]);
      assert out == [out[0]] + out[1..];
    }
  }

  /** Joining the count records of class k on the percentage records pairs each with its own row's percentage. */
  lemma MergeBlock(rows: seq<StoredSummary>, k: LandClass)
    requires UniqueKeys(rows)
    ensures MergeMelted(CountBlock(rows, k), MeltShares(rows, CLASS_ORDER)) == ClassRecords(rows, k)
  {
    var left, right, out := CountBlock(rows, k), MeltShares(rows, CLASS_ORDER), ClassRecords(rows, k);
    forall a | 0 <= a < |left| ensures JoinRecord(left[a], Matching(right, left[a].key, left[a].cls)) == [out[a]] {
      var key, count, share := RowKey(rows[a]), rows[a].row.counts.Get(k), rows[a].row.shares.Get(k);
      assert left[a] == Melted(key, Label(k), count);
      assert out[a] == ClassRecord(key, Label(k), count, share);
      assert Matching(right, key, Label(k)) == [Melted(key, Label(k), share)] by {
        MatchingOwnRow(rows, k, a);
        ClassOrderDistinct();
        AllClassesListed(k);
        MatchingInShares(rows, CLASS_ORDER, k, key, share);
      }
      JoinSingle(left[a], Melted(key, Label(k), share));
    }
    MergeOnePartnerEach(left, right, out);
  }

  /** The merge of the melted tables is the reference long format, class by class. */
  lemma {:induction false} MergeAllBlocks(rows: seq<StoredSummary>, classes: seq<LandClass>)
    requires UniqueKeys(rows)
    ensures MergeMelted(MeltCounts(rows, classes), MeltShares(rows, CLASS_ORDER)) == Records(rows, classes)
    decreases |classes|
  {
    if classes != [] {
      var right := MeltShares(rows, CLASS_ORDER);
      MergeConcat(CountBlock(rows, classes[0]), MeltCounts(rows, classes[1..]), right);
      MergeBlock(rows, classes[0]);
      MergeAllBlocks(rows, classes[1..]);
    }
  }

  /**
   * With one stored summary row per countryYear, reorder_df gives five records per row: for each
   * class in column order, every row's key, the class label, its count and its percentage.
   */
  lemma ReorderDfRecords(rows: seq<StoredSummary>)
    requires rows != [] && UniqueKeys(rows)
    ensures ReorderDf(rows) == Ok(Records(rows, CLASS_ORDER))
    ensures |ReorderDf(rows).value| == 5 * |rows|
  {
    MergeAllBlocks(rows, CLASS_ORDER);
    RecordsLength(rows, CLASS_ORDER);
    TimesIsProduct(|CLASS_ORDER|, |rows|);
  }

  /** A point as the map shows it: the stored point and its LC2_conditional cell. */
  datatype MapPoint = MapPoint(stored: StoredPoint, lc2Conditional: Value)

  /** `LC2_conditional` (src/app.py:248): the LC2 cell for an Arable point, the empty string otherwise. */
  function LC2Conditional(p: StoredPoint): (v: Value)
    ensures p.point.cls == Arable ==> v == p.point.cells.lc2
    ensures p.point.cls != Arable ==> v == Text("")
  {
    LabelsDistinct(p.point.cls, Arable);
    if Label(p.point.cls) == Label(Arable) then p.point.cells.lc2 else Text("")
  }

  /** `gdf[gdf['countryYear'].isin(chosen)]`: the stored points whose key was chosen, in order. */
  function Selected(data: seq<StoredPoint>, chosen: seq<string>): (r: seq<StoredPoint>)
    ensures |r| <= |data|
    decreases |data|
  {
    if data == [] then []
    else (if data[0].key in chosen then [data[0]] else []) + Selected(data[1..], chosen)
  }

  /** A stored point is on the map exactly when it is stored and its key was chosen. */
  lemma {:induction false} SelectedMembers(data: seq<StoredPoint>, chosen: seq<string>, p: StoredPoint)
    ensures p in Selected(data, chosen) <==> p in data && p.key in chosen
    decreases |data|
  {
    if data != [] {
      SelectedMembers(data[1..], chosen, p);
      assert data == [data[0]] + data[1..];
    }
  }

  /** Choosing every stored key puts every point on the map, in stored order. */
  lemma {:induction false} SelectedAll(data: seq<StoredPoint>, chosen: seq<string>)
    requires forall i :: 0 <= i < |data| ==> data[i].key in chosen
    ensures Selected(data, chosen) == data
    decreases |data|
  {
    if data != [] {
      SelectedAll(data[1..], chosen);
      assert data == [data[0]] + data[1..];
    }
  }

  /** Choosing more keys never drops a point: the selection grows with the choice. */
  lemma {:induction false} SelectedMonotone(data: seq<StoredPoint>, chosen: seq<string>, more: seq<string>, p: StoredPoint)
    requires forall key :: key in chosen ==> key in more
    requires p in Selected(data, chosen)
    ensures p in Selected(data, more)
  {
    SelectedMembers(data, chosen, p);
    SelectedMembers(data, more, p);
  }

  /**
   * `update_map` (src/app.py:494-500): no update for an empty choice; otherwise the chosen points,
   * each with its LC2_conditional cell.
   */
  function UpdateMap(chosen: seq<string>, data: seq<StoredPoint>): (r: Option<seq<MapPoint>>)
    ensures r.None? <==> chosen == []
    ensures r.Some? ==> |r.value| == |Selected(data, chosen)|
    ensures r.Some? ==> forall i :: 0 <= i < |r.value| ==> r.value[i].stored == Selected(data, chosen)[i]
  {
    if chosen == [] then None
    else
      var shown := Selected(data, chosen);
      Some(seq(|shown|, i requires 0 <= i < |shown| => MapPoint(shown[i], LC2Conditional(shown[i]))))
  }

  /**
   * On the map, a point shows its LC2 only when it is Arable, and every point shown was stored
   * under a chosen key.
   */
  lemma MapShowsLC2OnlyForArable(chosen: seq<string>, data: seq<StoredPoint>)
    requires chosen != []
    ensures forall m :: m in UpdateMap(chosen, data).value ==>
      m.stored in data && m.stored.key in chosen
      && (m.lc2Conditional != Text("") ==> m.stored.point.cls == Arable)
      && (m.stored.point.cls == Arable ==> m.lc2Conditional == m.stored.point.cells.lc2)
  {
    var r := UpdateMap(chosen, data).value;
    forall m | m in r
      ensures m.stored in data && m.stored.key in chosen
      && (m.lc2Conditional != Text("") ==> m.stored.point.cls == Arable)
      && (m.stored.point.cls == Arable ==> m.lc2Conditional == m.stored.point.cells.lc2)
    {
      var i :| 0 <= i < |r| && r[i] == m;
      assert m.stored in Selected(data, chosen);
      SelectedMembers(data, chosen, m.stored);
    }
  }
}
