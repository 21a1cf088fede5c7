/**
 * The rule classifier: `filterClasses`, `extractCountryName` and `filterLandUseCoverClasses`.
 * Each survey row is matched against five independent boolean masks (Livestock, Arable, Forest,
 * Shrubland, Grassland); the five filtered blocks are concatenated and stamped with the year and
 * the first row's country. Rows that match no mask are dropped.
 */
module Classifier {
  import opened Wrappers
  import opened Registry
  import opened Table

  datatype LandClass = Livestock | Arable | Forest | Shrubland | Grassland

  /** The classes in the order their blocks are concatenated. */
  const CLASS_ORDER: seq<LandClass> := [Livestock, Arable, Forest, Shrubland, Grassland]

  /** The string written into the CLASS column. */
  function Label(k: LandClass): string {
    match k
    case Livestock => "Livestock"
    case Arable => "Arable"
    case Forest => "Forest"
    case Shrubland => "Shrubland"
    case Grassland => "Grassland"
  }

  /**
   * The columns a classified row carries over unchanged: LAT, LONG, LC1, LC2 and LAND_MNGT.
   * LAT and LONG are only carried, never inspected.
   */
  datatype Cells = Cells(lat: Value, long: Value, lc1: Value, lc2: Value, landMngt: Value)

  /** A standardised survey row after the join with the country table. */
  datatype Point = Point(cells: Cells, country: Option<string>)

  /** A row of one filtered block: the carried columns plus CLASS. */
  datatype TaggedPoint = TaggedPoint(cells: Cells, cls: LandClass)

  /** A row of the classified-points table: CLASS, Year and Country added. */
  datatype ClassifiedPoint = ClassifiedPoint(cells: Cells, cls: LandClass, year: int, country: Option<string>)

  datatype ClassifyError = EmptyTable

  /** pandas `isin` against a list of strings: a missing or numeric cell is in no list. */
  predicate IsIn(cell: Value, codes: seq<string>) {
    cell.Text? && cell.s in codes
  }

  /** The `classIDs` argument of filterClasses: a flat list, or an [LC1 list, LC2 list] pair. */
  datatype CodeArg = Flat(codes: seq<string>) | Paired(pair: CodePair)

  /** The shape of `classIDs` that the branch chosen by `landMngt` and `option` indexes. */
  predicate WellShaped(ids: CodeArg, landMngt: real, option: int) {
    if option == 0 && landMngt != 2.0 then ids.Flat? else ids.Paired?
  }

  /** The boolean mask of filterClasses, evaluated on one row. */
  predicate Condition(c: Cells, ids: CodeArg, landMngt: real, option: int)
    requires WellShaped(ids, landMngt, option)
  {
    if option == 0 then
      if landMngt == 2.0 then
        IsIn(c.lc1, ids.pair.lc1) && IsIn(c.lc2, ids.pair.lc2) && c.landMngt == Num(landMngt)
      else
        IsIn(c.lc1, ids.codes) && c.landMngt == Num(landMngt)
    else
      IsIn(c.lc1, ids.pair.lc1) && !IsIn(c.lc2, ids.pair.lc2) && c.landMngt == Num(landMngt)
  }

  /** `filterClasses`: the rows whose mask holds, in input order, each tagged with `cls`. */
  function FilterClasses(rows: seq<Point>, ids: CodeArg, cls: LandClass, landMngt: real, option: int): (r: seq<TaggedPoint>)
    requires WellShaped(ids, landMngt, option)
    ensures |r| <= |rows|
    ensures forall t :: t in r ==> t.cls == cls && Condition(t.cells, ids, landMngt, option)
    ensures forall p :: p in rows && Condition(p.cells, ids, landMngt, option) ==> TaggedPoint(p.cells, cls) in r
    decreases |rows|
  {
    if rows == [] then []
    else
      var rest := FilterClasses(rows[1..], ids, cls, landMngt, option);
      if Condition(rows[0].cells, ids, landMngt, option) then [TaggedPoint(rows[0].cells, cls)] + rest else rest
  }

  /** The arguments `filterLandUseCoverClasses` passes to filterClasses for each class. */
  datatype FilterCall = FilterCall(ids: CodeArg, landMngt: real, option: int)

  function CallFor(ids: ClassIDs, k: LandClass): (f: FilterCall)
    ensures WellShaped(f.ids, f.landMngt, f.option)
  {
    match k
    case Livestock => FilterCall(Flat(ids.livestock), 1.0, 0)
    case Arable => FilterCall(Paired(ids.arable), 2.0, 0)
    case Forest => FilterCall(Paired(ids.forest), 2.0, 1)
    case Shrubland => FilterCall(Paired(ids.shrubland), 2.0, 1)
    case Grassland => FilterCall(Paired(ids.grassland), 2.0, 1)
  }

  /** The rule that puts a row into class k under the registry ids. */
  predicate Rule(ids: ClassIDs, k: LandClass, c: Cells) {
    var f := CallFor(ids, k);
    Condition(c, f.ids, f.landMngt, f.option)
  }

  /** The block filterClasses returns for class k: the rows its rule accepts, tagged with k. */
  function Block(ids: ClassIDs, rows: seq<Point>, k: LandClass): (r: seq<TaggedPoint>)
    ensures |r| <= |rows|
    ensures forall t :: t in r ==> t.cls == k && Rule(ids, k, t.cells)
    ensures forall p :: p in rows && Rule(ids, k, p.cells) ==> TaggedPoint(p.cells, k) in r
  {
    var f := CallFor(ids, k);
    FilterClasses(rows, f.ids, k, f.landMngt, f.option)
  }

  /**
   * The five rules written out: livestock looks at LC1 and LAND_MNGT 1.0 only; arable needs LC2
   * in the arable LC2 list; forest, shrubland and grassland need LC2 outside it (or missing).
   */
  lemma RuleDefinitions(ids: ClassIDs, c: Cells)
    requires Separated(ids)
    ensures Rule(ids, Livestock, c) <==> IsIn(c.lc1, ids.livestock) && c.landMngt == Num(1.0)
    ensures Rule(ids, Arable, c) <==> IsIn(c.lc1, ids.arable.lc1) && IsIn(c.lc2, ids.arable.lc2) && c.landMngt == Num(2.0)
    ensures Rule(ids, Forest, c) <==> IsIn(c.lc1, ids.forest.lc1) && !IsIn(c.lc2, ids.arable.lc2) && c.landMngt == Num(2.0)
    ensures Rule(ids, Shrubland, c) <==> IsIn(c.lc1, ids.shrubland.lc1) && !IsIn(c.lc2, ids.arable.lc2) && c.landMngt == Num(2.0)
    ensures Rule(ids, Grassland, c) <==> IsIn(c.lc1, ids.grassland.lc1) && !IsIn(c.lc2, ids.arable.lc2) && c.landMngt == Num(2.0)
  {
  }

  /**
   * A reference classifier written as one decision list over the three facts that separate the
   * classes: LAND_MNGT (1.0 for livestock, 2.0 for the rest), LC2 inside or outside the arable
   * LC2 list, and the disjoint forest, shrubland and grassland LC1 lists.
   */
  function ClassOf(ids: ClassIDs, c: Cells): Option<LandClass> {
    if c.landMngt == Num(1.0) then
      if IsIn(c.lc1, ids.livestock) then Some(Livestock) else None
    else if c.landMngt != Num(2.0) then None
    else if IsIn(c.lc2, ids.arable.lc2) then
      if IsIn(c.lc1, ids.arable.lc1) then Some(Arable) else None
    else if IsIn(c.lc1, ids.forest.lc1) then Some(Forest)
    else if IsIn(c.lc1, ids.shrubland.lc1) then Some(Shrubland)
    else if IsIn(c.lc1, ids.grassland.lc1) then Some(Grassland)
    else None
  }

  /** The five masks agree with the decision list: a row satisfies rule k exactly when ClassOf says k. */
  lemma RuleIffClassOf(ids: ClassIDs, k: LandClass, c: Cells)
    requires Separated(ids)
    ensures Rule(ids, k, c) <==> ClassOf(ids, c) == Some(k)
  {
    RuleDefinitions(ids, c);
  }

  /** The key theorem: under a separated registry no row satisfies two of the five rules. */
  lemma RulesPairwiseDisjoint(ids: ClassIDs, j: LandClass, k: LandClass, c: Cells)
    requires Separated(ids) && j != k
    ensures !(Rule(ids, j, c) && Rule(ids, k, c))
  {
    RuleIffClassOf(ids, j, c);
    RuleIffClassOf(ids, k, c);
  }

  /** The registry `generateClassIDs` returns puts every row in at most one class. */
  lemma GeneratedRulesPairwiseDisjoint(j: LandClass, k: LandClass, c: Cells)
    requires j != k
    ensures !(Rule(GenerateClassIDs(), j, c) && Rule(GenerateClassIDs(), k, c))
  {
    GeneratedIDsSeparated();
    RulesPairwiseDisjoint(GenerateClassIDs(), j, k, c);
  }

  /** The reference classification of a table: each row tagged with ClassOf, unmatched rows dropped. */
  function Partition(ids: ClassIDs, rows: seq<Point>): (r: seq<TaggedPoint>)
    ensures |r| <= |rows|
    decreases |rows|
  {
    if rows == [] then []
    else
      var rest := Partition(ids, rows[1..]);
      match ClassOf(ids, rows[0].cells)
      case Some(k) => [TaggedPoint(rows[0].cells, k)] + rest
      case None => rest
  }

  /** The rows of a tagged table that carry class k, in order. */
  function OfClass(ts: seq<TaggedPoint>, k: LandClass): (r: seq<TaggedPoint>)
    ensures |r| <= |ts|
    decreases |ts|
  {
    if ts == [] then []
    else (if ts[0].cls == k then [ts[0]] else []) + OfClass(ts[1..], k)
  }

  /** Each filterClasses block is exactly the class-k part of the reference classification, in order. */
  lemma {:induction false} BlockIsClassSlice(ids: ClassIDs, rows: seq<Point>, k: LandClass)
    requires Separated(ids)
    ensures Block(ids, rows, k) == OfClass(Partition(ids, rows), k)
    decreases |rows|
  {
    if rows != [] {
      BlockIsClassSlice(ids, rows[1..], k);
      RuleIffClassOf(ids, k, rows[0].cells);
      var p := Partition(ids, rows);
      var rest := Partition(ids, rows[1..]);
      match ClassOf(ids, rows[0].cells)
      case Some(j) =>
        assert p == [TaggedPoint(rows[0].cells, j)] + rest;
        assert p[1..] == rest;
      case None =>
        assert p == rest;
    }
  }

  /** A row occurs in the class-k slice as often as in the table when it has class k, and never otherwise. */
  lemma {:induction false} OfClassCount(ts: seq<TaggedPoint>, k: LandClass, x: TaggedPoint)
    ensures multiset(OfClass(ts, k))[x] == if x.cls == k then multiset(ts)[x] else 0
    decreases |ts|
  {
    if ts != [] {
      OfClassCount(ts[1..], k, x);
      assert ts == [ts[0]] + ts[1..];
    }
  }

  /** The five class slices of a table, concatenated in class order. */
  function Slices(ts: seq<TaggedPoint>): seq<TaggedPoint> {
    OfClass(ts, Livestock) + OfClass(ts, Arable) + OfClass(ts, Forest)
      + OfClass(ts, Shrubland) + OfClass(ts, Grassland)
  }

  /** Each row occurs in the five slices together as often as in the table. */
  lemma SliceCount(ts: seq<TaggedPoint>, x: TaggedPoint)
    ensures multiset(Slices(ts))[x] == multiset(ts)[x]
  {
    OfClassCount(ts, Livestock, x);
    OfClassCount(ts, Arable, x);
    OfClassCount(ts, Forest, x);
    OfClassCount(ts, Shrubland, x);
    OfClassCount(ts, Grassland, x);
  }

  /** Splitting a tagged table into its five class slices loses and duplicates nothing. */
  lemma ClassSlicesArePermutation(ts: seq<TaggedPoint>)
    ensures multiset(Slices(ts)) == multiset(ts)
  {
    forall x ensures multiset(Slices(ts))[x] == multiset(ts)[x] {
      SliceCount(ts, x);
    }
  }

  /** `extractCountryName`: the first row's Country; IndexError on an empty table. */
  function ExtractCountryName(rows: seq<Point>): (r: Result<Option<string>, ClassifyError>)
    ensures r.Ok? <==> rows != []
    ensures r.Ok? ==> r.value == rows[0].country
  {
    if rows == [] then Err(EmptyTable) else Ok(rows[0].country)
  }

  /** Adds the Year column and the Country column to every row of a combined block. */
  function Stamp(ts: seq<TaggedPoint>, year: int, country: Option<string>): (r: seq<ClassifiedPoint>)
    ensures |r| == |ts|
    ensures forall i :: 0 <= i < |r| ==> r[i] == ClassifiedPoint(ts[i].cells, ts[i].cls, year, country)
  {
    seq(|ts|, i requires 0 <= i < |ts| => ClassifiedPoint(ts[i].cells, ts[i].cls, year, country))
  }

  /** Drops the Year and Country columns again. */
  function Untag(os: seq<ClassifiedPoint>): (r: seq<TaggedPoint>)
    ensures |r| == |os|
    ensures forall i :: 0 <= i < |r| ==> r[i] == TaggedPoint(os[i].cells, os[i].cls)
  {
    seq(|os|, i requires 0 <= i < |os| => TaggedPoint(os[i].cells, os[i].cls))
  }

  /** The five filterClasses blocks concatenated in the order Livestock, Arable, Forest, Shrubland, Grassland. */
  function Combined(ids: ClassIDs, rows: seq<Point>): seq<TaggedPoint> {
    Block(ids, rows, Livestock) + Block(ids, rows, Arable) + Block(ids, rows, Forest)
      + Block(ids, rows, Shrubland) + Block(ids, rows, Grassland)
  }

  /** Every row of the combined blocks satisfies the rule of the class it is tagged with. */
  lemma CombinedRowsSatisfyRule(ids: ClassIDs, rows: seq<Point>)
    ensures forall t :: t in Combined(ids, rows) ==> Rule(ids, t.cls, t.cells)
  {
  }

  /** The combined blocks are the reference classification sorted stably by class. */
  lemma CombinedIsStablePartition(ids: ClassIDs, rows: seq<Point>)
    requires Separated(ids)
    ensures var p := Partition(ids, rows);
      Combined(ids, rows) == OfClass(p, Livestock) + OfClass(p, Arable) + OfClass(p, Forest)
        + OfClass(p, Shrubland) + OfClass(p, Grassland)
  {
    BlockIsClassSlice(ids, rows, Livestock);
    BlockIsClassSlice(ids, rows, Arable);
    BlockIsClassSlice(ids, rows, Forest);
    BlockIsClassSlice(ids, rows, Shrubland);
    BlockIsClassSlice(ids, rows, Grassland);
  }

  /** Because the rules are disjoint, the combined blocks hold each classified row exactly once. */
  lemma CombinedIsPermutationOfPartition(ids: ClassIDs, rows: seq<Point>)
    requires Separated(ids)
    ensures multiset(Combined(ids, rows)) == multiset(Partition(ids, rows))
    ensures |Combined(ids, rows)| == |Partition(ids, rows)| <= |rows|
  {
    CombinedIsStablePartition(ids, rows);
    ClassSlicesArePermutation(Partition(ids, rows));
    assert |multiset(Combined(ids, rows))| == |multiset(Partition(ids, rows))|;
  }

  /** Under a separated registry the combined blocks have at most one row per input row. */
  lemma CombinedNoLongerThanInput(ids: ClassIDs, rows: seq<Point>)
    ensures Separated(ids) ==> |Combined(ids, rows)| <= |rows|
  {
    if Separated(ids) {
      CombinedIsPermutationOfPartition(ids, rows);
    }
  }

  /**
   * The body of `filterLandUseCoverClasses` for a given registry: the country name of the first
   * row, then the five blocks, then the Year and Country columns. An empty table raises before
   * anything is filtered.
   */
  function ClassifyWith(ids: ClassIDs, rows: seq<Point>, year: int): (r: Result<seq<ClassifiedPoint>, ClassifyError>)
    ensures r.Err? <==> rows == []
    ensures r.Ok? && Separated(ids) ==> |r.value| <= |rows|
    ensures r.Ok? ==> forall o :: o in r.value ==>
      o.year == year && o.country == rows[0].country && Rule(ids, o.cls, o.cells)
  {
    var country :- ExtractCountryName(rows);
    var combined := Combined(ids, rows);
    CombinedNoLongerThanInput(ids, rows);
    CombinedRowsSatisfyRule(ids, rows);
    Ok(Stamp(combined, year, country))
  }

  /** `filterLandUseCoverClasses`: classification against the registry `generateClassIDs` returns. */
  function FilterLandUseCoverClasses(rows: seq<Point>, year: int): (r: Result<seq<ClassifiedPoint>, ClassifyError>)
    ensures r.Err? <==> rows == []
    ensures r.Ok? ==> |r.value| <= |rows|
    ensures r.Ok? ==> forall o :: o in r.value ==>
      o.year == year && o.country == rows[0].country && Rule(GenerateClassIDs(), o.cls, o.cells)
  {
    GeneratedIDsSeparated();
    ClassifyWith(GenerateClassIDs(), rows, year)
  }

  /**
   * The classified table, with Year and Country dropped, is a permutation of the reference
   * classification: every classified input row appears exactly once and every unmatched row is gone.
   */
  lemma ClassifiedIsPermutation(rows: seq<Point>, year: int)
    requires rows != []
    ensures Untag(FilterLandUseCoverClasses(rows, year).value) == Combined(GenerateClassIDs(), rows)
    ensures multiset(Untag(FilterLandUseCoverClasses(rows, year).value)) == multiset(Partition(GenerateClassIDs(), rows))
  {
    GeneratedIDsSeparated();
    CombinedIsPermutationOfPartition(GenerateClassIDs(), rows);
  }

  /** Single-row scenario: LC1 B75, LC2 "-", LAND_MNGT 1.0 is classified Livestock. */
  lemma LivestockScenario(lat: real, long: real, country: Option<string>)
    ensures var c := Cells(Num(lat), Num(long), Text("B75"), Text("-"), Num(1.0));
      FilterLandUseCoverClasses([Point(c, country)], 2012) == Ok([ClassifiedPoint(c, Livestock, 2012, country)])
  {
    LivestockHasB75();
    GeneratedIDsSeparated();
    SingleLivestockRow(GenerateClassIDs(), Cells(Num(lat), Num(long), Text("B75"), Text("-"), Num(1.0)), country, 2012);
  }

  /** A single row that only the livestock rule accepts comes out as one Livestock point. */
  lemma SingleLivestockRow(ids: ClassIDs, c: Cells, country: Option<string>, year: int)
    requires Separated(ids) && IsIn(c.lc1, ids.livestock) && c.landMngt == Num(1.0)
    ensures ClassifyWith(ids, [Point(c, country)], year) == Ok([ClassifiedPoint(c, Livestock, year, country)])
  {
    var rows := [Point(c, country)];
    RuleDefinitions(ids, c);
    assert Block(ids, rows, Livestock) == [TaggedPoint(c, Livestock)];
    assert Combined(ids, rows) == [TaggedPoint(c, Livestock)];
    assert Stamp([TaggedPoint(c, Livestock)], year, country) == [ClassifiedPoint(c, Livestock, year, country)];
  }

  /** Overlap scenario: LC1 C10 (both an arable and a forest code), LC2 B20, LAND_MNGT 2.0 is Arable only. */
  lemma ArableNotForestScenario(c: Cells)
    requires c.lc1 == Text("C10") && c.lc2 == Text("B20") && c.landMngt == Num(2.0)
    ensures Rule(GenerateClassIDs(), Arable, c) && !Rule(GenerateClassIDs(), Forest, c)
  {
    ArableHasC10();
    ArableLC2HasB20();
    GeneratedIDsSeparated();
    RuleDefinitions(GenerateClassIDs(), c);
  }

  /** Unmatched scenario: a row whose LC1 is A10 (artificial land) is in no class. */
  lemma UnmatchedScenario(c: Cells)
    requires c.lc1 == Text("A10")
    ensures ClassOf(GenerateClassIDs(), c) == None
  {
    NoArtificialLandCodes("A10");
  }
}
