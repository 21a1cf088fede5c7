/**
 * The code-set registry (`generateClassIDs`): the LUCAS land-cover codes that define each of the
 * five classes. Codes are strings such as "B71": a section letter followed by a number.
 */
module Registry {
  import opened Text

  /** The code `letter + str(n)`. */
  function Code(letter: char, n: nat): (c: string)
    ensures |c| >= 2 && c[0] == letter
  {
    [letter] + NatToString(n)
  }

  /** A two-digit code is exactly three characters: the letter and the two digits of n. */
  lemma CodeShape(letter: char, n: nat)
    requires 10 <= n < 100
    ensures Code(letter, n) == [letter, DigitChar(n / 10), DigitChar(n % 10)]
  {
    assert NatToString(n / 10) == [DigitChar(n / 10)];
  }

  /** `[letter + str(n) for n in range(lo, hi)]`. */
  function CodeRange(letter: char, lo: nat, hi: nat): (r: seq<string>)
    requires lo <= hi
    ensures |r| == hi - lo
    ensures forall i :: 0 <= i < |r| ==> r[i] == Code(letter, lo + i)
  {
    seq(hi - lo, i requires 0 <= i < hi - lo => Code(letter, lo + i))
  }

  /** Every code of a range starts with its section letter. */
  lemma CodeRangeSection(letter: char, lo: nat, hi: nat)
    requires lo <= hi
    ensures forall c :: c in CodeRange(letter, lo, hi) ==> |c| >= 2 && c[0] == letter
  {
    var r := CodeRange(letter, lo, hi);
    forall c | c in r ensures |c| >= 2 && c[0] == letter {
      var i :| 0 <= i < |r| && r[i] == c;
      assert c == Code(letter, lo + i);
    }
  }

  /** Membership in a code range is membership of the number in the range. */
  lemma CodeRangeMembers(letter: char, lo: nat, hi: nat, c: string)
    requires lo <= hi
    ensures c in CodeRange(letter, lo, hi) <==> exists n :: lo <= n < hi && c == Code(letter, n)
  {
    var r := CodeRange(letter, lo, hi);
    if c in r {
      var i :| 0 <= i < |r| && r[i] == c;
      assert lo <= lo + i < hi && c == Code(letter, lo + i);
    }
    if exists n :: lo <= n < hi && c == Code(letter, n) {
      var n :| lo <= n < hi && c == Code(letter, n);
      assert r[n - lo] == c;
    }
  }

  /** A class defined by a primary-code list (LC1) paired with a secondary-code list (LC2). */
  datatype CodePair = CodePair(lc1: seq<string>, lc2: seq<string>)

  /** The five code sets returned together by `generateClassIDs`. */
  datatype ClassIDs = ClassIDs(
    livestock: seq<string>,
    arable: CodePair,
    forest: CodePair,
    shrubland: CodePair,
    grassland: CodePair)

  /** `livestockClassIDs`: B71..B84, C10..C33, D10, E10. */
  function LivestockIDs(): (r: seq<string>)
    ensures |r| == 40
  {
    CodeRange('B', 71, 85) + CodeRange('C', 10, 34) + ["D10", "E10"]
  }

  /** `arable_LC1`: the livestock list without its last two entries, with D10 appended again. */
  function ArableLC1(): (r: seq<string>)
    ensures |r| == 39
  {
    var livestock := LivestockIDs();
    livestock[..|livestock| - 2] + ["D10"]
  }

  /** `arable_LC2`: B11..B54. */
  function ArableLC2(): (r: seq<string>)
    ensures |r| == 44 && forall c :: c in r ==> |c| >= 2 && c[0] == 'B'
  {
    CodeRangeSection('B', 11, 55);
    CodeRange('B', 11, 55)
  }

  function ForestLC1(): (r: seq<string>)
    ensures forall c :: c in r ==> |c| >= 2 && c[0] == 'C'
  {
    ["C10", "C21", "C22", "C23", "C31", "C32", "C33"]
  }

  function ShrublandLC1(): (r: seq<string>)
    ensures forall c :: c in r ==> |c| >= 2 && c[0] == 'D'
  {
    ["D10", "D20"]
  }

  function GrasslandLC1(): (r: seq<string>)
    ensures forall c :: c in r ==> |c| >= 2 && c[0] == 'E'
  {
    ["E10", "E20", "E30"]
  }

  /**
   * `generateClassIDs`: the livestock list, and an [LC1, LC2] pair for each of the other four
   * classes; the arable LC2 list is shared as the LC2 list of forest, shrubland and grassland.
   */
  function GenerateClassIDs(): (ids: ClassIDs)
    ensures |ids.livestock| == 40 && |ids.arable.lc1| == 39 && |ids.arable.lc2| == 44
    ensures ids.forest.lc2 == ids.shrubland.lc2 == ids.grassland.lc2 == ids.arable.lc2
    ensures forall c :: c in ids.arable.lc2 ==> |c| >= 2 && c[0] == 'B'
    ensures forall c :: c in ids.forest.lc1 ==> |c| >= 2 && c[0] == 'C'
    ensures forall c :: c in ids.shrubland.lc1 ==> |c| >= 2 && c[0] == 'D'
    ensures forall c :: c in ids.grassland.lc1 ==> |c| >= 2 && c[0] == 'E'
  {
    ClassIDs(
      LivestockIDs(),
      CodePair(ArableLC1(), ArableLC2()),
      CodePair(ForestLC1(), ArableLC2()),
      CodePair(ShrublandLC1(), ArableLC2()),
      CodePair(GrasslandLC1(), ArableLC2()))
  }

  /** The livestock list is B71..B84, then C10..C33, then D10 and E10. */
  lemma LivestockCodes(c: string)
    ensures c in GenerateClassIDs().livestock <==>
      || (exists n :: 71 <= n < 85 && c == Code('B', n))
      || (exists n :: 10 <= n < 34 && c == Code('C', n))
      || c == "D10" || c == "E10"
  {
    var b, cs, de := CodeRange('B', 71, 85), CodeRange('C', 10, 34), ["D10", "E10"];
    assert c in LivestockIDs() <==> c in b || c in cs || c in de by {
      assert LivestockIDs() == b + cs + de;
    }
    CodeRangeMembers('B', 71, 85, c);
    CodeRangeMembers('C', 10, 34, c);
  }

  /** The arable LC1 list is the livestock list with E10 removed (D10 is kept). */
  lemma ArableLC1IsLivestockWithoutE10(c: string)
    ensures c in GenerateClassIDs().arable.lc1 <==> c in GenerateClassIDs().livestock && c != "E10"
  {
    var bc := CodeRange('B', 71, 85) + CodeRange('C', 10, 34);
    assert LivestockIDs() == bc + ["D10", "E10"];
    assert LivestockIDs()[..|LivestockIDs()| - 2] == bc;
    assert c in ArableLC1() <==> c in bc || c == "D10";
    assert c in LivestockIDs() <==> c in bc || c == "D10" || c == "E10";
    assert "E10" !in bc by {
      CodeRangeSection('B', 71, 85);
      CodeRangeSection('C', 10, 34);
    }
  }

  /** The arable LC2 list is B11..B54. */
  lemma ArableLC2Codes(c: string)
    ensures c in GenerateClassIDs().arable.lc2 <==> exists n :: 11 <= n < 55 && c == Code('B', n)
  {
    CodeRangeMembers('B', 11, 55, c);
  }

  /**
   * The two facts about the registry that keep the five classes apart: forest, shrubland and
   * grassland reuse the arable LC2 list, and their LC1 lists share no code.
   */
  predicate Separated(ids: ClassIDs) {
    && ids.forest.lc2 == ids.arable.lc2
    && ids.shrubland.lc2 == ids.arable.lc2
    && ids.grassland.lc2 == ids.arable.lc2
    && (forall c :: c in ids.forest.lc1 ==> c !in ids.shrubland.lc1 && c !in ids.grassland.lc1)
    && (forall c :: c in ids.shrubland.lc1 ==> c !in ids.grassland.lc1)
  }

  /** The registry `generateClassIDs` returns is separated. */
  lemma GeneratedIDsSeparated()
    ensures Separated(GenerateClassIDs())
  {
    var ids := GenerateClassIDs();
    assert ids.forest.lc1 == ForestLC1() && ids.shrubland.lc1 == ShrublandLC1() && ids.grassland.lc1 == GrasslandLC1();
    assert forall c :: c in ForestLC1() ==> c[0] == 'C';
    assert forall c :: c in ShrublandLC1() ==> c[0] == 'D';
    assert forall c :: c in GrasslandLC1() ==> c[0] == 'E';
  }

  /** No code of section A (artificial land) is in any list of the registry. */
  lemma NoArtificialLandCodes(c: string)
    requires |c| >= 1 && c[0] == 'A'
    ensures c !in GenerateClassIDs().livestock && c !in GenerateClassIDs().arable.lc1
    ensures c !in GenerateClassIDs().forest.lc1 && c !in GenerateClassIDs().shrubland.lc1
    ensures c !in GenerateClassIDs().grassland.lc1
  {
    LivestockCodes(c);
    ArableLC1IsLivestockWithoutE10(c);
    forall n: nat ensures c != Code('B', n) && c != Code('C', n) {
    }
  }

  /** The two-digit code with the given digits. */
  lemma TwoDigitCode(letter: char, n: nat, tens: char, ones: char)
    requires 10 <= n < 100 && tens == DigitChar(n / 10) && ones == DigitChar(n % 10)
    ensures Code(letter, n) == [letter, tens, ones]
  {
    CodeShape(letter, n);
  }

  /** B75, the livestock code of the single-row scenario, is in the livestock list. */
  lemma LivestockHasB75()
    ensures "B75" in GenerateClassIDs().livestock
  {
    TwoDigitCode('B', 75, '7', '5');
    var b := CodeRange('B', 71, 85);
    assert b[4] == "B75";
    assert "B75" in b + CodeRange('C', 10, 34);
  }

  /** C10 is an arable LC1 code (it is a forest LC1 code as well). */
  lemma ArableHasC10()
    ensures "C10" in GenerateClassIDs().arable.lc1
  {
    TwoDigitCode('C', 10, '1', '0');
    var bc := CodeRange('B', 71, 85) + CodeRange('C', 10, 34);
    assert bc[14] == "C10";
    assert ArableLC1() == bc + ["D10"] by {
      assert LivestockIDs() == bc + ["D10", "E10"];
    }
  }

  /** B20 is an arable LC2 code; the placeholder "-" is not. */
  lemma ArableLC2HasB20()
    ensures "B20" in GenerateClassIDs().arable.lc2
    ensures "-" !in GenerateClassIDs().arable.lc2
  {
    TwoDigitCode('B', 20, '2', '0');
    assert ArableLC2()[9] == "B20";
  }
}
