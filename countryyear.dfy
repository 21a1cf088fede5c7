/**
 * The `countryYear` key the dashboard files every upload under: `createCountryYearColumn`, and
 * the ordering by that key that `sort_values(by='countryYear')` produces.
 */
module CountryYear {
  import opened Wrappers
  import opened Text
  import opened Table
  import opened Classifier
  import opened Aggregator

  /** Country + ' ' + str(Year). */
  function Key(country: string, year: int): (k: string)
    ensures |k| == |country| + 1 + |IntToString(year)|
    ensures k[..|country|] == country && k[|country|] == ' '
  {
    country + " " + IntToString(year)
  }

  /** `str` of an integer has no space in it. */
  lemma NoSpaceInYear(year: int)
    ensures forall i :: 0 <= i < |IntToString(year)| ==> IntToString(year)[i] != ' '
  {
    var s := IntToString(year);
    forall i | 0 <= i < |s| ensures s[i] != ' ' {
      if i > 0 {
        assert s[1..][i - 1] == s[i];
      }
    }
  }

  /**
   * The key names one country and one year: since the year part has no space, the last space
   * separates them, even for a country name that contains spaces.
   */
  lemma KeyInjective(c1: string, y1: int, c2: string, y2: int)
    requires Key(c1, y1) == Key(c2, y2)
    ensures c1 == c2 && y1 == y2
  {
    var s1, s2 := IntToString(y1), IntToString(y2);
    var k := Key(c1, y1);
    NoSpaceInYear(y1);
    NoSpaceInYear(y2);
    assert |c1| == |c2|;
    assert c1 == k[..|c1|] == c2;
    assert s1 == k[|c1| + 1..] == s2;
    IntToStringInjective(y1, y2);
  }

  /** A classified point as the store holds it: with its countryYear key. */
  datatype StoredPoint = StoredPoint(point: ClassifiedPoint, key: string)

  /** A summary row as the store holds it: with its countryYear key. */
  datatype StoredSummary = StoredSummary(row: SummaryRow, key: string)

  /** `dropna` keeps a point only when no field is missing. */
  predicate Complete(p: ClassifiedPoint) {
    && p.cells.lat != Missing && p.cells.long != Missing && p.cells.lc1 != Missing
    && p.cells.lc2 != Missing && p.cells.landMngt != Missing && p.country.Some?
  }

  /** `dropna` on the classified points: the complete ones, in order. */
  function Kept(t: seq<ClassifiedPoint>): (r: seq<ClassifiedPoint>)
    ensures |r| <= |t|
    ensures forall i :: 0 <= i < |r| ==> Complete(r[i])
    decreases |t|
  {
    if t == [] then [] else (if Complete(t[0]) then [t[0]] else []) + Kept(t[1..])
  }

  /** A point survives `dropna` exactly when it is complete; and no point is invented. */
  lemma {:induction false} KeptMembers(t: seq<ClassifiedPoint>, p: ClassifiedPoint)
    ensures p in Kept(t) <==> p in t && Complete(p)
    decreases |t|
  {
    if t != [] {
      var head: seq<ClassifiedPoint> := if Complete(t[0]) then [t[0]] else [];
      assert Kept(t) == head + Kept(t[1..]);
      assert p in Kept(t) <==> p in head || p in Kept(t[1..]);
      KeptMembers(t[1..], p);
      assert t == [t[0]] + t[1..];
      assert p in t <==> p == t[0] || p in t[1..];
    }
  }

  /** When nothing is missing, `dropna` keeps every point in its place. */
  lemma {:induction false} KeptAll(t: seq<ClassifiedPoint>)
    requires forall i :: 0 <= i < |t| ==> Complete(t[i])
    ensures Kept(t) == t
    decreases |t|
  {
    if t != [] {
      KeptAll(t[1..]);
      assert t == [t[0]] + t[1..];
    }
  }

  /**
   * `createCountryYearColumn` on the classified points (src/app.py:48-50): drop every point with a
   * missing field, then key the rest by country and year, in their original order.
   */
  function CountryYearPoints(t: seq<ClassifiedPoint>): (r: seq<StoredPoint>)
    ensures |r| == |Kept(t)|
    ensures forall i :: 0 <= i < |r| ==> r[i].point == Kept(t)[i] && r[i].key == Key(r[i].point.country.value, r[i].point.year)
  {
    var kept := Kept(t);
    seq(|kept|, i requires 0 <= i < |kept| => StoredPoint(kept[i], Key(kept[i].country.value, kept[i].year)))
  }

  /** A kept point is a complete point of the table. */
  lemma KeptPoint(t: seq<ClassifiedPoint>, i: int) returns (j: int)
    requires 0 <= i < |Kept(t)|
    ensures 0 <= j < |t| && t[j] == Kept(t)[i] && Complete(t[j])
  {
    KeptMembers(t, Kept(t)[i]);
    j :| 0 <= j < |t| && t[j] == Kept(t)[i];
  }

  /** The points of one upload share a country and a year, so they share one key. */
  lemma UniformKey(t: seq<ClassifiedPoint>, year: int, country: Option<string>)
    requires forall i :: 0 <= i < |t| ==> t[i].year == year && t[i].country == country
    ensures CountryYearPoints(t) != [] ==> country.Some?
    ensures forall i :: 0 <= i < |CountryYearPoints(t)| ==> CountryYearPoints(t)[i].key == Key(country.value, year)
  {
    var r := CountryYearPoints(t);
    if r != [] {
      var j := KeptPoint(t, 0);
      assert country.Some?;
    }
    forall i | 0 <= i < |r| ensures r[i].key == Key(country.value, year) {
      var j := KeptPoint(t, i);
      assert r[i].point == t[j];
    }
  }

  /**
   * `createCountryYearColumn` on the summary (src/app.py:48-50): no summary field can be missing,
   * so every row is kept, in order, under its country and year.
   */
  function CountryYearSummary(s: seq<SummaryRow>): (r: seq<StoredSummary>)
    ensures |r| == |s|
    ensures forall i :: 0 <= i < |r| ==> r[i].row == s[i] && r[i].key == Key(s[i].country, s[i].year)
  {
    seq(|s|, i requires 0 <= i < |s| => StoredSummary(s[i], Key(s[i].country, s[i].year)))
  }

  /** In order of the keys' code points, as `sort_values` on a string column leaves a table. */
  predicate SortedBy<T>(s: seq<T>, key: T -> string) {
    forall i, j :: 0 <= i < j < |s| ==> LexLe(key(s[i]), key(s[j]))
  }

  /** x whose key is not above the first key of a sorted sequence can go in front of it. */
  lemma InsertFront<T>(x: T, s: seq<T>, key: T -> string)
    requires SortedBy(s, key) && s != [] && LexLe(key(x), key(s[0]))
    ensures SortedBy([x] + s, key)
  {
    var r := [x] + s;
    forall i, j | 0 <= i < j < |r| ensures LexLe(key(r[i]), key(r[j])) {
      if i == 0 && j > 1 {
        LexLeTransitive(key(x), key(s[0]), key(s[j - 1]));
      }
    }
  }

  /** x whose key is above the first key goes into the rest; the first element stays in front. */
  lemma InsertBehind<T>(x: T, s: seq<T>, rest: seq<T>, key: T -> string)
    requires SortedBy(s, key) && s != [] && !LexLe(key(x), key(s[0]))
    requires SortedBy(rest, key) && multiset(rest) == multiset(s[1..]) + multiset{x}
    ensures SortedBy([s[0]] + rest, key)
    ensures multiset([s[0]] + rest) == multiset(s) + multiset{x}
  {
    var r := [s[0]] + rest;
    assert s == [s[0]] + s[1..];
    LexLeTotal(key(x), key(s[0]));
    forall i, j | 0 <= i < j < |r| ensures LexLe(key(r[i]), key(r[j])) {
      if i == 0 {
        assert rest[j - 1] in multiset(s[1..]) + multiset{x};
        if rest[j - 1] in multiset(s[1..]) {
          var m :| 0 <= m < |s[1..]| && s[1..][m] == rest[j - 1];
          assert s[m + 1] == rest[j - 1];
        }
      }
    }
  }

  /** Insert x before the first element whose key is not below x's. */
  function Insert<T>(x: T, s: seq<T>, key: T -> string): (r: seq<T>)
    requires SortedBy(s, key)
    ensures multiset(r) == multiset(s) + multiset{x}
    ensures SortedBy(r, key)
    decreases |s|
  {
    if s == [] then [x]
    else if LexLe(key(x), key(s[0])) then
      InsertFront(x, s, key);
      assert s == [s[0]] + s[1..];
      [x] + s
    else
      var rest := Insert(x, s[1..], key);
      InsertBehind(x, s, rest, key);
      [s[0]] + rest
  }

  /** `sort_values(by=key)`: a permutation in key order (which of equal keys comes first is not modelled). */
  function SortBy<T>(s: seq<T>, key: T -> string): (r: seq<T>)
    ensures multiset(r) == multiset(s)
    ensures SortedBy(r, key)
    decreases |s|
  {
    if s == [] then []
    else
      assert s == [s[0]] + s[1..];
      Insert(s[0], SortBy(s[1..], key), key)
  }

  function PointKey(o: StoredPoint): string {
    o.key
  }

  function SummaryKey(o: StoredSummary): string {
    o.key
  }
}
