/**
 * The parts of a pandas DataFrame the pipeline relies on: cells that are numbers, strings or
 * missing (NaN), column lookup by name, and `rename(columns=...)`.
 */
module Table {
  import opened Wrappers

  /** A cell as read from CSV: a number, a string, or missing (NaN). */
  datatype Value = Missing | Num(n: real) | Text(s: string)

  /** A string cell as an optional string; a missing or numeric cell gives None. */
  function AsText(v: Value): (r: Option<string>)
    ensures r.Some? <==> v.Text?
    ensures r.Some? ==> v == Text(r.value)
  {
    if v.Text? then Some(v.s) else None
  }

  /** `df[name]`: the position of the first column with that name; None where pandas raises KeyError. */
  function ColumnIndex(columns: seq<string>, name: string): (r: Option<nat>)
    ensures r.None? <==> name !in columns
    ensures r.Some? ==> r.value < |columns| && columns[r.value] == name
    ensures r.Some? ==> forall j :: 0 <= j < r.value ==> columns[j] != name
    decreases |columns|
  {
    if columns == [] then None
    else if columns[0] == name then Some(0)
    else match ColumnIndex(columns[1..], name)
      case None => None
      case Some(j) => Some(j + 1)
  }

  /**
   * `rename(columns=mapping)`: every column whose name is a key takes the mapped name, all at
   * once; other columns keep theirs.
   */
  function RenameColumns(columns: seq<string>, mapping: map<string, string>): (r: seq<string>)
    ensures |r| == |columns|
    ensures forall i :: 0 <= i < |r| ==> columns[i] !in mapping ==> r[i] == columns[i]
    ensures forall i :: 0 <= i < |r| ==> columns[i] in mapping ==> r[i] == mapping[columns[i]]
  {
    seq(|columns|, i requires 0 <= i < |columns| => if columns[i] in mapping then mapping[columns[i]] else columns[i])
  }

  /** A rename whose keys are all absent changes nothing. */
  lemma RenameAbsentKeys(columns: seq<string>, mapping: map<string, string>)
    requires forall k :: k in mapping ==> k !in columns
    ensures RenameColumns(columns, mapping) == columns
  {
  }

  /** After a rename, a mapped-to name is present exactly when some renamed or kept column has it. */
  lemma {:induction false} RenamedPresent(columns: seq<string>, mapping: map<string, string>, old_: string)
    requires old_ in columns && old_ in mapping
    ensures mapping[old_] in RenameColumns(columns, mapping)
  {
    var i :| 0 <= i < |columns| && columns[i] == old_;
    assert RenameColumns(columns, mapping)[i] == mapping[old_];
  }

  /** Renaming leaves a column whose name is not a key where it was. */
  lemma RenameKeepsUnmapped(columns: seq<string>, mapping: map<string, string>, name: string)
    requires name in columns && name !in mapping
    ensures name in RenameColumns(columns, mapping)
  {
    var i :| 0 <= i < |columns| && columns[i] == name;
    assert RenameColumns(columns, mapping)[i] == name;
  }

  /** What a DataFrame access raises: a missing column, or `.values[0]` of an empty column. */
  datatype FrameError = KeyError(column: string) | IndexError

  /** The contents of a DataFrame: its column names and its rows, one cell per column. */
  datatype FrameData = FrameData(columns: seq<string>, rows: seq<seq<Value>>) {
    predicate Rectangular() {
      forall i :: 0 <= i < |rows| ==> |rows[i]| == |columns|
    }
  }

  /** `series.replace(from, to)` on column j: a cell equal to `from` becomes `to`, every other cell stays. */
  function ReplaceCells(rows: seq<seq<Value>>, j: nat, from: Value, to: Value): (r: seq<seq<Value>>)
    requires forall i :: 0 <= i < |rows| ==> j < |rows[i]|
    ensures |r| == |rows|
    ensures forall i :: 0 <= i < |r| ==> |r[i]| == |rows[i]|
    ensures forall i, m :: 0 <= i < |r| && 0 <= m < |r[i]| && m != j ==> r[i][m] == rows[i][m]
    ensures forall i :: 0 <= i < |r| ==> r[i][j] == (if rows[i][j] == from then to else rows[i][j])
  {
    seq(|rows|, i requires 0 <= i < |rows| => rows[i][j := if rows[i][j] == from then to else rows[i][j]])
  }

  /** Once `from` has been replaced by a different value, replacing it again changes nothing. */
  lemma ReplaceCellsIdempotent(rows: seq<seq<Value>>, j: nat, from: Value, to: Value)
    requires forall i :: 0 <= i < |rows| ==> j < |rows[i]|
    requires from != to
    ensures ReplaceCells(ReplaceCells(rows, j, from, to), j, from, to) == ReplaceCells(rows, j, from, to)
  {
    var once := ReplaceCells(rows, j, from, to);
    var twice := ReplaceCells(once, j, from, to);
    forall i | 0 <= i < |once| ensures twice[i] == once[i] {
      assert |twice[i]| == |once[i]|;
    }
  }

  /**
   * `df[name] = df[name].replace(from, to)`: KeyError when the column is missing; otherwise the
   * first column of that name has its matching cells replaced.
   */
  function ReplaceInColumn(d: FrameData, name: string, from: Value, to: Value): (r: Result<FrameData, FrameError>)
    requires d.Rectangular()
    ensures r.Err? <==> name !in d.columns
    ensures r.Err? ==> r.error == KeyError(name)
    ensures r.Ok? ==> r.value.columns == d.columns && |r.value.rows| == |d.rows| && r.value.Rectangular()
  {
    match ColumnIndex(d.columns, name)
    case None => Err(KeyError(name))
    case Some(j) => Ok(FrameData(d.columns, ReplaceCells(d.rows, j, from, to)))
  }

  /** A pandas DataFrame that is changed in place: `rename(..., inplace=True)` and column assignment. */
  class DataFrame {
    var columns: seq<string>
    var rows: seq<seq<Value>>

    function Data(): FrameData
      reads this
    {
      FrameData(columns, rows)
    }

    /** A new frame holding the given contents, as `pd.read_csv` builds one from a decoded upload. */
    constructor Of(d: FrameData)
      ensures Data() == d
    {
      columns := d.columns;
      rows := d.rows;
    }

    /** `df.copy()`: a new frame holding the same contents. */
    constructor Copy(other: DataFrame)
      ensures Data() == other.Data()
    {
      columns := other.columns;
      rows := other.rows;
    }

    /** `df.rename(columns=mapping, inplace=True)`: the cells stay, the names change. */
    method Rename(mapping: map<string, string>)
      modifies this
      ensures Data() == FrameData(RenameColumns(old(columns), mapping), old(rows))
    {
      columns := RenameColumns(columns, mapping);
    }

    /** `df[name] = df[name].replace(from, to)`; on KeyError the frame is left as it was. */
    method ReplaceValue(name: string, from: Value, to: Value) returns (err: Option<FrameError>)
      requires Data().Rectangular()
      modifies this
      ensures var r := ReplaceInColumn(old(Data()), name, from, to);
        && (r.Ok? ==> err.None? && Data() == r.value)
        && (r.Err? ==> err == Some(r.error) && Data() == old(Data()))
    {
      var r := ReplaceInColumn(Data(), name, from, to);
      if r.Err? {
        err := Some(r.error);
      } else {
        err := None;
        rows := r.value.rows;
      }
    }
  }
}
