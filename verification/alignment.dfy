/**
 Feature alignment: reshaping the sparse raw record into the one-row table the
 fitted pipeline expects. The frame is the DataFrame's single row, a map from
 column name to cell; each loop of the source is one left fold below, and
 `Align` composes them in the source's order. `ExpectedValue` states, column by
 column and independently of the loops, what the aligned row holds, and
 `Align`'s contract ties the two together.
 */
module Alignment {
  import opened Values
  import opened Schema

  /** The single row of a DataFrame: column name to cell. */
  type Frame = map<string, Value>

  /** One column of the aligned row, in the order the pipeline expects. */
  datatype Cell = Cell(column: string, value: Value)

  /** The one failure alignment can raise: `df[col]` on a categorical column
      that is neither in the raw record nor among the expected columns
      (a pandas `KeyError`). */
  datatype AlignError = MissingColumn(column: string)

  /** The sentinel a missing categorical column is filled with. */
  const MissingCategory: string := "No"

  /** The fill value for a missing expected column. */
  function Default(col: string, cats: seq<string>): Value
  {
    if col in cats then Str(MissingCategory) else Num(0.0)
  }

  function Columns(row: seq<Cell>): (names: seq<string>)
    ensures |names| == |row|
    ensures forall i :: 0 <= i < |row| ==> names[i] == row[i].column
  {
    seq(|row|, i requires 0 <= i < |row| => row[i].column)
  }

  /** First loop: every listed column absent from the frame is added with its
      default; columns already present keep their cells. */
  function FillMissing(df: Frame, cols: seq<string>, cats: seq<string>): (r: Frame)
    ensures r.Keys == df.Keys + set c | c in cols
    ensures forall k :: k in df ==> r[k] == df[k]
    ensures forall k :: k in cols && k !in df ==> r[k] == Default(k, cats)
    decreases |cols|
  {
    if |cols| == 0 then df
    else
      var next := if cols[0] in df then df else df[cols[0] := Default(cols[0], cats)];
      FillMissing(next, cols[1..], cats)
  }

  /** Second loop: every categorical column is cast to text. It fails on the
      first categorical column the frame lacks, and only then. */
  function CastCategorical(df: Frame, cats: seq<string>, show: Value -> string): (r: Result<Frame, AlignError>)
    ensures r.Success? <==> forall c :: c in cats ==> c in df
    ensures r.Success? ==> r.value.Keys == df.Keys
    ensures r.Success? ==> forall k :: k in df && k in cats ==> r.value[k] == Str(AsText(df[k], show))
    ensures r.Success? ==> forall k :: k in df && k !in cats ==> r.value[k] == df[k]
    ensures r.Failure? ==> r.error.column in cats && r.error.column !in df
    ensures r.Failure? ==>
              exists i :: 0 <= i < |cats| && cats[i] == r.error.column && forall j :: 0 <= j < i ==> cats[j] in df
    decreases |cats|
  {
    if |cats| == 0 then Success(df)
    else if cats[0] !in df then Failure(MissingColumn(cats[0]))
    else
      var r := CastCategorical(df[cats[0] := Str(AsText(df[cats[0]], show))], cats[1..], show);
      if r.Failure? then
        var i :| 0 <= i < |cats[1..]| && cats[1..][i] == r.error.column
                 && forall j :: 0 <= j < i ==> cats[1..][j] in df[cats[0] := Str(AsText(df[cats[0]], show))];
        assert cats[i + 1] == r.error.column;
        r
      else
        assert forall c :: c in cats ==> c == cats[0] || c in cats[1..];
        r
  }

  /** Third loop: every listed column that is not categorical is coerced to a
      number; all other cells are left alone. */
  function CoerceNumeric(df: Frame, cols: seq<string>, cats: seq<string>, parse: Value -> Option<real>): (r: Frame)
    requires forall c :: c in cols ==> c in df
    ensures r.Keys == df.Keys
    ensures forall k :: k in cols && k !in cats ==> r[k] == Num(AsNumber(df[k], parse))
    ensures forall k :: k in df && (k !in cols || k in cats) ==> r[k] == df[k]
    decreases |cols|
  {
    if |cols| == 0 then df
    else
      var next := if cols[0] in cats then df else df[cols[0] := Num(AsNumber(df[cols[0]], parse))];
      CoerceNumeric(next, cols[1..], cats, parse)
  }

  /** `df[cols]`: the listed columns, in the listed order. */
  function SelectColumns(df: Frame, cols: seq<string>): (row: seq<Cell>)
    requires forall c :: c in cols ==> c in df
    ensures Columns(row) == cols
    ensures forall i :: 0 <= i < |cols| ==> row[i].value == df[cols[i]]
  {
    seq(|cols|, i requires 0 <= i < |cols| => Cell(cols[i], df[cols[i]]))
  }

  /** What the aligned row holds in column `col`, stated per column: a
      categorical column holds text (the supplied value cast to text, or the
      sentinel), any other column holds a number (the supplied value coerced,
      or 0). */
  function ExpectedValue(col: string, raw: Frame, cats: seq<string>,
                         show: Value -> string, parse: Value -> Option<real>): Value
  {
    if col in cats then Str(if col in raw then AsText(raw[col], show) else MissingCategory)
    else Num(if col in raw then AsNumber(raw[col], parse) else 0.0)
  }

  /** After the three loops, every expected column holds its reference value. */
  lemma StagesYieldExpectedValues(raw: Frame, expected: seq<string>, cats: seq<string>,
                                  show: Value -> string, parse: Value -> Option<real>, typed: Frame)
    requires CastCategorical(FillMissing(raw, expected, cats), cats, show) == Success(typed)
    ensures forall c :: c in expected ==> c in typed
    ensures forall c :: c in expected ==>
              CoerceNumeric(typed, expected, cats, parse)[c] == ExpectedValue(c, raw, cats, show, parse)
  {
  }

  /** The whole alignment block: discover the categorical columns, fill,
      cast, coerce and select. */
  function Align(raw: Frame, prep: Preprocessor, show: Value -> string, parse: Value -> Option<real>)
    : (r: Result<seq<Cell>, AlignError>)
    ensures r.Success? <==>
              forall c :: c in CategoricalColumns(prep) ==> c in prep.featureNamesIn || c in raw
    ensures r.Failure? ==>
              && r.error.column in CategoricalColumns(prep)
              && r.error.column !in prep.featureNamesIn
              && r.error.column !in raw
    ensures r.Success? ==> Columns(r.value) == prep.featureNamesIn
    ensures r.Success? ==>
              forall i :: 0 <= i < |r.value| ==>
                r.value[i].value == ExpectedValue(prep.featureNamesIn[i], raw, CategoricalColumns(prep), show, parse)
  {
    var expected := prep.featureNamesIn;
    var cats := CategoricalColumns(prep);
    var filled := FillMissing(raw, expected, cats);
    match CastCategorical(filled, cats, show)
    case Failure(e) => Failure(e)
    case Success(typed) =>
      StagesYieldExpectedValues(raw, expected, cats, show, parse, typed);
      var coerced := CoerceNumeric(typed, expected, cats, parse);
      Success(SelectColumns(coerced, expected))
  }

  /** A successful alignment is characterised by the per-column reference: a
      row is the aligned row exactly when it has the expected columns in the
      expected order and holds the reference value in each. */
  lemma AlignMatchesReference(raw: Frame, prep: Preprocessor, show: Value -> string,
                              parse: Value -> Option<real>, row: seq<Cell>)
    requires Align(raw, prep, show, parse).Success?
    ensures Align(raw, prep, show, parse).value == row <==>
              && Columns(row) == prep.featureNamesIn
              && forall i :: 0 <= i < |row| ==>
                   row[i].value == ExpectedValue(prep.featureNamesIn[i], raw, CategoricalColumns(prep), show, parse)
  {
  }

  /** Alignment cannot fail when every categorical column is an expected
      column, which is how a fitted pipeline is built. */
  lemma AlignSucceedsOnFittedSchema(raw: Frame, prep: Preprocessor,
                                    show: Value -> string, parse: Value -> Option<real>)
    requires forall c :: c in CategoricalColumns(prep) ==> c in prep.featureNamesIn
    ensures Align(raw, prep, show, parse).Success?
  {
  }

  /** Raw fields the pipeline does not expect do not reach the aligned row. */
  lemma AlignDropsExtraFields(raw: Frame, prep: Preprocessor, show: Value -> string,
                              parse: Value -> Option<real>, row: seq<Cell>)
    requires Align(raw, prep, show, parse) == Success(row)
    ensures forall k, i :: k in raw && k !in prep.featureNamesIn && 0 <= i < |row| ==> row[i].column != k
  {
  }

  /** An expected column missing from the raw record holds "No" when it is
      categorical and 0 otherwise. */
  lemma AlignFillsDefaults(raw: Frame, prep: Preprocessor, show: Value -> string,
                           parse: Value -> Option<real>, row: seq<Cell>)
    requires Align(raw, prep, show, parse) == Success(row)
    ensures forall i :: 0 <= i < |row| && row[i].column !in raw && row[i].column in CategoricalColumns(prep) ==>
              row[i].value == Str("No")
    ensures forall i :: 0 <= i < |row| && row[i].column !in raw && row[i].column !in CategoricalColumns(prep) ==>
              row[i].value == Num(0.0)
  {
  }

  /** Every categorical cell is text; a supplied string is kept verbatim and
      any other supplied value is printed. */
  lemma AlignCategoricalCellsAreText(raw: Frame, prep: Preprocessor, show: Value -> string,
                                     parse: Value -> Option<real>, row: seq<Cell>)
    requires Align(raw, prep, show, parse) == Success(row)
    ensures forall i :: 0 <= i < |row| && row[i].column in CategoricalColumns(prep) ==> row[i].value.Str?
    ensures forall i :: 0 <= i < |row| && row[i].column in CategoricalColumns(prep) && row[i].column in raw ==>
              row[i].value == Str(AsText(raw[row[i].column], show))
    ensures forall i, s :: 0 <= i < |row| && row[i].column in CategoricalColumns(prep) &&
                           row[i].column in raw && raw[row[i].column] == Str(s) ==>
              row[i].value == Str(s)
  {
  }

  /** Numeric coercion never fails: every non-categorical cell is a number, a
      supplied number is kept, a value that parses becomes its parse, and a
      value that does not parse becomes 0. */
  lemma AlignNumericCoercionIsTotal(raw: Frame, prep: Preprocessor, show: Value -> string,
                                    parse: Value -> Option<real>, row: seq<Cell>)
    requires Align(raw, prep, show, parse) == Success(row)
    ensures forall i :: 0 <= i < |row| && row[i].column !in CategoricalColumns(prep) ==> row[i].value.Num?
    ensures forall i, x :: 0 <= i < |row| && row[i].column !in CategoricalColumns(prep) &&
                           row[i].column in raw && raw[row[i].column] == Num(x) ==>
              row[i].value == Num(x)
    ensures forall i, x :: 0 <= i < |row| && row[i].column !in CategoricalColumns(prep) &&
                           row[i].column in raw && !raw[row[i].column].Num? &&
                           parse(raw[row[i].column]) == Some(x) ==>
              row[i].value == Num(x)
    ensures forall i :: 0 <= i < |row| && row[i].column !in CategoricalColumns(prep) &&
                        row[i].column in raw && !raw[row[i].column].Num? &&
                        parse(raw[row[i].column]) == None ==>
              row[i].value == Num(0.0)
  {
  }

  /** The aligned row read back as a record, column name to cell. */
  function RowRecord(row: seq<Cell>): (r: Frame)
    ensures forall i :: 0 <= i < |row| ==> row[i].column in r
    ensures forall c :: c in r ==> exists i :: 0 <= i < |row| && row[i].column == c && r[c] == row[i].value
    decreases |row|
  {
    if |row| == 0 then map[]
    else
      var init := RowRecord(row[..|row| - 1]);
      var last := row[|row| - 1];
      assert forall i :: 0 <= i < |row| - 1 ==> row[i] == row[..|row| - 1][i];
      init[last.column := last.value]
  }

  /** A reference cell is a fixed point: aligning a column whose supplied
      cell is already its reference value gives that value back. */
  lemma ExpectedValueIsFixedPoint(c: string, raw: Frame, again: Frame, cats: seq<string>,
                                  show: Value -> string, parse: Value -> Option<real>)
    requires c in again && again[c] == ExpectedValue(c, raw, cats, show, parse)
    ensures ExpectedValue(c, again, cats, show, parse) == again[c]
  {
  }

  /** Alignment is idempotent on a fitted schema: aligning the aligned row
      again gives the same row, because a cast or coerced cell is unchanged by
      a second cast or coercion. */
  lemma AlignIsIdempotent(raw: Frame, prep: Preprocessor, show: Value -> string,
                          parse: Value -> Option<real>, row: seq<Cell>)
    requires Align(raw, prep, show, parse) == Success(row)
    requires forall c :: c in CategoricalColumns(prep) ==> c in prep.featureNamesIn
    ensures Align(RowRecord(row), prep, show, parse) == Success(row)
  {
    var again := RowRecord(row);
    var expected := prep.featureNamesIn;
    var cats := CategoricalColumns(prep);
    assert Columns(row) == expected;
    assert forall i :: 0 <= i < |row| ==> row[i].column == expected[i];
    assert forall i :: 0 <= i < |row| ==> row[i].value == ExpectedValue(expected[i], raw, cats, show, parse);
    forall i | 0 <= i < |row|
      ensures row[i].value == ExpectedValue(expected[i], again, cats, show, parse)
    {
      var c := expected[i];
      var j :| 0 <= j < |row| && row[j].column == c && again[c] == row[j].value;
      ExpectedValueIsFixedPoint(c, raw, again, cats, show, parse);
    }
    AlignMatchesReference(again, prep, show, parse, row);
  }

  /** Without a sub-transformer named "cat...", alignment always succeeds and
      every expected column is numeric. */
  lemma AlignWithoutCategoricalTransformer(raw: Frame, prep: Preprocessor, show: Value -> string,
                                           parse: Value -> Option<real>)
    requires forall i :: 0 <= i < |prep.transformers| ==> !IsCategoricalName(prep.transformers[i].name)
    ensures Align(raw, prep, show, parse).Success?
    ensures forall i :: 0 <= i < |Align(raw, prep, show, parse).value| ==>
              Align(raw, prep, show, parse).value[i].value.Num?
  {
  }
}
