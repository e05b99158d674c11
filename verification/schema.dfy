/**
 The part of the fitted pipeline that feature alignment inspects: the
 preprocessing step's fit-time input columns (`feature_names_in_`) and its
 fitted sub-transformers (`transformers_`), each a name plus the columns it was
 given. The categorical columns are those of the LAST sub-transformer whose
 lower-cased name starts with "cat"; with no such sub-transformer there are
 none, and every expected column is treated as numeric.
 */
module Schema {

  /** One `(name, transformer, columns)` entry of `transformers_`; the fitted
      transformer object itself is never looked at. */
  datatype Transformer = Transformer(name: string, columns: seq<string>)

  /** The pipeline's "prep" step, as far as alignment reads it. */
  datatype Preprocessor = Preprocessor(featureNamesIn: seq<string>, transformers: seq<Transformer>)

  /** Lower-casing of one character, for the ASCII letters. */
  function LowerChar(c: char): char
  {
    if 'A' <= c <= 'Z' then (c as int - 'A' as int + 'a' as int) as char else c
  }

  /** `str.lower()`, character by character. */
  function Lower(s: string): (r: string)
    ensures |r| == |s|
    ensures forall i :: 0 <= i < |s| ==> r[i] == LowerChar(s[i])
  {
    seq(|s|, i requires 0 <= i < |s| => LowerChar(s[i]))
  }

  /** `name.lower().startswith("cat")`. */
  predicate IsCategoricalName(name: string)
  {
    "cat" <= Lower(name)
  }

  /** The prefix test ignores case letter by letter: "cat", "Cat", "CAT",
      "cAt", ... all qualify, and nothing else does. */
  lemma CategoricalNameIgnoresCase(name: string)
    ensures IsCategoricalName(name) <==>
      && |name| >= 3
      && (name[0] == 'c' || name[0] == 'C')
      && (name[1] == 'a' || name[1] == 'A')
      && (name[2] == 't' || name[2] == 'T')
  {
  }

  /** Transformer `i` is a categorical one and no later transformer is. */
  ghost predicate IsLastCategorical(ts: seq<Transformer>, i: int)
  {
    && 0 <= i < |ts|
    && IsCategoricalName(ts[i].name)
    && forall j :: i < j < |ts| ==> !IsCategoricalName(ts[j].name)
  }

  /** The loop over `transformers_`: `current` is the value the loop variable
      holds before the remaining entries `ts` are visited, and each
      categorical entry overwrites it. */
  function LastCategoricalColumns(ts: seq<Transformer>, current: seq<string>): seq<string>
    decreases |ts|
  {
    if |ts| == 0 then current
    else LastCategoricalColumns(ts[1..], if IsCategoricalName(ts[0].name) then ts[0].columns else current)
  }

  /** The loop leaves its starting value alone when no entry is categorical,
      and otherwise ends holding the columns of the last categorical entry. */
  lemma {:induction false} LastCategoricalColumnsIsLastMatch(ts: seq<Transformer>, current: seq<string>)
    ensures (forall i :: 0 <= i < |ts| ==> !IsCategoricalName(ts[i].name)) ==>
              LastCategoricalColumns(ts, current) == current
    ensures (exists i :: 0 <= i < |ts| && IsCategoricalName(ts[i].name)) ==>
              exists i :: IsLastCategorical(ts, i) && LastCategoricalColumns(ts, current) == ts[i].columns
    decreases |ts|
  {
    if |ts| > 0 {
      var tail := ts[1..];
      var next := if IsCategoricalName(ts[0].name) then ts[0].columns else current;
      LastCategoricalColumnsIsLastMatch(tail, next);
      var cats := LastCategoricalColumns(ts, current);
      assert cats == LastCategoricalColumns(tail, next);
      if exists i :: 0 <= i < |tail| && IsCategoricalName(tail[i].name) {
        var k :| IsLastCategorical(tail, k) && cats == tail[k].columns;
        assert IsLastCategorical(ts, k + 1);
      } else {
        assert forall j :: 0 < j < |ts| ==> !IsCategoricalName(ts[j].name) by {
          forall j | 0 < j < |ts| ensures !IsCategoricalName(ts[j].name) {
            assert ts[j] == tail[j - 1];
          }
        }
        if IsCategoricalName(ts[0].name) {
          assert IsLastCategorical(ts, 0);
        }
      }
    }
  }

  /** The categorical columns of a preprocessor, starting from the empty list
      as the source does. */
  function CategoricalColumns(prep: Preprocessor): (cats: seq<string>)
    ensures (forall i :: 0 <= i < |prep.transformers| ==> !IsCategoricalName(prep.transformers[i].name)) ==>
              cats == []
    ensures (exists i :: 0 <= i < |prep.transformers| && IsCategoricalName(prep.transformers[i].name)) ==>
              exists i :: IsLastCategorical(prep.transformers, i) && cats == prep.transformers[i].columns
  {
    LastCategoricalColumnsIsLastMatch(prep.transformers, []);
    LastCategoricalColumns(prep.transformers, [])
  }
}
