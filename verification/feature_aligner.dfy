/** The feature aligner: one raw claim record becomes the fixed, ordered feature
    row the classifier was trained on. The pipeline follows the pandas steps of
    `preprocess_input`: one-hot encode every non-numeric field, add every
    expected column that is still missing with value 0, then project onto the
    expected columns in their order. */
module FeatureAligner {
  import opened Records

  /** The columns of a one-row frame, keyed by label. */
  type Frame = map<string, Value>

  /** A feature row, column `i` labelled with the `i`-th expected column. */
  type FeatureVector = seq<Field>

  /** Label of the indicator column for categorical `field` taking value `v`:
      the field name as prefix, `_` as separator, the value's text after it. */
  function IndicatorName(field: string, v: Value): string {
    field + "_" + ValueText(v)
  }

  /** The single column a field contributes to a one-row frame after one-hot
      encoding: a numeric field passes through under its own name, any other
      field becomes its indicator column set to 1. */
  function Encode(f: Field, numeric: seq<string>): Field {
    if f.name in numeric then f else Field(IndicatorName(f.name, f.value), Num(1))
  }

  /** Some field of the record encodes to exactly `col`. */
  predicate ProducedBy(record: Record, numeric: seq<string>, col: Field) {
    exists k :: 0 <= k < |record| && Encode(record[k], numeric) == col
  }

  /** One-hot encoding of a one-row record. When two fields produce the same
      label the later one is kept. */
  function GetDummies(record: Record, numeric: seq<string>): (frame: Frame)
    ensures forall k :: 0 <= k < |record| ==> Encode(record[k], numeric).name in frame
    ensures forall c :: c in frame ==> ProducedBy(record, numeric, Field(c, frame[c]))
    decreases |record|
  {
    if record == [] then map[]
    else
      var init := record[..|record| - 1];
      var col := Encode(record[|record| - 1], numeric);
      var frame := GetDummies(init, numeric);
      assert forall k :: 0 <= k < |init| ==> init[k] == record[k];
      var full := frame[col.name := col.value];
      assert forall c :: c in full ==> ProducedBy(record, numeric, Field(c, full[c])) by {
        forall c | c in full
          ensures ProducedBy(record, numeric, Field(c, full[c]))
        {
          if c == col.name {
            assert Encode(record[|record| - 1], numeric) == Field(c, full[c]);
          } else {
            var k :| 0 <= k < |init| && Encode(init[k], numeric) == Field(c, frame[c]);
            assert Encode(record[k], numeric) == Field(c, full[c]);
          }
        }
      }
      full
  }

  /** Adds every expected column the frame lacks, with value 0. */
  function AddMissing(frame: Frame, expected: seq<string>): (full: Frame)
    ensures forall i :: 0 <= i < |expected| ==> expected[i] in full
    ensures forall c :: c in frame ==> c in full && full[c] == frame[c]
    ensures forall c :: c in full && c !in frame ==> full[c] == Num(0)
    ensures full.Keys == frame.Keys + (set i | 0 <= i < |expected| :: expected[i])
  {
    var missing := (set c | c in expected) - frame.Keys;
    frame + map c | c in missing :: Num(0)
  }

  /** Projects a frame that holds every expected column onto those columns,
      in their order. */
  function Select(frame: Frame, expected: seq<string>): (row: FeatureVector)
    requires forall i :: 0 <= i < |expected| ==> expected[i] in frame
    ensures |row| == |expected|
    ensures forall i :: 0 <= i < |expected| ==> row[i] == Field(expected[i], frame[expected[i]])
  {
    seq(|expected|, i requires 0 <= i < |expected| => Field(expected[i], frame[expected[i]]))
  }

  /** The aligned feature row for a raw record. Whatever the record holds, the
      row has one column per expected column, labelled in the expected order;
      a column no field produces is 0, and every other column carries the value
      some field produced under that label. */
  function Align(record: Record, expected: seq<string>, numeric: seq<string>): (row: FeatureVector)
    ensures |row| == |expected|
    ensures forall i :: 0 <= i < |row| ==> row[i].name == expected[i]
    ensures forall i :: 0 <= i < |row| &&
                        (forall k :: 0 <= k < |record| ==> Encode(record[k], numeric).name != expected[i])
                        ==> row[i].value == Num(0)
    ensures forall i :: 0 <= i < |row| && row[i].value != Num(0) ==>
      exists k :: 0 <= k < |record| && Encode(record[k], numeric) == row[i]
  {
    Select(AddMissing(GetDummies(record, numeric), expected), expected)
  }

  /** Reference reading of a single column, independent of frames: the value
      the last field producing label `c` gives it, or None when no field does. */
  function Produced(record: Record, numeric: seq<string>, c: string): (r: Option<Value>)
    ensures r.None? <==> forall k :: 0 <= k < |record| ==> Encode(record[k], numeric).name != c
    ensures r.Some? ==> exists k :: 0 <= k < |record| && Encode(record[k], numeric) == Field(c, r.value)
    decreases |record|
  {
    if record == [] then None
    else
      var init := record[..|record| - 1];
      var col := Encode(record[|record| - 1], numeric);
      if col.name == c then Some(col.value)
      else
        var r := Produced(init, numeric, c);
        assert forall k :: 0 <= k < |init| ==> init[k] == record[k];
        r
  }

  /** The record assumptions under which labels cannot collide: field names are
      distinct (the record is a dictionary) and none contains the separator. */
  predicate Unambiguous(record: Record) {
    && DistinctNames(record)
    && forall k :: 0 <= k < |record| ==> '_' !in record[k].name
  }

  /** The encoded frame, read column by column, is the reference reading. */
  lemma {:induction false} GetDummiesMatchesProduced(record: Record, numeric: seq<string>, c: string)
    ensures c in GetDummies(record, numeric) <==> Produced(record, numeric, c).Some?
    ensures c in GetDummies(record, numeric) ==>
      GetDummies(record, numeric)[c] == Produced(record, numeric, c).value
    decreases |record|
  {
    if record != [] {
      GetDummiesMatchesProduced(record[..|record| - 1], numeric, c);
    }
  }

  /** For every input, column `i` of the aligned row is the reference reading of
      `expected[i]`, and 0 when nothing produces it. */
  lemma AlignMatchesProduced(record: Record, expected: seq<string>, numeric: seq<string>)
    ensures forall i :: 0 <= i < |expected| ==>
      Align(record, expected, numeric)[i] == Field(expected[i], Produced(record, numeric, expected[i]).GetOr(Num(0)))
  {
    forall i | 0 <= i < |expected|
      ensures Align(record, expected, numeric)[i] == Field(expected[i], Produced(record, numeric, expected[i]).GetOr(Num(0)))
    {
      GetDummiesMatchesProduced(record, numeric, expected[i]);
    }
  }

  /** With separator-free field names, an indicator label determines both the
      field it belongs to and the text of the value that fired it. */
  lemma IndicatorNameInjective(f: string, a: Value, g: string, b: Value)
    requires '_' !in f && '_' !in g
    requires IndicatorName(f, a) == IndicatorName(g, b)
    ensures f == g && ValueText(a) == ValueText(b)
  {
    var s := IndicatorName(f, a);
    assert s == IndicatorName(g, b);
    assert forall j :: 0 <= j < |f| ==> s[j] == f[j];
    assert forall j :: 0 <= j < |g| ==> s[j] == g[j];
    assert s[|f|] == '_' && s[|g|] == '_';
    assert f == s[..|f|] == g;
    assert ValueText(a) == s[|f| + 1..] == ValueText(b);
  }

  /** A separator-free name is never an indicator label. */
  lemma PlainNameIsNotIndicator(n: string, f: string, v: Value)
    requires '_' !in n
    ensures n != IndicatorName(f, v)
  {
    assert IndicatorName(f, v)[|f|] == '_';
  }

  /** In an unambiguous record, distinct fields produce distinct labels. */
  lemma EncodedNamesDistinct(record: Record, numeric: seq<string>, j: int, k: int)
    requires Unambiguous(record)
    requires 0 <= j < |record| && 0 <= k < |record| && j != k
    ensures Encode(record[j], numeric).name != Encode(record[k], numeric).name
  {
    var fj, fk := record[j], record[k];
    assert fj.name != fk.name;
    if fj.name !in numeric && fk.name !in numeric {
      if IndicatorName(fj.name, fj.value) == IndicatorName(fk.name, fk.value) {
        IndicatorNameInjective(fj.name, fj.value, fk.name, fk.value);
      }
    } else if fj.name !in numeric {
      PlainNameIsNotIndicator(fk.name, fj.name, fj.value);
    } else if fk.name !in numeric {
      PlainNameIsNotIndicator(fj.name, fk.name, fk.value);
    }
  }

  /** In an unambiguous record, the column a field produces carries exactly that
      field's encoded value in the aligned row, wherever it is expected. */
  lemma AlignKeepsProducedColumn(record: Record, expected: seq<string>, numeric: seq<string>, k: int, i: int)
    requires Unambiguous(record)
    requires 0 <= k < |record| && 0 <= i < |expected|
    requires expected[i] == Encode(record[k], numeric).name
    ensures Align(record, expected, numeric)[i] == Encode(record[k], numeric)
  {
    AlignMatchesProduced(record, expected, numeric);
    var r := Produced(record, numeric, expected[i]);
    assert r.Some?;
    var j :| 0 <= j < |record| && Encode(record[j], numeric) == Field(expected[i], r.value);
    if j != k {
      EncodedNamesDistinct(record, numeric, j, k);
    }
  }

  /** A field listed as numeric reaches the aligned row with its raw value
      unchanged, under its own name. */
  lemma AlignPassesNumericThrough(record: Record, expected: seq<string>, numeric: seq<string>, k: int, i: int)
    requires Unambiguous(record)
    requires 0 <= k < |record| && 0 <= i < |expected|
    requires record[k].name in numeric
    requires expected[i] == record[k].name
    ensures Align(record, expected, numeric)[i].value == record[k].value
  {
    AlignKeepsProducedColumn(record, expected, numeric, k, i);
  }

  /** For a categorical field with value `v`, the expected column `field_v`
      is 1. */
  lemma AlignIndicatorFires(record: Record, expected: seq<string>, numeric: seq<string>, k: int, i: int)
    requires Unambiguous(record)
    requires 0 <= k < |record| && 0 <= i < |expected|
    requires record[k].name !in numeric
    requires expected[i] == IndicatorName(record[k].name, record[k].value)
    ensures Align(record, expected, numeric)[i].value == Num(1)
  {
    AlignKeepsProducedColumn(record, expected, numeric, k, i);
  }

  /** For a categorical field with value `v`, an expected column `field_w` for
      any other value text `w` is 0: exactly one indicator fires per field. */
  lemma AlignOtherIndicatorsSilent(record: Record, expected: seq<string>, numeric: seq<string>, k: int, other: Value, i: int)
    requires Unambiguous(record)
    requires 0 <= k < |record| && 0 <= i < |expected|
    requires record[k].name !in numeric
    requires ValueText(other) != ValueText(record[k].value)
    requires expected[i] == IndicatorName(record[k].name, other)
    ensures Align(record, expected, numeric)[i].value == Num(0)
  {
    forall j | 0 <= j < |record|
      ensures Encode(record[j], numeric).name != expected[i]
    {
      var fj := record[j];
      if fj.name in numeric {
        PlainNameIsNotIndicator(fj.name, record[k].name, other);
      } else if IndicatorName(fj.name, fj.value) == expected[i] {
        IndicatorNameInjective(fj.name, fj.value, record[k].name, other);
      }
    }
  }

  /** Taking out a field whose column is not expected changes nothing in the
      reference reading of any other label. */
  lemma {:induction false} ProducedIgnoresUnexpected(a: Record, f: Field, b: Record, numeric: seq<string>, c: string)
    requires c != Encode(f, numeric).name
    ensures Produced(a + [f] + b, numeric, c) == Produced(a + b, numeric, c)
    decreases |b|
  {
    if b == [] {
      assert (a + [f] + b)[..|a + [f] + b| - 1] == a;
      assert a + b == a;
    } else {
      var b' := b[..|b| - 1];
      ProducedIgnoresUnexpected(a, f, b', numeric, c);
      assert (a + [f] + b)[..|a + [f] + b| - 1] == a + [f] + b';
      assert (a + b)[..|a + b| - 1] == a + b';
    }
  }

  /** A field whose produced column is not among the expected columns, such as
      an indicator for a value outside the training vocabulary, is dropped
      silently: the aligned row is the one the record without it gives. */
  lemma AlignDropsUnexpectedColumn(a: Record, f: Field, b: Record, expected: seq<string>, numeric: seq<string>)
    requires Encode(f, numeric).name !in expected
    ensures Align(a + [f] + b, expected, numeric) == Align(a + b, expected, numeric)
  {
    AlignMatchesProduced(a + [f] + b, expected, numeric);
    AlignMatchesProduced(a + b, expected, numeric);
    forall i | 0 <= i < |expected|
      ensures Produced(a + [f] + b, numeric, expected[i]) == Produced(a + b, numeric, expected[i])
    {
      ProducedIgnoresUnexpected(a, f, b, numeric, expected[i]);
    }
  }
}
