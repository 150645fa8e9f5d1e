/**
 * The pandas DataFrame operations the pipeline performs on its CSV data: a frame is
 * its column labels in order and its rows, each row mapping every name to a cell.
 */
module Frames {
  import opened JsonValues

  type Row = map<string, Cell>

  datatype Frame = Frame(columns: seq<string>, rows: seq<Row>) {
    /** Every row holds a cell for exactly the frame's columns. */
    ghost predicate Valid() {
      forall i, c :: 0 <= i < |rows| ==> (c in rows[i] <==> c in columns)
    }
  }

  /** `df[c] = v` for a new name c: the column is appended and every row gets v. */
  function AddConstantColumn(df: Frame, c: string, v: Cell): (r: Frame)
    requires df.Valid() && c !in df.columns
    ensures r.Valid() && r.columns == df.columns + [c] && |r.rows| == |df.rows|
    ensures forall i :: 0 <= i < |df.rows| ==> r.rows[i] == df.rows[i][c := v]
  {
    Frame(df.columns + [c], seq(|df.rows|, i requires 0 <= i < |df.rows| => df.rows[i][c := v]))
  }

  /** `df[labels]`: the frame restricted to `labels`, in that order (every name must exist). */
  function Select(df: Frame, labels: seq<string>): (r: Frame)
    requires df.Valid() && forall k :: 0 <= k < |labels| ==> labels[k] in df.columns
    ensures r.Valid() && r.columns == labels && |r.rows| == |df.rows|
    ensures forall i, c :: 0 <= i < |df.rows| && c in r.rows[i] ==> c in df.rows[i] && r.rows[i][c] == df.rows[i][c]
  {
    var keep := set c | c in labels;
    Frame(labels, seq(|df.rows|, i requires 0 <= i < |df.rows| => map c | c in df.rows[i] && c in keep :: df.rows[i][c]))
  }

  /** `df.drop(name, axis=1)` when `name` is a column, `df` unchanged otherwise. */
  function DropColumnIfPresent(df: Frame, name: string): (r: Frame)
    requires df.Valid()
    ensures r.Valid() && |r.rows| == |df.rows|
    ensures name !in df.columns ==> r == df
    ensures name !in r.columns
    ensures forall c :: c in r.columns <==> c in df.columns && c != name
    ensures forall i, c :: 0 <= i < |r.rows| && c in r.rows[i] ==> c in df.rows[i] && r.rows[i][c] == df.rows[i][c]
  {
    if name !in df.columns then df
    else
      var kept := Without(df.columns, name);
      Frame(kept, seq(|df.rows|, i requires 0 <= i < |df.rows| => df.rows[i] - {name}))
  }

  /** The labels in order, every copy of `name` removed. */
  function Without(labels: seq<string>, name: string): (r: seq<string>)
    ensures forall c :: c in r <==> c in labels && c != name
    ensures |r| <= |labels|
  {
    if labels == [] then []
    else (if labels[0] == name then [] else [labels[0]]) + Without(labels[1..], name)
  }

  /**
   * Aligning a frame with the training features: every feature that is not a column is
   * added filled with 0, then the frame is restricted to the features in their order.
   */
  method AlignFeatures(df: Frame, features: seq<string>) returns (aligned: Frame)
    requires df.Valid()
    ensures aligned.Valid() && aligned.columns == features && |aligned.rows| == |df.rows|
    ensures forall i :: 0 <= i < |df.rows| ==> aligned.rows[i].Keys == set c | c in features
    ensures forall i, c :: 0 <= i < |df.rows| && c in features && c in df.columns ==> aligned.rows[i][c] == df.rows[i][c]
    ensures forall i, c :: 0 <= i < |df.rows| && c in features && c !in df.columns ==> aligned.rows[i][c] == JInt(0)
  {
    var work := df;
    var j := 0;
    while j < |features|
      invariant 0 <= j <= |features|
      invariant work.Valid() && |work.rows| == |df.rows|
      invariant forall k :: 0 <= k < j ==> features[k] in work.columns
      invariant forall c :: c in work.columns ==> c in df.columns || c in features
      invariant forall c :: c in df.columns ==> c in work.columns
      invariant forall i, c :: 0 <= i < |df.rows| && c in df.columns ==> work.rows[i][c] == df.rows[i][c]
      invariant forall i, c :: 0 <= i < |df.rows| && c in work.columns && c !in df.columns ==> work.rows[i][c] == JInt(0)
    {
      if features[j] !in work.columns {
        work := AddConstantColumn(work, features[j], JInt(0));
      }
      j := j + 1;
    }
    aligned := Select(work, features);
  }
}
