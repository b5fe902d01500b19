/**
 * The one-off preparation of the training data (updating_csv.py, line 6): the
 * multi-class `target` column of the heart-disease table becomes a binary one,
 * 0 staying 0 and every other class becoming 1, in every row and in place.
 */
module TargetBinarisation {

  /** The lambda applied to each target: 0 for "no disease", 1 for any disease class. */
  function Binarize(x: int): (b: int)
    ensures b == 0 || b == 1
    ensures b == 0 <==> x == 0
  {
    if x == 0 then 0 else 1
  }

  /** One row of the table: the columns other than `target`, of any shape, and the target. */
  datatype Patient<F> = Patient(features: F, target: int)

  predicate IsBinary(x: int) {
    x == 0 || x == 1
  }

  /** The `target` column of a table, in row order. */
  function Targets<F>(rows: seq<Patient<F>>): (t: seq<int>)
    ensures |t| == |rows|
    ensures forall i :: 0 <= i < |rows| ==> t[i] == rows[i].target
  {
    if rows == [] then [] else [rows[0].target] + Targets(rows[1..])
  }

  /** The column after `apply`: one binary target per input target, in the same order. */
  function BinarizeColumn(targets: seq<int>): (r: seq<int>)
    ensures |r| == |targets|
    ensures forall i :: 0 <= i < |r| ==> IsBinary(r[i]) && (r[i] == 0 <==> targets[i] == 0)
  {
    if targets == [] then [] else [Binarize(targets[0])] + BinarizeColumn(targets[1..])
  }

  /** The table after the assignment to `df['target']`: same rows, same order, only the targets replaced. */
  function BinarizeTable<F>(rows: seq<Patient<F>>): (r: seq<Patient<F>>)
    ensures |r| == |rows|
    ensures forall i :: 0 <= i < |r| ==>
      && r[i].features == rows[i].features
      && IsBinary(r[i].target)
      && (r[i].target == 0 <==> rows[i].target == 0)
  {
    if rows == [] then []
    else [Patient(rows[0].features, Binarize(rows[0].target))] + BinarizeTable(rows[1..])
  }

  /** Rewriting the table rewrites exactly its target column. */
  lemma {:induction false} TableRewritesTargetColumn<F>(rows: seq<Patient<F>>)
    ensures Targets(BinarizeTable(rows)) == BinarizeColumn(Targets(rows))
  {
    if rows != [] {
      TableRewritesTargetColumn(rows[1..]);
      assert BinarizeTable(rows)[1..] == BinarizeTable(rows[1..]);
      assert Targets(rows)[1..] == Targets(rows[1..]);
    }
  }

  /** A column that is already binary is left as it is. */
  lemma {:induction false} BinaryColumnUnchanged(targets: seq<int>)
    requires forall i :: 0 <= i < |targets| ==> IsBinary(targets[i])
    ensures BinarizeColumn(targets) == targets
  {
    if targets != [] {
      BinaryColumnUnchanged(targets[1..]);
    }
  }

  /** Running the conversion a second time changes nothing. */
  lemma TableIdempotent<F>(rows: seq<Patient<F>>)
    ensures BinarizeTable(BinarizeTable(rows)) == BinarizeTable(rows)
  {
    var once := BinarizeTable(rows);
    var twice := BinarizeTable(once);
    assert forall i :: 0 <= i < |twice| ==> twice[i] == once[i] by {
      forall i | 0 <= i < |twice|
        ensures twice[i] == once[i]
      {
        assert IsBinary(once[i].target);
      }
    }
  }

  /** How often `v` occurs in a column. */
  function Count(targets: seq<int>, v: int): (n: nat)
    ensures n <= |targets|
  {
    if targets == [] then 0 else (if targets[0] == v then 1 else 0) + Count(targets[1..], v)
  }

  /**
   * The class distribution printed after the conversion: the zeros are those of the
   * input, every other row counts as a one, and no other value occurs.
   */
  lemma {:induction false} BinaryDistribution(targets: seq<int>)
    ensures Count(BinarizeColumn(targets), 0) == Count(targets, 0)
    ensures Count(BinarizeColumn(targets), 1) == |targets| - Count(targets, 0)
    ensures forall v :: v != 0 && v != 1 ==> Count(BinarizeColumn(targets), v) == 0
  {
    if targets != [] {
      BinaryDistribution(targets[1..]);
      assert BinarizeColumn(targets)[1..] == BinarizeColumn(targets[1..]);
      forall v | v != 0 && v != 1
        ensures Count(BinarizeColumn(targets), v) == 0
      {
      }
    }
  }
}
