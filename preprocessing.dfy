/** The dataset preparation script (services/preprocessing/preprocessing.py)
    as composed functions over the table's rows.

    The script reads a raw table, drops its first column, binarises the
    label (the last column), draws 400 rows of each class, shuffles them
    into an 800-row pool, one-hot encodes the pool's labels, splits the
    pool 80/20, reshapes the features to (rows x 178 x 1), and keeps the
    rows left after dropping the pool's index labels from the table.

    Randomness is an oracle. Every call in the script reseeds with 42, and
    each draws one permutation of its population: pandas `sample(n=k)` is
    numpy `choice(m, k, replace=False)`, the first k entries of a
    permutation of m; `sample(frac=1)` is a permutation of the pool; and
    `train_test_split` takes the first 160 entries of a permutation of the
    pool as the test rows and the next 640 as the train rows. The oracle
    `rng(m)` is that permutation of 0..m-1. */
module Preprocessing {
  import opened Wrappers
  import Vectors

  // ---------------------------------------------------------------------
  // Tables
  // ---------------------------------------------------------------------

  /** One cell of the CSV: a number or a text. */
  datatype Cell = Num(x: real) | Text(s: string)

  type Row = seq<Cell>

  /** A DataFrame: its number of columns and its rows, in positional order. */
  datatype Frame = Frame(width: nat, rows: seq<Row>)

  /** Every row has `w` cells. */
  predicate HasWidth(rows: seq<Row>, w: nat)
  {
    forall i :: 0 <= i < |rows| ==> |rows[i]| == w
  }

  /** Every row has one cell per column. */
  predicate Rectangular(f: Frame)
  {
    HasWidth(f.rows, f.width)
  }

  const SampleSize: nat := 400
  const PoolSize: nat := 800
  const TestSize: nat := 160
  const TrainSize: nat := 640
  const Timesteps: nat := 178

  const One := Num(1.0)
  const Zero := Num(0.0)

  /** Why the script aborts. */
  datatype PrepError =
    | NoLabelColumn                      // `iloc[:, -1]` on a table with no column
    | ClassTooSmall(cls: nat, rows: nat) // `sample(n=400)` on fewer than 400 rows
    | ReshapeMismatch(size: nat)         // `reshape(-1, 178, 1)` of a size 178 does not divide
    | IndexLabelMissing                  // `drop` of an index label the table does not have

  /** The label column: `iloc[:, -1]`. */
  function Label(r: Row): Cell
    requires |r| > 0
  {
    r[|r| - 1]
  }

  /** The feature columns: `iloc[:, :-1]`. */
  function Features(r: Row): Row
    requires |r| > 0
  {
    r[..|r| - 1]
  }

  predicate IsBinary(c: Cell)
  {
    c == Zero || c == One
  }

  /** Every row has a label column. */
  predicate Labelled(rows: seq<Row>)
  {
    forall i :: 0 <= i < |rows| ==> |rows[i]| > 0
  }

  /** Every row has a label column holding 0 or 1. */
  predicate BinaryLabelled(rows: seq<Row>)
  {
    forall i :: 0 <= i < |rows| ==> |rows[i]| > 0 && IsBinary(Label(rows[i]))
  }

  // ---------------------------------------------------------------------
  // Lines 68-73: drop the first column, binarise the label, partition
  // ---------------------------------------------------------------------

  /** `df.iloc[:, 1:]`: every row loses its first cell and keeps the
      others in order; a table without columns is left as it is. */
  function DropFirstColumn(f: Frame): (g: Frame)
    requires Rectangular(f)
    ensures Rectangular(g) && |g.rows| == |f.rows|
    ensures f.width > 0 ==> g.width == f.width - 1
    ensures f.width == 0 ==> g == f
    ensures f.width > 0 ==> forall i :: 0 <= i < |f.rows| ==> g.rows[i] == f.rows[i][1..]
  {
    if f.width == 0 then f
    else Frame(f.width - 1, seq(|f.rows|, i requires 0 <= i < |f.rows| => f.rows[i][1..]))
  }

  /** `lambda x: 1 if x == 1 else 0`. */
  function Binarise(c: Cell): Cell
  {
    if c == One then One else Zero
  }

  /** Line 70: the label column is overwritten, in place, by its
      binarisation; the feature columns are untouched. */
  function BinariseLabels(f: Frame): (g: Frame)
    requires Rectangular(f) && f.width > 0
    ensures Rectangular(g) && g.width == f.width && |g.rows| == |f.rows|
    ensures BinaryLabelled(g.rows)
    ensures forall i :: 0 <= i < |g.rows| ==>
              (Label(g.rows[i]) == One <==> Label(f.rows[i]) == One)
              && Features(g.rows[i]) == Features(f.rows[i])
  {
    var rows := seq(|f.rows|, i requires 0 <= i < |f.rows| => Features(f.rows[i]) + [Binarise(Label(f.rows[i]))]);
    assert forall i :: 0 <= i < |rows| ==> Features(rows[i]) == Features(f.rows[i]);
    Frame(f.width, rows)
  }

  /** `df[df.iloc[:, -1] == value]`: the rows whose label is `value`, in
      table order (RowsLabelledMembers says which rows these are). */
  function RowsLabelled(rows: seq<Row>, value: Cell): (r: seq<Row>)
    requires Labelled(rows)
    ensures |r| <= |rows|
    ensures forall i :: 0 <= i < |r| ==> |r[i]| > 0 && Label(r[i]) == value
    decreases |rows|
  {
    if rows == [] then []
    else (if Label(rows[0]) == value then [rows[0]] else []) + RowsLabelled(rows[1..], value)
  }

  /** The filter keeps exactly the rows carrying `value`. */
  lemma {:induction false} RowsLabelledMembers(rows: seq<Row>, value: Cell)
    requires Labelled(rows)
    ensures forall x :: x in RowsLabelled(rows, value) <==> x in rows && Label(x) == value
    decreases |rows|
  {
    if rows != [] {
      RowsLabelledMembers(rows[1..], value);
      assert rows == [rows[0]] + rows[1..];
    }
  }

  /** The filter's first step: the first row joins the group exactly when
      it carries the group's label. */
  lemma RowsLabelledStep(rows: seq<Row>, value: Cell)
    requires rows != [] && Labelled(rows)
    ensures Label(rows[0]) == value ==>
              multiset(RowsLabelled(rows, value)) == multiset{rows[0]} + multiset(RowsLabelled(rows[1..], value))
    ensures Label(rows[0]) != value ==>
              multiset(RowsLabelled(rows, value)) == multiset(RowsLabelled(rows[1..], value))
  {
    if Label(rows[0]) == value {
      assert RowsLabelled(rows, value) == [rows[0]] + RowsLabelled(rows[1..], value);
    } else {
      assert RowsLabelled(rows, value) == RowsLabelled(rows[1..], value);
    }
  }

  /** If the two groups of the rows after the first partition those rows,
      the two groups of all the rows partition all of them. */
  lemma PartitionStep(rows: seq<Row>)
    requires rows != [] && |rows[0]| > 0 && IsBinary(Label(rows[0])) && Labelled(rows)
    requires multiset(RowsLabelled(rows[1..], One)) + multiset(RowsLabelled(rows[1..], Zero)) == multiset(rows[1..])
    ensures multiset(RowsLabelled(rows, One)) + multiset(RowsLabelled(rows, Zero)) == multiset(rows)
  {
    RowsLabelledStep(rows, One);
    RowsLabelledStep(rows, Zero);
    MultisetOfFirst(rows);
    JoinOneSide(rows[0], Label(rows[0]) == One,
      multiset(RowsLabelled(rows[1..], One)), multiset(RowsLabelled(rows[1..], Zero)), multiset(rows[1..]),
      multiset(RowsLabelled(rows, One)), multiset(RowsLabelled(rows, Zero)));
  }

  /** A sequence holds its first element and the rest. */
  lemma MultisetOfFirst<T>(s: seq<T>)
    requires s != []
    ensures multiset(s) == multiset{s[0]} + multiset(s[1..])
  {
    assert s == [s[0]] + s[1..];
  }

  /** Adding `x` to one side of a split adds it to the whole. */
  lemma JoinOneSide<T>(x: T, left: bool, a: multiset<T>, b: multiset<T>, whole: multiset<T>, a': multiset<T>, b': multiset<T>)
    requires a + b == whole
    requires left ==> a' == multiset{x} + a && b' == b
    requires !left ==> a' == a && b' == multiset{x} + b
    ensures a' + b' == multiset{x} + whole
  {
  }

  /** Lines 72-73: once labels are binary, the two groups partition the
      table: every row lands in exactly one group, with its multiplicity. */
  lemma {:induction false} LabelGroupsPartition(rows: seq<Row>)
    requires BinaryLabelled(rows)
    ensures multiset(RowsLabelled(rows, One)) + multiset(RowsLabelled(rows, Zero)) == multiset(rows)
    ensures |RowsLabelled(rows, One)| + |RowsLabelled(rows, Zero)| == |rows|
    decreases |rows|
  {
    if rows != [] {
      var rest := rows[1..];
      assert BinaryLabelled(rest) by {
        forall i | 0 <= i < |rest| ensures |rest[i]| > 0 && IsBinary(Label(rest[i])) {
          assert rest[i] == rows[i + 1];
        }
      }
      LabelGroupsPartition(rest);
      PartitionStep(rows);
    }
    assert |multiset(RowsLabelled(rows, One)) + multiset(RowsLabelled(rows, Zero))| == |multiset(rows)|;
  }

  // ---------------------------------------------------------------------
  // Drawing rows by a permutation oracle
  // ---------------------------------------------------------------------

  /** `p` lists each of 0..n-1 exactly once. */
  predicate IsPermutation(p: seq<nat>, n: nat)
  {
    |p| == n
    && (forall i :: 0 <= i < |p| ==> p[i] < n)
    && (forall i, j :: 0 <= i < j < |p| ==> p[i] != p[j])
  }

  predicate Injective(p: seq<nat>)
  {
    forall i, j :: 0 <= i < j < |p| ==> p[i] != p[j]
  }

  /** The rows of `s` at positions `p`, in the order `p` lists them. */
  function Select<T>(s: seq<T>, p: seq<nat>): (r: seq<T>)
    requires forall i :: 0 <= i < |p| ==> p[i] < |s|
    ensures |r| == |p|
    ensures forall i :: 0 <= i < |p| ==> r[i] == s[p[i]]
  {
    seq(|p|, i requires 0 <= i < |p| => s[p[i]])
  }

  /** `s` without its element at position `k`. */
  function RemoveAt<T>(s: seq<T>, k: nat): (r: seq<T>)
    requires k < |s|
    ensures |r| == |s| - 1
    ensures forall i :: 0 <= i < |r| ==> r[i] == if i < k then s[i] else s[i + 1]
  {
    s[..k] + s[k + 1..]
  }

  /** Removing one element removes one occurrence of it. */
  lemma RemoveAtMultiset<T>(s: seq<T>, k: nat)
    requires k < |s|
    ensures multiset(RemoveAt(s, k)) + multiset{s[k]} == multiset(s)
  {
    assert s == s[..k] + [s[k]] + s[k + 1..];
  }

  /** The positions `p` renumbered for `RemoveAt(s, k)`. */
  function Renumber(p: seq<nat>, k: nat): (q: seq<nat>)
    ensures |q| == |p|
    ensures forall i :: 0 <= i < |p| ==> q[i] == if p[i] > k then p[i] - 1 else p[i]
  {
    seq(|p|, i requires 0 <= i < |p| => if p[i] > k then p[i] - 1 else p[i])
  }

  /** Renumbered around the first, the other positions point into the
      table without the first drawn row, at the same rows as before. */
  lemma RenumberInRange<T>(s: seq<T>, p: seq<nat>)
    requires p != [] && (forall i :: 0 <= i < |p| ==> p[i] < |s|) && Injective(p)
    ensures forall i :: 0 <= i < |p| - 1 ==>
              Renumber(p[1..], p[0])[i] < |s| - 1
              && RemoveAt(s, p[0])[Renumber(p[1..], p[0])[i]] == s[p[i + 1]]
  {
    var q := Renumber(p[1..], p[0]);
    forall i | 0 <= i < |q| ensures q[i] < |s| - 1 && RemoveAt(s, p[0])[q[i]] == s[p[i + 1]] {
      assert p[i + 1] != p[0];
    }
  }

  /** Drawing at `p` draws the first row, then draws from the rest of the
      table at the renumbered remaining positions. */
  lemma SelectStep<T>(s: seq<T>, p: seq<nat>)
    requires p != [] && (forall i :: 0 <= i < |p| ==> p[i] < |s|) && Injective(p)
    ensures forall i :: 0 <= i < |p| - 1 ==> Renumber(p[1..], p[0])[i] < |s| - 1
    ensures Select(s, p) == [s[p[0]]] + Select(RemoveAt(s, p[0]), Renumber(p[1..], p[0]))
  {
    RenumberInRange(s, p);
    var t := Select(RemoveAt(s, p[0]), Renumber(p[1..], p[0]));
    var a, b := Select(s, p), [s[p[0]]] + t;
    assert |a| == |b|;
    forall i | 0 <= i < |p| ensures a[i] == b[i] {
      if i > 0 {
        assert b[i] == t[i - 1];
      }
    }
    assert a == b;
  }

  /** Distinct positions stay distinct once renumbered around the first. */
  lemma RenumberInjective(p: seq<nat>)
    requires p != [] && Injective(p)
    ensures Injective(Renumber(p[1..], p[0]))
  {
    var q := Renumber(p[1..], p[0]);
    forall i, j | 0 <= i < j < |q| ensures q[i] != q[j] {
      assert p[i + 1] != p[j + 1] && p[i + 1] != p[0] && p[j + 1] != p[0];
    }
  }

  /** Drawing rows at distinct positions draws each row at most as often
      as the table holds it; drawing every position draws the table. */
  lemma {:induction false} SelectMultiset<T>(s: seq<T>, p: seq<nat>)
    requires forall i :: 0 <= i < |p| ==> p[i] < |s|
    requires Injective(p)
    ensures multiset(Select(s, p)) <= multiset(s)
    ensures |p| == |s| ==> multiset(Select(s, p)) == multiset(s)
    decreases |p|
  {
    if p != [] {
      var k := p[0];
      var s' := RemoveAt(s, k);
      var q := Renumber(p[1..], k);
      SelectStep(s, p);
      RenumberInjective(p);
      SelectMultiset(s', q);
      RemoveAtMultiset(s, k);
      assert multiset(Select(s, p)) == multiset{s[k]} + multiset(Select(s', q));
    }
  }

  /** A prefix of a permutation lists distinct positions in range. */
  lemma PermutationPrefix(p: seq<nat>, n: nat, k: nat)
    requires IsPermutation(p, n) && k <= n
    ensures Injective(p[..k]) && forall i :: 0 <= i < k ==> p[..k][i] < n
  {
  }

  /** `group.sample(n=400)`: the group's rows at the first 400 positions of
      the oracle's permutation; fewer than 400 rows make pandas raise. */
  function Sample(group: seq<Row>, perm: seq<nat>, cls: nat): (r: Result<seq<Row>, PrepError>)
    requires IsPermutation(perm, |group|)
    ensures r.Success? <==> |group| >= SampleSize
    ensures r.Failure? ==> r.error == ClassTooSmall(cls, |group|)
    ensures r.Success? ==> |r.value| == SampleSize && multiset(r.value) <= multiset(group)
  {
    if |group| < SampleSize then Failure(ClassTooSmall(cls, |group|))
    else
      PermutationPrefix(perm, |group|, SampleSize);
      SelectMultiset(group, perm[..SampleSize]);
      Success(Select(group, perm[..SampleSize]))
  }

  /** Lines 80-82: `concat` of the two samples, then `sample(frac=1)`,
      which reorders the 800 rows by the oracle's permutation.
      `reset_index(drop=True)` renumbers the pool's index labels to
      0..799 and leaves its rows in place (see PoolIndex). */
  function BalancedPool(ones: seq<Row>, zeros: seq<Row>, perm: seq<nat>): (pool: seq<Row>)
    requires |ones| == SampleSize && |zeros| == SampleSize
    requires IsPermutation(perm, PoolSize)
    ensures |pool| == PoolSize
    ensures multiset(pool) == multiset(ones) + multiset(zeros)
  {
    SelectMultiset(ones + zeros, perm);
    Select(ones + zeros, perm)
  }

  /** The index labels the pool carries after `reset_index(drop=True)`:
      0, 1, ..., |pool| - 1. */
  function PoolIndex(pool: seq<Row>): (labels: seq<nat>)
    ensures |labels| == |pool|
    ensures forall i :: 0 <= i < |pool| ==> labels[i] == i
  {
    seq(|pool|, i requires 0 <= i < |pool| => i)
  }

  /** `n` copies of `c`. */
  function Repeat<T>(c: T, n: nat): (s: seq<T>)
    ensures |s| == n && forall i :: 0 <= i < n ==> s[i] == c
  {
    seq(n, i requires 0 <= i < n => c)
  }

  /** `n` copies of `c` hold `c` n times and nothing else. */
  lemma {:induction false} RepeatCount<T>(c: T, n: nat, d: T)
    ensures multiset(Repeat(c, n))[c] == n
    ensures d != c ==> multiset(Repeat(c, n))[d] == 0
  {
    if n > 0 {
      RepeatCount(c, n - 1, d);
      assert Repeat(c, n) == Repeat(c, n - 1) + [c];
    }
  }

  // ---------------------------------------------------------------------
  // Lines 84-91: features, one-hot targets, 80/20 split
  // ---------------------------------------------------------------------

  /** `df_train.iloc[:, :-1].values`. */
  function FeatureMatrix(pool: seq<Row>): (x: seq<Row>)
    requires Labelled(pool)
    ensures |x| == |pool|
    ensures forall i :: 0 <= i < |pool| ==> x[i] == Features(pool[i])
  {
    seq(|pool|, i requires 0 <= i < |pool| => Features(pool[i]))
  }

  /** `df_train.iloc[:, -1].values`. */
  function LabelColumn(pool: seq<Row>): (y: seq<Cell>)
    requires Labelled(pool)
    ensures |y| == |pool|
    ensures forall i :: 0 <= i < |pool| ==> y[i] == Label(pool[i])
  {
    seq(|pool|, i requires 0 <= i < |pool| => Label(pool[i]))
  }

  /** The class index a binary label stands for. */
  function ClassOf(c: Cell): nat
  {
    if c == One then 1 else 0
  }

  /** One row of `to_categorical(y, num_classes=2)`: a 1 in the column of
      the label's class and a 0 in the other. */
  function OneHot(c: Cell): (v: seq<real>)
    requires IsBinary(c)
    ensures |v| == 2
    ensures v[ClassOf(c)] == 1.0 && v[1 - ClassOf(c)] == 0.0
  {
    if c == One then [0.0, 1.0] else [1.0, 0.0]
  }

  /** The class a one-hot row encodes is recovered by the argmax the
      service applies to the model's output. */
  lemma OneHotRoundTrip(c: Cell)
    requires IsBinary(c)
    ensures Vectors.FirstArgMax(OneHot(c)) == ClassOf(c)
  {
    Vectors.FirstMaxIndexUnique(OneHot(c), ClassOf(c));
  }

  /** `to_categorical(y, num_classes=2)`; the labels are binary here, so
      Keras's out-of-range error cannot arise. */
  function ToCategorical(y: seq<Cell>): (t: seq<seq<real>>)
    requires forall i :: 0 <= i < |y| ==> IsBinary(y[i])
    ensures |t| == |y|
    ensures forall i :: 0 <= i < |y| ==> t[i] == OneHot(y[i])
  {
    seq(|y|, i requires 0 <= i < |y| => OneHot(y[i]))
  }

  /** The four arrays `train_test_split` returns. */
  datatype Split = Split(xTrain: seq<Row>, xTest: seq<Row>, yTrain: seq<seq<real>>, yTest: seq<seq<real>>)

  /** Features paired with their targets, row by row. */
  function Zip(x: seq<Row>, y: seq<seq<real>>): (z: seq<(Row, seq<real>)>)
    requires |x| == |y|
    ensures |z| == |x|
    ensures forall i :: 0 <= i < |x| ==> z[i] == (x[i], y[i])
  {
    seq(|x|, i requires 0 <= i < |x| => (x[i], y[i]))
  }

  /** `train_test_split(X, Y, test_size=0.20)` on the 800-row pool: the test
      rows are those at the first ceil(0.2 * 800) = 160 positions of the
      oracle's permutation and the train rows those at the other 640.
      Each feature row keeps its own target, and train and test together
      are a reordering of the pool. */
  function TrainTestSplit(x: seq<Row>, y: seq<seq<real>>, perm: seq<nat>): (s: Split)
    requires |x| == PoolSize && |y| == PoolSize
    requires IsPermutation(perm, PoolSize)
    ensures |s.xTrain| == TrainSize && |s.yTrain| == TrainSize
    ensures |s.xTest| == TestSize && |s.yTest| == TestSize
    ensures forall i :: 0 <= i < TrainSize ==>
              s.xTrain[i] == x[perm[TestSize + i]] && s.yTrain[i] == y[perm[TestSize + i]]
    ensures forall i :: 0 <= i < TestSize ==> s.xTest[i] == x[perm[i]] && s.yTest[i] == y[perm[i]]
    ensures multiset(Zip(s.xTrain, s.yTrain) + Zip(s.xTest, s.yTest)) == multiset(Zip(x, y))
    ensures multiset(s.yTrain + s.yTest) == multiset(y)
  {
    var test := perm[..TestSize];
    var train := perm[TestSize..];
    var s := Split(Select(x, train), Select(x, test), Select(y, train), Select(y, test));
    SplitIsPermutation(x, y, perm);
    s
  }

  /** The rows at the last n - k positions of a permutation followed by
      those at its first k positions are a reordering of all n rows. */
  lemma SplitPermutes<T>(y: seq<T>, perm: seq<nat>, k: nat)
    requires IsPermutation(perm, |y|) && k <= |y|
    ensures multiset(Select(y, perm[k..]) + Select(y, perm[..k])) == multiset(y)
  {
    assert Select(y, perm) == Select(y, perm[..k]) + Select(y, perm[k..]);
    SelectMultiset(y, perm);
  }

  /** The train and test rows, each feature row still paired with its
      target, are a reordering of the pool; so are the targets alone. */
  lemma SplitIsPermutation(x: seq<Row>, y: seq<seq<real>>, perm: seq<nat>)
    requires |x| == PoolSize && |y| == PoolSize
    requires IsPermutation(perm, PoolSize)
    ensures multiset(Zip(Select(x, perm[TestSize..]), Select(y, perm[TestSize..]))
                     + Zip(Select(x, perm[..TestSize]), Select(y, perm[..TestSize])))
            == multiset(Zip(x, y))
    ensures multiset(Select(y, perm[TestSize..]) + Select(y, perm[..TestSize])) == multiset(y)
  {
    var z := Zip(x, y);
    assert Zip(Select(x, perm[TestSize..]), Select(y, perm[TestSize..])) == Select(z, perm[TestSize..]);
    assert Zip(Select(x, perm[..TestSize]), Select(y, perm[..TestSize])) == Select(z, perm[..TestSize]);
    SplitPermutes(z, perm, TestSize);
    SplitPermutes(y, perm, TestSize);
  }

  // ---------------------------------------------------------------------
  // Lines 93-94: reshape(-1, 178, 1)
  // ---------------------------------------------------------------------

  /** The array's elements in row-major order. */
  function Flatten(rows: seq<Row>): seq<Cell>
    decreases |rows|
  {
    if rows == [] then [] else rows[0] + Flatten(rows[1..])
  }

  /** numpy's `reshape(-1, 178, 1)`: the row-major elements regrouped into
      blocks of 178 one-element timesteps; a size that 178 does not divide
      makes numpy raise. */
  function Reshape(x: seq<Row>): (r: Result<seq<seq<seq<Cell>>>, PrepError>)
    ensures r.Success? <==> |Flatten(x)| % Timesteps == 0
    ensures r.Failure? ==> r.error == ReshapeMismatch(|Flatten(x)|)
    ensures r.Success? ==> |r.value| * Timesteps == |Flatten(x)|
    ensures r.Success? ==> forall i, j :: 0 <= i < |r.value| && 0 <= j < Timesteps ==>
              |r.value[i]| == Timesteps && r.value[i][j] == [Flatten(x)[i * Timesteps + j]]
  {
    var flat := Flatten(x);
    if |flat| % Timesteps != 0 then Failure(ReshapeMismatch(|flat|))
    else
      var n := |flat| / Timesteps;
      Success(seq(n, i requires 0 <= i < n =>
        seq(Timesteps, j requires 0 <= j < Timesteps => [flat[i * Timesteps + j]])))
  }

  /** A table of rows of width `w` flattens to |rows| * w elements. */
  lemma {:induction false} FlattenLength(rows: seq<Row>, w: nat)
    requires HasWidth(rows, w)
    ensures |Flatten(rows)| == |rows| * w
    decreases |rows|
  {
    if rows != [] {
      FlattenLength(rows[1..], w);
      assert |rows| * w == w + (|rows| - 1) * w;
    }
  }

  /** Flattening rows of 178 values puts row i's value j at i * 178 + j. */
  lemma {:induction false} FlattenAt(rows: seq<Row>)
    requires HasWidth(rows, Timesteps)
    ensures |Flatten(rows)| == |rows| * Timesteps
    ensures forall i, j :: 0 <= i < |rows| && 0 <= j < Timesteps ==> Flatten(rows)[i * Timesteps + j] == rows[i][j]
    decreases |rows|
  {
    if rows != [] {
      FlattenAt(rows[1..]);
      forall i, j | 0 <= i < |rows| && 0 <= j < Timesteps
        ensures Flatten(rows)[i * Timesteps + j] == rows[i][j]
      {
        if i > 0 {
          assert rows[1..][i - 1] == rows[i];
          assert Flatten(rows)[i * Timesteps + j] == Flatten(rows[1..])[(i - 1) * Timesteps + j];
        }
      }
    }
  }

  /** On rows of exactly 178 values the reshape keeps the row count and
      each row's values in order, adding only a trailing unit dimension. */
  lemma ReshapeRowwise(x: seq<Row>)
    requires HasWidth(x, Timesteps)
    ensures Reshape(x).Success?
    ensures |Reshape(x).value| == |x|
    ensures forall i, j :: 0 <= i < |x| && 0 <= j < Timesteps ==> Reshape(x).value[i][j] == [x[i][j]]
  {
    FlattenAt(x);
  }

  // ---------------------------------------------------------------------
  // Line 102: the remaining rows
  // ---------------------------------------------------------------------

  /** The rows at positions `offset`, `offset + 1`, ... whose index label
      (its position, as `read_csv` numbers rows) is not listed. */
  function Unlisted(rows: seq<Row>, labels: seq<nat>, offset: nat): (r: seq<Row>)
    ensures |r| <= |rows|
    decreases |rows|
  {
    if rows == [] then []
    else (if offset in labels then [] else [rows[0]]) + Unlisted(rows[1..], labels, offset + 1)
  }

  /** Every row kept sits at a position whose label is not listed. */
  lemma {:induction false} UnlistedSound(rows: seq<Row>, labels: seq<nat>, offset: nat)
    ensures forall x :: x in Unlisted(rows, labels, offset) ==>
              exists i :: 0 <= i < |rows| && offset + i !in labels && rows[i] == x
    decreases |rows|
  {
    if rows != [] {
      var rest := Unlisted(rows[1..], labels, offset + 1);
      UnlistedSound(rows[1..], labels, offset + 1);
      forall x | x in Unlisted(rows, labels, offset)
        ensures exists i :: 0 <= i < |rows| && offset + i !in labels && rows[i] == x
      {
        if x in rest {
          var j :| 0 <= j < |rows| - 1 && offset + 1 + j !in labels && rows[1..][j] == x;
          assert offset + (j + 1) !in labels && rows[j + 1] == x;
        } else {
          assert offset + 0 !in labels && rows[0] == x;
        }
      }
    }
  }

  /** Every row at a position whose label is not listed is kept. */
  lemma {:induction false} UnlistedComplete(rows: seq<Row>, labels: seq<nat>, offset: nat)
    ensures forall i :: 0 <= i < |rows| && offset + i !in labels ==> rows[i] in Unlisted(rows, labels, offset)
    decreases |rows|
  {
    if rows != [] {
      UnlistedComplete(rows[1..], labels, offset + 1);
      forall i | 0 <= i < |rows| && offset + i !in labels ensures rows[i] in Unlisted(rows, labels, offset) {
        if i > 0 {
          assert rows[1..][i - 1] == rows[i] && offset + 1 + (i - 1) == offset + i;
        }
      }
    }
  }

  /** `df.drop(labels)`: the table without the rows whose index labels are
      listed; a label the table's index lacks makes pandas raise. */
  function DropIndex(rows: seq<Row>, labels: seq<nat>): (r: Result<seq<Row>, PrepError>)
    ensures r.Success? <==> forall k :: 0 <= k < |labels| ==> labels[k] < |rows|
    ensures r.Failure? ==> r.error == IndexLabelMissing
    ensures r.Success? ==> forall x :: x in r.value ==> exists i :: 0 <= i < |rows| && i !in labels && rows[i] == x
    ensures r.Success? ==> forall i :: 0 <= i < |rows| && i !in labels ==> rows[i] in r.value
  {
    if exists k :: 0 <= k < |labels| && labels[k] >= |rows| then Failure(IndexLabelMissing)
    else
      UnlistedSound(rows, labels, 0);
      UnlistedComplete(rows, labels, 0);
      Success(Unlisted(rows, labels, 0))
  }

  /** The labels 0, 1, ..., |labels| - 1. */
  predicate IsPrefixIndex(labels: seq<nat>)
  {
    forall i :: 0 <= i < |labels| ==> labels[i] == i
  }

  /** Dropping the labels 0..m-1 from the rows that start at position
      `offset` keeps exactly the rows from position m onward. */
  lemma {:induction false} UnlistedRange(rows: seq<Row>, labels: seq<nat>, offset: nat)
    requires IsPrefixIndex(labels) && offset <= |labels| <= offset + |rows|
    ensures Unlisted(rows, labels, offset) == rows[|labels| - offset..]
    decreases |rows|
  {
    if offset < |labels| {
      assert labels[offset] == offset;
      UnlistedRange(rows[1..], labels, offset + 1);
      assert rows[1..][|labels| - offset - 1..] == rows[|labels| - offset..];
    } else {
      UnlistedRangeBeyond(rows, labels, offset);
    }
  }

  /** Past the listed labels every row is kept. */
  lemma {:induction false} UnlistedRangeBeyond(rows: seq<Row>, labels: seq<nat>, offset: nat)
    requires IsPrefixIndex(labels) && |labels| <= offset
    ensures Unlisted(rows, labels, offset) == rows
    decreases |rows|
  {
    if rows != [] {
      assert offset !in labels;
      UnlistedRangeBeyond(rows[1..], labels, offset + 1);
      assert rows == [rows[0]] + rows[1..];
    }
  }

  /** Line 102 as written: the pool's index was renumbered 0..799, so the
      drop removes the table's first 800 rows, whichever rows were
      sampled, and keeps the rest in order. */
  lemma RemainingIsSuffix(rows: seq<Row>, pool: seq<Row>)
    requires |pool| == PoolSize && |rows| >= PoolSize
    ensures DropIndex(rows, PoolIndex(pool)) == Success(rows[PoolSize..])
    ensures |rows[PoolSize..]| == |rows| - PoolSize
  {
    UnlistedRange(rows, PoolIndex(pool), 0);
  }

  // ---------------------------------------------------------------------
  // The whole script
  // ---------------------------------------------------------------------

  /** What the script saves: the four arrays and the remaining rows. */
  datatype Prepared = Prepared(
    xTrain: seq<seq<seq<Cell>>>,
    yTrain: seq<seq<real>>,
    xTest: seq<seq<seq<Cell>>>,
    yTest: seq<seq<real>>,
    remaining: Frame)

  /** Lines 68-70: the table every later line reads. Its labels are binary,
      label 1 exactly where the raw label was 1, and its features are the
      raw row without its first and last cells. */
  function Cleaned(raw: Frame): (df: Frame)
    requires Rectangular(raw) && raw.width >= 2
    ensures Rectangular(df) && df.width == raw.width - 1 && |df.rows| == |raw.rows|
    ensures BinaryLabelled(df.rows)
    ensures forall i :: 0 <= i < |df.rows| ==>
              (Label(df.rows[i]) == One <==> Label(raw.rows[i]) == One)
              && Features(df.rows[i]) == raw.rows[i][1..raw.width - 1]
  {
    var dropped := DropFirstColumn(raw);
    var df := BinariseLabels(dropped);
    forall i | 0 <= i < |df.rows|
      ensures Label(df.rows[i]) == One <==> Label(raw.rows[i]) == One
      ensures Features(df.rows[i]) == raw.rows[i][1..raw.width - 1]
    {
      var row := raw.rows[i];
      assert dropped.rows[i] == row[1..];
      assert Label(dropped.rows[i]) == Label(row);
      assert Features(dropped.rows[i]) == row[1..raw.width - 1];
    }
    df
  }

  /** Every row of a group drawn from `df` has the table's width and the
      group's label. */
  lemma DrawnRowsKeepWidth(df: Frame, drawn: seq<Row>, value: Cell)
    requires Rectangular(df) && df.width > 0
    requires multiset(drawn) <= multiset(RowsLabelled(df.rows, value))
    ensures forall i :: 0 <= i < |drawn| ==> |drawn[i]| == df.width && Label(drawn[i]) == value
  {
    RowsLabelledMembers(df.rows, value);
    forall i | 0 <= i < |drawn| ensures |drawn[i]| == df.width && Label(drawn[i]) == value {
      assert drawn[i] in multiset(drawn);
      assert drawn[i] in RowsLabelled(df.rows, value);
    }
  }

  /** Shuffling 400 label-1 rows with 400 label-0 rows leaves 400 labels,
      and 400 one-hot targets, of each class. */
  lemma PoolIsBalanced(ones: seq<Row>, zeros: seq<Row>, perm: seq<nat>)
    requires |ones| == SampleSize && |zeros| == SampleSize
    requires forall i :: 0 <= i < SampleSize ==> |ones[i]| > 0 && Label(ones[i]) == One
    requires forall i :: 0 <= i < SampleSize ==> |zeros[i]| > 0 && Label(zeros[i]) == Zero
    requires IsPermutation(perm, PoolSize)
    ensures BinaryLabelled(BalancedPool(ones, zeros, perm))
    ensures multiset(LabelColumn(BalancedPool(ones, zeros, perm)))
            == multiset(Repeat(One, SampleSize) + Repeat(Zero, SampleSize))
    ensures multiset(ToCategorical(LabelColumn(BalancedPool(ones, zeros, perm))))
            == multiset(Repeat(OneHot(One), SampleSize) + Repeat(OneHot(Zero), SampleSize))
  {
    var all := ones + zeros;
    var pool := BalancedPool(ones, zeros, perm);
    var labels := Repeat(One, SampleSize) + Repeat(Zero, SampleSize);
    assert forall i :: 0 <= i < PoolSize ==> |all[i]| > 0 && Label(all[i]) == labels[i];
    assert forall i :: 0 <= i < PoolSize ==> pool[i] == all[perm[i]];
    assert LabelColumn(pool) == Select(labels, perm);
    SelectMultiset(labels, perm);
    var targets := Repeat(OneHot(One), SampleSize) + Repeat(OneHot(Zero), SampleSize);
    assert ToCategorical(LabelColumn(pool)) == Select(targets, perm);
    SelectMultiset(targets, perm);
  }

  /** A pool shuffled from two samples of the table's label groups holds
      rows of the table, with the table's width, 400 of each label. */
  lemma PoolFromGroups(df: Frame, ones: seq<Row>, zeros: seq<Row>, perm: seq<nat>)
    requires Rectangular(df) && df.width > 0 && BinaryLabelled(df.rows)
    requires |ones| == SampleSize && |zeros| == SampleSize && IsPermutation(perm, PoolSize)
    requires multiset(ones) <= multiset(RowsLabelled(df.rows, One))
    requires multiset(zeros) <= multiset(RowsLabelled(df.rows, Zero))
    ensures multiset(BalancedPool(ones, zeros, perm)) <= multiset(df.rows)
    ensures |df.rows| >= PoolSize
    ensures HasWidth(BalancedPool(ones, zeros, perm), df.width)
    ensures BinaryLabelled(BalancedPool(ones, zeros, perm))
    ensures multiset(LabelColumn(BalancedPool(ones, zeros, perm)))
            == multiset(Repeat(One, SampleSize) + Repeat(Zero, SampleSize))
    ensures multiset(ToCategorical(LabelColumn(BalancedPool(ones, zeros, perm))))
            == multiset(Repeat(OneHot(One), SampleSize) + Repeat(OneHot(Zero), SampleSize))
  {
    var pool := BalancedPool(ones, zeros, perm);
    LabelGroupsPartition(df.rows);
    SubMultisetSum(multiset(ones), multiset(zeros),
      multiset(RowsLabelled(df.rows, One)), multiset(RowsLabelled(df.rows, Zero)), multiset(df.rows));
    SubMultisetSize(multiset(pool), multiset(df.rows));
    DrawnRowsKeepWidth(df, ones, One);
    DrawnRowsKeepWidth(df, zeros, Zero);
    PoolIsBalanced(ones, zeros, perm);
    forall i | 0 <= i < PoolSize ensures |pool[i]| == df.width {
      assert pool[i] == (ones + zeros)[perm[i]];
    }
  }

  /** A part is no larger than the whole. */
  lemma SubMultisetSize<T>(part: multiset<T>, whole: multiset<T>)
    requires part <= whole
    ensures |part| <= |whole|
  {
    assert whole == part + (whole - part);
  }

  /** Parts of the two sides of a split are together part of the whole. */
  lemma SubMultisetSum<T>(a: multiset<T>, b: multiset<T>, c: multiset<T>, d: multiset<T>, whole: multiset<T>)
    requires a <= c && b <= d && c + d == whole
    ensures a + b <= whole
  {
  }

  /** Lines 72-82: the two label groups, 400 rows drawn from each, shuffled
      into the pool. Fails when a group has fewer than 400 rows, the label-1
      group first. The pool holds 800 rows of the table, each drawn at most
      as often as the table holds it, with 400 labels 1 and 400 labels 0. */
  function DrawPool(df: Frame, rng: nat -> seq<nat>): (r: Result<seq<Row>, PrepError>)
    requires Rectangular(df) && df.width > 0 && BinaryLabelled(df.rows)
    requires forall m :: IsPermutation(rng(m), m)
    ensures r.Success? <==>
              |RowsLabelled(df.rows, One)| >= SampleSize && |RowsLabelled(df.rows, Zero)| >= SampleSize
    ensures |RowsLabelled(df.rows, One)| < SampleSize ==>
              r == Failure(ClassTooSmall(1, |RowsLabelled(df.rows, One)|))
    ensures |RowsLabelled(df.rows, One)| >= SampleSize && |RowsLabelled(df.rows, Zero)| < SampleSize ==>
              r == Failure(ClassTooSmall(0, |RowsLabelled(df.rows, Zero)|))
    ensures r.Success? ==> |r.value| == PoolSize && |df.rows| >= PoolSize
    ensures r.Success? ==> multiset(r.value) <= multiset(df.rows)
    ensures r.Success? ==> HasWidth(r.value, df.width) && BinaryLabelled(r.value)
    ensures r.Success? ==>
              multiset(LabelColumn(r.value)) == multiset(Repeat(One, SampleSize) + Repeat(Zero, SampleSize))
    ensures r.Success? ==>
              multiset(ToCategorical(LabelColumn(r.value)))
              == multiset(Repeat(OneHot(One), SampleSize) + Repeat(OneHot(Zero), SampleSize))
  {
    var ones := RowsLabelled(df.rows, One);
    var zeros := RowsLabelled(df.rows, Zero);
    LabelGroupsPartition(df.rows);
    var s1 := Sample(ones, rng(|ones|), 1);
    if s1.Failure? then Failure(s1.error)
    else
      var s0 := Sample(zeros, rng(|zeros|), 0);
      if s0.Failure? then Failure(s0.error)
      else
        var pool := BalancedPool(s1.value, s0.value, rng(PoolSize));
        PoolFromGroups(df, s1.value, s0.value, rng(PoolSize));
        Success(pool)
  }

  /** Lines 84-91: features and one-hot targets of the pool, split 80/20. */
  function Encode(pool: seq<Row>, perm: seq<nat>): (s: Split)
    requires |pool| == PoolSize && IsPermutation(perm, PoolSize)
    requires BinaryLabelled(pool)
    ensures |s.xTrain| == TrainSize && |s.yTrain| == TrainSize
    ensures |s.xTest| == TestSize && |s.yTest| == TestSize
    ensures forall i :: 0 <= i < TrainSize ==>
              s.xTrain[i] == Features(pool[perm[TestSize + i]])
              && s.yTrain[i] == OneHot(Label(pool[perm[TestSize + i]]))
    ensures forall i :: 0 <= i < TestSize ==>
              s.xTest[i] == Features(pool[perm[i]]) && s.yTest[i] == OneHot(Label(pool[perm[i]]))
    ensures multiset(s.yTrain + s.yTest) == multiset(ToCategorical(LabelColumn(pool)))
  {
    TrainTestSplit(FeatureMatrix(pool), ToCategorical(LabelColumn(pool)), perm)
  }

  /** The reshape sees |rows| * (features per row) elements. */
  lemma FeatureRowsWidth(pool: seq<Row>, perm: seq<nat>, w: nat)
    requires |pool| == PoolSize && IsPermutation(perm, PoolSize)
    requires BinaryLabelled(pool) && w > 0 && HasWidth(pool, w)
    ensures |Flatten(Encode(pool, perm).xTrain)| == TrainSize * (w - 1)
    ensures |Flatten(Encode(pool, perm).xTest)| == TestSize * (w - 1)
  {
    var s := Encode(pool, perm);
    FlattenLength(s.xTrain, w - 1);
    FlattenLength(s.xTest, w - 1);
  }

  /** The script from line 68 on, given the raw table and the seeded
      permutation oracle. */
  function Prepare(raw: Frame, rng: nat -> seq<nat>): (r: Result<Prepared, PrepError>)
    requires Rectangular(raw)
    requires forall m :: IsPermutation(rng(m), m)
    ensures raw.width < 2 ==> r == Failure(NoLabelColumn)
    ensures raw.width >= 2 ==>
              (r.Success? <==>
                 |RowsLabelled(Cleaned(raw).rows, One)| >= SampleSize
                 && |RowsLabelled(Cleaned(raw).rows, Zero)| >= SampleSize
                 && (TrainSize * (raw.width - 2)) % Timesteps == 0
                 && (TestSize * (raw.width - 2)) % Timesteps == 0)
    ensures r.Success? ==>
              |r.value.yTrain| == TrainSize && |r.value.yTest| == TestSize
    ensures r.Success? ==>
              raw.width >= 2 && |raw.rows| >= PoolSize
              && r.value.remaining == Frame(raw.width - 1, Cleaned(raw).rows[PoolSize..])
              && |r.value.remaining.rows| == |raw.rows| - PoolSize
    ensures r.Success? ==>
              |r.value.xTrain| * Timesteps == TrainSize * (raw.width - 2)
              && |r.value.xTest| * Timesteps == TestSize * (raw.width - 2)
    ensures r.Success? && raw.width == Timesteps + 2 ==>
              |r.value.xTrain| == TrainSize && |r.value.xTest| == TestSize
    ensures r.Success? ==>
              multiset(r.value.yTrain + r.value.yTest)
              == multiset(Repeat(OneHot(One), SampleSize) + Repeat(OneHot(Zero), SampleSize))
    ensures r.Success? ==>
              multiset(r.value.yTrain + r.value.yTest)[[0.0, 1.0]] == SampleSize
              && multiset(r.value.yTrain + r.value.yTest)[[1.0, 0.0]] == SampleSize
  {
    RepeatCount(OneHot(One), SampleSize, OneHot(Zero));
    RepeatCount(OneHot(Zero), SampleSize, OneHot(One));
    if raw.width < 2 then Failure(NoLabelColumn)
    else
      var df := Cleaned(raw);
      var drawn := DrawPool(df, rng);
      if drawn.Failure? then Failure(drawn.error)
      else
        var pool := drawn.value;
        var split := Encode(pool, rng(PoolSize));
        FeatureRowsWidth(pool, rng(PoolSize), df.width);
        var xTrain := Reshape(split.xTrain);
        if xTrain.Failure? then Failure(xTrain.error)
        else
          var xTest := Reshape(split.xTest);
          if xTest.Failure? then Failure(xTest.error)
          else
            // `drop` cannot raise here: the table has at least the pool's 800 rows.
            RemainingIsSuffix(df.rows, pool);
            var rest := DropIndex(df.rows, PoolIndex(pool)).value;
            Success(Prepared(xTrain.value, split.yTrain, xTest.value, split.yTest, Frame(df.width, rest)))
  }
}
