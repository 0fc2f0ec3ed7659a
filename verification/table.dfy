/**
 * The shared parameter table: a sequence of fixed-width rows indexed by key.
 * `Pull` gathers rows in key order, `Push` adds a payload element-wise onto
 * the listed rows and `Set` overwrites them; every other row is left alone.
 */
module Table {

  type Row = seq<real>
  type Rows = seq<Row>

  /** Every row has width `dim`. */
  predicate Shaped(t: Rows, dim: nat) {
    forall k :: 0 <= k < |t| ==> |t[k]| == dim
  }

  predicate InRange(keys: seq<int>, n: int) {
    forall i :: 0 <= i < |keys| ==> 0 <= keys[i] < n
  }

  predicate Distinct(keys: seq<int>) {
    forall i, j :: 0 <= i < j < |keys| ==> keys[i] != keys[j]
  }

  /** Keys a push or set may address: in the table and without repetition. */
  predicate Addressable(t: Rows, keys: seq<int>) {
    InRange(keys, |t|) && Distinct(keys)
  }

  /** `payload` has one row per key, each as wide as the row it lands on. */
  predicate Fits(t: Rows, keys: seq<int>, payload: Rows)
    requires InRange(keys, |t|)
  {
    |payload| == |keys| && forall i :: 0 <= i < |keys| ==> |payload[i]| == |t[keys[i]]|
  }

  /** A row of width `dim` whose entries are all `v`. */
  function Filled(dim: nat, v: real): Row
  {
    seq(dim, _ => v)
  }

  /** `n` rows of width `dim`, all zero: a freshly allocated table. */
  function Zeros(n: nat, dim: nat): Rows
  {
    seq(n, _ => Filled(dim, 0.0))
  }

  function AddRow(a: Row, b: Row): Row
    requires |a| == |b|
  {
    seq(|a|, j requires 0 <= j < |a| => a[j] + b[j])
  }

  /** Element-wise sum of two payloads of the same shape. */
  function AddRows(a: Rows, b: Rows): Rows
    requires |a| == |b|
    requires forall i :: 0 <= i < |a| ==> |a[i]| == |b[i]|
  {
    seq(|a|, i requires 0 <= i < |a| => AddRow(a[i], b[i]))
  }

  /** Output row `i` is the stored row of `keys[i]`; duplicates are allowed. */
  function Pull(t: Rows, keys: seq<int>): (rows: Rows)
    requires InRange(keys, |t|)
    ensures |rows| == |keys|
    ensures forall i :: 0 <= i < |keys| ==> rows[i] == t[keys[i]]
  {
    seq(|keys|, i requires 0 <= i < |keys| => t[keys[i]])
  }

  /** Adds `payload[i]` element-wise onto the row of `keys[i]`. */
  function Push(t: Rows, keys: seq<int>, payload: Rows): (r: Rows)
    requires Addressable(t, keys) && Fits(t, keys, payload)
    ensures |r| == |t|
    ensures forall i :: 0 <= i < |keys| ==> r[keys[i]] == AddRow(t[keys[i]], payload[i])
    ensures forall k :: 0 <= k < |t| && k !in keys ==> r[k] == t[k]
    decreases |keys|
  {
    if |keys| == 0 then t
    else
      var k := keys[0];
      var t' := t[k := AddRow(t[k], payload[0])];
      assert forall i :: 1 <= i < |keys| ==> keys[1..][i - 1] == keys[i] && keys[i] != k;
      Push(t', keys[1..], payload[1..])
  }

  /** Overwrites the row of `keys[i]` with `rows[i]`. */
  function Set(t: Rows, keys: seq<int>, rows: Rows): (r: Rows)
    requires Addressable(t, keys) && Fits(t, keys, rows)
    ensures |r| == |t|
    ensures forall i :: 0 <= i < |keys| ==> r[keys[i]] == rows[i]
    ensures forall k :: 0 <= k < |t| && k !in keys ==> r[k] == t[k]
    decreases |keys|
  {
    if |keys| == 0 then t
    else
      var k := keys[0];
      var t' := t[k := rows[0]];
      assert forall i :: 1 <= i < |keys| ==> keys[1..][i - 1] == keys[i] && keys[i] != k;
      Set(t', keys[1..], rows[1..])
  }

  /** Push and set keep every row at its width. */
  lemma WritesKeepShape(t: Rows, dim: nat, keys: seq<int>, payload: Rows)
    requires Shaped(t, dim) && Addressable(t, keys) && Fits(t, keys, payload)
    ensures Shaped(Push(t, keys, payload), dim)
    ensures Shaped(Set(t, keys, payload), dim)
  {
  }

  /** Reading back the keys just set returns the rows that were set. */
  lemma PullAfterSet(t: Rows, keys: seq<int>, rows: Rows)
    requires Addressable(t, keys) && Fits(t, keys, rows)
    ensures Pull(Set(t, keys, rows), keys) == rows
  {
  }

  /** Pulling keys disjoint from a set or push sees the rows from before it. */
  lemma PullUnaffected(t: Rows, keys: seq<int>, payload: Rows, other: seq<int>)
    requires Addressable(t, keys) && Fits(t, keys, payload)
    requires InRange(other, |t|)
    requires forall i :: 0 <= i < |other| ==> other[i] !in keys
    ensures Pull(Set(t, keys, payload), other) == Pull(t, other)
    ensures Pull(Push(t, keys, payload), other) == Pull(t, other)
  {
  }

  /** Pushing an all-zero payload leaves the table as it was. */
  lemma {:induction false} PushZeros(t: Rows, keys: seq<int>, zeros: Rows)
    requires Addressable(t, keys) && Fits(t, keys, zeros)
    requires forall i, j :: 0 <= i < |keys| && 0 <= j < |zeros[i]| ==> zeros[i][j] == 0.0
    ensures Push(t, keys, zeros) == t
  {
    var r := Push(t, keys, zeros);
    forall k | 0 <= k < |t|
      ensures r[k] == t[k]
    {
      if k in keys {
        var i :| 0 <= i < |keys| && keys[i] == k;
        assert r[k] == AddRow(t[k], zeros[i]);
      }
    }
  }

  lemma AddRowAssoc(x: Row, a: Row, b: Row)
    requires |x| == |a| == |b|
    ensures AddRow(AddRow(x, a), b) == AddRow(x, AddRow(a, b))
  {
  }

  /** Two pushes onto the same distinct keys equal one push of the summed payloads. */
  lemma {:induction false} PushPush(t: Rows, keys: seq<int>, a: Rows, b: Rows)
    requires Addressable(t, keys) && Fits(t, keys, a) && Fits(t, keys, b)
    ensures Fits(Push(t, keys, a), keys, b)
    ensures Fits(t, keys, AddRows(a, b))
    ensures Push(Push(t, keys, a), keys, b) == Push(t, keys, AddRows(a, b))
  {
    var once := Push(t, keys, a);
    var sum := AddRows(a, b);
    var twice := Push(once, keys, b);
    var r := Push(t, keys, sum);
    forall k | 0 <= k < |t|
      ensures twice[k] == r[k]
    {
      if k in keys {
        var i :| 0 <= i < |keys| && keys[i] == k;
        AddRowAssoc(t[k], a[i], b[i]);
      }
    }
  }
}
