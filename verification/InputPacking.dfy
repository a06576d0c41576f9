/**
 Packing encoded choices into the rectangular arrays of the decision model
 (resources/laya-decision/runtime.py).
 */
module InputPacking {
  import opened Common

  import ChoiceEncoder

  /** The tokens of one question and the positions of its choices. */
  type Encoded = ChoiceEncoder.Encoded

  datatype Failure = EmptyBatch

  datatype Packed = Packed(ids: array2<int>, attention: array2<int>, markers: array2<int>, valid: array2<bool>)

  function TokenRows(batch: seq<Encoded>): (rows: seq<seq<int>>)
    ensures |rows| == |batch| && forall i :: 0 <= i < |batch| ==> rows[i] == batch[i].ids
  {
    seq(|batch|, i requires 0 <= i < |batch| => batch[i].ids)
  }

  function MarkerRows(batch: seq<Encoded>): (rows: seq<seq<int>>)
    ensures |rows| == |batch| && forall i :: 0 <= i < |batch| ==> rows[i] == batch[i].markers
  {
    seq(|batch|, i requires 0 <= i < |batch| => batch[i].markers)
  }

  /** A row of the same value for every element. */
  function Marks<T, U>(rows: seq<seq<T>>, mark: U): (marks: seq<seq<U>>)
    ensures |marks| == |rows|
    ensures forall i :: 0 <= i < |rows| ==>
              |marks[i]| == |rows[i]| && forall j :: 0 <= j < |rows[i]| ==> marks[i][j] == mark
  {
    seq(|rows|, i requires 0 <= i < |rows| => seq(|rows[i]|, _ => mark))
  }

  /** The length of the longest row. */
  function Width<T>(rows: seq<seq<T>>): nat
    decreases |rows|
  {
    if |rows| == 0 then 0
    else if |rows[0]| >= Width(rows[1..]) then |rows[0]| else Width(rows[1..])
  }

  lemma {:induction false} WidthBounds<T>(rows: seq<seq<T>>, i: nat)
    requires i < |rows|
    ensures |rows[i]| <= Width(rows)
    decreases |rows|
  {
    if i > 0 {
      WidthBounds(rows[1..], i - 1);
    }
  }

  /** The array begins with `n` of the rows, each filled up; the other rows are only filler. */
  ghost predicate RowsIn<T>(a: array2<T>, rows: seq<seq<T>>, filler: T, n: int)
    requires 0 <= n <= |rows|
    reads a
  {
    && a.Length0 == |rows|
    && (forall i :: 0 <= i < n ==> |rows[i]| <= a.Length1)
    && (forall i, j :: 0 <= i < n && 0 <= j < |rows[i]| && j < a.Length1 ==> a[i, j] == rows[i][j])
    && (forall i, j :: 0 <= i < n && |rows[i]| <= j < a.Length1 ==> a[i, j] == filler)
    && (forall i, j :: n <= i < |rows| && 0 <= j < a.Length1 ==> a[i, j] == filler)
  }

  /** Put one more row in its place. */
  method FillRow<T>(a: array2<T>, ghost rows: seq<seq<T>>, filler: T, index: int, values: seq<T>)
    requires 0 <= index < |rows| && values == rows[index] && |values| <= a.Length1
    requires RowsIn(a, rows, filler, index)
    modifies a
    ensures RowsIn(a, rows, filler, index + 1)
  {
    var n := 0;
    while n < |values|
      invariant 0 <= n <= |values|
      invariant forall j :: 0 <= j < n ==> a[index, j] == values[j]
      invariant forall j :: n <= j < a.Length1 ==> a[index, j] == filler
      invariant forall i, j :: 0 <= i < a.Length0 && 0 <= j < a.Length1 && i != index ==> a[i, j] == old(a[i, j])
    {
      a[index, n] := values[n];
      n := n + 1;
    }
  }

  /** The four arrays of a batch. */
  ghost predicate Holds(p: Packed, batch: seq<Encoded>, pad: int, n: int)
    requires 0 <= n <= |batch|
    reads p.ids, p.attention, p.markers, p.valid
  {
    && RowsIn(p.ids, TokenRows(batch), pad, n)
    && RowsIn(p.attention, Marks(TokenRows(batch), 1), 0, n)
    && RowsIn(p.markers, MarkerRows(batch), 0, n)
    && RowsIn(p.valid, Marks(MarkerRows(batch), true), false, n)
  }

  method PackInputs(batch: seq<Encoded>, pad: int) returns (r: Result<Packed, Failure>)
    ensures r.Err? <==> batch == []
    ensures r.Ok? ==>
              && Holds(r.value, batch, pad, |batch|)
              && r.value.ids.Length1 == r.value.attention.Length1 == Width(TokenRows(batch))
              && r.value.markers.Length1 == r.value.valid.Length1 == Width(MarkerRows(batch))
  {
    if batch == [] {
      return Err(EmptyBatch);
    }
    hide Holds;
    var length, choices := Width(TokenRows(batch)), Width(MarkerRows(batch));
    var p := Allocate(batch, pad, length, choices);
    var index := 0;
    while index < |batch|
      invariant 0 <= index <= |batch|
      invariant Holds(p, batch, pad, index)
    {
      RowsFit(batch, index);
      PackRow(p, batch, pad, index);
      index := index + 1;
    }
    return Ok(p);
  }

  lemma RowsFit(batch: seq<Encoded>, i: nat)
    requires i < |batch|
    ensures |batch[i].ids| <= Width(TokenRows(batch)) && |batch[i].markers| <= Width(MarkerRows(batch))
  {
    WidthBounds(TokenRows(batch), i);
    WidthBounds(MarkerRows(batch), i);
  }

  /** Four arrays of filler. */
  method Allocate(batch: seq<Encoded>, pad: int, length: nat, choices: nat) returns (p: Packed)
    ensures fresh(p.ids) && fresh(p.attention) && fresh(p.markers) && fresh(p.valid) && Apart(p)
    ensures p.ids.Length1 == p.attention.Length1 == length && p.markers.Length1 == p.valid.Length1 == choices
    ensures Holds(p, batch, pad, 0)
  {
    ghost var tokenRows, markerRows := TokenRows(batch), MarkerRows(batch);
    ghost var ones, trues := Marks(tokenRows, 1), Marks(markerRows, true);
    hide RowsIn, TokenRows, MarkerRows, Marks;
    var ids := NewFilled(|batch|, length, pad, tokenRows);
    var attention := NewFilled(|batch|, length, 0, ones);
    var markers := NewFilled(|batch|, choices, 0, markerRows);
    var valid := NewFilled(|batch|, choices, false, trues);
    p := Packed(ids, attention, markers, valid);
  }

  predicate Apart(p: Packed) {
    p.ids != p.attention && p.ids != p.markers && p.attention != p.markers
  }

  /** Pack one sequence into its rows. */
  method PackRow(p: Packed, batch: seq<Encoded>, pad: int, index: int)
    requires 0 <= index < |batch| && Holds(p, batch, pad, index) && Apart(p)
    requires |batch[index].ids| <= p.ids.Length1 && |batch[index].ids| <= p.attention.Length1
    requires |batch[index].markers| <= p.markers.Length1 && |batch[index].markers| <= p.valid.Length1
    modifies p.ids, p.attention, p.markers, p.valid
    ensures Holds(p, batch, pad, index + 1)
  {
    ghost var tokenRows, markerRows := TokenRows(batch), MarkerRows(batch);
    ghost var ones, trues := Marks(tokenRows, 1), Marks(markerRows, true);
    hide RowsIn, TokenRows, MarkerRows, Marks;
    var e := batch[index];
    FillRow(p.ids, tokenRows, pad, index, e.ids);
    FillMarks(p.attention, ones, 1, 0, index, |e.ids|);
    FillRow(p.markers, markerRows, 0, index, e.markers);
    FillMarks(p.valid, trues, true, false, index, |e.markers|);
  }

  method NewFilled<T>(size: nat, width: nat, filler: T, ghost rows: seq<seq<T>>) returns (a: array2<T>)
    requires |rows| == size
    ensures fresh(a) && a.Length0 == size && a.Length1 == width && RowsIn(a, rows, filler, 0)
  {
    a := new T[size, width]((_, _) => filler);
  }

  /** Mark as many cells of a row. */
  method FillMarks<T>(a: array2<T>, ghost rows: seq<seq<T>>, mark: T, filler: T, index: int, count: nat)
    requires 0 <= index < |rows| && |rows[index]| == count <= a.Length1
    requires forall j :: 0 <= j < count ==> rows[index][j] == mark
    requires RowsIn(a, rows, filler, index)
    modifies a
    ensures RowsIn(a, rows, filler, index + 1)
  {
    hide RowsIn;
    FillRow(a, rows, filler, index, seq(count, _ => mark));
  }

  predicate Before(j: int, n: int) { j < n }

  lemma SameCount(m: nat, n: nat, width: nat)
    requires m <= width && n <= width
    requires forall j :: 0 <= j < width ==> (Before(j, m) <==> Before(j, n))
    ensures m == n
  {
    assert m < width ==> !Before(m, m);
    assert n < width ==> !Before(n, n);
  }

  /** The rows are read back from an array and the marks of their lengths. */
  lemma MarkedRowsAreUnique<T, U>(
    a: array2<T>, marks: array2<U>, x: seq<seq<T>>, y: seq<seq<T>>, filler: T, mark: U, blank: U)
    requires |x| == |y| && a.Length0 == marks.Length0 && a.Length1 == marks.Length1 && mark != blank
    requires RowsIn(a, x, filler, |x|) && RowsIn(marks, Marks(x, mark), blank, |x|)
    requires RowsIn(a, y, filler, |y|) && RowsIn(marks, Marks(y, mark), blank, |y|)
    ensures x == y
  {
    forall i | 0 <= i < |x| ensures x[i] == y[i] {
      forall j | 0 <= j < a.Length1
        ensures Before(j, |x[i]|) <==> marks[i, j] == mark
        ensures Before(j, |y[i]|) <==> marks[i, j] == mark
      {}
      SameCount(|x[i]|, |y[i]|, a.Length1);
      assert forall j :: 0 <= j < |x[i]| ==> x[i][j] == a[i, j] == y[i][j];
    }
  }

  /** Padding loses nothing, whatever the padding token: two batches that give the same arrays are the same. */
  lemma PackingLosesNothing(p: Packed, a: seq<Encoded>, b: seq<Encoded>, pad: int)
    requires |a| == |b| && Holds(p, a, pad, |a|) && Holds(p, b, pad, |b|)
    requires p.ids.Length1 == p.attention.Length1 && p.markers.Length1 == p.valid.Length1
    ensures a == b
  {
    hide RowsIn, Marks;
    RowCounts(p, a, pad);
    MarkedRowsAreUnique(p.ids, p.attention, TokenRows(a), TokenRows(b), pad, 1, 0);
    MarkedRowsAreUnique(p.markers, p.valid, MarkerRows(a), MarkerRows(b), 0, true, false);
    assert forall i :: 0 <= i < |a| ==> a[i].ids == TokenRows(a)[i] && a[i].markers == MarkerRows(a)[i];
    assert forall i :: 0 <= i < |b| ==> b[i].ids == TokenRows(b)[i] && b[i].markers == MarkerRows(b)[i];
  }

  lemma RowCounts(p: Packed, batch: seq<Encoded>, pad: int)
    requires Holds(p, batch, pad, |batch|)
    ensures p.ids.Length0 == p.attention.Length0 == p.markers.Length0 == p.valid.Length0 == |batch|
  {}
}
