/** The compensator of controlador.c: a fixed-coefficient third-order IIR
    filter in delay-line form, with one four-slot row per control axis in the
    global h[2][4]. A call computes the feedback node h0 from the row, the
    output from h0 and the old slots, and shifts the row by one. */
module Controller {

  // k_num[0..3] (controlador.c:10)
  const B0: real := 0.3774
  const B1: real := 0.2662
  const B2: real := 0.3694
  const B3: real := 0.2744
  // k_den[0..2] (controlador.c:11)
  const A1: real := 2.1189
  const A2: real := 1.4832
  const A3: real := 0.3483

  const ZeroRow: seq<real> := [0.0, 0.0, 0.0, 0.0]

  predicate IsRow(row: seq<real>) { |row| == 4 }

  /** The feedback node: input plus the recursive part over the pre-call
      slots h1..h3 (slot h0 is overwritten first and never read). */
  function Feedback(x: real, row: seq<real>): real
    requires IsRow(row)
  {
    x + A1 * row[1] - A2 * row[2] + A3 * row[3]
  }

  /** The value returned by one call. */
  function Output(x: real, row: seq<real>): real
    requires IsRow(row)
  {
    B0 * Feedback(x, row) - B1 * row[1] - B2 * row[2] + B3 * row[3]
  }

  /** The row after one call: h0 keeps the feedback value, the shift copies
      h0..h2 into h1..h3, and the old h3 is lost. */
  function NextRow(x: real, row: seq<real>): (r: seq<real>)
    requires IsRow(row)
    ensures IsRow(r)
  {
    var w := Feedback(x, row);
    [w, w, row[1], row[2]]
  }

  function ScaleRow(c: real, row: seq<real>): (r: seq<real>)
    requires IsRow(row)
    ensures IsRow(r)
  {
    [c * row[0], c * row[1], c * row[2], c * row[3]]
  }

  function AddRows(p: seq<real>, q: seq<real>): (r: seq<real>)
    requires IsRow(p) && IsRow(q)
    ensures IsRow(r)
  {
    [p[0] + q[0], p[1] + q[1], p[2] + q[2], p[3] + q[3]]
  }

  /** Pointwise sum of two input or output histories of equal length. */
  function AddSeqs(xs: seq<real>, ys: seq<real>): (r: seq<real>)
    requires |xs| == |ys|
    ensures |r| == |xs|
  {
    if xs == [] then [] else [xs[0] + ys[0]] + AddSeqs(xs[1..], ys[1..])
  }

  /** The outputs and final row of successive calls on one axis. */
  function Run(xs: seq<real>, row: seq<real>): (res: (seq<real>, seq<real>))
    requires IsRow(row)
    ensures |res.0| == |xs| && IsRow(res.1)
    decreases |xs|
  {
    if xs == [] then ([], row)
    else
      var rest := Run(xs[1..], NextRow(xs[0], row));
      ([Output(xs[0], row)] + rest.0, rest.1)
  }

  /** From an all-zero row the first output is exactly B0 times the input,
      and the row becomes [x, x, 0, 0]. */
  lemma FirstResponse(x: real)
    ensures Output(x, ZeroRow) == 0.3774 * x
    ensures NextRow(x, ZeroRow) == [x, x, 0.0, 0.0]
  {
  }

  /** Superposition for one call: the output and the next row are linear in
      the pair (input, pre-call row). */
  lemma StepLinear(a: real, x1: real, r1: seq<real>, b: real, x2: real, r2: seq<real>)
    requires IsRow(r1) && IsRow(r2)
    ensures Output(a * x1 + b * x2, AddRows(ScaleRow(a, r1), ScaleRow(b, r2)))
         == a * Output(x1, r1) + b * Output(x2, r2)
    ensures NextRow(a * x1 + b * x2, AddRows(ScaleRow(a, r1), ScaleRow(b, r2)))
         == AddRows(ScaleRow(a, NextRow(x1, r1)), ScaleRow(b, NextRow(x2, r2)))
  {
    var r := AddRows(ScaleRow(a, r1), ScaleRow(b, r2));
    var w := Feedback(a * x1 + b * x2, r);
    assert w == a * Feedback(x1, r1) + b * Feedback(x2, r2);
    var lhs := NextRow(a * x1 + b * x2, r);
    var rhs := AddRows(ScaleRow(a, NextRow(x1, r1)), ScaleRow(b, NextRow(x2, r2)));
    assert lhs[0] == rhs[0] && lhs[1] == rhs[1] && lhs[2] == rhs[2] && lhs[3] == rhs[3];
  }

  lemma AddSeqsUnfold(xs: seq<real>, ys: seq<real>)
    requires xs != [] && |xs| == |ys|
    ensures AddSeqs(xs, ys) == [xs[0] + ys[0]] + AddSeqs(xs[1..], ys[1..])
  {
  }

  lemma AddSeqsPrepend(p: real, ps: seq<real>, q: real, qs: seq<real>)
    requires |ps| == |qs|
    ensures AddSeqs([p] + ps, [q] + qs) == [p + q] + AddSeqs(ps, qs)
  {
    var xs, ys := [p] + ps, [q] + qs;
    assert xs[1..] == ps && ys[1..] == qs;
    assert xs[0] == p && ys[0] == q;
    assert AddSeqs(xs[1..], ys[1..]) == AddSeqs(ps, qs);
    AddSeqsUnfold(xs, ys);
  }

  lemma RunUnfold(xs: seq<real>, row: seq<real>)
    requires xs != [] && IsRow(row)
    ensures Run(xs, row) == ([Output(xs[0], row)] + Run(xs[1..], NextRow(xs[0], row)).0,
                             Run(xs[1..], NextRow(xs[0], row)).1)
  {
  }

  /** One call is additive in the pair (input, row). */
  lemma StepAdditive(x1: real, r1: seq<real>, x2: real, r2: seq<real>)
    requires IsRow(r1) && IsRow(r2)
    ensures Output(x1 + x2, AddRows(r1, r2)) == Output(x1, r1) + Output(x2, r2)
    ensures NextRow(x1 + x2, AddRows(r1, r2)) == AddRows(NextRow(x1, r1), NextRow(x2, r2))
  {
    var lhs := NextRow(x1 + x2, AddRows(r1, r2));
    var rhs := AddRows(NextRow(x1, r1), NextRow(x2, r2));
    assert lhs[0] == rhs[0] && lhs[1] == rhs[1] && lhs[2] == rhs[2] && lhs[3] == rhs[3];
  }

  /** Superposition over whole input histories: the response to the sum of
      two input histories started from the sum of two rows is the sum of the
      two responses, output by output, and so is the final row. */
  lemma {:induction false} RunAdditive(xs: seq<real>, r1: seq<real>, ys: seq<real>, r2: seq<real>)
    requires |xs| == |ys| && IsRow(r1) && IsRow(r2)
    ensures Run(AddSeqs(xs, ys), AddRows(r1, r2)).0 == AddSeqs(Run(xs, r1).0, Run(ys, r2).0)
    ensures Run(AddSeqs(xs, ys), AddRows(r1, r2)).1 == AddRows(Run(xs, r1).1, Run(ys, r2).1)
    decreases |xs|
  {
    if xs != [] {
      var n1, n2 := NextRow(xs[0], r1), NextRow(ys[0], r2);
      var zs := AddSeqs(xs, ys);
      AddSeqsUnfold(xs, ys);
      StepAdditive(xs[0], r1, ys[0], r2);
      RunAdditive(xs[1..], n1, ys[1..], n2);
      RunUnfold(zs, AddRows(r1, r2));
      RunUnfold(xs, r1);
      RunUnfold(ys, r2);
      AddSeqsPrepend(Output(xs[0], r1), Run(xs[1..], n1).0, Output(ys[0], r2), Run(ys[1..], n2).0);
    }
  }

  /** The response from any row is the zero-input response of that row plus
      the zero-state response to the inputs. */
  lemma ZeroInputPlusZeroState(xs: seq<real>, row: seq<real>)
    requires IsRow(row)
    ensures Run(xs, row).0 == AddSeqs(Run(Zeros(|xs|), row).0, Run(xs, ZeroRow).0)
  {
    assert AddSeqs(Zeros(|xs|), xs) == xs by {
      ZerosAddLeft(xs);
    }
    assert AddRows(row, ZeroRow) == row;
    RunAdditive(Zeros(|xs|), row, xs, ZeroRow);
  }

  function Zeros(n: nat): (z: seq<real>)
    ensures |z| == n
  {
    if n == 0 then [] else [0.0] + Zeros(n - 1)
  }

  lemma {:induction false} ZerosAddLeft(xs: seq<real>)
    ensures AddSeqs(Zeros(|xs|), xs) == xs
    decreases |xs|
  {
    if xs != [] {
      var z := Zeros(|xs|);
      assert z == [0.0] + Zeros(|xs| - 1);
      assert z[1..] == Zeros(|xs[1..]|);
      AddSeqsUnfold(z, xs);
      ZerosAddLeft(xs[1..]);
      assert AddSeqs(z, xs) == [0.0 + xs[0]] + xs[1..];
    }
  }

  /** At rest the compensator stays at rest: zero inputs from the all-zero row
      give zero outputs and leave the row all zero, for any number of ticks. */
  lemma {:induction false} RestStaysAtRest(xs: seq<real>)
    requires forall i :: 0 <= i < |xs| ==> xs[i] == 0.0
    ensures forall i :: 0 <= i < |xs| ==> Run(xs, ZeroRow).0[i] == 0.0
    ensures Run(xs, ZeroRow).1 == ZeroRow
    decreases |xs|
  {
    if xs != [] {
      assert NextRow(xs[0], ZeroRow) == ZeroRow;
      RestStaysAtRest(xs[1..]);
      forall i | 0 < i < |xs|
        ensures Run(xs, ZeroRow).0[i] == 0.0
      {
        assert Run(xs, ZeroRow).0[i] == Run(xs[1..], ZeroRow).0[i - 1];
      }
    }
  }

  /** The global delay lines h[2][4]; row k belongs to axis k. */
  class Compensator {
    var h: array2<real>

    ghost predicate Valid()
      reads this
    {
      h.Length0 == 2 && h.Length1 == 4
    }

    ghost function Row(k: nat): (row: seq<real>)
      requires Valid() && k < 2
      reads this, h
      ensures IsRow(row)
    {
      [h[k, 0], h[k, 1], h[k, 2], h[k, 3]]
    }

    /** The static initialiser: both rows all zero. */
    constructor ()
      ensures Valid() && fresh(h)
      ensures Row(0) == ZeroRow && Row(1) == ZeroRow
    {
      h := new real[2, 4]((i, j) => 0.0);
    }

    /** controlador_planta: one call on axis `axis`. The index is not checked
        by the source, so a caller must pass 0 or 1. */
    method Plant(input: real, axis: nat) returns (y: real)
      requires Valid() && axis < 2
      modifies h
      ensures Valid()
      ensures y == Output(input, old(Row(axis)))
      ensures Row(axis) == NextRow(input, old(Row(axis)))
      ensures Row(1 - axis) == old(Row(1 - axis))
    {
      ghost var row := Row(axis);
      h[axis, 0] := input;
      h[axis, 0] := h[axis, 0] + A1 * h[axis, 1];
      h[axis, 0] := h[axis, 0] - A2 * h[axis, 2];
      h[axis, 0] := h[axis, 0] + A3 * h[axis, 3];
      assert h[axis, 0] == Feedback(input, row);

      y := B0 * h[axis, 0];
      y := y - B1 * h[axis, 1];
      y := y - B2 * h[axis, 2];
      y := y + B3 * h[axis, 3];

      var i := 3;
      while i > 0
        invariant 0 <= i <= 3
        invariant h[axis, 0] == Feedback(input, row)
        invariant forall j :: 0 < j <= i ==> h[axis, j] == row[j]
        invariant forall j :: i < j < 4 ==> h[axis, j] == if j == 1 then Feedback(input, row) else row[j - 1]
        invariant forall k, j :: 0 <= k < 2 && k != axis && 0 <= j < 4 ==> h[k, j] == old(h[k, j])
      {
        h[axis, i] := h[axis, i - 1];
        i := i - 1;
      }
    }
  }
}
