/**
  How far matrices agree with section 7.6.2.2 of the OpenGL 4.6 core specification: the writer starts every column at
  its own alignment, as the column of a matrix of four rows.
 */
module GlslMatrices {
  import opened ByteStack
  import opened GlslConformance
  import opened GlslLayout
  import opened GlslStride

  /** Every scalar is where the rules put it. */
  ghost predicate InPlace(l: Layout, t: Type, v: Value, b: seq<u8>)
    requires Standard(t) && Fits(t, v)
  {
    Holds(Push(l, t, v, b, false), Leaves(l, t, v, NextAligned(|b|, BaseAlignment(l, t))))
  }

  /** And what is written ends where it should, but for a bool that ends early. */
  ghost predicate EndsRight(l: Layout, t: Type, v: Value, b: seq<u8>)
    requires Standard(t) && Fits(t, v)
  {
    NextAligned(|Push(l, t, v, b, false)|, 4) == NextAligned(|b|, BaseAlignment(l, t)) + Size(l, t)
  }

  // ----- how long they are

  function ColumnAlignment(rows: nat): nat {
    if rows == 2 then 8 else 16
  }

  lemma WordSize(l: Layout, v: Value, off: nat)
    requires Fits(Scalar(Word), v) && off % 4 == 0
    ensures |Appended(l, Scalar(Word), v, off, false)| == 4
  {
    assert Alignment(l, Scalar(Word)) == 4 && Padding(off, 4) == [];
  }

  lemma {:induction false} WordsSize(l: Layout, vs: seq<Value>, off: nat)
    requires AllFit(Scalar(Word), vs) && off % 4 == 0
    ensures |AppendedEach(l, Scalar(Word), 1, vs, off)| == 4 * |vs|
    decreases vs
  {
    hide Padding, Appended, Fits;
    if vs == [] {
    } else {
      NoPaddingToOne(off);
      WordSize(l, vs[0], off);
      WordsSize(l, vs[1..], off + 4);
    }
  }

  lemma ColumnSize(l: Layout, rows: nat, v: Value)
    requires Fits(Vector(Word, rows), v)
    ensures |Alone(l, Vector(Word, rows), v)| == 4 * rows
  {
    hide AllFit;
    assert Padding(0, Alignment(l, Vector(Word, rows))) == [];
    WordsSize(l, v.parts, 0);
  }

  /** Columns follow each other at their own alignment, with nothing behind the last. */
  lemma {:induction false} ColumnsSize(l: Layout, rows: nat, vs: seq<Value>, off: nat)
    requires 2 <= rows <= 4 && AllFit(Vector(Word, rows), vs) && vs != []
    ensures var a := ColumnAlignment(rows);
            && off <= NextAligned(off, a)
            && |AppendedEach(l, Vector(Word, rows), 1, vs, off)|
               == NextAligned(off, a) - off + (|vs| - 1) * a + 4 * rows
    decreases vs
  {
    hide Appended, NextAligned, Fits, Alone;
    var t, a := Vector(Word, rows), ColumnAlignment(rows);
    assert Alignment(l, t) == a && Padding(off, 1) == [] by { NoPaddingToOne(off); }
    var start := NextAligned(off, a);
    SaneScalar(l, t);
    AppendedBegins(l, t, vs[0], off);
    ColumnSize(l, rows, vs[0]);
    if |vs| == 1 {
    } else {
      var next := start + 4 * rows;
      RoundIsMultiple(off, a);
      NextColumnStart(start, rows);
      ColumnsSize(l, rows, vs[1..], next);
      OneMore(|vs| - 1, a);
    }
  }

  lemma NoPaddingToOne(off: nat)
    ensures Padding(off, 1) == []
  {
  }

  lemma NextColumnStart(start: nat, rows: nat)
    requires 2 <= rows <= 4 && Multiple(start, ColumnAlignment(rows))
    ensures NextAligned(start + 4 * rows, ColumnAlignment(rows)) == start + ColumnAlignment(rows)
  {
    hide NextAligned;
    RoundShift(start, 4 * rows, ColumnAlignment(rows));
    ColumnRound(rows);
  }

  lemma ColumnRound(rows: nat)
    requires 2 <= rows <= 4
    ensures NextAligned(4 * rows, ColumnAlignment(rows)) == ColumnAlignment(rows)
  {
  }

  lemma MatrixSize(l: Layout, cols: nat, rows: nat, v: Value, b: seq<u8>)
    requires 2 <= cols && 2 <= rows <= 4 && Fits(Matrix(cols, rows), v)
    ensures |Push(l, Matrix(cols, rows), v, b, false)|
            == NextAligned(|b|, 16) + (cols - 1) * ColumnAlignment(rows) + 4 * rows
  {
    hide Push, NextAligned, Padding, AppendedEach, AllFit;
    var t := Matrix(cols, rows);
    PushAppends(l, t, v, b, false);
    PadIs(|b|, 16);
    var start := NextAligned(|b|, 16);
    ColumnsSize(l, rows, v.parts, start);
    RoundIsMultiple(|b|, 16);
    MultipleDown(start, ColumnAlignment(rows), 16);
    RoundMultiple(start, ColumnAlignment(rows));
  }

  // ----- where a column should be

  lemma {:induction false} LeavesOfElement(l: Layout, t: Type, stride: nat, vs: seq<Value>, base: nat, k: nat, at: nat,
                                           f: Leaf)
    requires Standard(t) && AllFit(t, vs) && k < |vs| && at == base + k * stride
    ensures Fits(t, vs[k])
    ensures f in Leaves(l, t, vs[k], at) ==> f in LeavesEach(l, t, stride, vs, base)
    decreases k
  {
    hide Leaves, Fits;
    if k == 0 {
    } else {
      OneMore(k, stride);
      LeavesOfElement(l, t, stride, vs[1..], base + stride, k - 1, at, f);
    }
  }

  /** The first scalar of column k. */
  lemma ColumnLeaf(l: Layout, cols: nat, rows: nat, v: Value, base: nat, k: nat, at: nat)
    requires 2 <= cols <= 4 && 2 <= rows <= 4 && Fits(Matrix(cols, rows), v) && k < cols
    requires at == base + k * ColumnStride(l, rows)
    ensures Fits(Vector(Word, rows), v.parts[k]) && v.parts[k].parts[0].Bytes?
    ensures var f := Leaf(at, v.parts[k].parts[0].data); |f.data| == 4 && f in Leaves(l, Matrix(cols, rows), v, base)
  {
    hide ColumnStride, LeavesEach, AllFit;
    var t := Vector(Word, rows);
    EveryFits(t, v.parts, k);
    FirstLeaf(l, v.parts[k], rows, at);
    LeavesOfElement(l, t, ColumnStride(l, rows), v.parts, base, k, at, Leaf(at, v.parts[k].parts[0].data));
  }

  lemma FirstLeaf(l: Layout, v: Value, rows: nat, at: nat)
    requires 2 <= rows <= 4 && Fits(Vector(Word, rows), v)
    ensures v.parts[0].Bytes? && |v.parts[0].data| == 4
    ensures Leaf(at, v.parts[0].data) in Leaves(l, Vector(Word, rows), v, at)
  {
    var word := v.parts[0];
    assert AllFit(Scalar(Word), v.parts) && Fits(Scalar(Word), word);
    assert Leaf(at, word.data) in Leaves(l, Scalar(Word), word, at);
  }

  // ----- which matrices agree

  /** A matrix of ones. */
  function Ones(cols: nat, rows: nat): (v: Value)
    ensures Fits(Matrix(cols, rows), v)
  {
    Parts(OnesEach(Vector(Word, rows), Parts(OnesEach(Scalar(Word), Bytes([1, 1, 1, 1]), rows)), cols))
  }

  function OnesEach(t: Type, v: Value, n: nat): (vs: seq<Value>)
    requires Fits(t, v)
    ensures |vs| == n && AllFit(t, vs) && forall i :: 0 <= i < n ==> vs[i] == v
  {
    if n == 0 then [] else [v] + OnesEach(t, v, n - 1)
  }

  lemma TwoRowsStd140(cols: nat, v: Value)
    requires 2 <= cols <= 4 && Fits(Matrix(cols, 2), v)
    ensures !InPlace(Std140, Matrix(cols, 2), v, [])
  {
    hide Push, Leaves, ColumnStride;
    MatrixSize(Std140, cols, 2, v, []);
    TwoRowsStride();
    ColumnLeaf(Std140, cols, 2, v, 0, cols - 1, (cols - 1) * 16);
  }

  lemma TwoRowsStride()
    ensures ColumnStride(Std140, 2) == 16
  {
  }

  lemma TwoRowsStd430(cols: nat)
    requires 2 <= cols <= 4
    ensures !InPlace(Std430, Matrix(cols, 2), Ones(cols, 2), Zeros(8))
  {
    hide Push, Appended, Leaves, ColumnStride, Alone;
    var t, v, b := Matrix(cols, 2), Ones(cols, 2), Zeros(8);
    ColumnLeaf(Std430, cols, 2, v, 8, 0, 8);
    PushAppends(Std430, t, v, b, false);
    AppendedBegins(Std430, t, v, 8);
    var r := Push(Std430, t, v, b, false);
    assert r == b + (Zeros(8) + Alone(Std430, t, v));
    assert |r| >= 16 && r[8..12][0] == r[8] == 0;
    assert BaseAlignment(Std430, t) == 8;
    var f := Leaf(8, v.parts[0].parts[0].data);
    assert f in Leaves(Std430, t, v, 8) && f.data[0] == 1;
  }

  /**
    The scalars of a matrix are always where they belong if and only if it has three or four rows, and it ends where it
    should if and only if it has four: with three, four bytes are missing behind the last column.
   */
  lemma MatrixConformsIff(l: Layout, cols: nat, rows: nat)
    requires 2 <= cols <= 4 && 2 <= rows <= 4
    ensures (forall v, b :: Fits(Matrix(cols, rows), v) ==> InPlace(l, Matrix(cols, rows), v, b)) <==> rows >= 3
    ensures (forall v, b :: Fits(Matrix(cols, rows), v) ==>
                              InPlace(l, Matrix(cols, rows), v, b) && EndsRight(l, Matrix(cols, rows), v, b))
            <==> rows == 4
  {
    hide InPlace, EndsRight, Fits, Ones;
    var t := Matrix(cols, rows);
    if rows == 2 {
      if l == Std140 {
        TwoRowsStd140(cols, Ones(cols, 2));
      } else {
        TwoRowsStd430(cols);
      }
    } else {
      forall v, b | Fits(t, v) ensures InPlace(l, t, v, b) && (rows == 4 ==> EndsRight(l, t, v, b)) {
        MatrixInPlace(l, cols, rows, v, b);
      }
      if rows == 3 {
        ThreeRowsEnd(l, cols, Ones(cols, 3));
      }
    }
  }

  lemma MatrixInPlace(l: Layout, cols: nat, rows: nat, v: Value, b: seq<u8>)
    requires 2 <= cols <= 4 && 3 <= rows <= 4 && Fits(Matrix(cols, rows), v)
    ensures InPlace(l, Matrix(cols, rows), v, b)
    ensures rows == 4 ==> EndsRight(l, Matrix(cols, rows), v, b)
  {
    hide Push, Leaves, Holds, NextAligned, Fits, BaseAlignment, Size;
    PushConforms(l, Matrix(cols, rows), v, b, false);
  }

  lemma ThreeRowsEnd(l: Layout, cols: nat, v: Value)
    requires 2 <= cols <= 4 && Fits(Matrix(cols, 3), v)
    ensures !EndsRight(l, Matrix(cols, 3), v, [])
  {
    hide Push, ColumnStride, Fits;
    MatrixSize(l, cols, 3, v, []);
    ColumnsAreAligned(l, cols, 3);
  }

  /** The least harm: a scalar of four bytes behind three rows is written into the end of the last column. */
  lemma ScalarAfterThreeRows(l: Layout, cols: nat, k: Kind, v: Value)
    requires 2 <= cols <= 4 && k != Double && Fits(Struct([Matrix(cols, 3), Scalar(k)]), v)
    ensures !Holds(Push(l, Struct([Matrix(cols, 3), Scalar(k)]), v, [], true),
                   Leaves(l, Struct([Matrix(cols, 3), Scalar(k)]), v, 0))
  {
    hide Push, Leaves, AppendedMembers, LeavesMembers, MembersFit, Holds;
    var ms := [Matrix(cols, 3), Scalar(k)];
    TwoAppended(l, ms, v);
    SecondLeaf(l, ms, v);
    var r := Push(l, Struct(ms), v, [], true);
    var first, last := v.parts[0], v.parts[1];
    SaneStruct(l, ms);
    PushAppends(l, Struct(ms), v, [], true);
    StructIs(l, Struct(ms), v, 0, true);
    MatrixSize(l, cols, 3, first, []);
    SaneMembers(l, Struct(ms));
    PushAppends(l, ms[0], first, [], false);
    ScalarSize(l, k, last, 16 * (cols - 1) + 12);
    assert |r| <= 16 * cols;
    assert Leaf(16 * cols, last.data) in Leaves(l, Struct(ms), v, 0);
    BeyondTheEnd(r, Leaves(l, Struct(ms), v, 0), Leaf(16 * cols, last.data));
  }

  lemma BeyondTheEnd(r: seq<u8>, leaves: seq<Leaf>, f: Leaf)
    requires f in leaves && f.offset + |f.data| > |r|
    ensures !Holds(r, leaves)
  {
  }

  lemma SaneStruct(l: Layout, ms: seq<Type>)
    requires Standard(Struct(ms))
    ensures Sane(l, Struct(ms))
  {
    StandardIsSane(Struct(ms));
  }

  lemma ScalarSize(l: Layout, k: Kind, v: Value, off: nat)
    requires k != Double && Fits(Scalar(k), v) && off % 4 == 0
    ensures 1 <= |Appended(l, Scalar(k), v, off, false)| == |v.data| <= 4
  {
    assert Alignment(l, Scalar(k)) == 4 && Padding(off, 4) == [];
  }

  lemma TwoFit(ms: seq<Type>, v: Value)
    requires |ms| == 2 && Fits(Struct(ms), v)
    ensures v.Parts? && |v.parts| == 2 && MembersFit(ms, v.parts)
    ensures Fits(ms[0], v.parts[0]) && Fits(ms[1], v.parts[1])
    ensures MembersFit(ms[1..], v.parts[1..]) && MembersFit(ms[2..], v.parts[2..])
  {
    assert MembersFit(ms[1..], v.parts[1..]) && ms[1..][0] == ms[1] && v.parts[1..][0] == v.parts[1];
    assert ms[1..][1..] == ms[2..] && v.parts[1..][1..] == v.parts[2..];
  }

  lemma SecondLeaf(l: Layout, ms: seq<Type>, v: Value)
    requires |ms| == 2 && ms[0].Matrix? && ms[0].rows == 3 && 2 <= ms[0].cols <= 4 && ms[1].Scalar?
    requires ms[1].kind != Double && Fits(Struct(ms), v)
    ensures Standard(Struct(ms)) && v.Parts? && |v.parts| == 2 && v.parts[1].Bytes?
    ensures Leaf(16 * ms[0].cols, v.parts[1].data) in Leaves(l, Struct(ms), v, 0)
  {
    hide ColumnStride, RoundUp, LeavesEach, Fits;
    TwoFit(ms, v);
    ColumnsAreAligned(l, ms[0].cols, 3);
    AlignmentConforms(l, ms[0]);
    assert Size(l, ms[0]) == 16 * ms[0].cols;
    NoRounding(16 * ms[0].cols);
    assert Leaves(l, Struct(ms), v, 0) == LeavesMembers(l, ms, v.parts, 0, 0);
    SecondOfMembers(l, ms, v.parts);
  }

  lemma NoRounding(x: nat)
    requires x % 16 == 0
    ensures RoundUp(x, 4) == x && RoundUp(0, 16) == 0
  {
  }

  lemma SecondOfMembers(l: Layout, ms: seq<Type>, vs: seq<Value>)
    requires |ms| == 2 && (forall m :: m in ms ==> Standard(m)) && MembersFit(ms, vs)
    requires MembersFit(ms[1..], vs[1..]) && Fits(ms[1], vs[1]) && ms[1].Scalar?
    requires RoundUp(0, BaseAlignment(l, ms[0])) == 0
    requires RoundUp(Size(l, ms[0]), BaseAlignment(l, ms[1])) == Size(l, ms[0])
    ensures vs[1].Bytes? && Leaf(Size(l, ms[0]), vs[1].data) in LeavesMembers(l, ms, vs, 0, 0)
  {
    hide RoundUp, Size, BaseAlignment;
    assert ms[1..][0] == ms[1] && vs[1..][0] == vs[1];
    var n := Size(l, ms[0]);
    assert Leaf(n, vs[1].data) in Leaves(l, ms[1], vs[1], n);
    assert LeavesMembers(l, ms[1..], vs[1..], 0, n)
        == Leaves(l, ms[1], vs[1], n) + LeavesMembers(l, ms[1..][1..], vs[1..][1..], 0, n + Size(l, ms[1]));
  }

  lemma TwoAppended(l: Layout, ms: seq<Type>, v: Value)
    requires |ms| == 2 && Fits(Struct(ms), v)
    ensures v.Parts? && |v.parts| == 2
    ensures MembersFit(ms, v.parts) && Fits(ms[0], v.parts[0]) && Fits(ms[1], v.parts[1])
    ensures var n := |Appended(l, ms[0], v.parts[0], 0, false)|;
            |AppendedMembers(l, ms, v.parts, 0)| == n + |Appended(l, ms[1], v.parts[1], n, false)|
  {
    hide Appended, Fits;
    TwoFit(ms, v);
    assert ms[1..][0] == ms[1] && v.parts[1..][0] == v.parts[1];
    assert ms[1..][1..] == [] && v.parts[1..][1..] == [];
    var n := |Appended(l, ms[0], v.parts[0], 0, false)|;
    var second := Appended(l, ms[1], v.parts[1], n, false);
    NoMembers(l, n + |second|);
    assert AppendedMembers(l, ms[1..], v.parts[1..], n) == second + [];
  }

  lemma NoMembers(l: Layout, off: nat)
    ensures AppendedMembers(l, [], [], off) == []
  {
  }
}
