/**
  The rules of section 7.6.2.2 of the OpenGL 4.6 core specification, stated as offsets without any buffer, and the proof
  that the writer places every scalar where they say, as long as there are no matrices of two rows and none of three
  rows in front of a member that is aligned to four bytes.
 */
module GlslConformance {
  import opened ByteStack
  import opened GlslLayout

  /** The types of GLSL: vectors and matrices of two to four, no empty structures. */
  predicate Standard(t: Type) {
    match t
    case Scalar(_) => true
    case Vector(_, rows) => 2 <= rows <= 4
    case Matrix(cols, rows) => 2 <= cols <= 4 && 2 <= rows <= 4
    case Array(e, _) => Standard(e)
    case Struct(members) => members != [] && forall m :: m in members ==> Standard(m)
  }

  function RoundUp(x: nat, a: nat): nat
    requires a > 0
  {
    (x + a - 1) / a * a
  }

  /** The basic machine units of a scalar; bool takes as many as int. */
  function Units(k: Kind): (n: nat)
    ensures n == 4 || n == 8
  {
    if k == Double then 8 else 4
  }

  function VectorAlignment(k: Kind, rows: nat): (a: nat)
    ensures a > 0
  {
    if rows == 2 then 2 * Units(k) else 4 * Units(k)
  }

  /** Rules 1 to 5 and 9; std430 does not round up to the alignment of a vec4. */
  function BaseAlignment(l: Layout, t: Type): (a: nat)
    requires Standard(t)
    ensures a > 0
  {
    match t
    case Scalar(k) => Units(k)
    case Vector(k, rows) => VectorAlignment(k, rows)
    case Matrix(_, rows) => MatrixAlignment(l, rows)
    case Array(e, _) => if l == Std140 then RoundUp16(BaseAlignment(l, e)) else BaseAlignment(l, e)
    case Struct(members) =>
      if l == Std140 then RoundUp16(LargestAlignment(l, members)) else LargestAlignment(l, members)
  }

  /** A matrix is an array of its columns. */
  function MatrixAlignment(l: Layout, rows: nat): (a: nat)
    ensures a > 0
  {
    if l == Std140 then RoundUp16(VectorAlignment(Word, rows)) else VectorAlignment(Word, rows)
  }

  function ColumnStride(l: Layout, rows: nat): nat {
    RoundUp(rows * Units(Word), MatrixAlignment(l, rows))
  }

  function RoundUp16(a: nat): (r: nat)
    requires a > 0
    ensures r > 0
  {
    RoundUp(a, 16)
  }

  function LargestAlignment(l: Layout, ms: seq<Type>): (a: nat)
    requires ms != [] && forall m :: m in ms ==> Standard(m)
    ensures a > 0
  {
    if |ms| == 1 then BaseAlignment(l, ms[0]) else Max(BaseAlignment(l, ms[0]), LargestAlignment(l, ms[1..]))
  }

  function Stride(l: Layout, t: Type): nat
    requires t.Array? && Standard(t)
    decreases t, 0
  {
    RoundUp(Size(l, t.elem), BaseAlignment(l, t))
  }

  function Size(l: Layout, t: Type): nat
    requires Standard(t)
    decreases t, 1
  {
    match t
    case Scalar(k) => Units(k)
    case Vector(k, rows) => rows * Units(k)
    case Matrix(cols, rows) => cols * ColumnStride(l, rows)
    case Array(e, count) => count * Stride(l, t)
    case Struct(members) => RoundUp(End(l, members, 0), BaseAlignment(l, t))
  }

  /** Where the members end if the first may start at pos, counted from the start of the structure. */
  function End(l: Layout, ms: seq<Type>, pos: nat): nat
    requires forall m :: m in ms ==> Standard(m)
    decreases ms
  {
    if ms == [] then pos else End(l, ms[1..], RoundUp(pos, BaseAlignment(l, ms[0])) + Size(l, ms[0]))
  }

  /** A scalar and the offset at which the rules put it. */
  datatype Leaf = Leaf(offset: nat, data: seq<u8>)

  function Leaves(l: Layout, t: Type, v: Value, base: nat): seq<Leaf>
    requires Standard(t) && Fits(t, v)
    decreases v
  {
    match t
    case Scalar(_) => [Leaf(base, v.data)]
    case Vector(k, _) => LeavesEach(l, Scalar(k), Units(k), v.parts, base)
    case Matrix(_, rows) => LeavesEach(l, Vector(Word, rows), ColumnStride(l, rows), v.parts, base)
    case Array(e, _) => LeavesEach(l, e, Stride(l, t), v.parts, base)
    case Struct(members) => LeavesMembers(l, members, v.parts, base, 0)
  }

  function LeavesEach(l: Layout, t: Type, stride: nat, vs: seq<Value>, base: nat): seq<Leaf>
    requires Standard(t) && AllFit(t, vs)
    decreases vs
  {
    if vs == [] then [] else Leaves(l, t, vs[0], base) + LeavesEach(l, t, stride, vs[1..], base + stride)
  }

  function LeavesMembers(l: Layout, ms: seq<Type>, vs: seq<Value>, base: nat, pos: nat): seq<Leaf>
    requires MembersFit(ms, vs) && forall m :: m in ms ==> Standard(m)
    decreases vs
  {
    if vs == [] then []
    else
      var at := RoundUp(pos, BaseAlignment(l, ms[0]));
      Leaves(l, ms[0], vs[0], base + at) + LeavesMembers(l, ms[1..], vs[1..], base, at + Size(l, ms[0]))
  }

  /** Rule 5, in terms of the rules for arrays. */
  lemma MatrixIsArrayOfColumns(l: Layout, cols: nat, rows: nat, v: Value, base: nat)
    requires 2 <= cols <= 4 && 2 <= rows <= 4 && Fits(Matrix(cols, rows), v)
    ensures var m, a := Matrix(cols, rows), Array(Vector(Word, rows), cols);
            && Fits(a, v) && BaseAlignment(l, m) == BaseAlignment(l, a) && Size(l, m) == Size(l, a)
            && Leaves(l, m, v, base) == Leaves(l, a, v, base)
  {
    hide RoundUp, LeavesEach, AllFit;
    var column, a := Vector(Word, rows), Array(Vector(Word, rows), cols);
    assert Size(l, column) == rows * Units(Word) && BaseAlignment(l, column) == VectorAlignment(Word, rows);
    assert BaseAlignment(l, a) == MatrixAlignment(l, rows) && Stride(l, a) == ColumnStride(l, rows);
  }

  // ----- where the writer agrees

  /** Three rows leave the last four bytes of the last column unwritten. */
  predicate EndsShort(t: Type) {
    t.Matrix? && t.rows == 3
  }

  /** Each member that follows a matrix of three rows is aligned to 8; g tells it of the first. */
  predicate Apart(l: Layout, ms: seq<Type>, g: nat) {
    && (ms != [] && g == 8 ==> Alignment(l, ms[0]) >= 8)
    && (forall i :: 1 <= i < |ms| && EndsShort(ms[i - 1]) ==> Alignment(l, ms[i]) >= 8)
  }

  /** No matrix of two rows, and none of three rows in front of a member that would fit into its last four bytes. */
  predicate Agreed(l: Layout, t: Type) {
    match t
    case Matrix(_, rows) => rows >= 3
    case Array(e, _) => Agreed(l, e)
    case Struct(members) =>
      (forall m :: m in members ==> Agreed(l, m)) && Apart(l, members, 4)
    case _ => true
  }

  /** Up to which alignment the end of what is written is padding: a bool may end early, too. */
  function Grain(t: Type): (g: nat)
    ensures g == 4 || g == 8
  {
    if EndsShort(t) then 8 else 4
  }

  function LastGrain(ms: seq<Type>, g: nat): nat {
    if ms == [] then g else Grain(ms[|ms| - 1])
  }

  function WrittenGrain(t: Type, topLevel: bool): nat {
    if topLevel && t.Struct? then LastGrain(t.members, 4) else Grain(t)
  }

  ghost predicate Holds(r: seq<u8>, leaves: seq<Leaf>) {
    forall f :: f in leaves ==> f.offset + |f.data| <= |r| && r[f.offset..f.offset + |f.data|] == f.data
  }

  // ----- arithmetic of rounding

  lemma RoundUpIsNextAligned(x: nat, a: nat)
    requires Power(a)
    ensures RoundUp(x, a) == NextAligned(x, a)
  {
    if a == 4 {
      assert (x + 3) / 4 == if x % 4 == 0 then x / 4 else x / 4 + 1;
    } else if a == 8 {
      assert (x + 7) / 8 == if x % 8 == 0 then x / 8 else x / 8 + 1;
    } else if a == 16 {
      assert (x + 15) / 16 == if x % 16 == 0 then x / 16 else x / 16 + 1;
    } else {
      assert (x + 31) / 32 == if x % 32 == 0 then x / 32 else x / 32 + 1;
    }
  }

  predicate Multiple(x: nat, a: nat) {
    a != 0 && x % a == 0
  }

  /** Rounding up to 4 or 8 first changes nothing. */
  lemma RoundTwice(x: nat, g: nat, a: nat)
    requires Power(a) && (g == 4 || g == 8) && g <= a
    ensures NextAligned(NextAligned(x, g), a) == NextAligned(x, a)
  {
    if g == 4 {
      RoundTwiceBy4(x, a);
    } else {
      RoundTwiceBy8(x, a);
    }
  }

  lemma RoundTwiceBy8(x: nat, a: nat)
    requires Power(a) && a >= 8
    ensures NextAligned(NextAligned(x, 8), a) == NextAligned(x, a)
  {
    hide NextAligned;
    var y := NextAligned(x, 8);
    DoubleRound8(x);
    DoubleRound16(x);
    DoubleRound16(y);
    if a == 8 {
      RoundIsMultiple(x, 8);
      RoundMultiple(y, 8);
    }
  }

  lemma RoundTwiceBy4(x: nat, a: nat)
    requires Power(a)
    ensures NextAligned(NextAligned(x, 4), a) == NextAligned(x, a)
  {
    hide NextAligned;
    var y := NextAligned(x, 4);
    DoubleRound4(x);
    DoubleRound8(x);
    DoubleRound8(y);
    DoubleRound16(x);
    DoubleRound16(y);
    if a == 4 {
      RoundIsMultiple(x, 4);
      RoundMultiple(y, 4);
    }
  }

  lemma DoubleRound4(x: nat)
    ensures NextAligned(NextAligned(x, 4), 8) == NextAligned(x, 8)
  {
    var q, r, y := x / 8, x % 8, NextAligned(x, 4);
    if r < 4 {
      Remainder4(x, 2 * q, r);
    } else {
      Remainder4(x, 2 * q + 1, r - 4);
    }
    if 0 < r <= 4 {
      Remainder8(y, q, 4);
    } else if r > 4 {
      Remainder8(y, q + 1, 0);
    }
  }

  lemma DoubleRound8(x: nat)
    ensures NextAligned(NextAligned(x, 8), 16) == NextAligned(x, 16)
  {
    var q, r, y := x / 16, x % 16, NextAligned(x, 8);
    if r < 8 {
      Remainder8(x, 2 * q, r);
    } else {
      Remainder8(x, 2 * q + 1, r - 8);
    }
    if 0 < r <= 8 {
      Remainder16(y, q, 8);
    } else if r > 8 {
      Remainder16(y, q + 1, 0);
    }
  }

  lemma DoubleRound16(x: nat)
    ensures NextAligned(NextAligned(x, 16), 32) == NextAligned(x, 32)
  {
    var q, r, y := x / 32, x % 32, NextAligned(x, 16);
    if r < 16 {
      Remainder16(x, 2 * q, r);
    } else {
      Remainder16(x, 2 * q + 1, r - 16);
    }
    if 0 < r <= 16 {
      Remainder32(y, q, 16);
    } else if r > 16 {
      Remainder32(y, q + 1, 0);
    }
  }

  lemma MultipleDown(x: nat, m: nat, a: nat)
    requires Power(m) && Power(a) && m <= a && Multiple(x, a)
    ensures Multiple(x, m)
  {
    PowersDivide(m, a, x, 0);
  }

  lemma RoundMultiple(x: nat, a: nat)
    requires Multiple(x, a)
    ensures NextAligned(x, a) == x
  {}

  lemma RoundShift(base: nat, pos: nat, a: nat)
    requires Power(a) && Multiple(base, a)
    ensures NextAligned(base + pos, a) == base + NextAligned(pos, a)
  {
    hide NextAligned, Power;
    ShiftKeepsRemainder(a, base, 0, pos);
    PaddingRepeats(base + pos, pos, a);
  }

  lemma RoundIsMultiple(x: nat, a: nat)
    requires Power(a)
    ensures Multiple(NextAligned(x, a), a) && NextAligned(x, a) >= x
  {
    NextAlignedFacts(x, a);
  }

  // ----- alignments conform

  lemma {:induction false} AlignmentConforms(l: Layout, t: Type)
    requires Standard(t) && Agreed(l, t)
    ensures Sane(l, t) && Alignment(l, t) == BaseAlignment(l, t) && Power(Alignment(l, t))
    decreases t
  {
    StandardIsSane(t);
    SaneIsPower(l, t);
    match t
    case Array(e, _) =>
      AlignmentConforms(l, e);
    case Struct(members) =>
      LargestConforms(l, members);
    case _ =>
  }

  lemma {:induction false} StandardIsSane(t: Type)
    requires Standard(t)
    ensures !Hollow(t) && !WritesHollow(t)
    decreases t
  {
    match t
    case Array(e, _) => StandardIsSane(e);
    case Struct(members) =>
      forall m | m in members ensures !Hollow(m) && !WritesHollow(m) {
        StandardIsSane(m);
      }
      assert members[0] in members;
    case _ =>
  }

  lemma {:induction false} LargestConforms(l: Layout, ms: seq<Type>)
    requires ms != [] && forall m :: m in ms ==> Standard(m) && Agreed(l, m)
    ensures MaxAlignment(l, ms, 0) == LargestAlignment(l, ms) && Power(MaxAlignment(l, ms, 0))
    ensures MaxAlignment(l, ms, 16) == Max(LargestAlignment(l, ms), 16)
    decreases ms
  {
    AlignmentConforms(l, ms[0]);
    if |ms| > 1 {
      LargestConforms(l, ms[1..]);
    }
  }

  // ----- the writer conforms

  lemma HoldsLonger(r: seq<u8>, longer: seq<u8>, leaves: seq<Leaf>)
    requires r <= longer && Holds(r, leaves)
    ensures Holds(longer, leaves)
  {
    forall f | f in leaves ensures longer[f.offset..f.offset + |f.data|] == f.data {
      assert longer[f.offset..f.offset + |f.data|] == r[f.offset..f.offset + |f.data|];
    }
  }

  lemma HoldsBoth(r: seq<u8>, xs: seq<Leaf>, ys: seq<Leaf>)
    requires Holds(r, xs) && Holds(r, ys)
    ensures Holds(r, xs + ys)
  {}

  /** What the rules give a top-level structure: no padding at its end. */
  function WrittenSize(l: Layout, t: Type, topLevel: bool): nat
    requires Standard(t)
  {
    if topLevel && t.Struct? then End(l, t.members, 0) else Size(l, t)
  }

  /** Every scalar of the object is found at its standard offset, and the object takes up its standard size. */
  lemma {:induction false} PushConforms(l: Layout, t: Type, v: Value, b: seq<u8>, topLevel: bool)
    requires Standard(t) && Agreed(l, t) && Fits(t, v)
    ensures var base, r := NextAligned(|b|, BaseAlignment(l, t)), Push(l, t, v, b, topLevel);
            && b <= r && Holds(r, Leaves(l, t, v, base))
            && NextAligned(|r|, WrittenGrain(t, topLevel)) == base + WrittenSize(l, t, topLevel)
    decreases v
  {
    hide Push, NextAligned, Power, Holds, Sane, BaseAlignment, Size, Alignment, End, LastGrain, ColumnStride;
    AlignmentConforms(l, t);
    PushAppends(l, t, v, b, topLevel);
    var a := Alignment(l, t);
    var base := NextAligned(|b|, a);
    StartOfObject(b, a);
    var p := PushAlignment(b, a);
    match t
    case Scalar(k) =>
      ScalarConforms(l, t, v, b, topLevel);
    case Vector(k, rows) =>
      AlignmentConforms(l, Scalar(k));
      ScalarInVector(l, k, rows);
      MultipleDown(base, Alignment(l, Scalar(k)), a);
      RoundMultiple(base, Alignment(l, Scalar(k)));
      StrideOfScalar(l, k);
      EachConforms(l, Scalar(k), 1, Alignment(l, Scalar(k)), Units(k), v.parts, p, base);
      VectorConforms(l, t, v, b, topLevel);
    case Matrix(cols, rows) =>
      var column := Vector(Word, rows);
      AlignmentConforms(l, column);
      ColumnsAreAligned(l, cols, rows);
      RoundMultiple(base, 16);
      EachConforms(l, column, 1, 16, ColumnStride(l, rows), v.parts, p, base);
      MatrixConforms(l, t, v, b, topLevel);
    case Array(e, count) =>
      AlignmentConforms(l, e);
      ElementInArray(l, t);
      StrideOfElement(l, t);
      EachConforms(l, e, a, a, Stride(l, t), v.parts, b, base);
      ArrayConforms(l, t, v, b, topLevel);
    case Struct(members) =>
      MembersInStruct(l, t);
      MultipleDown(base, 4, a);
      RoundMultiple(base, 4);
      MembersConform(l, members, a, v.parts, p, base, 0, 4);
      LastGrainFits(l, t);
      StructConforms(l, t, v, b, topLevel);
  }

  lemma StartOfObject(b: seq<u8>, a: nat)
    requires Power(a)
    ensures var p := PushAlignment(b, a); b <= p && |p| == NextAligned(|b|, a) && Multiple(|p|, a) && Multiple(|p|, 4)
  {
    hide NextAligned, Power;
    RoundIsMultiple(|b|, a);
    FourIsPower(a);
    MultipleDown(NextAligned(|b|, a), 4, a);
  }

  lemma FourIsPower(a: nat)
    requires Power(a)
    ensures Power(4) && 4 <= a
  {}

  lemma StrideOfScalar(l: Layout, k: Kind)
    ensures Size(l, Scalar(k)) == Units(k) && NextAligned(Units(k), Alignment(l, Scalar(k))) == Units(k)
  {}

  lemma StrideOfElement(l: Layout, t: Type)
    requires t.Array? && Standard(t) && Agreed(l, t)
    ensures Stride(l, t) == NextAligned(Size(l, t.elem), Alignment(l, t))
  {
    hide NextAligned, Alignment, BaseAlignment, Size, RoundUp;
    AlignmentConforms(l, t);
    RoundUpIsNextAligned(Size(l, t.elem), Alignment(l, t));
  }

  lemma ScalarConforms(l: Layout, t: Type, v: Value, b: seq<u8>, topLevel: bool)
    requires Standard(t) && Fits(t, v) && t.Scalar?
    ensures var base, r := NextAligned(|b|, BaseAlignment(l, t)), Push(l, t, v, b, topLevel);
            b <= r && Holds(r, Leaves(l, t, v, base)) && NextAligned(|r|, 4) == base + Size(l, t)
  {
    hide NextAligned, Power, PushAlignment, Multiple;
    var a := ScalarAlignment(t.kind);
    assert BaseAlignment(l, t) == a;
    UnitsArePowers(t.kind);
    StartOfObject(b, a);
    var p := PushAlignment(b, a);
    assert (p + v.data)[|p|..|p| + |v.data|] == v.data;
    EndOfScalar(|p|, t.kind);
  }

  lemma UnitsArePowers(k: Kind)
    ensures Power(ScalarAlignment(k))
  {}

  lemma EndOfScalar(start: nat, k: Kind)
    requires Multiple(start, 4)
    ensures NextAligned(start + SizeOf(k), 4) == start + Units(k)
  {
    var q := start / 4;
    match k
    case Bool => assert start + 1 == 4 * q + 1;
    case Word => assert start + 4 == 4 * (q + 1);
    case Double => assert start + 8 == 4 * (q + 2);
  }

  lemma VectorConforms(l: Layout, t: Type, v: Value, b: seq<u8>, topLevel: bool)
    requires Standard(t) && Fits(t, v) && t.Vector? && Alignment(l, t) == BaseAlignment(l, t)
    requires var p, base, leaf := PushAlignment(b, Alignment(l, t)), NextAligned(|b|, Alignment(l, t)), Scalar(t.kind);
             var r := PushEach(l, leaf, 1, v.parts, p);
             p <= r && Holds(r, LeavesEach(l, leaf, Units(t.kind), v.parts, base)) &&
             NextAligned(|r|, 4) == base + EachEnd(l, leaf, Units(t.kind), |v.parts|)
    requires b <= PushAlignment(b, Alignment(l, t))
    ensures var base, r := NextAligned(|b|, BaseAlignment(l, t)), Push(l, t, v, b, topLevel);
            b <= r && Holds(r, Leaves(l, t, v, base)) && NextAligned(|r|, 4) == base + Size(l, t)
  {
    hide NextAligned, Holds, PushAlignment, Alignment, BaseAlignment, PushEach, LeavesEach, AllFit, EachEnd, Size;
    VectorEnd(l, t);
  }

  lemma VectorEnd(l: Layout, t: Type)
    requires Standard(t) && t.Vector?
    ensures EachEnd(l, Scalar(t.kind), Units(t.kind), t.rows) == Size(l, t)
  {}

  lemma ColumnsAreAligned(l: Layout, cols: nat, rows: nat)
    requires rows == 3 || rows == 4
    ensures ColumnStride(l, rows) == NextAligned(Size(l, Vector(Word, rows)), 16) == 16
    ensures Alignment(l, Vector(Word, rows)) == Alignment(l, Matrix(cols, rows)) == 16
  {
    hide RoundUp, NextAligned;
    SixteenIsRound();
  }

  lemma SixteenIsRound()
    ensures RoundUp(12, 16) == RoundUp(16, 16) == 16
    ensures NextAligned(12, 16) == NextAligned(16, 16) == 16
  {
  }

  lemma MatrixConforms(l: Layout, t: Type, v: Value, b: seq<u8>, topLevel: bool)
    requires Standard(t) && Agreed(l, t) && Fits(t, v) && t.Matrix?
    requires var p, base, column := PushAlignment(b, 16), NextAligned(|b|, 16), Vector(Word, t.rows);
             var r := PushEach(l, column, 1, v.parts, p);
             p <= r && Holds(r, LeavesEach(l, column, ColumnStride(l, t.rows), v.parts, base)) && Multiple(base, 16) &&
             NextAligned(|r|, 4) == base + EachEnd(l, column, ColumnStride(l, t.rows), |v.parts|)
    requires b <= PushAlignment(b, 16)
    ensures var base, r := NextAligned(|b|, BaseAlignment(l, t)), Push(l, t, v, b, topLevel);
            && b <= r && Holds(r, Leaves(l, t, v, base))
            && NextAligned(|r|, WrittenGrain(t, topLevel)) == base + WrittenSize(l, t, topLevel)
  {
    hide NextAligned, Holds, PushAlignment, PushEach, LeavesEach, AllFit, ColumnStride, Multiple, EachEnd;
    AlignmentConforms(l, t);
    ColumnsAreAligned(l, t.cols, t.rows);
    var r := PushEach(l, Vector(Word, t.rows), 1, v.parts, PushAlignment(b, 16));
    MatrixEnd(l, t, NextAligned(|b|, 16), |r|);
  }

  /** The last column is a whole one, or four bytes are missing. */
  lemma MatrixEnd(l: Layout, t: Type, base: nat, n: nat)
    requires Standard(t) && Agreed(l, t) && t.Matrix? && Multiple(base, 16)
    requires NextAligned(n, 4) == base + EachEnd(l, Vector(Word, t.rows), ColumnStride(l, t.rows), t.cols)
    ensures NextAligned(n, Grain(t)) == base + Size(l, t)
  {
    hide NextAligned, Multiple, RoundUp, ColumnStride;
    ColumnsAreAligned(l, t.cols, t.rows);
    var k := t.cols - 1;
    assert t.cols * 16 == k * 16 + 16;
    if t.rows == 3 {
      RoundTwice(n, 4, 8);
      MultipleDown(base, 8, 16);
      RoundShift(base, k * 16 + 12, 8);
      RoundTo8(k);
    }
  }

  lemma RoundTo8(k: nat)
    ensures NextAligned(k * 16 + 12, 8) == k * 16 + 16
  {
    Remainder8(k * 16 + 12, 2 * k + 1, 4);
  }

  lemma ArrayConforms(l: Layout, t: Type, v: Value, b: seq<u8>, topLevel: bool)
    requires Standard(t) && Fits(t, v) && t.Array? && Alignment(l, t) == BaseAlignment(l, t) && Power(Alignment(l, t))
    requires var a := Alignment(l, t); var base, r := NextAligned(|b|, a), PushEach(l, t.elem, a, v.parts, b);
             b <= r && Holds(r, LeavesEach(l, t.elem, Stride(l, t), v.parts, base)) &&
             NextAligned(|r|, a) == base + |v.parts| * Stride(l, t)
    ensures var base, r := NextAligned(|b|, BaseAlignment(l, t)), Push(l, t, v, b, topLevel);
            b <= r && Holds(r, Leaves(l, t, v, base)) && NextAligned(|r|, 4) == base + Size(l, t)
  {
    hide NextAligned, Holds, PushAlignment, Alignment, BaseAlignment, PushEach, LeavesEach, AllFit, Stride, Power;
    var a := Alignment(l, t);
    var r := PushEach(l, t.elem, a, v.parts, b);
    StartOfObject(r, a);
    RoundMultiple(NextAligned(|r|, a), 4);
    HoldsLonger(r, PushAlignment(r, a), LeavesEach(l, t.elem, Stride(l, t), v.parts, NextAligned(|b|, a)));
  }

  lemma StructConforms(l: Layout, t: Type, v: Value, b: seq<u8>, topLevel: bool)
    requires Standard(t) && Fits(t, v) && t.Struct? && Alignment(l, t) == BaseAlignment(l, t) && Power(Alignment(l, t))
    requires var a := Alignment(l, t); var p, base := PushAlignment(b, a), NextAligned(|b|, a);
             var r := PushMembers(l, t.members, v.parts, p);
             b <= p <= r && Multiple(base, a) && Holds(r, LeavesMembers(l, t.members, v.parts, base, 0)) &&
             NextAligned(|r|, LastGrain(t.members, 4)) == base + End(l, t.members, 0)
    requires LastGrain(t.members, 4) == 4 || LastGrain(t.members, 4) == 8 <= Alignment(l, t)
    ensures var base, r := NextAligned(|b|, BaseAlignment(l, t)), Push(l, t, v, b, topLevel);
            && b <= r && Holds(r, Leaves(l, t, v, base))
            && NextAligned(|r|, WrittenGrain(t, topLevel)) == base + WrittenSize(l, t, topLevel)
  {
    hide NextAligned, Holds, PushAlignment, Alignment, BaseAlignment, PushMembers, LeavesMembers, MembersFit, End,
         Power, Multiple, RoundUp, LastGrain;
    var a := Alignment(l, t);
    var p, base := PushAlignment(b, a), NextAligned(|b|, a);
    var r := PushMembers(l, t.members, v.parts, p);
    if !topLevel {
      StartOfObject(r, a);
      RoundMultiple(NextAligned(|r|, a), 4);
      HoldsLonger(r, PushAlignment(r, a), LeavesMembers(l, t.members, v.parts, base, 0));
      FourIsPower(a);
      RoundTwice(|r|, LastGrain(t.members, 4), a);
      RoundShift(base, End(l, t.members, 0), a);
      RoundUpIsNextAligned(End(l, t.members, 0), a);
    }
  }

  /** The end of the last of n elements; what follows it is padding of the element's own. */
  function EachEnd(l: Layout, t: Type, stride: nat, n: nat): int
    requires Standard(t)
  {
    if n == 0 then 0 else (n - 1) * stride + Size(l, t)
  }

  /** Elements lie one stride apart, starting at base; m is what the start of each is aligned to. */
  lemma {:induction false} EachConforms(l: Layout, t: Type, a: nat, m: nat, stride: nat, vs: seq<Value>, b: seq<u8>,
                                        base: nat)
    requires Standard(t) && Agreed(l, t) && AllFit(t, vs)
    requires Power(m) && (a == m || (a == 1 && m == Alignment(l, t)))
    requires Power(Alignment(l, t)) && Alignment(l, t) <= m
    requires Alignment(l, t) == BaseAlignment(l, t) && stride == NextAligned(Size(l, t), m)
    requires NextAligned(|b|, m) == base
    ensures var r := PushEach(l, t, a, vs, b);
            && b <= r && Holds(r, LeavesEach(l, t, stride, vs, base))
            && NextAligned(|r|, m) == base + |vs| * stride
            && (vs != [] ==> NextAligned(|r|, Grain(t)) == base + EachEnd(l, t, stride, |vs|))
    decreases vs
  {
    hide Push, NextAligned, Power, Holds, BaseAlignment, Size, Alignment, PushAlignment, Leaves, Fits, Multiple;
    if vs == [] {
      NothingHolds(b);
    } else {
      var p := PushAlignment(b, a);
      StartOfElement(b, a, m, Alignment(l, t));
      PushConforms(l, t, vs[0], p, false);
      var r := Push(l, t, vs[0], p, false);
      GrainFits(l, t);
      NextElement(|r|, base, Size(l, t), Grain(t), m);
      EachConforms(l, t, a, m, stride, vs[1..], r, base + stride);
      var end := PushEach(l, t, a, vs[1..], r);
      HoldsLonger(r, end, Leaves(l, t, vs[0], base));
      HoldsBoth(end, Leaves(l, t, vs[0], base), LeavesEach(l, t, stride, vs[1..], base + stride));
      Multiply(|vs|, stride);
      assert |vs| == 1 ==> end == r;
    }
  }

  lemma NothingHolds(b: seq<u8>)
    ensures Holds(b, [])
  {}

  lemma Multiply(n: nat, stride: nat)
    requires n > 0
    ensures stride + (n - 1) * stride == n * stride
    ensures n > 1 ==> stride + (n - 2) * stride == (n - 1) * stride
  {}

  lemma StartOfElement(b: seq<u8>, a: nat, m: nat, own: nat)
    requires Power(m) && Power(own) && own <= m && (a == m || (a == 1 && m == own))
    ensures var p := PushAlignment(b, a); b <= p && NextAligned(|p|, own) == NextAligned(|b|, m)
    ensures Multiple(NextAligned(|b|, m), m)
  {
    hide NextAligned, Power;
    RoundIsMultiple(|b|, m);
    if a == m {
      StartOfObject(b, m);
      MultipleDown(|PushAlignment(b, a)|, own, m);
      RoundMultiple(|PushAlignment(b, a)|, own);
    } else {
      NoPadding(b);
    }
  }

  lemma NoPadding(b: seq<u8>)
    ensures PushAlignment(b, 1) == b
  {}

  lemma GrainFits(l: Layout, t: Type)
    requires Power(Alignment(l, t))
    ensures Grain(t) <= Alignment(l, t)
  {}

  lemma NextElement(n: nat, base: nat, size: nat, g: nat, m: nat)
    requires Power(m) && (g == 4 || g == 8) && g <= m && Multiple(base, m) && NextAligned(n, g) == base + size
    ensures NextAligned(n, m) == base + NextAligned(size, m)
  {
    hide NextAligned, Power, Multiple;
    RoundTwice(n, g, m);
    RoundShift(base, size, m);
  }

  lemma {:induction false} MembersConform(l: Layout, ms: seq<Type>, m: nat, vs: seq<Value>, b: seq<u8>, base: nat,
                                          pos: nat, g: nat)
    requires MembersFit(ms, vs) && (forall t :: t in ms ==> Standard(t) && Agreed(l, t) && Alignment(l, t) <= m)
    requires Power(m) && Multiple(base, m) && (g == 4 || g == 8) && Apart(l, ms, g) && NextAligned(|b|, g) == base + pos
    ensures var r := PushMembers(l, ms, vs, b);
            && b <= r && Holds(r, LeavesMembers(l, ms, vs, base, pos))
            && NextAligned(|r|, LastGrain(ms, g)) == base + End(l, ms, pos)
    decreases vs
  {
    hide Push, NextAligned, Power, Holds, BaseAlignment, Size, Alignment, Leaves, Fits, Multiple, RoundUp, Standard,
         Agreed, Grain, Apart;
    if vs == [] {
      NothingHolds(b);
    } else {
      var t := ms[0];
      AlignmentConforms(l, t);
      MultipleDown(base, Alignment(l, t), m);
      var at := NextAligned(pos, Alignment(l, t));
      RoundUpIsNextAligned(pos, Alignment(l, t));
      NextIsApart(l, ms, g);
      NextElement(|b|, base, pos, g, Alignment(l, t));
      PushConforms(l, t, vs[0], b, false);
      var r := Push(l, t, vs[0], b, false);
      LastOfMore(ms, g);
      MembersConform(l, ms[1..], m, vs[1..], r, base, at + Size(l, t), Grain(t));
      var end := PushMembers(l, ms[1..], vs[1..], r);
      HoldsLonger(r, end, Leaves(l, t, vs[0], base + at));
      HoldsBoth(end, Leaves(l, t, vs[0], base + at), LeavesMembers(l, ms[1..], vs[1..], base, at + Size(l, t)));
    }
  }

  lemma NextIsApart(l: Layout, ms: seq<Type>, g: nat)
    requires ms != [] && Apart(l, ms, g) && Power(Alignment(l, ms[0])) && (g == 4 || g == 8)
    ensures Apart(l, ms[1..], Grain(ms[0])) && g <= Alignment(l, ms[0])
  {
    hide Alignment;
    FourIsPower(Alignment(l, ms[0]));
    assert |ms| > 1 && EndsShort(ms[0]) ==> Alignment(l, ms[1]) >= 8;
    forall i | 1 <= i < |ms[1..]| && EndsShort(ms[1..][i - 1]) ensures Alignment(l, ms[1..][i]) >= 8 {
      assert ms[1..][i] == ms[i + 1] && ms[1..][i - 1] == ms[i];
    }
  }

  lemma LastOfMore(ms: seq<Type>, g: nat)
    requires ms != []
    ensures LastGrain(ms, g) == LastGrain(ms[1..], Grain(ms[0]))
    ensures WrittenGrain(ms[0], false) == Grain(ms[0])
  {
    hide Grain;
  }

  lemma LastGrainFits(l: Layout, t: Type)
    requires t.Struct? && Standard(t) && Agreed(l, t)
    ensures LastGrain(t.members, 4) == 4 || LastGrain(t.members, 4) == 8 <= Alignment(l, t)
  {
    hide Alignment;
    var last := t.members[|t.members| - 1];
    MembersInStruct(l, t);
    AlignmentConforms(l, last);
    GrainFits(l, last);
  }

  /** A buffer object of its own: `to_std140` and `to_std430` put every scalar at its standard offset from zero. */
  lemma LayoutConforms(l: Layout, t: Type, v: Value)
    requires Standard(t) && Agreed(l, t) && Fits(t, v)
    ensures Holds(Push(l, t, v, [], true), Leaves(l, t, v, 0))
    ensures NextAligned(|Push(l, t, v, [], true)|, WrittenGrain(t, true)) == WrittenSize(l, t, true)
  {
    hide Push, Holds, Leaves, BaseAlignment, WrittenSize;
    PushConforms(l, t, v, [], true);
  }
}
