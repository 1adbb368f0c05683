/**
  Writing an object in std140 or std430 layout: a recursive writer that appends to a byte buffer and pads according
  to the buffer's current length.
 */
module GlslLayout {
  import opened ByteStack
  import opened Sequences

  datatype Layout = Std140 | Std430

  /** bool is one byte on the CPU, the other words are four; all are aligned to four, doubles to eight. */
  datatype Kind = Bool | Word | Double

  datatype Type =
    | Scalar(kind: Kind)
    | Vector(kind: Kind, rows: nat)
    | Matrix(cols: nat, rows: nat)
    | Array(elem: Type, count: nat)
    | Struct(members: seq<Type>)

  datatype Value = Bytes(data: seq<u8>) | Parts(parts: seq<Value>)

  function SizeOf(k: Kind): nat {
    match k case Bool => 1 case Word => 4 case Double => 8
  }

  function ScalarAlignment(k: Kind): nat {
    match k case Bool => 4 case Word => 4 case Double => 8
  }

  function Max(a: nat, b: nat): nat {
    if a > b then a else b
  }

  /** `get_glsl_alignment`. */
  function Alignment(l: Layout, t: Type): nat {
    match t
    case Scalar(k) => ScalarAlignment(k)
    case Vector(k, rows) => ScalarAlignment(k) * (if rows <= 2 then 2 else 4)
    case Matrix(_, _) => 16
    case Array(e, _) => if l == Std140 then Max(Alignment(l, e), 16) else Alignment(l, e)
    case Struct(members) => MaxAlignment(l, members, if l == Std140 then 16 else 0)
  }

  function MaxAlignment(l: Layout, members: seq<Type>, start: nat): nat {
    if members == [] then start else Max(Alignment(l, members[0]), MaxAlignment(l, members[1..], start))
  }

  /** Empty structures, which GLSL does not have, and what is made of nothing else. */
  predicate Hollow(t: Type) {
    match t
    case Array(e, _) => Hollow(e)
    case Struct(members) => forall m :: m in members ==> Hollow(m)
    case _ => false
  }

  /** A hollow type is written somewhere in it. An array of zero elements writes none of them. */
  predicate WritesHollow(t: Type) {
    || Hollow(t)
    || match t
       case Array(e, count) => count > 0 && WritesHollow(e)
       case Struct(members) => exists m :: m in members && WritesHollow(m)
       case _ => false
  }

  /** The value has one part for every component of the type. */
  predicate Fits(t: Type, v: Value)
    decreases v
  {
    match t
    case Scalar(k) => v.Bytes? && |v.data| == SizeOf(k)
    case Vector(k, rows) => v.Parts? && |v.parts| == rows && AllFit(Scalar(k), v.parts)
    case Matrix(cols, rows) => v.Parts? && |v.parts| == cols && AllFit(Vector(Word, rows), v.parts)
    case Array(e, count) => v.Parts? && |v.parts| == count && AllFit(e, v.parts)
    case Struct(members) => v.Parts? && MembersFit(members, v.parts)
  }

  predicate AllFit(t: Type, vs: seq<Value>)
    decreases vs
  {
    vs == [] || (Fits(t, vs[0]) && AllFit(t, vs[1..]))
  }

  predicate MembersFit(ts: seq<Type>, vs: seq<Value>)
    decreases vs
  {
    |ts| == |vs| && (vs == [] || (Fits(ts[0], vs[0]) && MembersFit(ts[1..], vs[1..])))
  }

  // ----- the writer

  /**
    The source masks with alignment - 1. For the powers of two that occur this is the remainder; for alignment zero
    the mask keeps every bit and the result is zero.
   */
  function NextAligned(address: nat, alignment: nat): nat {
    if alignment == 0 then 0
    else if address % alignment == 0 then address
    else address - address % alignment + alignment
  }

  function Zeros(n: nat): (z: seq<u8>)
    ensures |z| == n
  {
    seq(n, _ => 0)
  }

  function Resize(b: seq<u8>, n: nat): (r: seq<u8>)
    ensures |r| == n
  {
    if n <= |b| then b[..n] else b + Zeros(n - |b|)
  }

  function PushAlignment(b: seq<u8>, alignment: nat): seq<u8> {
    Resize(b, NextAligned(|b|, alignment))
  }

  function PushData(b: seq<u8>, data: seq<u8>, alignment: nat): seq<u8> {
    PushAlignment(b, alignment) + data
  }

  /** `push_glsl_layout`. */
  function Push(l: Layout, t: Type, v: Value, b: seq<u8>, topLevel: bool): seq<u8>
    requires Fits(t, v)
    decreases v
  {
    match t
    case Scalar(k) => PushData(b, v.data, ScalarAlignment(k))
    case Vector(k, _) => PushEach(l, Scalar(k), 1, v.parts, PushAlignment(b, Alignment(l, t)))
    case Matrix(_, rows) => PushEach(l, Vector(Word, rows), 1, v.parts, PushAlignment(b, Alignment(l, t)))
    case Array(e, _) => PushAlignment(PushEach(l, e, Alignment(l, t), v.parts, b), Alignment(l, t))
    case Struct(members) =>
      var r := PushMembers(l, members, v.parts, PushAlignment(b, Alignment(l, t)));
      if topLevel then r else PushAlignment(r, Alignment(l, t))
  }

  /** Elements of one type, each first aligned to a; components of vectors and matrices are not, so a is 1 there. */
  function PushEach(l: Layout, t: Type, a: nat, vs: seq<Value>, b: seq<u8>): seq<u8>
    requires AllFit(t, vs)
    decreases vs
  {
    if vs == [] then b else PushEach(l, t, a, vs[1..], Push(l, t, vs[0], PushAlignment(b, a), false))
  }

  function PushMembers(l: Layout, ts: seq<Type>, vs: seq<Value>, b: seq<u8>): seq<u8>
    requires MembersFit(ts, vs)
    decreases vs
  {
    if vs == [] then b else PushMembers(l, ts[1..], vs[1..], Push(l, ts[0], vs[0], b, false))
  }

  // ----- the writer's loops

  method PushGlslLayout(l: Layout, t: Type, v: Value, buffer: seq<u8>, topLevel: bool) returns (result: seq<u8>)
    requires Fits(t, v)
    ensures result == Push(l, t, v, buffer, topLevel)
    decreases v, 1
  {
    hide PushAlignment, Alignment, PushEach, PushMembers, AllFit, MembersFit;
    match t
    case Scalar(k) =>
      result := PushData(buffer, v.data, ScalarAlignment(k));
    case Vector(k, _) =>
      result := PushAlignment(buffer, Alignment(l, t));
      result := PushComponents(l, Scalar(k), 1, v, result);
    case Matrix(_, rows) =>
      result := PushAlignment(buffer, Alignment(l, t));
      result := PushComponents(l, Vector(Word, rows), 1, v, result);
    case Array(e, _) =>
      result := PushComponents(l, e, Alignment(l, t), v, buffer);
      result := PushAlignment(result, Alignment(l, t));
    case Struct(members) =>
      result := PushAlignment(buffer, Alignment(l, t));
      result := PushStructMembers(l, members, v, result);
      if !topLevel {
        result := PushAlignment(result, Alignment(l, t));
      }
  }

  method PushComponents(l: Layout, t: Type, a: nat, v: Value, buffer: seq<u8>) returns (result: seq<u8>)
    requires v.Parts? && AllFit(t, v.parts)
    ensures result == PushEach(l, t, a, v.parts, buffer)
    decreases v, 0
  {
    hide PushAlignment, Push;
    result := buffer;
    ghost var target := PushEach(l, t, a, v.parts, buffer);
    assert v.parts[0..] == v.parts;
    for i := 0 to |v.parts|
      invariant AllFit(t, v.parts[i..]) && PushEach(l, t, a, v.parts[i..], result) == target
    {
      assert v.parts[i..][1..] == v.parts[i + 1..];
      result := PushAlignment(result, a);
      result := PushGlslLayout(l, t, v.parts[i], result, false);
    }
  }

  method PushStructMembers(l: Layout, ts: seq<Type>, v: Value, buffer: seq<u8>) returns (result: seq<u8>)
    requires v.Parts? && MembersFit(ts, v.parts)
    ensures result == PushMembers(l, ts, v.parts, buffer)
    decreases v, 0
  {
    hide Push;
    result := buffer;
    ghost var target := PushMembers(l, ts, v.parts, buffer);
    assert v.parts[0..] == v.parts && ts[0..] == ts;
    for i := 0 to |v.parts|
      invariant |ts| == |v.parts| && MembersFit(ts[i..], v.parts[i..])
      invariant PushMembers(l, ts[i..], v.parts[i..], result) == target
    {
      assert v.parts[i..][1..] == v.parts[i + 1..] && ts[i..][1..] == ts[i + 1..];
      result := PushGlslLayout(l, ts[i], v.parts[i], result, false);
    }
  }

  // ----- alignments

  predicate Sane(l: Layout, t: Type) {
    l == Std140 || !WritesHollow(t)
  }

  /** The alignments that occur. Each divides all larger ones. */
  predicate Power(a: nat) {
    a == 4 || a == 8 || a == 16 || a == 32
  }

  lemma {:induction false} AlignmentIsPower(l: Layout, t: Type)
    ensures Alignment(l, t) == 0 || Power(Alignment(l, t))
    ensures Alignment(l, t) == 0 <==> l == Std430 && Hollow(t)
    decreases t
  {
    match t
    case Array(e, _) => AlignmentIsPower(l, e);
    case Struct(members) => MaxAlignmentIsPower(l, members, if l == Std140 then 16 else 0);
    case _ =>
  }

  lemma {:induction false} MaxAlignmentIsPower(l: Layout, ms: seq<Type>, start: nat)
    requires start == (if l == Std140 then 16 else 0)
    ensures var a := MaxAlignment(l, ms, start);
            && (a == 0 || Power(a)) && start <= a
            && (forall m :: m in ms ==> Alignment(l, m) <= a)
            && (a == 0 <==> l == Std430 && forall m :: m in ms ==> Hollow(m))
    decreases ms
  {
    if ms == [] {
    } else {
      AlignmentIsPower(l, ms[0]);
      MaxAlignmentIsPower(l, ms[1..], start);
      assert forall m :: m in ms <==> m == ms[0] || m in ms[1..];
    }
  }

  lemma SaneIsPower(l: Layout, t: Type)
    requires Sane(l, t)
    ensures Power(Alignment(l, t))
  {
    hide Alignment, Power;
    AlignmentIsPower(l, t);
  }

  /** x and y differ by a multiple of a. */
  predicate Congruent(x: nat, y: nat, a: nat) {
    a != 0 && x % a == y % a
  }

  lemma {:induction false} PowersDivide(m: nat, a: nat, x: nat, y: nat)
    requires Power(m) && Power(a) && m <= a && Congruent(x, y, a)
    ensures Congruent(x, y, m)
  {
    if m < a {
      if a == 32 {
        Halve(16, x);
        Halve(16, y);
        PowersDivide(m, 16, x, y);
      } else if a == 16 {
        Halve(8, x);
        Halve(8, y);
        PowersDivide(m, 8, x, y);
      } else {
        Halve(4, x);
        Halve(4, y);
      }
    }
  }

  lemma Halve(a: nat, x: nat)
    requires a == 4 || a == 8 || a == 16
    ensures x % a == (x % (2 * a)) % a
  {
    if a == 4 {
      Halve4(x);
    } else if a == 8 {
      Halve8(x);
    } else {
      Halve16(x);
    }
  }

  lemma Halve4(x: nat)
    ensures x % 4 == (x % 8) % 4
  {
    var q, r := x / 8, x % 8;
    if r < 4 {
      Remainder4(x, 2 * q, r);
      Remainder4(r, 0, r);
    } else {
      Remainder4(x, 2 * q + 1, r - 4);
      Remainder4(r, 1, r - 4);
    }
  }

  lemma Remainder4(x: nat, k: nat, r: nat)
    requires x == 4 * k + r && r < 4
    ensures x % 4 == r
  {}

  lemma Halve8(x: nat)
    ensures x % 8 == (x % 16) % 8
  {
    var q, r := x / 16, x % 16;
    if r < 8 {
      Remainder8(x, 2 * q, r);
      Remainder8(r, 0, r);
    } else {
      Remainder8(x, 2 * q + 1, r - 8);
      Remainder8(r, 1, r - 8);
    }
  }

  lemma Remainder8(x: nat, k: nat, r: nat)
    requires x == 8 * k + r && r < 8
    ensures x % 8 == r
  {}

  lemma Halve16(x: nat)
    ensures x % 16 == (x % 32) % 16
  {
    var q, r := x / 32, x % 32;
    if r < 16 {
      Remainder16(x, 2 * q, r);
      Remainder16(r, 0, r);
    } else {
      Remainder16(x, 2 * q + 1, r - 16);
      Remainder16(r, 1, r - 16);
    }
  }

  lemma Remainder32(x: nat, k: nat, r: nat)
    requires x == 32 * k + r && r < 32
    ensures x % 32 == r
  {}

  lemma Remainder16(x: nat, k: nat, r: nat)
    requires x == 16 * k + r && r < 16
    ensures x % 16 == r
  {}

  lemma ShiftKeepsRemainder(a: nat, x: nat, y: nat, d: nat)
    requires Power(a) && Congruent(x, y, a)
    ensures Congruent(x + d, y + d, a)
  {
    if a == 4 {
      AddBoth4(x, y, d);
    } else if a == 8 {
      AddBoth8(x, y, d);
    } else if a == 16 {
      AddBoth16(x, y, d);
    } else {
      AddBoth32(x, y, d);
    }
  }

  lemma AddBoth4(x: nat, y: nat, d: nat)
    requires x % 4 == y % 4
    ensures (x + d) % 4 == (y + d) % 4
  {
    assert x - y == 4 * (x / 4 - y / 4);
  }

  lemma AddBoth8(x: nat, y: nat, d: nat)
    requires x % 8 == y % 8
    ensures (x + d) % 8 == (y + d) % 8
  {
    assert x - y == 8 * (x / 8 - y / 8);
  }

  lemma AddBoth16(x: nat, y: nat, d: nat)
    requires x % 16 == y % 16
    ensures (x + d) % 16 == (y + d) % 16
  {
    assert x - y == 16 * (x / 16 - y / 16);
  }

  lemma AddBoth32(x: nat, y: nat, d: nat)
    requires x % 32 == y % 32
    ensures (x + d) % 32 == (y + d) % 32
  {
    assert x - y == 32 * (x / 32 - y / 32);
  }

  lemma NextAlignedFacts(x: nat, a: nat)
    requires Power(a) || a == 1
    ensures x <= NextAligned(x, a) < x + a && NextAligned(x, a) % a == 0
  {}

  /** Padding depends on the remainder only. */
  lemma PaddingRepeats(x: nat, y: nat, a: nat)
    requires Power(a) && Congruent(x, y, a)
    ensures NextAligned(x, a) - x == NextAligned(y, a) - y
  {}

  // ----- what is appended

  function Padding(off: nat, a: nat): seq<u8> {
    Zeros(if NextAligned(off, a) >= off then NextAligned(off, a) - off else 0)
  }

  /** The bytes that writing appends to a buffer of length off. */
  function Appended(l: Layout, t: Type, v: Value, off: nat, topLevel: bool): seq<u8>
    requires Fits(t, v)
    decreases v
  {
    var pad := Padding(off, Alignment(l, t));
    match t
    case Scalar(k) => pad + v.data
    case Vector(k, _) => pad + AppendedEach(l, Scalar(k), 1, v.parts, off + |pad|)
    case Matrix(_, rows) => pad + AppendedEach(l, Vector(Word, rows), 1, v.parts, off + |pad|)
    case Array(e, _) =>
      var elements := AppendedEach(l, e, Alignment(l, t), v.parts, off);
      elements + Padding(off + |elements|, Alignment(l, t))
    case Struct(members) =>
      var body := pad + AppendedMembers(l, members, v.parts, off + |pad|);
      if topLevel then body else body + Padding(off + |body|, Alignment(l, t))
  }

  function AppendedEach(l: Layout, t: Type, a: nat, vs: seq<Value>, off: nat): seq<u8>
    requires AllFit(t, vs)
    decreases vs
  {
    if vs == [] then []
    else
      var pad := Padding(off, a);
      var first := pad + Appended(l, t, vs[0], off + |pad|, false);
      first + AppendedEach(l, t, a, vs[1..], off + |first|)
  }

  function AppendedMembers(l: Layout, ts: seq<Type>, vs: seq<Value>, off: nat): seq<u8>
    requires MembersFit(ts, vs)
    decreases vs
  {
    if vs == [] then []
    else
      var first := Appended(l, ts[0], vs[0], off, false);
      first + AppendedMembers(l, ts[1..], vs[1..], off + |first|)
  }

  lemma PushAlignmentAppends(b: seq<u8>, a: nat)
    requires Power(a) || a == 1
    ensures PushAlignment(b, a) == b + Padding(|b|, a)
  {
    NextAlignedFacts(|b|, a);
  }

  /** Writing never changes a byte that is already there. */
  lemma {:induction false} PushAppends(l: Layout, t: Type, v: Value, b: seq<u8>, topLevel: bool)
    requires Fits(t, v) && Sane(l, t)
    ensures Push(l, t, v, b, topLevel) == b + Appended(l, t, v, |b|, topLevel)
    decreases v
  {
    hide PushAlignment, Padding, Sane, Alignment, Power, Push, Appended;
    SaneIsPower(l, t);
    var p := b + Padding(|b|, Alignment(l, t));
    match t
    case Scalar(k) =>
      ScalarAppends(l, t, v, b, topLevel);
    case Vector(k, _) =>
      SaneScalar(l, Scalar(k));
      PushEachAppends(l, Scalar(k), 1, v.parts, p);
      VectorAppends(l, t, v, b, topLevel);
    case Matrix(_, rows) =>
      SaneScalar(l, Vector(Word, rows));
      PushEachAppends(l, Vector(Word, rows), 1, v.parts, p);
      MatrixAppends(l, t, v, b, topLevel);
    case Array(e, _) =>
      if v.parts != [] {
        SaneElement(l, t);
      }
      PushEachAppends(l, e, Alignment(l, t), v.parts, b);
      ArrayAppends(l, t, v, b, topLevel);
    case Struct(members) =>
      SaneMembers(l, t);
      PushMembersAppends(l, members, v.parts, p);
      StructAppends(l, t, v, b, topLevel);
  }

  lemma ScalarAppends(l: Layout, t: Type, v: Value, b: seq<u8>, topLevel: bool)
    requires Fits(t, v) && t.Scalar? && Power(Alignment(l, t))
    ensures Push(l, t, v, b, topLevel) == b + Appended(l, t, v, |b|, topLevel)
  {
    hide PushAlignment, Padding, Alignment, Power;
    ScalarIsAligned(l, t.kind);
    PushAlignmentAppends(b, Alignment(l, t));
    var pad := Padding(|b|, Alignment(l, t));
    assert b + (pad + v.data) == b + pad + v.data;
  }

  lemma VectorAppends(l: Layout, t: Type, v: Value, b: seq<u8>, topLevel: bool)
    requires Fits(t, v) && t.Vector? && Power(Alignment(l, t))
    requires var p := b + Padding(|b|, Alignment(l, t));
             PushEach(l, Scalar(t.kind), 1, v.parts, p) == p + AppendedEach(l, Scalar(t.kind), 1, v.parts, |p|)
    ensures Push(l, t, v, b, topLevel) == b + Appended(l, t, v, |b|, topLevel)
  {
    hide PushAlignment, Padding, Alignment, Power, PushEach, AppendedEach;
    PushAlignmentAppends(b, Alignment(l, t));
    var pad := Padding(|b|, Alignment(l, t));
    var rest := AppendedEach(l, Scalar(t.kind), 1, v.parts, |b + pad|);
    assert b + pad + rest == b + (pad + rest);
  }

  lemma MatrixAppends(l: Layout, t: Type, v: Value, b: seq<u8>, topLevel: bool)
    requires Fits(t, v) && t.Matrix? && Power(Alignment(l, t))
    requires var p, column := b + Padding(|b|, Alignment(l, t)), Vector(Word, t.rows);
             PushEach(l, column, 1, v.parts, p) == p + AppendedEach(l, column, 1, v.parts, |p|)
    ensures Push(l, t, v, b, topLevel) == b + Appended(l, t, v, |b|, topLevel)
  {
    hide PushAlignment, Padding, Alignment, Power, PushEach, AppendedEach;
    PushAlignmentAppends(b, Alignment(l, t));
    var pad := Padding(|b|, Alignment(l, t));
    var rest := AppendedEach(l, Vector(Word, t.rows), 1, v.parts, |b + pad|);
    assert b + pad + rest == b + (pad + rest);
  }

  lemma ArrayAppends(l: Layout, t: Type, v: Value, b: seq<u8>, topLevel: bool)
    requires Fits(t, v) && t.Array? && Power(Alignment(l, t))
    requires var a := Alignment(l, t);
             PushEach(l, t.elem, a, v.parts, b) == b + AppendedEach(l, t.elem, a, v.parts, |b|)
    ensures Push(l, t, v, b, topLevel) == b + Appended(l, t, v, |b|, topLevel)
  {
    hide PushAlignment, Padding, Alignment, Power, PushEach, AppendedEach;
    var a := Alignment(l, t);
    var elements := AppendedEach(l, t.elem, a, v.parts, |b|);
    PushAlignmentAppends(b + elements, a);
    assert b + elements + Padding(|b + elements|, a) == b + (elements + Padding(|b| + |elements|, a));
  }

  lemma StructAppends(l: Layout, t: Type, v: Value, b: seq<u8>, topLevel: bool)
    requires Fits(t, v) && t.Struct? && Power(Alignment(l, t))
    requires var p := b + Padding(|b|, Alignment(l, t));
             PushMembers(l, t.members, v.parts, p) == p + AppendedMembers(l, t.members, v.parts, |p|)
    ensures Push(l, t, v, b, topLevel) == b + Appended(l, t, v, |b|, topLevel)
  {
    hide PushAlignment, Padding, Alignment, Power, PushMembers, AppendedMembers, MembersFit, AllFit;
    var a := Alignment(l, t);
    PushAlignmentAppends(b, a);
    var pad := Padding(|b|, a);
    var members := AppendedMembers(l, t.members, v.parts, |b + pad|);
    var body := pad + members;
    Regroup(b, pad, members);
    if !topLevel {
      PushAlignmentAppends(b + body, a);
      Regroup(b, body, Padding(|b + body|, a));
    }
  }

  lemma ScalarIsAligned(l: Layout, k: Kind)
    ensures Alignment(l, Scalar(k)) == ScalarAlignment(k)
  {}

  lemma SaneScalar(l: Layout, t: Type)
    requires t.Scalar? || t.Vector?
    ensures Sane(l, t)
  {}

  lemma SaneElement(l: Layout, t: Type)
    requires t.Array? && Sane(l, t) && t.count > 0
    ensures Sane(l, t.elem)
  {}

  lemma SaneMembers(l: Layout, t: Type)
    requires t.Struct? && Sane(l, t)
    ensures forall m :: m in t.members ==> Sane(l, m)
  {}

  lemma {:induction false} PushEachAppends(l: Layout, t: Type, a: nat, vs: seq<Value>, b: seq<u8>)
    requires AllFit(t, vs) && (vs != [] ==> Sane(l, t)) && (Power(a) || a == 1)
    ensures PushEach(l, t, a, vs, b) == b + AppendedEach(l, t, a, vs, |b|)
    decreases vs
  {
    hide PushAlignment, Padding, Power, Sane, Push, Appended, Fits;
    if vs != [] {
      PushAlignmentAppends(b, a);
      var p := b + Padding(|b|, a);
      PushAppends(l, t, vs[0], p, false);
      var first := Padding(|b|, a) + Appended(l, t, vs[0], |p|, false);
      assert p + Appended(l, t, vs[0], |p|, false) == b + first;
      PushEachAppends(l, t, a, vs[1..], b + first);
      assert b + first + AppendedEach(l, t, a, vs[1..], |b + first|)
          == b + (first + AppendedEach(l, t, a, vs[1..], |b| + |first|));
    } else {
      assert b + [] == b;
    }
  }

  lemma {:induction false} PushMembersAppends(l: Layout, ts: seq<Type>, vs: seq<Value>, b: seq<u8>)
    requires MembersFit(ts, vs) && forall m :: m in ts ==> Sane(l, m)
    ensures PushMembers(l, ts, vs, b) == b + AppendedMembers(l, ts, vs, |b|)
    decreases vs
  {
    hide Sane, Push, Appended, Fits;
    if vs != [] {
      PushAppends(l, ts[0], vs[0], b, false);
      var first := Appended(l, ts[0], vs[0], |b|, false);
      PushMembersAppends(l, ts[1..], vs[1..], b + first);
      assert b + first + AppendedMembers(l, ts[1..], vs[1..], |b + first|)
          == b + (first + AppendedMembers(l, ts[1..], vs[1..], |b| + |first|));
    } else {
      assert b + [] == b;
    }
  }

  // ----- translation invariance

  /** What is appended depends on the buffer's length only up to a multiple of the type's alignment. */
  lemma {:induction false} AppendedRepeats(l: Layout, t: Type, v: Value, x: nat, y: nat, topLevel: bool)
    requires Fits(t, v) && Sane(l, t) && Congruent(x, y, Alignment(l, t))
    ensures Appended(l, t, v, x, topLevel) == Appended(l, t, v, y, topLevel)
    decreases v
  {
    hide Padding, Alignment, Sane, Power, Congruent, Appended;
    SaneIsPower(l, t);
    var a := Alignment(l, t);
    PadsRepeat(x, y, a);
    var n := |Padding(x, a)|;
    match t
    case Scalar(_) =>
      SimpleRepeats(l, t, v, x, y, topLevel);
    case Vector(k, rows) =>
      SaneScalar(l, Scalar(k));
      ScalarInVector(l, k, rows);
      EachRepeats(l, Scalar(k), 1, a, v.parts, x + n, y + n);
      SimpleRepeats(l, t, v, x, y, topLevel);
    case Matrix(_, rows) =>
      SaneScalar(l, Vector(Word, rows));
      VectorInMatrix(l, t);
      EachRepeats(l, Vector(Word, rows), 1, a, v.parts, x + n, y + n);
      SimpleRepeats(l, t, v, x, y, topLevel);
    case Array(e, _) =>
      if v.parts != [] {
        SaneElement(l, t);
      }
      ElementInArray(l, t);
      EachRepeats(l, e, a, a, v.parts, x, y);
      ArrayRepeats(l, t, v, x, y, topLevel);
    case Struct(members) =>
      SaneMembers(l, t);
      MembersInStruct(l, t);
      MembersRepeat(l, members, a, v.parts, x + n, y + n);
      StructRepeats(l, t, v, x, y, topLevel);
  }

  lemma SimpleRepeats(l: Layout, t: Type, v: Value, x: nat, y: nat, topLevel: bool)
    requires Fits(t, v) && (t.Scalar? || t.Vector? || t.Matrix?)
    requires Padding(x, Alignment(l, t)) == Padding(y, Alignment(l, t))
    requires var n := |Padding(x, Alignment(l, t))|;
             && (t.Vector? ==> AppendedEach(l, Scalar(t.kind), 1, v.parts, x + n) ==
                               AppendedEach(l, Scalar(t.kind), 1, v.parts, y + n))
             && (t.Matrix? ==> AppendedEach(l, Vector(Word, t.rows), 1, v.parts, x + n) ==
                               AppendedEach(l, Vector(Word, t.rows), 1, v.parts, y + n))
    ensures Appended(l, t, v, x, topLevel) == Appended(l, t, v, y, topLevel)
  {
    hide Padding, Alignment, AppendedEach;
  }

  lemma ArrayRepeats(l: Layout, t: Type, v: Value, x: nat, y: nat, topLevel: bool)
    requires Fits(t, v) && t.Array? && Power(Alignment(l, t)) && Congruent(x, y, Alignment(l, t))
    requires var a := Alignment(l, t); AppendedEach(l, t.elem, a, v.parts, x) == AppendedEach(l, t.elem, a, v.parts, y)
    ensures Appended(l, t, v, x, topLevel) == Appended(l, t, v, y, topLevel)
  {
    hide Padding, Alignment, Power, Congruent, AppendedEach;
    var a := Alignment(l, t);
    var elements := AppendedEach(l, t.elem, a, v.parts, x);
    ShiftKeepsRemainder(a, x, y, |elements|);
    PadsRepeat(x + |elements|, y + |elements|, a);
  }

  lemma StructRepeats(l: Layout, t: Type, v: Value, x: nat, y: nat, topLevel: bool)
    requires Fits(t, v) && t.Struct? && Power(Alignment(l, t)) && Congruent(x, y, Alignment(l, t))
    requires Padding(x, Alignment(l, t)) == Padding(y, Alignment(l, t))
    requires var n := |Padding(x, Alignment(l, t))|;
             AppendedMembers(l, t.members, v.parts, x + n) == AppendedMembers(l, t.members, v.parts, y + n)
    ensures Appended(l, t, v, x, topLevel) == Appended(l, t, v, y, topLevel)
  {
    hide Padding, Alignment, Power, Congruent, AppendedMembers, MembersFit, AllFit;
    var a := Alignment(l, t);
    var body := Padding(x, a) + AppendedMembers(l, t.members, v.parts, x + |Padding(x, a)|);
    ShiftKeepsRemainder(a, x, y, |body|);
    PadsRepeat(x + |body|, y + |body|, a);
  }

  lemma PadsRepeat(x: nat, y: nat, a: nat)
    requires Power(a) && Congruent(x, y, a)
    ensures Padding(x, a) == Padding(y, a) && Congruent(x + |Padding(x, a)|, y + |Padding(x, a)|, a)
  {
    PaddingRepeats(x, y, a);
    NextAlignedFacts(x, a);
    NextAlignedFacts(y, a);
  }

  lemma ScalarInVector(l: Layout, k: Kind, rows: nat)
    ensures Alignment(l, Scalar(k)) <= Alignment(l, Vector(k, rows))
  {}

  lemma VectorInMatrix(l: Layout, t: Type)
    requires t.Matrix?
    ensures Alignment(l, Vector(Word, t.rows)) <= Alignment(l, t)
  {}

  lemma ElementInArray(l: Layout, t: Type)
    requires t.Array?
    ensures Alignment(l, t.elem) <= Alignment(l, t)
  {}

  lemma MembersInStruct(l: Layout, t: Type)
    requires t.Struct?
    ensures forall m :: m in t.members ==> Alignment(l, m) <= Alignment(l, t)
  {
    MaxAlignmentIsPower(l, t.members, if l == Std140 then 16 else 0);
  }

  lemma {:induction false} EachRepeats(l: Layout, t: Type, a: nat, m: nat, vs: seq<Value>, x: nat, y: nat)
    requires AllFit(t, vs) && (vs != [] ==> Sane(l, t)) && Power(m) && (a == m || a == 1)
    requires Alignment(l, t) <= m && Congruent(x, y, m)
    ensures AppendedEach(l, t, a, vs, x) == AppendedEach(l, t, a, vs, y)
    decreases vs
  {
    hide Padding, Alignment, Sane, Power, Congruent, Appended, Fits, AppendedEach;
    if vs == [] {
    } else {
      SaneIsPower(l, t);
      ElementPads(x, y, a, m);
      var n := |Padding(x, a)|;
      PowersDivide(Alignment(l, t), m, x + n, y + n);
      AppendedRepeats(l, t, vs[0], x + n, y + n, false);
      var first := Padding(x, a) + Appended(l, t, vs[0], x + n, false);
      ShiftKeepsRemainder(m, x, y, |first|);
      EachRepeats(l, t, a, m, vs[1..], x + |first|, y + |first|);
    }
    EachCombines(l, t, a, vs, x, y);
  }

  lemma EachCombines(l: Layout, t: Type, a: nat, vs: seq<Value>, x: nat, y: nat)
    requires AllFit(t, vs)
    requires vs != [] ==>
               && Padding(x, a) == Padding(y, a)
               && var n := |Padding(x, a)|;
               && Appended(l, t, vs[0], x + n, false) == Appended(l, t, vs[0], y + n, false)
               && var first := |Padding(x, a) + Appended(l, t, vs[0], x + n, false)|;
               AppendedEach(l, t, a, vs[1..], x + first) == AppendedEach(l, t, a, vs[1..], y + first)
    ensures AppendedEach(l, t, a, vs, x) == AppendedEach(l, t, a, vs, y)
  {
    hide Padding, Appended, Fits;
  }

  lemma ElementPads(x: nat, y: nat, a: nat, m: nat)
    requires Power(m) && (a == m || a == 1) && Congruent(x, y, m)
    ensures Padding(x, a) == Padding(y, a) && Congruent(x + |Padding(x, a)|, y + |Padding(x, a)|, m)
  {
    if a == m {
      PadsRepeat(x, y, m);
    } else {
      NextAlignedFacts(x, 1);
      NextAlignedFacts(y, 1);
    }
  }

  lemma {:induction false} MembersRepeat(l: Layout, ts: seq<Type>, m: nat, vs: seq<Value>, x: nat, y: nat)
    requires MembersFit(ts, vs) && Power(m) && Congruent(x, y, m)
    requires forall t :: t in ts ==> Sane(l, t) && Alignment(l, t) <= m
    ensures AppendedMembers(l, ts, vs, x) == AppendedMembers(l, ts, vs, y)
    decreases vs
  {
    hide Alignment, Sane, Power, Congruent, Appended, Fits, AppendedMembers;
    if vs == [] {
    } else {
      SaneIsPower(l, ts[0]);
      PowersDivide(Alignment(l, ts[0]), m, x, y);
      AppendedRepeats(l, ts[0], vs[0], x, y, false);
      var first := Appended(l, ts[0], vs[0], x, false);
      ShiftKeepsRemainder(m, x, y, |first|);
      MembersRepeat(l, ts[1..], m, vs[1..], x + |first|, y + |first|);
    }
    MembersCombine(l, ts, vs, x, y);
  }

  lemma MembersCombine(l: Layout, ts: seq<Type>, vs: seq<Value>, x: nat, y: nat)
    requires MembersFit(ts, vs)
    requires vs != [] ==>
               && Appended(l, ts[0], vs[0], x, false) == Appended(l, ts[0], vs[0], y, false)
               && var n := |Appended(l, ts[0], vs[0], x, false)|;
               AppendedMembers(l, ts[1..], vs[1..], x + n) == AppendedMembers(l, ts[1..], vs[1..], y + n)
    ensures AppendedMembers(l, ts, vs, x) == AppendedMembers(l, ts, vs, y)
  {
    hide Appended, Fits;
  }

  /** At two buffer lengths that differ by a multiple of the alignment, the same bytes are written. */
  lemma LayoutIsTranslationInvariant(l: Layout, t: Type, v: Value, b: seq<u8>, c: seq<u8>, topLevel: bool)
    requires Fits(t, v) && Sane(l, t) && Congruent(|b|, |c|, Alignment(l, t))
    ensures b <= Push(l, t, v, b, topLevel) && c <= Push(l, t, v, c, topLevel)
    ensures Push(l, t, v, b, topLevel)[|b|..] == Push(l, t, v, c, topLevel)[|c|..]
  {
    hide Push, Appended, Alignment, Fits;
    PushAppends(l, t, v, b, topLevel);
    PushAppends(l, t, v, c, topLevel);
    AppendedRepeats(l, t, v, |b|, |c|, topLevel);
  }

  // ----- empty structures

  /** An empty structure in std430 has alignment zero and clears the buffer. */
  lemma EmptyStructClearsBuffer(b: seq<u8>)
    ensures Fits(Struct([]), Parts([])) && Push(Std430, Struct([]), Parts([]), b, false) == []
  {
    assert Alignment(Std430, Struct([])) == 0;
  }

  /** So whatever writes one forgets all that was written before it. */
  lemma {:induction false} HollowForgets(t: Type, v: Value, b: seq<u8>, c: seq<u8>, topLevel: bool)
    requires Fits(t, v) && WritesHollow(t)
    ensures Push(Std430, t, v, b, topLevel) == Push(Std430, t, v, c, topLevel)
    decreases v
  {
    hide Alignment;
    var a := Alignment(Std430, t);
    AlignmentIsPower(Std430, t);
    match t
    case Array(e, _) =>
      if !Hollow(t) {
        HollowForgets(e, v.parts[0], PushAlignment(b, a), PushAlignment(c, a), false);
      }
    case Struct(members) =>
      if !Hollow(t) {
        MembersForget(members, v.parts, PushAlignment(b, a), PushAlignment(c, a));
      }
  }

  lemma {:induction false} MembersForget(ts: seq<Type>, vs: seq<Value>, b: seq<u8>, c: seq<u8>)
    requires MembersFit(ts, vs)
    requires exists t :: t in ts && WritesHollow(t)
    ensures PushMembers(Std430, ts, vs, b) == PushMembers(Std430, ts, vs, c)
    decreases vs
  {
    hide Alignment, Push, WritesHollow;
    assert ts == [ts[0]] + ts[1..];
    if WritesHollow(ts[0]) {
      HollowForgets(ts[0], vs[0], b, c, false);
    } else {
      var x, y := Push(Std430, ts[0], vs[0], b, false), Push(Std430, ts[0], vs[0], c, false);
      MembersForget(ts[1..], vs[1..], x, y);
    }
  }

  /** Writing only ever appends if and only if the layout is std140 or nothing hollow is written. */
  lemma AppendsIffSane(l: Layout, t: Type, v: Value, topLevel: bool)
    requires Fits(t, v)
    ensures (forall b :: b <= Push(l, t, v, b, topLevel)) <==> Sane(l, t)
  {
    hide Push, Fits, WritesHollow;
    if Sane(l, t) {
      forall b ensures b <= Push(l, t, v, b, topLevel) {
        PushAppends(l, t, v, b, topLevel);
      }
    } else {
      var b := Push(l, t, v, [], topLevel) + [0];
      HollowForgets(t, v, [], b, topLevel);
      assert !(b <= Push(l, t, v, b, topLevel));
    }
  }

  /** A scalar takes as many bytes as on the CPU, one for a boolean, behind zeros up to where it may begin. */
  lemma ScalarIsPadded(l: Layout, k: Kind, data: seq<u8>, b: seq<u8>, topLevel: bool) returns (pad: nat)
    requires Fits(Scalar(k), Bytes(data))
    ensures |data| == match k case Bool => 1 case Word => 4 case Double => 8
    ensures IsPadded(b, data, Push(l, Scalar(k), Bytes(data), b, topLevel), pad, if k == Double then 8 else 4)
  {
    var a := ScalarAlignment(k);
    var at := NextAligned(|b|, a);
    assert Push(l, Scalar(k), Bytes(data), b, topLevel) == PushAlignment(b, a) + data;
    PaddedTo(b, a, at);
    pad := at - |b|;
    assert (PushAlignment(b, a) + data)[|b| + pad..] == data;
  }

  ghost predicate IsPadded(b: seq<u8>, data: seq<u8>, r: seq<u8>, pad: nat, a: nat) {
    && 0 < a && pad < a && (|b| + pad) % a == 0
    && |r| == |b| + pad + |data| && b <= r && r[|b| + pad..] == data
    && forall i :: |b| <= i < |b| + pad ==> r[i] == 0
  }

  lemma PaddedTo(b: seq<u8>, a: nat, at: nat)
    requires (a == 4 || a == 8) && at == NextAligned(|b|, a)
    ensures |b| <= at < |b| + a && at % a == 0 && PushAlignment(b, a) == b + Zeros(at - |b|)
    ensures forall i :: |b| <= i < at ==> PushAlignment(b, a)[i] == 0
  {
    hide NextAligned;
    NextAlignedFacts(|b|, a);
    ZerosAreZero(at - |b|);
    assert b + Zeros(0) == b;
  }

  lemma ZerosAreZero(n: nat)
    ensures forall i :: 0 <= i < n ==> Zeros(n)[i] == 0
  {
  }
}
