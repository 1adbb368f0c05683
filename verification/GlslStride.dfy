/**
  Where elements and members lie, for all types that the writer handles, matrices included: on their own alignment,
  and the elements of an array at a stride that depends on the element type alone.
 */
module GlslStride {
  import opened ByteStack
  import opened GlslLayout
  import opened GlslConformance
  import opened Sequences

  /** Written at its alignment, an object needs no padding in front. */
  function Alone(l: Layout, t: Type, v: Value): seq<u8>
    requires Fits(t, v)
  {
    Appended(l, t, v, 0, false)
  }

  // ----- the size of an object is that of its type

  lemma {:induction false} SizeIsOfType(l: Layout, t: Type, v: Value, w: Value, off: nat)
    requires Fits(t, v) && Fits(t, w)
    ensures |Appended(l, t, v, off, false)| == |Appended(l, t, w, off, false)|
    decreases v
  {
    hide Padding, Alignment;
    var n := |Padding(off, Alignment(l, t))|;
    match t
    case Scalar(_) =>
    case Vector(k, _) => EachSizeIsOfType(l, Scalar(k), 1, v.parts, w.parts, off + n);
    case Matrix(_, rows) => EachSizeIsOfType(l, Vector(Word, rows), 1, v.parts, w.parts, off + n);
    case Array(e, _) => EachSizeIsOfType(l, e, Alignment(l, t), v.parts, w.parts, off);
    case Struct(members) => MembersSizeIsOfType(l, members, v.parts, w.parts, off + n);
  }

  lemma {:induction false} EachSizeIsOfType(l: Layout, t: Type, a: nat, vs: seq<Value>, ws: seq<Value>, off: nat)
    requires AllFit(t, vs) && AllFit(t, ws) && |vs| == |ws|
    ensures |AppendedEach(l, t, a, vs, off)| == |AppendedEach(l, t, a, ws, off)|
    decreases vs
  {
    hide Padding, Appended, Fits;
    if vs == [] {
    } else {
      var start := off + |Padding(off, a)|;
      SizeIsOfType(l, t, vs[0], ws[0], start);
      EachSizeIsOfType(l, t, a, vs[1..], ws[1..], start + |Appended(l, t, vs[0], start, false)|);
    }
  }

  lemma {:induction false} MembersSizeIsOfType(l: Layout, ts: seq<Type>, vs: seq<Value>, ws: seq<Value>, off: nat)
    requires MembersFit(ts, vs) && MembersFit(ts, ws)
    ensures |AppendedMembers(l, ts, vs, off)| == |AppendedMembers(l, ts, ws, off)|
    decreases vs
  {
    hide Appended, Fits;
    if vs == [] {
    } else {
      SizeIsOfType(l, ts[0], vs[0], ws[0], off);
      MembersSizeIsOfType(l, ts[1..], vs[1..], ws[1..], off + |Appended(l, ts[0], vs[0], off, false)|);
    }
  }

  // ----- an object begins on its alignment

  /** An object is its padding and then what is written of it alone. */
  lemma AppendedBegins(l: Layout, t: Type, v: Value, off: nat)
    requires Fits(t, v) && Sane(l, t)
    ensures var start := NextAligned(off, Alignment(l, t));
            off <= start && Appended(l, t, v, off, false) == Zeros(start - off) + Alone(l, t, v)
  {
    hide Appended, Alignment, Sane, Fits, NextAligned, Power, Congruent, Multiple;
    var a := Alignment(l, t);
    SaneIsPower(l, t);
    RoundIsMultiple(off, a);
    var start := NextAligned(off, a);
    PadThenAligned(l, t, v, off);
    StartIsZero(start, a);
    AppendedRepeats(l, t, v, start, 0, false);
  }

  lemma StartIsZero(start: nat, a: nat)
    requires Multiple(start, a)
    ensures Congruent(start, 0, a)
  {}

  lemma PadThenAligned(l: Layout, t: Type, v: Value, off: nat)
    requires Fits(t, v) && Power(Alignment(l, t))
    ensures var start := NextAligned(off, Alignment(l, t));
            off <= start && Appended(l, t, v, off, false) == Zeros(start - off) + Appended(l, t, v, start, false)
  {
    hide Padding, Alignment, AllFit, MembersFit, NextAligned, Power, AppendedEach, AppendedMembers, Appended;
    var a := Alignment(l, t);
    PadIs(off, a);
    match t
    case Scalar(_) => SimplePad(l, t, v, off);
    case Vector(_, _) => SimplePad(l, t, v, off);
    case Matrix(_, _) => SimplePad(l, t, v, off);
    case Array(e, _) =>
      if v.parts != [] {
        EachPad(l, e, a, v.parts, off);
      }
      ArrayPad(l, t, v, off);
    case Struct(_) => StructPad(l, t, v, off);
  }

  lemma PadIs(off: nat, a: nat)
    requires Power(a)
    ensures var start := NextAligned(off, a);
            off <= start && Padding(off, a) == Zeros(start - off) && Padding(start, a) == []
  {
    NextAlignedFacts(off, a);
  }

  lemma SimplePad(l: Layout, t: Type, v: Value, off: nat)
    requires Fits(t, v) && (t.Scalar? || t.Vector? || t.Matrix?)
    requires var a := Alignment(l, t); Padding(off + |Padding(off, a)|, a) == []
    ensures var pad := Padding(off, Alignment(l, t));
            Appended(l, t, v, off, false) == pad + Appended(l, t, v, off + |pad|, false)
  {
    hide Padding, Alignment, AllFit, AppendedEach;
  }

  lemma EachPad(l: Layout, t: Type, a: nat, vs: seq<Value>, off: nat)
    requires AllFit(t, vs) && vs != []
    requires Padding(off + |Padding(off, a)|, a) == []
    ensures var pad := Padding(off, a); AppendedEach(l, t, a, vs, off) == pad + AppendedEach(l, t, a, vs, off + |pad|)
  {
    hide Padding, Appended, Fits;
    var pad := Padding(off, a);
    var one := Appended(l, t, vs[0], off + |pad|, false);
    assert [] + one == one;
    Regroup(pad, one, AppendedEach(l, t, a, vs[1..], off + |pad| + |one|));
  }

  lemma ArrayPad(l: Layout, t: Type, v: Value, off: nat)
    requires Fits(t, v) && t.Array?
    requires var a := Alignment(l, t);
             var pad := Padding(off, a);
             && Padding(off + |pad|, a) == []
             && (v.parts != [] ==>
                   AppendedEach(l, t.elem, a, v.parts, off) == pad + AppendedEach(l, t.elem, a, v.parts, off + |pad|))
    ensures var pad := Padding(off, Alignment(l, t));
            Appended(l, t, v, off, false) == pad + Appended(l, t, v, off + |pad|, false)
  {
    hide Padding, Alignment, AppendedEach, AllFit;
    var a := Alignment(l, t);
    var pad := Padding(off, a);
    var elements := AppendedEach(l, t.elem, a, v.parts, off + |pad|);
    if v.parts == [] {
      NoElements(l, t.elem, a, off);
      NoElements(l, t.elem, a, off + |pad|);
    } else {
      Regroup(pad, elements, Padding(off + |pad + elements|, a));
    }
  }

  lemma NoElements(l: Layout, t: Type, a: nat, off: nat)
    ensures AppendedEach(l, t, a, [], off) == []
  {}

  lemma StructPad(l: Layout, t: Type, v: Value, off: nat)
    requires Fits(t, v) && t.Struct?
    requires var a := Alignment(l, t); Padding(off + |Padding(off, a)|, a) == []
    ensures var pad := Padding(off, Alignment(l, t));
            Appended(l, t, v, off, false) == pad + Appended(l, t, v, off + |pad|, false)
  {
    hide Padding, Alignment, AppendedMembers, MembersFit;
    var a := Alignment(l, t);
    var pad := Padding(off, a);
    var members := AppendedMembers(l, t.members, v.parts, off + |pad|);
    assert [] + members == members;
    Regroup(pad, members, Padding(off + |pad + members|, a));
  }

  // ----- elements at a stride

  /** The distance between two elements of an array: the size of one, rounded up; w is any element. */
  function ElementStride(l: Layout, t: Type, w: Value): nat
    requires t.Array? && Fits(t.elem, w)
  {
    NextAligned(|Alone(l, t.elem, w)|, Alignment(l, t))
  }

  /** Found in r at that offset. */
  predicate Found(r: seq<u8>, at: int, data: seq<u8>) {
    0 <= at && at + |data| <= |r| && r[at..at + |data|] == data
  }

  lemma FoundLater(first: seq<u8>, rest: seq<u8>, at: int, data: seq<u8>)
    requires Found(rest, at, data)
    ensures Found(first + rest, |first| + at, data)
  {
    assert (first + rest)[|first| + at..|first| + at + |data|] == rest[at..at + |data|];
  }

  lemma FoundFirst(pad: seq<u8>, data: seq<u8>, rest: seq<u8>)
    ensures Found(pad + data + rest, |pad|, data)
  {
    assert (pad + data + rest)[|pad|..|pad| + |data|] == data;
  }

  /** Elements that are each padded to a, from the element type's size on. */
  lemma {:induction false} EachAtStride(l: Layout, t: Type, a: nat, vs: seq<Value>, size: nat, off: nat, k: nat)
    requires AllFit(t, vs) && k < |vs| && Sane(l, t) && Power(a) && Alignment(l, t) <= a
    requires forall w :: Fits(t, w) ==> |Alone(l, t, w)| == size
    ensures Fits(t, vs[k])
    ensures var at := NextAligned(off, a) - off + k * NextAligned(size, a);
            Found(AppendedEach(l, t, a, vs, off), at, Alone(l, t, vs[k]))
    decreases k
  {
    hide Padding, Alignment, Sane, Power, Fits, NextAligned, Alone, Found, AppendedEach;
    var start := NextAligned(off, a);
    var pad, one := Padding(off, a), Alone(l, t, vs[0]);
    var rest := AppendedEach(l, t, a, vs[1..], start + size);
    EachBegins(l, t, a, vs, off);
    if k == 0 {
      FoundFirst(pad, one, rest);
    } else {
      EachAtStride(l, t, a, vs[1..], size, start + size, k - 1);
      NextStart(off, size, a, k);
      FoundLater(pad + one, rest, NextAligned(start + size, a) - (start + size) + (k - 1) * NextAligned(size, a),
                 Alone(l, t, vs[k]));
    }
  }

  lemma EachBegins(l: Layout, t: Type, a: nat, vs: seq<Value>, off: nat)
    requires AllFit(t, vs) && vs != [] && Sane(l, t) && Power(a) && Alignment(l, t) <= a
    ensures var start, one := NextAligned(off, a), Alone(l, t, vs[0]);
            && start == off + |Padding(off, a)|
            && AppendedEach(l, t, a, vs, off)
               == Padding(off, a) + one + AppendedEach(l, t, a, vs[1..], start + |one|)
  {
    hide Padding, Alignment, Sane, Power, Appended, Fits, NextAligned, Alone;
    PadIs(off, a);
    ElementAlone(l, t, vs[0], a, off);
  }

  lemma NextStart(off: nat, size: nat, a: nat, k: nat)
    requires Power(a) && k > 0
    ensures var start, stride := NextAligned(off, a), NextAligned(size, a);
            NextAligned(start + size, a) + (k - 1) * stride == start + k * stride
  {
    hide NextAligned, Power, Multiple;
    var s := NextAligned(size, a);
    RoundIsMultiple(off, a);
    RoundShift(NextAligned(off, a), size, a);
    OneMore(k, s);
  }

  lemma OneMore(k: nat, s: nat)
    requires k > 0
    ensures (k - 1) * s + s == k * s
  {}

  lemma ElementAlone(l: Layout, t: Type, v: Value, a: nat, off: nat)
    requires Fits(t, v) && Sane(l, t) && Power(a) && Alignment(l, t) <= a
    ensures Appended(l, t, v, NextAligned(off, a), false) == Alone(l, t, v)
  {
    hide Appended, Alignment, Sane, Fits, NextAligned, Power, Congruent, Multiple;
    SaneIsPower(l, t);
    RoundIsMultiple(off, a);
    var start := NextAligned(off, a);
    MultipleDown(start, Alignment(l, t), a);
    StartIsZero(start, Alignment(l, t));
    AppendedRepeats(l, t, v, start, 0, false);
  }

  /**
    Element k of an array lies k strides behind the start of the array. It begins on the array's alignment, which its
    own divides, and is written as it would be alone. The stride is the same for all values of the type.
   */
  lemma ElementsAtStride(l: Layout, t: Type, v: Value, w: Value, b: seq<u8>, topLevel: bool, k: nat)
    requires Fits(t, v) && t.Array? && Sane(l, t) && k < t.count && Fits(t.elem, w)
    ensures var a := Alignment(l, t);
            var at := NextAligned(|b|, a) + k * ElementStride(l, t, w);
            && Fits(t.elem, v.parts[k])
            && Found(Push(l, t, v, b, topLevel), at, Alone(l, t.elem, v.parts[k]))
            && Multiple(at, a) && Multiple(at, Alignment(l, t.elem))
  {
    hide Push, Appended, AppendedEach, Alignment, Sane, Fits, AllFit, NextAligned, Power, Multiple, Alone, Found,
         Padding;
    var a := Alignment(l, t);
    var size := |Alone(l, t.elem, w)|;
    SizesAreEqual(l, t.elem, w);
    PartsOfArray(t, v);
    SaneElement(l, t);
    SaneIsPower(l, t);
    SaneIsPower(l, t.elem);
    ElementInArray(l, t);
    PushAppends(l, t, v, b, topLevel);
    EachAtStride(l, t.elem, a, v.parts, size, |b|, k);
    ArrayIs(l, t, v, |b|, topLevel);
    var elements := AppendedEach(l, t.elem, a, v.parts, |b|);
    var at := NextAligned(|b|, a) + k * NextAligned(size, a);
    FoundBefore(elements, Padding(|b| + |elements|, a), at - |b|, Alone(l, t.elem, v.parts[k]));
    FoundLater(b, Appended(l, t, v, |b|, topLevel), at - |b|, Alone(l, t.elem, v.parts[k]));
    StartsAreMultiples(|b|, size, a, k);
    MultipleDown(at, Alignment(l, t.elem), a);
  }

  lemma SizesAreEqual(l: Layout, t: Type, w: Value)
    requires Fits(t, w)
    ensures forall v :: Fits(t, v) ==> |Alone(l, t, v)| == |Alone(l, t, w)|
  {
    hide Fits, Appended;
    forall v | Fits(t, v) ensures |Alone(l, t, v)| == |Alone(l, t, w)| {
      SizeIsOfType(l, t, v, w, 0);
    }
  }

  lemma PartsOfArray(t: Type, v: Value)
    requires t.Array? && Fits(t, v)
    ensures v.Parts? && |v.parts| == t.count && AllFit(t.elem, v.parts)
  {}

  lemma ArrayIs(l: Layout, t: Type, v: Value, off: nat, topLevel: bool)
    requires t.Array? && Fits(t, v)
    ensures var elements := AppendedEach(l, t.elem, Alignment(l, t), v.parts, off);
            Appended(l, t, v, off, topLevel) == elements + Padding(off + |elements|, Alignment(l, t))
  {
    hide AppendedEach, Alignment, Padding;
  }

  lemma FoundBefore(r: seq<u8>, rest: seq<u8>, at: int, data: seq<u8>)
    requires Found(r, at, data)
    ensures Found(r + rest, at, data)
  {
    assert (r + rest)[at..at + |data|] == r[at..at + |data|];
  }

  lemma {:induction false} StartsAreMultiples(off: nat, size: nat, a: nat, k: nat)
    requires Power(a)
    ensures Multiple(NextAligned(off, a) + k * NextAligned(size, a), a)
  {
    hide NextAligned, Power;
    var start, s := NextAligned(off, a), NextAligned(size, a);
    RoundIsMultiple(off, a);
    RoundIsMultiple(size, a);
    if k == 0 {
    } else {
      StartsAreMultiples(off, size, a, k - 1);
      OneMore(k, s);
      ShiftKeepsRemainder(a, start + (k - 1) * s, 0, s);
    }
  }

  // ----- members

  /** Where member i starts if the first may start at off. */
  function MemberStart(l: Layout, ts: seq<Type>, vs: seq<Value>, off: nat, i: nat): nat
    requires MembersFit(ts, vs) && i < |ts|
    decreases i
  {
    if i == 0 then NextAligned(off, Alignment(l, ts[0]))
    else MemberStart(l, ts[1..], vs[1..], off + |Appended(l, ts[0], vs[0], off, false)|, i - 1)
  }

  lemma {:induction false} MembersAtStart(l: Layout, ts: seq<Type>, vs: seq<Value>, off: nat, i: nat)
    requires MembersFit(ts, vs) && i < |ts| && forall t :: t in ts ==> Sane(l, t)
    ensures var at := MemberStart(l, ts, vs, off, i);
            && Fits(ts[i], vs[i])
            && Found(AppendedMembers(l, ts, vs, off), at - off, Alone(l, ts[i], vs[i]))
            && Multiple(at, Alignment(l, ts[i]))
    decreases i
  {
    hide Alignment, Sane, Appended, Fits, NextAligned, Multiple, Alone, Found;
    AppendedBegins(l, ts[0], vs[0], off);
    var first := Appended(l, ts[0], vs[0], off, false);
    var rest := AppendedMembers(l, ts[1..], vs[1..], off + |first|);
    if i == 0 {
      SaneIsPower(l, ts[0]);
      RoundIsMultiple(off, Alignment(l, ts[0]));
      FoundFirst(Zeros(NextAligned(off, Alignment(l, ts[0])) - off), Alone(l, ts[0], vs[0]), rest);
    } else {
      MembersAtStart(l, ts[1..], vs[1..], off + |first|, i - 1);
      var at := MemberStart(l, ts, vs, off, i);
      FoundLater(first, rest, at - (off + |first|), Alone(l, ts[i], vs[i]));
    }
  }

  /** Every member of a structure begins on its own alignment, behind those before it, and is written as if alone. */
  lemma MembersAreAligned(l: Layout, t: Type, v: Value, b: seq<u8>, topLevel: bool, i: nat)
    requires Fits(t, v) && t.Struct? && Sane(l, t) && i < |t.members|
    ensures MembersFit(t.members, v.parts) && Fits(t.members[i], v.parts[i])
    ensures var at := MemberStart(l, t.members, v.parts, NextAligned(|b|, Alignment(l, t)), i);
            && Found(Push(l, t, v, b, topLevel), at, Alone(l, t.members[i], v.parts[i]))
            && Multiple(at, Alignment(l, t.members[i]))
  {
    hide Push, Appended, AppendedMembers, Alignment, Sane, MembersFit, NextAligned, Power, Multiple, Alone, Found,
         Padding, MemberStart;
    var a := Alignment(l, t);
    PartsOfStruct(t, v);
    SaneMembers(l, t);
    SaneIsPower(l, t);
    PadIs(|b|, a);
    var start := NextAligned(|b|, a);
    MembersAtStart(l, t.members, v.parts, start, i);
    PushAppends(l, t, v, b, topLevel);
    StructIs(l, t, v, |b|, topLevel);
    var members := AppendedMembers(l, t.members, v.parts, start);
    var pad := Padding(|b|, a);
    var end := if topLevel then [] else Padding(start + |members|, a);
    var at := MemberStart(l, t.members, v.parts, start, i);
    var data := Alone(l, t.members[i], v.parts[i]);
    FoundBefore(members, end, at - start, data);
    FoundLater(pad, members + end, at - start, data);
    FoundLater(b, pad + (members + end), at - |b|, data);
  }

  lemma PartsOfStruct(t: Type, v: Value)
    requires t.Struct? && Fits(t, v)
    ensures v.Parts? && |v.parts| == |t.members| && MembersFit(t.members, v.parts)
  {}

  lemma StructIs(l: Layout, t: Type, v: Value, off: nat, topLevel: bool)
    requires t.Struct? && Fits(t, v)
    ensures var pad := Padding(off, Alignment(l, t));
            var members := AppendedMembers(l, t.members, v.parts, off + |pad|);
            var end := if topLevel then [] else Padding(off + |pad| + |members|, Alignment(l, t));
            Appended(l, t, v, off, topLevel) == pad + (members + end)
  {
    hide AppendedMembers, Alignment, Padding, MembersFit;
    var pad := Padding(off, Alignment(l, t));
    var members := AppendedMembers(l, t.members, v.parts, off + |pad|);
    assert members + [] == members;
    Regroup(pad, members, Padding(off + |pad + members|, Alignment(l, t)));
  }

  // ----- components of vectors and columns of matrices

  /** What a vector or matrix consists of. */
  function ComponentType(t: Type): Type
    requires t.Vector? || t.Matrix?
  {
    if t.Vector? then Scalar(t.kind) else Vector(Word, t.rows)
  }

  function ComponentStride(l: Layout, t: Type, w: Value): nat
    requires (t.Vector? || t.Matrix?) && Fits(ComponentType(t), w)
  {
    NextAligned(|Alone(l, ComponentType(t), w)|, Alignment(l, ComponentType(t)))
  }

  lemma {:induction false} ComponentsAtStart(l: Layout, t: Type, vs: seq<Value>, size: nat, off: nat, k: nat)
    requires AllFit(t, vs) && k < |vs| && Sane(l, t)
    requires forall w :: Fits(t, w) ==> |Alone(l, t, w)| == size
    ensures Fits(t, vs[k])
    ensures var a := Alignment(l, t);
            Found(AppendedEach(l, t, 1, vs, off), NextAligned(off, a) - off + k * NextAligned(size, a),
                  Alone(l, t, vs[k]))
    decreases k
  {
    hide Alignment, Sane, Power, Fits, NextAligned, Alone, Found, AppendedEach;
    var a := Alignment(l, t);
    SaneIsPower(l, t);
    var start := NextAligned(off, a);
    var one := Alone(l, t, vs[0]);
    var rest := AppendedEach(l, t, 1, vs[1..], start + size);
    ComponentsBegin(l, t, vs, off);
    if k == 0 {
      FoundFirst(Zeros(start - off), one, rest);
    } else {
      ComponentsAtStart(l, t, vs[1..], size, start + size, k - 1);
      NextStart(off, size, a, k);
      FoundLater(Zeros(start - off) + one, rest,
                 NextAligned(start + size, a) - (start + size) + (k - 1) * NextAligned(size, a), Alone(l, t, vs[k]));
    }
  }

  lemma ComponentsBegin(l: Layout, t: Type, vs: seq<Value>, off: nat)
    requires AllFit(t, vs) && vs != [] && Sane(l, t)
    ensures var start, one := NextAligned(off, Alignment(l, t)), Alone(l, t, vs[0]);
            && off <= start
            && AppendedEach(l, t, 1, vs, off)
               == Zeros(start - off) + one + AppendedEach(l, t, 1, vs[1..], start + |one|)
  {
    hide Padding, Alignment, Sane, Appended, Fits, NextAligned, Alone;
    AppendedBegins(l, t, vs[0], off);
    NoPadding(Zeros(off));
    assert Padding(off, 1) == [] by { PaddingToOne(off); }
    var first := Appended(l, t, vs[0], off, false);
    assert [] + first == first;
  }

  lemma PaddingToOne(off: nat)
    ensures Padding(off, 1) == []
  {
  }

  /** Component k of a vector or matrix begins on its own alignment and is written as it would be alone. */
  lemma ComponentsAtStride(l: Layout, t: Type, v: Value, w: Value, b: seq<u8>, topLevel: bool, k: nat)
    requires Fits(t, v) && (t.Vector? || t.Matrix?) && k < |v.parts| && Fits(ComponentType(t), w)
    ensures var c := ComponentType(t);
            var at := NextAligned(|b|, Alignment(l, t)) + k * ComponentStride(l, t, w);
            && Fits(c, v.parts[k])
            && Found(Push(l, t, v, b, topLevel), at, Alone(l, c, v.parts[k]))
            && Multiple(at, Alignment(l, c)) && Alignment(l, c) <= Alignment(l, t)
  {
    hide Push, Appended, AppendedEach, Alignment, Sane, Fits, AllFit, NextAligned, Power, Multiple, Alone, Found,
         Padding;
    var a, c := Alignment(l, t), ComponentType(t);
    var size := |Alone(l, c, w)|;
    SizesAreEqual(l, c, w);
    ComponentFacts(l, t, v);
    SaneIsPower(l, t);
    SaneIsPower(l, c);
    PadIs(|b|, a);
    var start := NextAligned(|b|, a);
    RoundIsMultiple(|b|, a);
    MultipleDown(start, Alignment(l, c), a);
    RoundMultiple(start, Alignment(l, c));
    PushAppends(l, t, v, b, topLevel);
    ComponentsAtStart(l, c, v.parts, size, start, k);
    ComponentsAre(l, t, v, |b|, topLevel);
    var parts := AppendedEach(l, c, 1, v.parts, start);
    var at := start + k * NextAligned(size, Alignment(l, c));
    FoundLater(Padding(|b|, a), parts, at - start, Alone(l, c, v.parts[k]));
    FoundLater(b, Appended(l, t, v, |b|, topLevel), at - |b|, Alone(l, c, v.parts[k]));
    StartsAreMultiples(start, size, Alignment(l, c), k);
  }

  lemma ComponentFacts(l: Layout, t: Type, v: Value)
    requires (t.Vector? || t.Matrix?) && Fits(t, v)
    ensures v.Parts? && AllFit(ComponentType(t), v.parts)
    ensures Sane(l, t) && Sane(l, ComponentType(t)) && Alignment(l, ComponentType(t)) <= Alignment(l, t)
  {
  }

  lemma ComponentsAre(l: Layout, t: Type, v: Value, off: nat, topLevel: bool)
    requires (t.Vector? || t.Matrix?) && Fits(t, v)
    ensures v.Parts? && AllFit(ComponentType(t), v.parts)
    ensures var pad := Padding(off, Alignment(l, t));
            Appended(l, t, v, off, topLevel) == pad + AppendedEach(l, ComponentType(t), 1, v.parts, off + |pad|)
  {
    hide AppendedEach, Alignment, Padding, AllFit;
  }

  // ----- at any depth

  /** The type of part i of an object. */
  function PartType(t: Type, i: nat): Type
    requires t.Struct? ==> i < |t.members|
    requires !t.Scalar?
  {
    if t.Array? then t.elem else if t.Struct? then t.members[i] else ComponentType(t)
  }

  lemma PartFits(t: Type, v: Value, i: nat)
    requires Fits(t, v) && v.Parts? && i < |v.parts|
    ensures !t.Scalar? && (t.Struct? ==> |t.members| == |v.parts|) && (t.Array? ==> t.count == |v.parts|)
    ensures Fits(PartType(t, i), v.parts[i]) && Fits(PartType(t, 0), v.parts[0])
  {
    if t.Struct? {
      MemberFits(t.members, v.parts, i);
      MemberFits(t.members, v.parts, 0);
    } else {
      EveryFits(PartType(t, i), v.parts, i);
      EveryFits(PartType(t, i), v.parts, 0);
    }
  }

  lemma {:induction false} EveryFits(t: Type, vs: seq<Value>, i: nat)
    requires AllFit(t, vs) && i < |vs|
    ensures Fits(t, vs[i])
  {
    if i == 0 {
    } else {
      EveryFits(t, vs[1..], i - 1);
    }
  }

  lemma {:induction false} MemberFits(ts: seq<Type>, vs: seq<Value>, i: nat)
    requires MembersFit(ts, vs) && i < |vs|
    ensures |ts| == |vs| && Fits(ts[i], vs[i])
  {
    if i == 0 {
    } else {
      MemberFits(ts[1..], vs[1..], i - 1);
    }
  }

  /** A path leads to a part of a part of the object. */
  predicate Leads(v: Value, path: seq<nat>)
    decreases |path|
  {
    path == [] || (v.Parts? && path[0] < |v.parts| && Leads(v.parts[path[0]], path[1..]))
  }

  function At(v: Value, path: seq<nat>): Value
    requires Leads(v, path)
    decreases |path|
  {
    if path == [] then v else At(v.parts[path[0]], path[1..])
  }

  function TypeAt(t: Type, v: Value, path: seq<nat>): (u: Type)
    requires Fits(t, v) && Leads(v, path)
    ensures Fits(u, At(v, path))
    decreases |path|
  {
    if path == [] then t
    else
      PartFits(t, v, path[0]);
      TypeAt(PartType(t, path[0]), v.parts[path[0]], path[1..])
  }

  function Strides(n: nat, stride: nat): nat {
    n * stride
  }

  /** How far part i of an object is behind the object's own start. */
  function PartOffset(l: Layout, t: Type, v: Value, i: nat): nat
    requires Fits(t, v) && v.Parts? && i < |v.parts|
  {
    hide Fits, Alignment, NextAligned, Alone;
    PartFits(t, v, i);
    if t.Array? then Strides(i, ElementStride(l, t, v.parts[0]))
    else if t.Struct? then PartsOfStruct(t, v); MemberStart(l, t.members, v.parts, 0, i)
    else Strides(i, ComponentStride(l, t, v.parts[0]))
  }

  function OffsetAt(l: Layout, t: Type, v: Value, path: seq<nat>): nat
    requires Fits(t, v) && Leads(v, path)
    decreases |path|
  {
    if path == [] then 0
    else
      PartFits(t, v, path[0]);
      PartOffset(l, t, v, path[0]) + OffsetAt(l, PartType(t, path[0]), v.parts[path[0]], path[1..])
  }

  lemma {:induction false} MemberStartShifts(l: Layout, ts: seq<Type>, vs: seq<Value>, m: nat, start: nat, off: nat,
                                             i: nat)
    requires MembersFit(ts, vs) && i < |ts| && Power(m) && Multiple(start, m)
    requires forall t :: t in ts ==> Sane(l, t) && Alignment(l, t) <= m
    ensures MemberStart(l, ts, vs, start + off, i) == start + MemberStart(l, ts, vs, off, i)
    decreases i
  {
    hide Alignment, Sane, Appended, Fits, NextAligned, Multiple, Power, Congruent;
    var a := Alignment(l, ts[0]);
    SaneIsPower(l, ts[0]);
    MultipleDown(start, a, m);
    if i == 0 {
      RoundShift(start, off, a);
    } else {
      StartIsZero(start, a);
      ShiftKeepsRemainder(a, start, 0, off);
      AppendedRepeats(l, ts[0], vs[0], start + off, off, false);
      MemberStartShifts(l, ts[1..], vs[1..], m, start, off + |Appended(l, ts[0], vs[0], off, false)|, i - 1);
    }
  }

  lemma PartIsSane(l: Layout, t: Type, v: Value, i: nat)
    requires Fits(t, v) && v.Parts? && i < |v.parts| && Sane(l, t)
    ensures !t.Scalar? && (t.Struct? ==> i < |t.members|)
    ensures Sane(l, PartType(t, i)) && Alignment(l, PartType(t, i)) <= Alignment(l, t)
  {
    hide Sane, Alignment;
    PartFits(t, v, i);
    if t.Array? {
      SaneElement(l, t);
      ElementInArray(l, t);
    } else if t.Struct? {
      SaneMembers(l, t);
      MembersInStruct(l, t);
    } else {
      ComponentFacts(l, t, v);
    }
  }

  lemma PartAt(l: Layout, t: Type, v: Value, b: seq<u8>, topLevel: bool, i: nat)
    requires Fits(t, v) && v.Parts? && i < |v.parts| && Sane(l, t)
    ensures !t.Scalar? && (t.Struct? ==> i < |t.members|) && Fits(PartType(t, i), v.parts[i])
    ensures var at := NextAligned(|b|, Alignment(l, t)) + PartOffset(l, t, v, i);
            && Found(Push(l, t, v, b, topLevel), at, Alone(l, PartType(t, i), v.parts[i]))
            && Multiple(at, Alignment(l, PartType(t, i)))
  {
    hide Push, Appended, Alignment, Sane, Fits, NextAligned, Power, Multiple, Alone, Found, MemberStart, ElementStride,
         ComponentStride;
    PartFits(t, v, i);
    if t.Array? {
      ElementsAtStride(l, t, v, v.parts[0], b, topLevel, i);
    } else if t.Struct? {
      MembersAreAligned(l, t, v, b, topLevel, i);
      SaneMembers(l, t);
      MembersInStruct(l, t);
      SaneIsPower(l, t);
      RoundIsMultiple(|b|, Alignment(l, t));
      MemberStartShifts(l, t.members, v.parts, Alignment(l, t), NextAligned(|b|, Alignment(l, t)), 0, i);
    } else {
      ComponentsAtStride(l, t, v, v.parts[0], b, topLevel, i);
    }
  }

  lemma AloneIsPushed(l: Layout, t: Type, v: Value)
    requires Fits(t, v) && Sane(l, t)
    ensures Alone(l, t, v) == Push(l, t, v, [], false) && NextAligned(0, Alignment(l, t)) == 0
  {
    hide Push, Appended, Alignment, Sane, Fits, Power;
    PushAppends(l, t, v, [], false);
    SaneIsPower(l, t);
    RoundMultipleOfAny(Alignment(l, t));
  }

  lemma RoundMultipleOfAny(a: nat)
    ensures NextAligned(0, a) == 0
  {
  }

  lemma FoundWithin(r: seq<u8>, at: nat, data: seq<u8>, off: nat, part: seq<u8>)
    requires Found(r, at, data) && Found(data, off, part)
    ensures Found(r, at + off, part)
  {
    assert forall i :: 0 <= i < |part| ==> r[at + off + i] == data[off + i] == part[i];
  }

  lemma SumOfMultiples(x: nat, y: nat, m: nat, a: nat)
    requires Power(m) && Power(a) && m <= a && Multiple(x, a) && Multiple(y, m)
    ensures Multiple(x + y, m)
  {
    hide Power;
    MultipleDown(x, m, a);
    ShiftKeepsRemainder(m, x, 0, y);
  }

  lemma WholeIsFound(l: Layout, t: Type, v: Value, b: seq<u8>)
    requires Fits(t, v) && Sane(l, t)
    ensures var at := NextAligned(|b|, Alignment(l, t));
            Found(Push(l, t, v, b, false), at, Alone(l, t, v)) && Multiple(at, Alignment(l, t))
  {
    hide Push, Appended, Alignment, Sane, Fits, NextAligned, Power, Alone;
    PushAppends(l, t, v, b, false);
    AppendedBegins(l, t, v, |b|);
    SaneIsPower(l, t);
    RoundIsMultiple(|b|, Alignment(l, t));
    var pad := Zeros(NextAligned(|b|, Alignment(l, t)) - |b|);
    var none: seq<u8> := [];
    Regroup(b, pad, Alone(l, t, v));
    FoundFirst(b + pad, Alone(l, t, v), none);
    assert b + pad + Alone(l, t, v) + none == b + (pad + Alone(l, t, v));
  }

  /**
    Every part of an object, however deep, lies at an offset from the object's start that its type alone decides, on
    its own alignment, and is written as it would be alone. Only a structure on the top level is not found whole, since
    it ends without padding.
   */
  lemma {:induction false} PartsAreAligned(l: Layout, t: Type, v: Value, b: seq<u8>, topLevel: bool, path: seq<nat>)
    requires Fits(t, v) && Sane(l, t) && Leads(v, path) && (topLevel ==> path != [])
    ensures var at, u := NextAligned(|b|, Alignment(l, t)) + OffsetAt(l, t, v, path), TypeAt(t, v, path);
            && Found(Push(l, t, v, b, topLevel), at, Alone(l, u, At(v, path)))
            && Multiple(at, Alignment(l, u)) && Alignment(l, u) <= Alignment(l, t) && Sane(l, u)
    decreases |path|
  {
    hide Push, Appended, Alignment, Sane, Fits, NextAligned, Power, Multiple, Alone, Found, PartOffset;
    if path == [] {
      WholeIsFound(l, t, v, b);
    } else {
      var i, rest := path[0], path[1..];
      PartAt(l, t, v, b, topLevel, i);
      PartIsSane(l, t, v, i);
      var u, w := PartType(t, i), v.parts[i];
      AloneIsPushed(l, u, w);
      PartsAreAligned(l, u, w, [], false, rest);
      var at, off := NextAligned(|b|, Alignment(l, t)) + PartOffset(l, t, v, i), OffsetAt(l, u, w, rest);
      var last := TypeAt(u, w, rest);
      SaneIsPower(l, u);
      SaneIsPower(l, last);
      FoundWithin(Push(l, t, v, b, topLevel), at, Alone(l, u, w), off, Alone(l, last, At(w, rest)));
      SumOfMultiples(at, off, Alignment(l, last), Alignment(l, u));
    }
  }
}
