/**
  The binary serializer: members and elements are pushed so that popping from the end of the buffer meets them in
  the order in which they are put back.
 */
module Serializer {
  import opened Wrappers
  import opened ByteStack

  /**
    Trivial types are copied as they are in memory. A list type either inserts at its back, so its elements are
    pushed in reverse, or at its front.
   */
  datatype Type =
    | Trivial(size: nat)
    | Record(members: seq<Type>)
    | List(elem: Type, insertsAtFront: bool)

  datatype Value = Raw(bytes: seq<u8>) | Tuple(parts: seq<Value>)

  predicate Fits(t: Type, v: Value)
    decreases v
  {
    match t
    case Trivial(size) => v.Raw? && |v.bytes| == size
    case Record(members) => v.Tuple? && MembersFit(members, v.parts)
    case List(elem, _) => v.Tuple? && AllFit(elem, v.parts)
  }

  predicate MembersFit(ts: seq<Type>, vs: seq<Value>)
    decreases vs
  {
    |ts| == |vs| && (vs == [] || (Fits(ts[0], vs[0]) && MembersFit(ts[1..], vs[1..])))
  }

  predicate AllFit(t: Type, vs: seq<Value>)
    decreases vs
  {
    vs == [] || (Fits(t, vs[0]) && AllFit(t, vs[1..]))
  }

  // ----- writing

  function ToBytes(t: Type, v: Value): seq<u8>
    requires Fits(t, v)
    decreases v
  {
    match t
    case Trivial(_) => v.bytes
    case Record(members) => MembersToBytes(members, v.parts)
    case List(elem, front) =>
      (if front then ElementsForward(elem, v.parts) else ElementsReversed(elem, v.parts)) + EncodeLength(|v.parts|)
  }

  /** The last member is pushed first. */
  function MembersToBytes(ts: seq<Type>, vs: seq<Value>): seq<u8>
    requires MembersFit(ts, vs)
    decreases vs
  {
    if vs == [] then [] else MembersToBytes(ts[1..], vs[1..]) + ToBytes(ts[0], vs[0])
  }

  function ElementsReversed(t: Type, vs: seq<Value>): seq<u8>
    requires AllFit(t, vs)
    decreases vs
  {
    if vs == [] then [] else ElementsReversed(t, vs[1..]) + ToBytes(t, vs[0])
  }

  function ElementsForward(t: Type, vs: seq<Value>): seq<u8>
    requires AllFit(t, vs)
    decreases vs
  {
    if vs == [] then [] else ToBytes(t, vs[0]) + ElementsForward(t, vs[1..])
  }

  // ----- reading

  /** The value at the end of the source and what is left of it; fails where the source runs out of bytes. */
  function FromBytes(t: Type, src: seq<u8>): Option<(Value, seq<u8>)>
    decreases t, 0
  {
    match t
    case Trivial(size) =>
      if |src| < size then None else Some((Raw(src[|src| - size..]), src[..|src| - size]))
    case Record(members) =>
      (match MembersFromBytes(members, src)
       case None => None
       case Some((vs, rest)) => Some((Tuple(vs), rest)))
    case List(elem, front) =>
      match DecodeLength(src)
      case None => None
      case Some((count, rest)) =>
        match ElementsFromBytes(elem, front, count, rest)
        case None => None
        case Some((vs, left)) => Some((Tuple(vs), left))
  }

  /** Members are popped first to last. */
  function MembersFromBytes(ts: seq<Type>, src: seq<u8>): Option<(seq<Value>, seq<u8>)>
    decreases ts, 0
  {
    if ts == [] then Some(([], src))
    else match FromBytes(ts[0], src)
      case None => None
      case Some((v, rest)) =>
        match MembersFromBytes(ts[1..], rest)
        case None => None
        case Some((vs, left)) => Some(([v] + vs, left))
  }

  /** Pops that many elements and inserts each one at the back or the front of what has been inserted so far. */
  function ElementsFromBytes(t: Type, front: bool, count: nat, src: seq<u8>): Option<(seq<Value>, seq<u8>)>
    decreases t, 1, count
  {
    if count == 0 then Some(([], src))
    else match FromBytes(t, src)
      case None => None
      case Some((v, rest)) =>
        match ElementsFromBytes(t, front, count - 1, rest)
        case None => None
        case Some((vs, left)) => Some((if front then vs + [v] else [v] + vs, left))
  }

  // ----- round trip

  /** Reading back from any buffer that ends in a written value gives the value and leaves exactly what came before. */
  lemma {:induction false} RoundTrip(t: Type, v: Value, p: seq<u8>)
    requires Fits(t, v)
    ensures FromBytes(t, p + ToBytes(t, v)) == Some((v, p))
    decreases v
  {
    hide EncodeLength, DecodeLength;
    match t
    case Trivial(size) =>
      var b := p + v.bytes;
      assert b[|b| - size..] == v.bytes && b[..|b| - size] == p;
    case Record(members) =>
      MembersRoundTrip(members, v.parts, p);
    case List(elem, front) =>
      var body := if front then ElementsForward(elem, v.parts) else ElementsReversed(elem, v.parts);
      assert p + (body + EncodeLength(|v.parts|)) == p + body + EncodeLength(|v.parts|);
      LengthRoundTrip(p + body, |v.parts|);
      if front {
        ForwardRoundTrip(elem, v.parts, p);
      } else {
        ReversedRoundTrip(elem, v.parts, p);
      }
  }

  lemma {:induction false} MembersRoundTrip(ts: seq<Type>, vs: seq<Value>, p: seq<u8>)
    requires MembersFit(ts, vs)
    ensures MembersFromBytes(ts, p + MembersToBytes(ts, vs)) == Some((vs, p))
    decreases vs
  {
    hide FromBytes, ToBytes, Fits;
    if vs == [] {
      assert p + [] == p;
    } else {
      var rest := MembersToBytes(ts[1..], vs[1..]);
      assert p + (rest + ToBytes(ts[0], vs[0])) == p + rest + ToBytes(ts[0], vs[0]);
      RoundTrip(ts[0], vs[0], p + rest);
      MembersRoundTrip(ts[1..], vs[1..], p);
      assert [vs[0]] + vs[1..] == vs;
    }
  }

  lemma {:induction false} ReversedRoundTrip(t: Type, vs: seq<Value>, p: seq<u8>)
    requires AllFit(t, vs)
    ensures ElementsFromBytes(t, false, |vs|, p + ElementsReversed(t, vs)) == Some((vs, p))
    decreases vs
  {
    hide FromBytes, ToBytes, Fits;
    if vs == [] {
      assert p + [] == p;
    } else {
      var rest := ElementsReversed(t, vs[1..]);
      assert p + (rest + ToBytes(t, vs[0])) == p + rest + ToBytes(t, vs[0]);
      RoundTrip(t, vs[0], p + rest);
      ReversedRoundTrip(t, vs[1..], p);
      assert [vs[0]] + vs[1..] == vs;
    }
  }

  /** Elements pushed forwards come off last to first, and inserting at the front turns them round again. */
  lemma {:induction false} ForwardRoundTrip(t: Type, vs: seq<Value>, p: seq<u8>)
    requires AllFit(t, vs)
    ensures ElementsFromBytes(t, true, |vs|, p + ElementsForward(t, vs)) == Some((vs, p))
    decreases vs
  {
    hide FromBytes, ToBytes, Fits, ElementsFromBytes;
    if vs == [] {
      assert p + [] == p;
      NoElements(t, p);
    } else {
      var first := ToBytes(t, vs[0]);
      assert p + (first + ElementsForward(t, vs[1..])) == p + first + ElementsForward(t, vs[1..]);
      ForwardRoundTrip(t, vs[1..], p + first);
      RoundTrip(t, vs[0], p);
      OneMoreAtFront(t, vs[1..], vs[0], p + first + ElementsForward(t, vs[1..]), p + first, p);
      assert [vs[0]] + vs[1..] == vs;
    }
  }

  lemma NoElements(t: Type, p: seq<u8>)
    ensures ElementsFromBytes(t, true, 0, p) == Some(([], p))
  {}

  lemma {:induction false} OneMoreAtFront(t: Type, vs: seq<Value>, v: Value, src: seq<u8>, mid: seq<u8>, rest: seq<u8>)
    requires ElementsFromBytes(t, true, |vs|, src) == Some((vs, mid))
    requires FromBytes(t, mid) == Some((v, rest))
    ensures ElementsFromBytes(t, true, |vs| + 1, src) == Some(([v] + vs, rest))
    decreases |vs|
  {
    hide FromBytes;
    if vs == [] {
      assert [] + [v] == [v] + [];
      NoElements(t, rest);
      assert ElementsFromBytes(t, true, 1, src) == Some(([] + [v], rest));
    } else {
      var (w, next) := FromBytes(t, src).value;
      var init := vs[..|vs| - 1];
      assert vs == init + [w];
      OneMoreAtFront(t, init, v, next, mid, rest);
      assert [v] + init + [w] == [v] + vs;
    }
  }

  // ----- the loops

  method Serialize(t: Type, v: Value, dest: seq<u8>) returns (r: seq<u8>)
    requires Fits(t, v)
    ensures r == dest + ToBytes(t, v)
    decreases v, 1
  {
    hide EncodeLength;
    match t
    case Trivial(_) =>
      r := dest + v.bytes;
    case Record(members) =>
      r := SerializeMembers(members, v, dest);
    case List(elem, front) =>
      r := SerializeElements(elem, front, v, dest);
      ghost var body := if front then ElementsForward(elem, v.parts) else ElementsReversed(elem, v.parts);
      assert dest + body + EncodeLength(|v.parts|) == dest + (body + EncodeLength(|v.parts|));
      r := EncodeVariableLength(|v.parts|, r);
  }

  lemma {:induction false} SuffixFits(ts: seq<Type>, vs: seq<Value>, i: nat)
    requires MembersFit(ts, vs) && i <= |vs|
    ensures MembersFit(ts[i..], vs[i..])
    decreases vs
  {
    if i > 0 {
      SuffixFits(ts[1..], vs[1..], i - 1);
      assert ts[1..][i - 1..] == ts[i..] && vs[1..][i - 1..] == vs[i..];
    } else {
      assert ts[0..] == ts && vs[0..] == vs;
    }
  }

  lemma {:induction false} SuffixAllFit(t: Type, vs: seq<Value>, i: nat)
    requires AllFit(t, vs) && i <= |vs|
    ensures AllFit(t, vs[i..])
    decreases vs
  {
    if i > 0 {
      SuffixAllFit(t, vs[1..], i - 1);
      assert vs[1..][i - 1..] == vs[i..];
    } else {
      assert vs[0..] == vs;
    }
  }

  /** Members from the last to the first. */
  method SerializeMembers(ts: seq<Type>, v: Value, dest: seq<u8>) returns (r: seq<u8>)
    requires v.Tuple? && MembersFit(ts, v.parts)
    ensures r == dest + MembersToBytes(ts, v.parts)
    decreases v, 0
  {
    hide ToBytes, Fits;
    r := dest;
    var i := |v.parts|;
    SuffixFits(ts, v.parts, i);
    while i > 0
      invariant 0 <= i <= |v.parts| && MembersFit(ts[i..], v.parts[i..])
      invariant r == dest + MembersToBytes(ts[i..], v.parts[i..])
    {
      i := i - 1;
      SuffixFits(ts, v.parts, i);
      assert ts[i..][1..] == ts[i + 1..] && v.parts[i..][1..] == v.parts[i + 1..];
      ghost var before := MembersToBytes(ts[i + 1..], v.parts[i + 1..]);
      assert dest + before + ToBytes(ts[i], v.parts[i]) == dest + (before + ToBytes(ts[i], v.parts[i]));
      r := Serialize(ts[i], v.parts[i], r);
    }
    assert ts[0..] == ts && v.parts[0..] == v.parts;
  }

  method SerializeElements(t: Type, front: bool, v: Value, dest: seq<u8>) returns (r: seq<u8>)
    requires v.Tuple? && AllFit(t, v.parts)
    ensures r == dest + (if front then ElementsForward(t, v.parts) else ElementsReversed(t, v.parts))
    decreases v, 0
  {
    if front {
      r := SerializeForward(t, v, dest);
    } else {
      r := SerializeReversed(t, v, dest);
    }
  }

  method SerializeReversed(t: Type, v: Value, dest: seq<u8>) returns (r: seq<u8>)
    requires v.Tuple? && AllFit(t, v.parts)
    ensures r == dest + ElementsReversed(t, v.parts)
    decreases v, 0, 0
  {
    hide ToBytes, Fits;
    r := dest;
    var i := |v.parts|;
    SuffixAllFit(t, v.parts, i);
    while i > 0
      invariant 0 <= i <= |v.parts| && AllFit(t, v.parts[i..])
      invariant r == dest + ElementsReversed(t, v.parts[i..])
    {
      i := i - 1;
      SuffixAllFit(t, v.parts, i);
      assert v.parts[i..][1..] == v.parts[i + 1..];
      ghost var before := ElementsReversed(t, v.parts[i + 1..]);
      assert dest + before + ToBytes(t, v.parts[i]) == dest + (before + ToBytes(t, v.parts[i]));
      r := Serialize(t, v.parts[i], r);
    }
    assert v.parts[0..] == v.parts;
  }

  method SerializeForward(t: Type, v: Value, dest: seq<u8>) returns (r: seq<u8>)
    requires v.Tuple? && AllFit(t, v.parts)
    ensures r == dest + ElementsForward(t, v.parts)
    decreases v, 0, 0
  {
    hide ToBytes, Fits;
    r := dest;
    SuffixAllFit(t, v.parts, 0);
    assert v.parts[0..] == v.parts;
    for i := 0 to |v.parts|
      invariant AllFit(t, v.parts[i..])
      invariant r + ElementsForward(t, v.parts[i..]) == dest + ElementsForward(t, v.parts)
    {
      assert v.parts[i..][1..] == v.parts[i + 1..];
      assert r + (ToBytes(t, v.parts[i]) + ElementsForward(t, v.parts[i + 1..]))
          == r + ToBytes(t, v.parts[i]) + ElementsForward(t, v.parts[i + 1..]);
      r := Serialize(t, v.parts[i], r);
    }
    assert r + [] == r;
  }

  /** Shrinks the source from its end; the caller has put enough bytes there. */
  method Deserialize(t: Type, src: seq<u8>) returns (v: Value, rest: seq<u8>)
    requires FromBytes(t, src).Some?
    ensures FromBytes(t, src) == Some((v, rest))
    decreases t, 0
  {
    hide DecodeLength;
    match t
    case Trivial(size) =>
      v, rest := Raw(src[|src| - size..]), src[..|src| - size];
    case Record(members) =>
      var vs;
      vs, rest := DeserializeMembers(members, src);
      v := Tuple(vs);
    case List(elem, front) =>
      var count, left := DecodeVariableLength(src);
      var vs;
      vs, rest := DeserializeElements(elem, front, count, left);
      v := Tuple(vs);
  }

  method DeserializeMembers(ts: seq<Type>, src: seq<u8>) returns (vs: seq<Value>, rest: seq<u8>)
    requires MembersFromBytes(ts, src).Some?
    ensures MembersFromBytes(ts, src) == Some((vs, rest))
    decreases ts, 0
  {
    hide FromBytes;
    vs, rest := [], src;
    assert ts[0..] == ts;
    ghost var all := MembersFromBytes(ts, src).value.0;
    assert [] + all == all;
    for i := 0 to |ts|
      invariant MembersFromBytes(ts[i..], rest).Some?
      invariant var (more, end) := MembersFromBytes(ts[i..], rest).value;
                MembersFromBytes(ts, src) == Some((vs + more, end))
    {
      assert ts[i..][1..] == ts[i + 1..];
      var v;
      v, rest := Deserialize(ts[i], rest);
      ghost var more := MembersFromBytes(ts[i + 1..], rest).value.0;
      assert vs + ([v] + more) == vs + [v] + more;
      vs := vs + [v];
    }
    assert vs + [] == vs;
  }

  method DeserializeElements(t: Type, front: bool, count: nat, src: seq<u8>) returns (vs: seq<Value>, rest: seq<u8>)
    requires ElementsFromBytes(t, front, count, src).Some?
    ensures ElementsFromBytes(t, front, count, src) == Some((vs, rest))
    decreases t, 1, count
  {
    hide FromBytes, ElementsFromBytes;
    vs, rest := [], src;
    ghost var all := ElementsFromBytes(t, front, count, src).value;
    assert all.0 + [] == all.0 == [] + all.0;
    for i := 0 to count
      invariant Continues(t, front, count - i, rest, vs, all)
    {
      var v;
      PopOne(t, front, count - i, rest, vs, all);
      v, rest := Deserialize(t, rest);
      vs := if front then [v] + vs else vs + [v];
    }
    AllPopped(t, front, rest, vs, all);
  }

  /** Popping count more elements onto vs gives the whole result. */
  ghost predicate Continues(t: Type, front: bool, count: nat, src: seq<u8>, vs: seq<Value>,
                            all: (seq<Value>, seq<u8>))
  {
    && ElementsFromBytes(t, front, count, src).Some?
    && var (more, end) := ElementsFromBytes(t, front, count, src).value;
    && all == (if front then more + vs else vs + more, end)
  }

  lemma PopOne(t: Type, front: bool, count: nat, src: seq<u8>, vs: seq<Value>, all: (seq<Value>, seq<u8>))
    requires count > 0 && Continues(t, front, count, src, vs, all)
    ensures FromBytes(t, src).Some?
    ensures var (v, rest) := FromBytes(t, src).value;
            Continues(t, front, count - 1, rest, if front then [v] + vs else vs + [v], all)
  {
    hide FromBytes;
    var (v, rest) := FromBytes(t, src).value;
    var more := ElementsFromBytes(t, front, count - 1, rest).value.0;
    if front {
      assert more + [v] + vs == more + ([v] + vs);
    } else {
      assert vs + ([v] + more) == vs + [v] + more;
    }
  }

  lemma AllPopped(t: Type, front: bool, src: seq<u8>, vs: seq<Value>, all: (seq<Value>, seq<u8>))
    requires Continues(t, front, 0, src, vs, all)
    ensures all == (vs, src)
  {
    assert vs + [] == vs && [] + vs == vs;
  }
}
