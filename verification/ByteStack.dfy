/**
  Bytes as a stack: everything is appended at the end of a buffer and taken off its end again. Fixed-width integers
  are little-endian copies of memory, lengths use a variable number of bytes.
 */
module ByteStack {
  import opened Wrappers

  type u8 = i: int | 0 <= i < 256

  function Power256(width: nat): (p: nat)
    ensures p > 0
  {
    if width == 0 then 1 else 256 * Power256(width - 1)
  }

  /** Copying an unsigned integer of the given width in bytes. */
  function EncodeFixed(n: nat, width: nat): (b: seq<u8>)
    ensures |b| == width
  {
    if width == 0 then [] else [n % 256] + EncodeFixed(n / 256, width - 1)
  }

  function DecodeFixed(b: seq<u8>): nat {
    if b == [] then 0 else b[0] + 256 * DecodeFixed(b[1..])
  }

  lemma {:induction false} FixedRoundTrip(n: nat, width: nat)
    requires n < Power256(width)
    ensures DecodeFixed(EncodeFixed(n, width)) == n
  {
    if width == 0 {
    } else {
      var p := Power256(width - 1);
      assert n < 256 * p;
      DivideBound(n, p);
      FixedRoundTrip(n / 256, width - 1);
      assert EncodeFixed(n, width)[1..] == EncodeFixed(n / 256, width - 1);
    }
  }

  lemma DivideBound(n: nat, p: nat)
    requires n < 256 * p
    ensures n / 256 < p
  {}

  // ----- variable-length integers

  /** The bytes after the first: seven bits each, least significant first, top bit clear. */
  function MoreBytes(n: nat): seq<u8> {
    if n == 0 then [] else [n % 128] + MoreBytes(n / 128)
  }

  /** The first byte alone has its top bit set, and it is the last one that the decoder meets. */
  function EncodeLength(n: nat): seq<u8> {
    [n % 128 + 128] + MoreBytes(n / 128)
  }

  /** Reads from the end of the source up to a byte with its top bit set; fails if there is none. */
  function DecodeLengthFrom(src: seq<u8>, result: nat): Option<(nat, seq<u8>)> {
    if src == [] then None
    else
      var current, rest := src[|src| - 1], src[..|src| - 1];
      var next := result * 128 + current % 128;
      if current >= 128 then Some((next, rest)) else DecodeLengthFrom(rest, next)
  }

  function DecodeLength(src: seq<u8>): Option<(nat, seq<u8>)> {
    DecodeLengthFrom(src, 0)
  }

  lemma {:induction false} DecodeMore(p: seq<u8>, n: nat)
    ensures DecodeLengthFrom(p + MoreBytes(n), 0) == DecodeLengthFrom(p, n)
    decreases n
  {
    if n == 0 {
      assert p + [] == p;
    } else {
      var q := p + [n % 128];
      assert p + MoreBytes(n) == q + MoreBytes(n / 128);
      DecodeMore(q, n / 128);
      assert q[|q| - 1] == n % 128 && q[..|q| - 1] == p;
      assert n / 128 * 128 + n % 128 == n;
    }
  }

  /** Decoding gives back the length and leaves exactly what was there before. */
  lemma LengthRoundTrip(p: seq<u8>, n: nat)
    ensures DecodeLength(p + EncodeLength(n)) == Some((n, p))
  {
    var q := p + [n % 128 + 128];
    assert p + EncodeLength(n) == q + MoreBytes(n / 128);
    DecodeMore(q, n / 128);
    assert q[|q| - 1] == n % 128 + 128 && q[..|q| - 1] == p;
    FirstByte(n);
  }

  lemma FirstByte(n: nat)
    ensures n / 128 * 128 + (n % 128 + 128) % 128 == n
  {}

  /** The loop of `encode_variable_length`. */
  method EncodeVariableLength(length: nat, dest: seq<u8>) returns (r: seq<u8>)
    ensures r == dest + EncodeLength(length)
  {
    var remaining: nat := length;
    var byte: u8 := remaining % 128 + (if remaining == length then 128 else 0);
    remaining := remaining / 128;
    r := dest + [byte];
    ghost var start := r;
    while remaining != 0
      invariant remaining < length || (remaining == length == 0)
      invariant r + MoreBytes(remaining) == dest + EncodeLength(length)
    {
      byte := remaining % 128 + (if remaining == length then 128 else 0);
      assert r + MoreBytes(remaining) == r + [byte] + MoreBytes(remaining / 128);
      remaining := remaining / 128;
      r := r + [byte];
    }
    assert r + [] == r;
  }

  /** The loop of `decode_variable_length`, which shrinks the source as it reads. */
  method DecodeVariableLength(source: seq<u8>) returns (result: nat, rest: seq<u8>)
    requires DecodeLength(source).Some?
    ensures DecodeLength(source) == Some((result, rest))
  {
    result, rest := 0, source;
    while true
      invariant DecodeLengthFrom(rest, result) == DecodeLength(source)
      decreases |rest|
    {
      var current := rest[|rest| - 1];
      rest := rest[..|rest| - 1];
      result := result * 128;
      result := result + current % 128;
      if current >= 128 {
        break;
      }
    }
  }
}
