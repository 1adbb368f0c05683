/**
  Tile positions, directions and the order of tiles within a chunk. Positions are unbounded here; chunks have
  32 tiles on every axis, so shifting right by 5 is floor division by 32.
 */
module VoxelGeometry {

  const CHUNK_SIZE := 32
  const CHUNK_VOLUME := CHUNK_SIZE * CHUNK_SIZE * CHUNK_SIZE

  datatype Pos = Pos(x: int, y: int, z: int) {
    function Plus(that: Pos): Pos {
      Pos(x + that.x, y + that.y, z + that.z)
    }
  }

  /** BACKWARD, FORWARD, UP, DOWN, RIGHT, LEFT: each pair 2n, 2n + 1 is opposed. */
  function Offset(d: nat): Pos
    requires d < 6
  {
    match d
    case 0 => Pos(0, 0, 1)
    case 1 => Pos(0, 0, -1)
    case 2 => Pos(0, 1, 0)
    case 3 => Pos(0, -1, 0)
    case 4 => Pos(1, 0, 0)
    case 5 => Pos(-1, 0, 0)
  }

  /** Flips the lowest bit. */
  function OpposingDirection(d: nat): (o: nat)
    requires d < 6
    ensures o < 6
  {
    match d
    case 0 => 1
    case 1 => 0
    case 2 => 3
    case 3 => 2
    case 4 => 5
    case 5 => 4
  }

  lemma OpposingDirectionsCancel(d: nat)
    requires d < 6
    ensures Offset(d).Plus(Offset(OpposingDirection(d))) == Pos(0, 0, 0)
  {}

  function Bit(b: bool, n: nat): nat {
    if b then n else 0
  }

  /** The three bits do not overlap, so adding them is the source's bitwise or. */
  function DirectionFromVector(v: Pos): nat {
    Bit(v.x + v.y + v.z - 1 != 0, 1) + Bit(v.y != 0, 2) + Bit(v.x != 0, 4)
  }

  function ToChunkPos(p: Pos): Pos {
    Pos(p.x / CHUNK_SIZE, p.y / CHUNK_SIZE, p.z / CHUNK_SIZE)
  }

  function ToWorldPos(c: Pos, offset: Pos): Pos {
    Pos(c.x * CHUNK_SIZE + offset.x, c.y * CHUNK_SIZE + offset.y, c.z * CHUNK_SIZE + offset.z)
  }

  function ToLocalPos(p: Pos): Pos {
    var w := ToWorldPos(ToChunkPos(p), Pos(0, 0, 0));
    Pos(p.x - w.x, p.y - w.y, p.z - w.z)
  }

  predicate InChunk(p: Pos) {
    0 <= p.x < CHUNK_SIZE && 0 <= p.y < CHUNK_SIZE && 0 <= p.z < CHUNK_SIZE
  }

  /** -1 below the chunk, 1 above it, 0 inside. */
  function Outside(i: int): int {
    (if i < 0 then -1 else 0) + (if i >= CHUNK_SIZE then 1 else 0)
  }

  function NeighbourDirection(local: Pos): nat {
    DirectionFromVector(Pos(Outside(local.x), Outside(local.y), Outside(local.z)))
  }

  // ----- chunk and local coordinates

  lemma WorldPosSplits(p: Pos)
    ensures InChunk(ToLocalPos(p)) && ToWorldPos(ToChunkPos(p), ToLocalPos(p)) == p
    ensures var c, l := ToChunkPos(p), ToLocalPos(p);
            && p.x == 32 * c.x + l.x && 0 <= l.x < 32
            && p.y == 32 * c.y + l.y && 0 <= l.y < 32
            && p.z == 32 * c.z + l.z && 0 <= l.z < 32
  {}

  lemma WorldPosJoins(c: Pos, local: Pos)
    requires InChunk(local)
    ensures ToChunkPos(ToWorldPos(c, local)) == c && ToLocalPos(ToWorldPos(c, local)) == local
  {}

  /** One step out of a chunk leads into the chunk one step further, at the place the mesher looks. */
  lemma StepAcrossBorder(c: Pos, local: Pos, d: nat)
    requires InChunk(local) && d < 6 && !InChunk(local.Plus(Offset(d)))
    ensures var n := local.Plus(Offset(d));
            && NeighbourDirection(n) == d
            && ToChunkPos(ToWorldPos(c, n)) == c.Plus(Offset(d))
            && ToLocalPos(ToWorldPos(c, n)) == ToLocalPos(n)
            && InChunk(ToLocalPos(n))
  {
    hide InChunk, ToChunkPos, ToWorldPos, ToLocalPos, NeighbourDirection;
    var n := local.Plus(Offset(d));
    StepDirection(local, d);
    StepChunk(c, local, d);
    ShiftByChunk(c, n);
    WorldPosSplits(n);
  }

  lemma StepDirection(local: Pos, d: nat)
    requires InChunk(local) && d < 6 && !InChunk(local.Plus(Offset(d)))
    ensures NeighbourDirection(local.Plus(Offset(d))) == d
  {
    var n := local.Plus(Offset(d));
    match d
    case 0 => assert n.z == 32;
    case 1 => assert n.z == -1;
    case 2 => assert n.y == 32;
    case 3 => assert n.y == -1;
    case 4 => assert n.x == 32;
    case 5 => assert n.x == -1;
  }

  lemma ShiftByChunk(c: Pos, p: Pos)
    ensures ToChunkPos(ToWorldPos(c, p)) == c.Plus(ToChunkPos(p))
    ensures ToLocalPos(ToWorldPos(c, p)) == ToLocalPos(p)
  {
    ShiftOnAxis(c.x, p.x);
    ShiftOnAxis(c.y, p.y);
    ShiftOnAxis(c.z, p.z);
  }

  lemma ShiftOnAxis(c: int, i: int)
    ensures (c * CHUNK_SIZE + i) / CHUNK_SIZE == c + i / CHUNK_SIZE
  {}

  lemma StepChunk(c: Pos, local: Pos, d: nat)
    requires InChunk(local) && d < 6 && !InChunk(local.Plus(Offset(d)))
    ensures ToChunkPos(ToWorldPos(c, local.Plus(Offset(d)))) == c.Plus(Offset(d))
  {
    hide ToWorldPos;
    var n := local.Plus(Offset(d));
    ShiftByChunk(c, n);
    match d
    case 0 => assert n.z == 32;
    case 1 => assert n.z == -1;
    case 2 => assert n.y == 32;
    case 3 => assert n.y == -1;
    case 4 => assert n.x == 32;
    case 5 => assert n.x == -1;
  }

  // ----- flatten order

  function Flatten(p: Pos): int {
    p.z + p.y * CHUNK_SIZE + p.x * (CHUNK_SIZE * CHUNK_SIZE)
  }

  function Unflatten(i: nat): Pos {
    Pos(i / (CHUNK_SIZE * CHUNK_SIZE), (i / CHUNK_SIZE) % CHUNK_SIZE, i % CHUNK_SIZE)
  }

  lemma FlattenIsOnto(i: nat)
    ensures Flatten(Unflatten(i)) == i && (i < CHUNK_VOLUME ==> InChunk(Unflatten(i)))
  {
    var row := i / CHUNK_SIZE;
    assert i == row * CHUNK_SIZE + i % CHUNK_SIZE;
    assert row == (row / CHUNK_SIZE) * CHUNK_SIZE + row % CHUNK_SIZE;
    assert row / CHUNK_SIZE == i / (CHUNK_SIZE * CHUNK_SIZE);
  }

  lemma FlattenIsInjective(p: Pos)
    requires InChunk(p)
    ensures 0 <= Flatten(p) < CHUNK_VOLUME && Unflatten(Flatten(p)) == p
  {
    var row := p.y + p.x * CHUNK_SIZE;
    assert Flatten(p) == row * CHUNK_SIZE + p.z;
    assert Flatten(p) / CHUNK_SIZE == row;
    assert row / CHUNK_SIZE == p.x;
  }

  /**
    The nested loops of `spatial_iterate` over three equal extents: the n-th call of the callback gets the position
    that flattens to n, which is why chunks may count along in `i++`.
   */
  method SpatialIterate() returns (visited: seq<Pos>)
    ensures |visited| == CHUNK_VOLUME
    ensures forall i :: 0 <= i < CHUNK_VOLUME ==> InChunk(visited[i]) && Flatten(visited[i]) == i
  {
    visited := [];
    for x := 0 to CHUNK_SIZE
      invariant |visited| == Flatten(Pos(x, 0, 0))
      invariant forall i :: 0 <= i < |visited| ==> InChunk(visited[i]) && Flatten(visited[i]) == i
    {
      for y := 0 to CHUNK_SIZE
        invariant |visited| == Flatten(Pos(x, y, 0))
        invariant forall i :: 0 <= i < |visited| ==> InChunk(visited[i]) && Flatten(visited[i]) == i
      {
        for z := 0 to CHUNK_SIZE
          invariant |visited| == Flatten(Pos(x, y, z))
          invariant forall i :: 0 <= i < |visited| ==> InChunk(visited[i]) && Flatten(visited[i]) == i
        {
          visited := visited + [Pos(x, y, z)];
        }
      }
    }
  }
}
