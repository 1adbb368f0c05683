/**
  What the operations on a voxel space bring about: over any run the tiles are those of a plain map from positions to
  tiles, chunks are there as often as they were loaded, and meshing leaves every chunk with the mesh of the space.
 */
module SpaceEffects {
  import opened ChunkMesher
  import opened VoxelGeometry
  import opened VoxelSpace

  // ----- the space told by its history

  /** How many loads of a chunk have not been taken back. An unload of a chunk that is not loaded does not count. */
  function Balance(ops: seq<Op>, c: Pos): nat {
    if ops == [] then 0
    else
      var before := Balance(ops[..|ops| - 1], c);
      match ops[|ops| - 1]
      case LoadOp(d, _) => if d == c then before + 1 else before
      case UnloadOp(d) => if d == c && before > 0 then before - 1 else before
      case _ => before
  }

  /** The tile last put there, or generated when the chunk was loaded first; unknown while it is not loaded. */
  function TileAt(ts: TileSet, ops: seq<Op>, p: Pos): TileData
    requires forall op :: op in ops ==> Possible(op)
  {
    if ops == [] then ts.unknown
    else
      var init, last, c := ops[..|ops| - 1], ops[|ops| - 1], ToChunkPos(p);
      assert forall op :: op in init ==> op in ops;
      assert last in ops && Possible(last);
      var before := TileAt(ts, init, p);
      match last
      case SetOp(at, td) => if at == p && Balance(init, c) > 0 then td else before
      case LoadOp(d, generated) =>
        if d == c && Balance(init, c) == 0 then Generated(generated, p) else before
      case UnloadOp(d) => if d == c && Balance(init, c) == 1 then ts.unknown else before
      case MeshOp(_) => before
  }

  function Generated(data: seq<TileData>, p: Pos): TileData
    requires |data| == CHUNK_VOLUME
  {
    WorldPosSplits(p);
    FlattenIsInjective(ToLocalPos(p));
    data[Flatten(ToLocalPos(p))]
  }

  /** The chunks that are there, and how often they were loaded. */
  function Count(s: Chunks, c: Pos): nat {
    if c in s then s[c].loadCount else 0
  }

  // ----- loading and unloading

  lemma MarkedCount(s: Chunks, c: Pos)
    ensures forall q :: Count(InvalidateNeighbours(s, c, 6), q) == Count(s, q)
  {
    MarkingNeighbours(s, c, 6);
  }

  /** A first load brings the generated tiles, a further one only counts. */
  lemma LoadBrings(ts: TileSet, s: Chunks, c: Pos, generated: seq<TileData>, p: Pos)
    requires MeshesAreCurrent(ts, s) && |generated| == CHUNK_VOLUME
    ensures var r := LoadChunk(s, c, generated);
            && Sized(r) && r.Keys == s.Keys + {c} && Count(r, c) == Count(s, c) + 1
            && (forall q :: q != c ==> Count(r, q) == Count(s, q))
            && GetData(ts, r, p) == if ToChunkPos(p) == c && c !in s then Generated(generated, p) else GetData(ts, s, p)
  {
    hide ToChunkPos, ToLocalPos, Flatten, InvalidateNeighbours, ChunkMesh, From;
    if c !in s {
      var m := s[c := ChunkEntry(generated, NeedsMeshing, EMPTY_MESH, 1)];
      MarkedCount(m, c);
      MarkingNeighbours(m, c, 6);
      MarkingKeepsData(ts, m, InvalidateNeighbours(m, c, 6), p);
    }
  }

  /** The unload that takes back the last load removes the chunk, and no other does. */
  lemma UnloadRemoves(ts: TileSet, s: Chunks, c: Pos, p: Pos)
    requires MeshesAreCurrent(ts, s)
    ensures var r := UnloadChunk(s, c);
            && Sized(r) && r.Keys == s.Keys - (if Count(s, c) == 1 then {c} else {})
            && Count(r, c) == (if Count(s, c) > 0 then Count(s, c) - 1 else 0)
            && (forall q :: q != c ==> Count(r, q) == Count(s, q))
            && GetData(ts, r, p) == if ToChunkPos(p) == c && Count(s, c) == 1 then ts.unknown else GetData(ts, s, p)
  {
    hide ToChunkPos, ToLocalPos, Flatten, InvalidateNeighbours, ChunkMesh, From;
    if c in s && s[c].loadCount == 1 {
      MarkedCount(s - {c}, c);
      MarkingNeighbours(s - {c}, c, 6);
      MarkingKeepsData(ts, s - {c}, InvalidateNeighbours(s - {c}, c, 6), p);
    }
  }

  lemma SetCounts(ts: TileSet, s: Chunks, at: Pos, td: TileData)
    requires Sized(s)
    ensures forall q :: Count(SetData(s, at, td), q) == Count(s, q)
  {
    hide ToChunkPos, ToLocalPos, Flatten, InvalidateAround;
    if ToChunkPos(at) in s {
      MarkingAround(WriteTile(s, at, td), at, 6);
    }
  }

  // ----- which chunks are marked

  /** After writing a tile, the chunks marked in addition are its own and those that a step from it leads to. */
  lemma {:induction false} AroundIsMarked(s: Chunks, p: Pos, n: nat, q: Pos)
    requires n <= 6 && q in s
    ensures var r := InvalidateAround(s, p, n);
            && q in r
            && (r[q].status == NeedsMeshing <==>
                  || s[q].status == NeedsMeshing
                  || (q != ToChunkPos(p) && exists d :: 0 <= d < n && q == ToChunkPos(p.Plus(Offset(d)))))
  {
    hide ToChunkPos, Offset;
    if n == 0 {
    } else {
      AroundIsMarked(s, p, n - 1, q);
      MarkingAround(s, p, n - 1);
    }
  }

  lemma SetDataMarks(s: Chunks, p: Pos, td: TileData, q: Pos)
    requires Sized(s) && q in s
    ensures var r := SetData(s, p, td);
            && q in r
            && (r[q].status == NeedsMeshing <==>
                  || s[q].status == NeedsMeshing
                  || (ToChunkPos(p) in s
                      && (q == ToChunkPos(p) || exists d :: 0 <= d < 6 && q == ToChunkPos(p.Plus(Offset(d))))))
  {
    hide ToChunkPos, ToLocalPos, Flatten, Offset, InvalidateAround;
    if ToChunkPos(p) in s {
      AroundIsMarked(WriteTile(s, p, td), p, 6, q);
    }
  }

  lemma {:induction false} NeighboursAreMarked(s: Chunks, c: Pos, n: nat, q: Pos)
    requires n <= 6 && q in s
    ensures var r := InvalidateNeighbours(s, c, n);
            && q in r
            && (r[q].status == NeedsMeshing <==>
                  s[q].status == NeedsMeshing || exists d :: 0 <= d < n && q == c.Plus(Offset(d)))
  {
    hide Offset;
    if n == 0 {
    } else {
      NeighboursAreMarked(s, c, n - 1, q);
      MarkingNeighbours(s, c, n - 1);
    }
  }

  /** A first load and the last unload mark the neighbours of the chunk, and nothing else does. */
  lemma LoadingMarks(s: Chunks, c: Pos, generated: seq<TileData>, q: Pos)
    requires q in s && forall x :: x in s ==> s[x].loadCount > 0
    ensures var r := LoadChunk(s, c, generated);
            && q in r
            && (r[q].status == NeedsMeshing <==>
                  s[q].status == NeedsMeshing || (c !in s && exists d :: 0 <= d < 6 && q == c.Plus(Offset(d))))
    ensures c !in s ==> c in LoadChunk(s, c, generated) && LoadChunk(s, c, generated)[c].status == NeedsMeshing
    ensures var r := UnloadChunk(s, c);
            q in r ==>
              (r[q].status == NeedsMeshing <==>
                 || s[q].status == NeedsMeshing
                 || (c in s && s[c].loadCount == 1 && exists d :: 0 <= d < 6 && q == c.Plus(Offset(d))))
  {
    hide Offset, InvalidateNeighbours;
    if c !in s {
      var m := s[c := ChunkEntry(generated, NeedsMeshing, EMPTY_MESH, 1)];
      NeighboursAreMarked(m, c, 6, q);
      NeighboursAreMarked(m, c, 6, c);
    } else if s[c].loadCount == 1 {
      MarkingNeighbours(s - {c}, c, 6);
      if q != c {
        NeighboursAreMarked(s - {c}, c, 6, q);
      }
    }
  }

  // ----- whole runs

  lemma StepIsPlain(ts: TileSet, s: Chunks, init: seq<Op>, op: Op, p: Pos, q: Pos)
    requires MeshesAreCurrent(ts, s) && Possible(op) && forall o :: o in init ==> Possible(o)
    requires GetData(ts, s, p) == TileAt(ts, init, p) && (forall c :: Count(s, c) == Balance(init, c))
    ensures forall o :: o in init + [op] ==> Possible(o)
    ensures Sized(Apply(ts, s, op)) && GetData(ts, Apply(ts, s, op), p) == TileAt(ts, init + [op], p)
    ensures Count(Apply(ts, s, op), q) == Balance(init + [op], q)
  {
    hide ToChunkPos, GetData, SetData, LoadChunk, UnloadChunk, MeshStep, ChunkMesh, From, Generated;
    assert (init + [op])[..|init|] == init;
    match op
    case SetOp(at, td) =>
      SetThenGet(ts, s, at, td, p);
      SetCounts(ts, s, at, td);
      CountIsThere(ts, s, ToChunkPos(at));
    case LoadOp(c, generated) =>
      LoadBrings(ts, s, c, generated, p);
      CountIsThere(ts, s, c);
    case UnloadOp(c) => UnloadRemoves(ts, s, c, p);
    case MeshOp(c) => MeshStepMeshes(ts, s, c);
  }

  lemma CountIsThere(ts: TileSet, s: Chunks, c: Pos)
    requires MeshesAreCurrent(ts, s)
    ensures c in s <==> Count(s, c) > 0
  {
    hide ChunkMesh, From;
  }

  /**
    In every run: a chunk is there, with that count, exactly as often as it was loaded and not unloaded, and every tile
    is the one that was put or generated there last.
   */
  lemma {:induction false} RunsArePlain(ts: TileSet, states: seq<Chunks>, ops: seq<Op>, k: nat, p: Pos)
    requires IsRun(ts, states, ops) && k < |states|
    ensures (forall op :: op in ops[..k] ==> Possible(op)) && Sized(states[k])
    ensures forall c :: Count(states[k], c) == Balance(ops[..k], c)
    ensures GetData(ts, states[k], p) == TileAt(ts, ops[..k], p)
  {
    hide GetData, TileAt, Apply, MeshesAreCurrent, Count, Balance;
    RunsKeepMeshesCurrent(ts, states, ops, k);
    if k == 0 {
      NothingThere(ts, p);
      assert states[0] == map[] && ops[..0] == [];
    } else {
      RunsArePlain(ts, states, ops, k - 1, p);
      RunsKeepMeshesCurrent(ts, states, ops, k - 1);
      assert ops[..k] == ops[..k - 1] + [ops[k - 1]];
      forall c ensures Count(states[k], c) == Balance(ops[..k], c) {
        StepIsPlain(ts, states[k - 1], ops[..k - 1], ops[k - 1], p, c);
      }
      StepIsPlain(ts, states[k - 1], ops[..k - 1], ops[k - 1], p, p);
    }
  }

  lemma NothingThere(ts: TileSet, p: Pos)
    ensures Sized(map[]) && GetData(ts, map[], p) == ts.unknown == TileAt(ts, [], p)
    ensures forall c :: Count(map[], c) == Balance([], c)
  {
  }
}
