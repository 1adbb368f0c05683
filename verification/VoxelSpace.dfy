/**
  A voxel space: loaded chunks with a mesh each. The meshes are a cache over the tiles of the whole space, since a
  chunk's outer faces depend on its neighbours; writing, loading and unloading mark what must be meshed again.
  Meshing one chunk is a single step, and no chunk is write-locked.
 */
module VoxelSpace {
  import opened Wrappers
  import opened VoxelGeometry
  import opened ChunkMesher

  datatype MeshStatus = NeedsMeshing | Meshed

  datatype ChunkEntry = ChunkEntry(data: seq<TileData>, status: MeshStatus, mesh: Mesh, loadCount: nat)

  type Chunks = map<Pos, ChunkEntry>

  ghost predicate Sized(s: Chunks) {
    forall c :: c in s ==> |s[c].data| == CHUNK_VOLUME
  }

  function GetData(ts: TileSet, s: Chunks, p: Pos): TileData
    requires Sized(s)
  {
    if ToChunkPos(p) in s then
      WorldPosSplits(p);
      FlattenIsInjective(ToLocalPos(p));
      s[ToChunkPos(p)].data[Flatten(ToLocalPos(p))]
    else ts.unknown
  }

  function Invalidate(s: Chunks, c: Pos): Chunks {
    if c in s then s[c := s[c].(status := NeedsMeshing)] else s
  }

  /** The loop over `directions` around an edited tile: border neighbours of its chunk are invalidated. */
  function InvalidateAround(s: Chunks, p: Pos, n: nat): Chunks
    requires n <= 6
  {
    if n == 0 then s
    else
      var before := InvalidateAround(s, p, n - 1);
      var neighbour := ToChunkPos(p.Plus(Offset(n - 1)));
      if neighbour != ToChunkPos(p) then Invalidate(before, neighbour) else before
  }

  function InvalidateNeighbours(s: Chunks, c: Pos, n: nat): Chunks
    requires n <= 6
  {
    if n == 0 then s else Invalidate(InvalidateNeighbours(s, c, n - 1), c.Plus(Offset(n - 1)))
  }

  function WriteTile(s: Chunks, p: Pos, td: TileData): Chunks
    requires Sized(s) && ToChunkPos(p) in s
  {
    WorldPosSplits(p);
    FlattenIsInjective(ToLocalPos(p));
    var e := s[ToChunkPos(p)];
    s[ToChunkPos(p) := e.(data := e.data[Flatten(ToLocalPos(p)) := td], status := NeedsMeshing)]
  }

  /** Writing to a chunk that is not loaded is ignored. */
  function SetData(s: Chunks, p: Pos, td: TileData): Chunks
    requires Sized(s)
  {
    if ToChunkPos(p) in s then InvalidateAround(WriteTile(s, p, td), p, 6) else s
  }

  function LoadChunk(s: Chunks, c: Pos, generated: seq<TileData>): Chunks {
    if c in s then s[c := s[c].(loadCount := s[c].loadCount + 1)]
    else InvalidateNeighbours(s[c := ChunkEntry(generated, NeedsMeshing, EMPTY_MESH, 1)], c, 6)
  }

  function UnloadChunk(s: Chunks, c: Pos): Chunks {
    if c !in s then s
    else if s[c].loadCount > 1 then s[c := s[c].(loadCount := s[c].loadCount - 1)]
    else InvalidateNeighbours(s - {c}, c, 6)
  }

  /** What `update_meshes` hands to the mesher. */
  function Collect(s: Chunks, c: Pos): (nb: Neighbourhood)
    requires Sized(s) && c in s
    ensures nb.Valid()
  {
    Neighbourhood(s[c].data, seq(6, d requires 0 <= d < 6 =>
      if c.Plus(Offset(d)) in s then Some(s[c.Plus(Offset(d))].data) else None))
  }

  function MeshStep(ts: TileSet, s: Chunks, c: Pos): Chunks
    requires Sized(s)
  {
    if c in s && s[c].status == NeedsMeshing then
      s[c := s[c].(status := Meshed, mesh := ChunkMesh(ts, Around(ts, Collect(s, c))))]
    else s
  }

  // ----- meshes depend on the space, and on little of it

  /** The space as seen from the chunk c. */
  function From(ts: TileSet, s: Chunks, c: Pos): Pos -> TileData
    requires Sized(s)
  {
    p => GetData(ts, s, ToWorldPos(c, p))
  }

  /** The mesher's reads at a tile: itself and one step in each direction. */
  ghost predicate AgreeAt(v: Pos -> TileData, w: Pos -> TileData, p: Pos) {
    v(p) == w(p) && forall d :: 0 <= d < 6 ==> v(p.Plus(Offset(d))) == w(p.Plus(Offset(d)))
  }

  lemma {:induction false} FacesOfTileAgree(ts: TileSet, v: Pos -> TileData, w: Pos -> TileData, p: Pos, n: nat)
    requires n <= 6 && AgreeAt(v, w, p)
    ensures FacesOfTile(ts, v, p, n) == FacesOfTile(ts, w, p, n)
  {
    hide Offset, OpposingDirection;
    if n == 0 {
    } else {
      FacesOfTileAgree(ts, v, w, p, n - 1);
    }
  }

  lemma {:induction false} FacesOfChunkAgree(ts: TileSet, v: Pos -> TileData, w: Pos -> TileData, n: nat)
    requires n <= CHUNK_VOLUME
    requires forall p :: InChunk(p) ==> AgreeAt(v, w, p)
    ensures FacesOfChunk(ts, v, n) == FacesOfChunk(ts, w, n)
  {
    hide AgreeAt, FacesOfTile, Unflatten;
    if n == 0 {
    } else {
      FacesOfChunkAgree(ts, v, w, n - 1);
      FlattenIsOnto(n - 1);
      FacesOfTileAgree(ts, v, w, Unflatten(n - 1), 6);
    }
  }

  /** Lookups across chunk borders find the tile of the space, or the unknown tile where nothing is loaded. */
  lemma LookupSeesSpace(ts: TileSet, s: Chunks, c: Pos, p: Pos)
    requires Sized(s) && c in s && InChunk(p)
    ensures AgreeAt(Around(ts, Collect(s, c)), From(ts, s, c), p)
  {
    hide Lookup, GetData, Collect;
    LookupInside(ts, s, c, p);
    forall d | 0 <= d < 6
      ensures Around(ts, Collect(s, c))(p.Plus(Offset(d))) == From(ts, s, c)(p.Plus(Offset(d)))
    {
      if InChunk(p.Plus(Offset(d))) {
        LookupInside(ts, s, c, p.Plus(Offset(d)));
      } else {
        LookupOutside(ts, s, c, p, d);
      }
    }
  }

  lemma LookupInside(ts: TileSet, s: Chunks, c: Pos, p: Pos)
    requires Sized(s) && c in s && InChunk(p)
    ensures Lookup(ts, Collect(s, c), p) == GetData(ts, s, ToWorldPos(c, p))
  {
    hide ToChunkPos, ToLocalPos, ToWorldPos, Flatten, Offset;
    WorldPosJoins(c, p);
  }

  lemma LookupOutside(ts: TileSet, s: Chunks, c: Pos, p: Pos, d: nat)
    requires Sized(s) && c in s && InChunk(p) && d < 6 && !InChunk(p.Plus(Offset(d)))
    ensures Lookup(ts, Collect(s, c), p.Plus(Offset(d))) == GetData(ts, s, ToWorldPos(c, p.Plus(Offset(d))))
  {
    hide ToChunkPos, ToLocalPos, ToWorldPos, Flatten, Offset, NeighbourDirection;
    StepAcrossBorder(c, p, d);
  }

  /** The mesh built from the collected neighbourhood is the mesh over the global tiles. */
  lemma MeshSeesSpace(ts: TileSet, s: Chunks, c: Pos)
    requires Sized(s) && c in s
    ensures ChunkMesh(ts, Around(ts, Collect(s, c))) == ChunkMesh(ts, From(ts, s, c))
  {
    hide AgreeAt, FacesOfChunk, MeshOf, Around, From, InChunk;
    forall p | InChunk(p) ensures AgreeAt(Around(ts, Collect(s, c)), From(ts, s, c), p) {
      LookupSeesSpace(ts, s, c, p);
    }
    FacesOfChunkAgree(ts, Around(ts, Collect(s, c)), From(ts, s, c), CHUNK_VOLUME);
  }

  /** Position p is in the chunk c or touches it. */
  ghost predicate Near(c: Pos, p: Pos) {
    ToChunkPos(p) == c || exists d :: 0 <= d < 6 && ToChunkPos(p.Plus(Offset(d))) == c
  }

  lemma ReadsAreNear(c: Pos, p: Pos, d: nat)
    requires InChunk(p) && d < 6
    ensures Near(c, ToWorldPos(c, p)) && Near(c, ToWorldPos(c, p.Plus(Offset(d))))
  {
    hide InChunk, ToChunkPos, OpposingDirection;
    WorldPosJoins(c, p);
    var o, q := OpposingDirection(d), ToWorldPos(c, p.Plus(Offset(d)));
    OpposingDirectionsCancel(d);
    assert q.Plus(Offset(o)) == ToWorldPos(c, p);
    assert ToChunkPos(q.Plus(Offset(o))) == c;
  }

  lemma MeshStays(ts: TileSet, s: Chunks, r: Chunks, c: Pos)
    requires Sized(s) && Sized(r)
    requires forall p :: Near(c, p) ==> GetData(ts, s, p) == GetData(ts, r, p)
    ensures ChunkMesh(ts, From(ts, s, c)) == ChunkMesh(ts, From(ts, r, c))
  {
    hide Near, GetData, FacesOfChunk, MeshOf, InChunk, Offset;
    forall p | InChunk(p) ensures AgreeAt(From(ts, s, c), From(ts, r, c), p) {
      ReadsAreNear(c, p, 0);
      forall d | 0 <= d < 6 ensures From(ts, s, c)(p.Plus(Offset(d))) == From(ts, r, c)(p.Plus(Offset(d))) {
        ReadsAreNear(c, p, d);
      }
    }
    FacesOfChunkAgree(ts, From(ts, s, c), From(ts, r, c), CHUNK_VOLUME);
  }

  // ----- the invariant

  /** A chunk marked MESHED stores the mesh of the space as it is now. */
  ghost predicate MeshesAreCurrent(ts: TileSet, s: Chunks) {
    && Sized(s)
    && (forall c :: c in s ==> s[c].loadCount > 0)
    && (forall c :: c in s && s[c].status == Meshed ==> s[c].mesh == ChunkMesh(ts, From(ts, s, c)))
  }

  /** r differs from s only in having more chunks marked. */
  ghost predicate OnlyMarks(s: Chunks, r: Chunks) {
    && r.Keys == s.Keys
    && (forall c :: c in s ==> r[c].data == s[c].data && r[c].mesh == s[c].mesh && r[c].loadCount == s[c].loadCount)
    && (forall c :: c in s && r[c].status == Meshed ==> s[c].status == Meshed)
  }

  lemma {:induction false} MarkingAround(s: Chunks, p: Pos, n: nat)
    requires n <= 6
    ensures OnlyMarks(s, InvalidateAround(s, p, n))
    ensures forall d ::
              0 <= d < n && ToChunkPos(p.Plus(Offset(d))) in s && ToChunkPos(p.Plus(Offset(d))) != ToChunkPos(p)
              ==> InvalidateAround(s, p, n)[ToChunkPos(p.Plus(Offset(d)))].status == NeedsMeshing
  {
    hide ToChunkPos, Offset;
    if n == 0 {
    } else {
      MarkingAround(s, p, n - 1);
    }
  }

  lemma {:induction false} MarkingNeighbours(s: Chunks, c: Pos, n: nat)
    requires n <= 6
    ensures OnlyMarks(s, InvalidateNeighbours(s, c, n))
    ensures forall d :: 0 <= d < n && c.Plus(Offset(d)) in s
              ==> InvalidateNeighbours(s, c, n)[c.Plus(Offset(d))].status == NeedsMeshing
  {
    hide Offset;
    if n == 0 {
    } else {
      MarkingNeighbours(s, c, n - 1);
    }
  }

  lemma MarkingKeepsData(ts: TileSet, s: Chunks, r: Chunks, p: Pos)
    requires Sized(s) && OnlyMarks(s, r)
    ensures Sized(r) && GetData(ts, r, p) == GetData(ts, s, p)
  {
    hide ToChunkPos, ToLocalPos, Flatten;
  }

  lemma WriteChangesOneTile(ts: TileSet, s: Chunks, p: Pos, td: TileData, q: Pos)
    requires Sized(s) && ToChunkPos(p) in s
    ensures Sized(WriteTile(s, p, td))
    ensures GetData(ts, WriteTile(s, p, td), q) == if q == p then td else GetData(ts, s, q)
  {
    hide ToChunkPos, ToLocalPos, ToWorldPos, Flatten, Unflatten;
    WorldPosSplits(p);
    WorldPosSplits(q);
    FlattenIsInjective(ToLocalPos(p));
    FlattenIsInjective(ToLocalPos(q));
  }

  /** Reading after writing, anywhere: `set_data` changes exactly the tile it is given, if that is loaded. */
  lemma SetThenGet(ts: TileSet, s: Chunks, p: Pos, td: TileData, q: Pos)
    requires Sized(s)
    ensures Sized(SetData(s, p, td))
    ensures GetData(ts, SetData(s, p, td), q) == if q == p && ToChunkPos(p) in s then td else GetData(ts, s, q)
  {
    hide ToChunkPos, GetData, WriteTile, InvalidateAround;
    if ToChunkPos(p) in s {
      WriteChangesOneTile(ts, s, p, td, q);
      MarkingAround(WriteTile(s, p, td), p, 6);
      MarkingKeepsData(ts, WriteTile(s, p, td), SetData(s, p, td), q);
    }
  }

  lemma SetDataKeepsMeshesCurrent(ts: TileSet, s: Chunks, p: Pos, td: TileData)
    requires MeshesAreCurrent(ts, s)
    ensures MeshesAreCurrent(ts, SetData(s, p, td))
  {
    hide ToChunkPos, GetData, InvalidateAround, ChunkMesh, From;
    var r := SetData(s, p, td);
    SetThenGet(ts, s, p, td, p);
    if ToChunkPos(p) in s {
      MarkingAround(WriteTile(s, p, td), p, 6);
      forall c | c in r && r[c].status == Meshed ensures r[c].mesh == ChunkMesh(ts, From(ts, r, c)) {
        assert !Near(c, p);
        forall q | Near(c, q) ensures GetData(ts, s, q) == GetData(ts, r, q) {
          SetThenGet(ts, s, p, td, q);
        }
        MeshStays(ts, s, r, c);
      }
    }
  }

  lemma StepStaysClose(p: Pos, d: nat)
    requires d < 6
    ensures || ToChunkPos(p.Plus(Offset(d))) == ToChunkPos(p)
            || ToChunkPos(p.Plus(Offset(d))) == ToChunkPos(p).Plus(Offset(d))
  {
    hide ToChunkPos, ToLocalPos, InChunk;
    var c, local := ToChunkPos(p), ToLocalPos(p);
    WorldPosSplits(p);
    assert p.Plus(Offset(d)) == ToWorldPos(c, local.Plus(Offset(d)));
    if InChunk(local.Plus(Offset(d))) {
      WorldPosJoins(c, local.Plus(Offset(d)));
    } else {
      StepChunk(c, local, d);
    }
  }

  /** Only a chunk and its six face neighbours read tiles of that chunk. */
  lemma ReadersAreNeighbours(c: Pos, p: Pos)
    requires Near(c, p)
    ensures c == ToChunkPos(p) || exists d :: 0 <= d < 6 && c == ToChunkPos(p).Plus(Offset(d))
  {
    hide ToChunkPos, Offset;
    if c != ToChunkPos(p) {
      var d :| 0 <= d < 6 && ToChunkPos(p.Plus(Offset(d))) == c;
      StepStaysClose(p, d);
    }
  }

  /** Replacing, adding or removing one whole chunk and marking its face neighbours keeps all other meshes current. */
  lemma ChangingOneChunk(ts: TileSet, s: Chunks, m: Chunks, c: Pos)
    requires MeshesAreCurrent(ts, s) && Sized(m)
    requires forall q :: q != c ==> (q in m <==> q in s) && (q in s ==> m[q] == s[q])
    requires c in m ==> m[c].status == NeedsMeshing && m[c].loadCount > 0
    ensures MeshesAreCurrent(ts, InvalidateNeighbours(m, c, 6))
  {
    hide ToChunkPos, InvalidateNeighbours, ChunkMesh, From, Offset, Near, GetData;
    var r := InvalidateNeighbours(m, c, 6);
    MarkingNeighbours(m, c, 6);
    MarkingKeepsData(ts, m, r, c);
    forall q | q in r && r[q].status == Meshed ensures r[q].mesh == ChunkMesh(ts, From(ts, r, q)) {
      forall p | Near(q, p) ensures GetData(ts, s, p) == GetData(ts, r, p) {
        ReadersAreNeighbours(q, p);
        OtherChunksRead(ts, s, m, c, p);
        MarkingKeepsData(ts, m, r, p);
      }
      MeshStays(ts, s, r, q);
    }
  }

  lemma OtherChunksRead(ts: TileSet, s: Chunks, m: Chunks, c: Pos, p: Pos)
    requires Sized(s) && Sized(m)
    requires forall q :: q != c ==> (q in m <==> q in s) && (q in s ==> m[q] == s[q])
    ensures ToChunkPos(p) != c ==> GetData(ts, s, p) == GetData(ts, m, p)
  {
    hide ToChunkPos, ToLocalPos, Flatten;
  }

  lemma LoadKeepsMeshesCurrent(ts: TileSet, s: Chunks, c: Pos, generated: seq<TileData>)
    requires MeshesAreCurrent(ts, s) && |generated| == CHUNK_VOLUME
    ensures MeshesAreCurrent(ts, LoadChunk(s, c, generated))
  {
    hide InvalidateNeighbours, ChunkMesh, From;
    if c in s {
      CountingKeepsMeshesCurrent(ts, s, c, s[c].loadCount + 1);
    } else {
      ChangingOneChunk(ts, s, s[c := ChunkEntry(generated, NeedsMeshing, EMPTY_MESH, 1)], c);
    }
  }

  lemma UnloadKeepsMeshesCurrent(ts: TileSet, s: Chunks, c: Pos)
    requires MeshesAreCurrent(ts, s)
    ensures MeshesAreCurrent(ts, UnloadChunk(s, c))
  {
    hide InvalidateNeighbours, ChunkMesh, From;
    if c in s {
      if s[c].loadCount > 1 {
        CountingKeepsMeshesCurrent(ts, s, c, s[c].loadCount - 1);
      } else {
        ChangingOneChunk(ts, s, s - {c}, c);
      }
    }
  }

  lemma CountingKeepsMeshesCurrent(ts: TileSet, s: Chunks, c: Pos, n: nat)
    requires MeshesAreCurrent(ts, s) && c in s && n > 0
    ensures MeshesAreCurrent(ts, s[c := s[c].(loadCount := n)])
  {
    hide ChunkMesh, From, Near, Flatten, ToLocalPos, ToChunkPos;
    var r := s[c := s[c].(loadCount := n)];
    forall q | q in r && r[q].status == Meshed ensures r[q].mesh == ChunkMesh(ts, From(ts, r, q)) {
      forall p ensures GetData(ts, s, p) == GetData(ts, r, p) {}
      MeshStays(ts, s, r, q);
    }
  }

  lemma MeshStepKeepsMeshesCurrent(ts: TileSet, s: Chunks, c: Pos)
    requires MeshesAreCurrent(ts, s)
    ensures MeshesAreCurrent(ts, MeshStep(ts, s, c))
  {
    hide ChunkMesh, From, Near, Flatten, ToLocalPos, ToChunkPos, Around, Collect;
    var r := MeshStep(ts, s, c);
    if c in s {
      MeshSeesSpace(ts, s, c);
    }
    forall q | q in r && r[q].status == Meshed ensures r[q].mesh == ChunkMesh(ts, From(ts, r, q)) {
      forall p ensures GetData(ts, s, p) == GetData(ts, r, p) {}
      MeshStays(ts, s, r, q);
    }
  }

  /**
    Meshing a loaded chunk that is marked leaves it MESHED with the mesh of the space, and any other as it was; no tile
    changes and no load count.
   */
  lemma MeshStepMeshes(ts: TileSet, s: Chunks, c: Pos)
    requires MeshesAreCurrent(ts, s)
    ensures var r := MeshStep(ts, s, c);
            && r.Keys == s.Keys && Sized(r)
            && (c in s ==> r[c].status == Meshed && r[c].mesh == ChunkMesh(ts, From(ts, s, c)))
            && (forall q :: q in s ==> r[q].data == s[q].data && r[q].loadCount == s[q].loadCount)
            && (forall q :: q in s && q != c ==> r[q] == s[q])
            && (forall p :: GetData(ts, r, p) == GetData(ts, s, p))
  {
    hide ToChunkPos, ToLocalPos, Flatten, ChunkMesh, From, Around, Collect;
    if c in s {
      MeshSeesSpace(ts, s, c);
    }
  }

  // ----- runs

  datatype Op =
    | SetOp(at: Pos, td: TileData)
    | LoadOp(c: Pos, generated: seq<TileData>)
    | UnloadOp(c: Pos)
    | MeshOp(c: Pos)

  predicate Possible(op: Op) {
    op.LoadOp? ==> |op.generated| == CHUNK_VOLUME
  }

  function Apply(ts: TileSet, s: Chunks, op: Op): Chunks
    requires Sized(s)
  {
    match op
    case SetOp(at, td) => SetData(s, at, td)
    case LoadOp(c, generated) => LoadChunk(s, c, generated)
    case UnloadOp(c) => UnloadChunk(s, c)
    case MeshOp(c) => MeshStep(ts, s, c)
  }

  ghost predicate IsRun(ts: TileSet, states: seq<Chunks>, ops: seq<Op>) {
    && |states| == |ops| + 1 && states[0] == map[]
    && forall i :: 0 <= i < |ops| ==>
                     Possible(ops[i]) && Sized(states[i]) && states[i + 1] == Apply(ts, states[i], ops[i])
  }

  /** In every reachable state the meshes of all chunks marked MESHED are those of the current tiles. */
  lemma {:induction false} RunsKeepMeshesCurrent(ts: TileSet, states: seq<Chunks>, ops: seq<Op>, k: nat)
    requires IsRun(ts, states, ops) && k < |states|
    ensures MeshesAreCurrent(ts, states[k])
  {
    hide MeshesAreCurrent, SetData, LoadChunk, UnloadChunk, MeshStep;
    if k == 0 {
      NothingLoaded(ts);
    } else {
      RunsKeepMeshesCurrent(ts, states, ops, k - 1);
      match ops[k - 1]
      case SetOp(at, td) => SetDataKeepsMeshesCurrent(ts, states[k - 1], at, td);
      case LoadOp(c, generated) => LoadKeepsMeshesCurrent(ts, states[k - 1], c, generated);
      case UnloadOp(c) => UnloadKeepsMeshesCurrent(ts, states[k - 1], c);
      case MeshOp(c) => MeshStepKeepsMeshesCurrent(ts, states[k - 1], c);
    }
  }

  lemma NothingLoaded(ts: TileSet)
    ensures MeshesAreCurrent(ts, map[])
  {}

  // ----- the object

  /** Between any two calls, whatever they are, the mesh of every chunk marked MESHED is that of the current tiles. */
  class Space {
    const ts: TileSet
    var chunks: Chunks
    var cache: MeshCache

    ghost predicate Valid()
      reads this
    {
      MeshesAreCurrent(ts, chunks) && CacheIsSound(ts, cache)
    }

    constructor (ts: TileSet)
      ensures Valid() && this.ts == ts && chunks == map[]
    {
      this.ts := ts;
      chunks, cache := map[], map[];
      new;
      NothingLoaded(ts);
    }

    method SetTile(at: Pos, td: TileData) returns (previous: TileData)
      requires Valid()
      modifies `chunks
      ensures Valid() && chunks == SetData(old(chunks), at, td)
      ensures previous == GetData(ts, old(chunks), at)
    {
      hide ToChunkPos, ToLocalPos, Flatten, Offset, ChunkMesh, From, CacheIsSound;
      SetThenGet(ts, chunks, at, td, at);
      SetDataKeepsMeshesCurrent(ts, chunks, at, td);
      var chunkpos := ToChunkPos(at);
      if chunkpos !in chunks {
        return ts.unknown;
      }
      previous := GetData(ts, chunks, at);
      chunks := WriteTile(chunks, at, td);
      ghost var written := chunks;
      for d := 0 to 6
        invariant chunks == InvalidateAround(written, at, d)
      {
        var neighbour := ToChunkPos(at.Plus(Offset(d)));
        if neighbour != chunkpos && neighbour in chunks {
          chunks := chunks[neighbour := chunks[neighbour].(status := NeedsMeshing)];
        }
      }
    }

    method MarkNeighbours(c: Pos)
      modifies `chunks
      ensures chunks == InvalidateNeighbours(old(chunks), c, 6)
    {
      hide Offset;
      for d := 0 to 6
        invariant chunks == InvalidateNeighbours(old(chunks), c, d)
      {
        var neighbour := c.Plus(Offset(d));
        if neighbour in chunks {
          chunks := chunks[neighbour := chunks[neighbour].(status := NeedsMeshing)];
        }
      }
    }

    method Load(c: Pos, generated: seq<TileData>)
      requires Valid() && |generated| == CHUNK_VOLUME
      modifies `chunks
      ensures Valid() && chunks == LoadChunk(old(chunks), c, generated)
    {
      hide MeshesAreCurrent, CacheIsSound;
      LoadKeepsMeshesCurrent(ts, chunks, c, generated);
      if c in chunks {
        chunks := chunks[c := chunks[c].(loadCount := chunks[c].loadCount + 1)];
      } else {
        chunks := chunks[c := ChunkEntry(generated, NeedsMeshing, EMPTY_MESH, 1)];
        MarkNeighbours(c);
      }
    }

    /** Unloading what is not loaded is only reported. */
    method Unload(c: Pos) returns (known: bool)
      requires Valid()
      modifies `chunks
      ensures Valid() && chunks == UnloadChunk(old(chunks), c) && (known <==> c in old(chunks))
    {
      hide From, ChunkMesh, CacheIsSound;
      UnloadKeepsMeshesCurrent(ts, chunks, c);
      known := c in chunks;
      if known {
        var count := chunks[c].loadCount - 1;
        if count == 0 {
          chunks := chunks - {c};
          MarkNeighbours(c);
        } else {
          chunks := chunks[c := chunks[c].(loadCount := count)];
        }
      }
    }

    method UpdateMesh(c: Pos)
      requires Valid()
      modifies this
      ensures Valid() && chunks == MeshStep(ts, old(chunks), c) && chunks.Keys == old(chunks).Keys
      ensures c in chunks ==> chunks[c].status == Meshed && chunks[c].mesh == ChunkMesh(ts, From(ts, old(chunks), c))
      ensures forall q :: q in chunks && q != c ==> chunks[q] == old(chunks)[q]
      ensures forall q :: q in chunks ==>
                            chunks[q].data == old(chunks)[q].data && chunks[q].loadCount == old(chunks)[q].loadCount
    {
      hide ChunkMesh, Around, Collect, CacheIsSound, From;
      MeshStepMeshes(ts, chunks, c);
      MeshStepKeepsMeshesCurrent(ts, chunks, c);
      if c in chunks && chunks[c].status == NeedsMeshing {
        var mesh;
        mesh, cache := MeshChunk(ts, Collect(chunks, c), cache);
        chunks := chunks[c := chunks[c].(status := Meshed, mesh := mesh)];
      }
    }

    /** The loop over all chunks: afterwards each of them has the mesh of the space. */
    method UpdateMeshes()
      requires Valid()
      modifies this
      ensures Valid() && chunks.Keys == old(chunks).Keys
      ensures forall q :: q in chunks ==>
                            chunks[q].data == old(chunks)[q].data && chunks[q].loadCount == old(chunks)[q].loadCount
      ensures forall q :: q in chunks ==>
                            chunks[q].status == Meshed && chunks[q].mesh == ChunkMesh(ts, From(ts, old(chunks), q))
    {
      hide ChunkMesh, CacheIsSound, From, GetData, MeshStep;
      var todo := chunks.Keys;
      while todo != {}
        invariant Valid() && chunks.Keys == old(chunks).Keys && todo <= chunks.Keys
        invariant forall q :: q in chunks ==>
                                chunks[q].data == old(chunks)[q].data && chunks[q].loadCount == old(chunks)[q].loadCount
        invariant forall q :: q in chunks && q !in todo ==> chunks[q].status == Meshed
        decreases |todo|
      {
        var c :| c in todo;
        UpdateMesh(c);
        todo := todo - {c};
      }
      forall q | q in chunks ensures ChunkMesh(ts, From(ts, chunks, q)) == ChunkMesh(ts, From(ts, old(chunks), q)) {
        SameTiles(ts, old(chunks), chunks, q);
      }
    }
  }

  lemma SameTiles(ts: TileSet, s: Chunks, r: Chunks, c: Pos)
    requires Sized(s) && Sized(r) && s.Keys == r.Keys && forall q :: q in s ==> r[q].data == s[q].data
    ensures ChunkMesh(ts, From(ts, s, c)) == ChunkMesh(ts, From(ts, r, c))
  {
    hide ToChunkPos, ToLocalPos, Flatten, ChunkMesh, From, Near;
    MeshStays(ts, s, r, c);
  }
}
