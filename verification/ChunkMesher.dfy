/**
  Meshing a chunk: which tile sides become quads, in which order, and the loops that build the vertex and index
  buffers with a cache of meshes per tile state and set of visible sides.
 */
module ChunkMesher {
  import opened Wrappers
  import opened VoxelGeometry

  datatype TileData = TileData(id: nat, metadata: nat)

  /** `attributes` stands for everything the vertex assembler computes besides the position. */
  datatype Vertex = Vertex(x: real, y: real, z: real, attributes: nat)

  datatype Mesh = Mesh(vertices: seq<Vertex>, indices: seq<nat>)

  const EMPTY_MESH := Mesh([], [])

  /** The tile registry as a fixed table: the corner function gives a face's vertices around the tile's origin. */
  datatype TileSet = TileSet(
    rendered: TileData -> bool,
    occludesSide: (TileData, nat) -> bool,
    corner: (TileData, nat, nat) -> Vertex,
    skipList: set<TileData>,
    unknown: TileData)
  {
    predicate Rendered(t: TileData) {
      t !in skipList && rendered(t)
    }

    predicate Occludes(t: TileData, side: nat) {
      t !in skipList && occludesSide(t, side)
    }
  }

  // ----- which quads a chunk has

  /** One side of one tile. */
  datatype Face = Face(data: TileData, at: Pos, side: nat)

  /** The side d of the tile at p is drawn: the tile is rendered and its neighbour there does not hide it. */
  predicate Shows(ts: TileSet, w: Pos -> TileData, p: Pos, d: nat)
    requires d < 6
  {
    ts.Rendered(w(p)) && !ts.Occludes(w(p.Plus(Offset(d))), OpposingDirection(d))
  }

  /** The faces of the tile at p on its first n sides. */
  function FacesOfTile(ts: TileSet, w: Pos -> TileData, p: Pos, n: nat): seq<Face>
    requires n <= 6
  {
    if n == 0 then []
    else FacesOfTile(ts, w, p, n - 1) + (if Shows(ts, w, p, n - 1) then [Face(w(p), p, n - 1)] else [])
  }

  /** The faces of the first n tiles in flatten order. */
  function FacesOfChunk(ts: TileSet, w: Pos -> TileData, n: nat): seq<Face> {
    if n == 0 then [] else FacesOfChunk(ts, w, n - 1) + FacesOfTile(ts, w, Unflatten(n - 1), 6)
  }

  function MoveVertex(v: Vertex, at: Pos): Vertex {
    Vertex(v.x + at.x as real, v.y + at.y as real, v.z + at.z as real, v.attributes)
  }

  function Corners(ts: TileSet, f: Face): (vs: seq<Vertex>)
    ensures |vs| == 4 && forall i :: 0 <= i < 4 ==> vs[i] == MoveVertex(ts.corner(f.data, f.side, i), f.at)
  {
    [MoveVertex(ts.corner(f.data, f.side, 0), f.at), MoveVertex(ts.corner(f.data, f.side, 1), f.at),
     MoveVertex(ts.corner(f.data, f.side, 2), f.at), MoveVertex(ts.corner(f.data, f.side, 3), f.at)]
  }

  function QuadVertices(ts: TileSet, faces: seq<Face>): seq<Vertex> {
    if faces == [] then [] else QuadVertices(ts, faces[..|faces| - 1]) + Corners(ts, faces[|faces| - 1])
  }

  const INDEX_PATTERN: seq<nat> := [0, 2, 3, 0, 3, 1]

  function Rebase(indices: seq<nat>, base: nat): (r: seq<nat>)
    ensures |r| == |indices| && forall i :: 0 <= i < |r| ==> r[i] == indices[i] + base
  {
    seq(|indices|, i requires 0 <= i < |indices| => indices[i] + base)
  }

  function Move(vertices: seq<Vertex>, at: Pos): (r: seq<Vertex>)
    ensures |r| == |vertices| && forall i :: 0 <= i < |r| ==> r[i] == MoveVertex(vertices[i], at)
  {
    seq(|vertices|, i requires 0 <= i < |vertices| => MoveVertex(vertices[i], at))
  }

  function QuadIndices(n: nat): seq<nat> {
    if n == 0 then [] else QuadIndices(n - 1) + Rebase(INDEX_PATTERN, 4 * (n - 1))
  }

  function MeshOf(ts: TileSet, faces: seq<Face>): Mesh {
    Mesh(QuadVertices(ts, faces), QuadIndices(|faces|))
  }

  /** The mesh of a chunk over the tiles w around its origin. */
  function ChunkMesh(ts: TileSet, w: Pos -> TileData): Mesh {
    MeshOf(ts, FacesOfChunk(ts, w, CHUNK_VOLUME))
  }

  /** Quad k owns the vertices 4k to 4k + 3, and its two triangles use just these. */
  lemma {:induction false} QuadsAreSeparate(ts: TileSet, faces: seq<Face>, k: nat)
    requires k < |faces|
    ensures |MeshOf(ts, faces).vertices| == 4 * |faces| && |MeshOf(ts, faces).indices| == 6 * |faces|
    ensures MeshOf(ts, faces).vertices[4 * k..4 * k + 4] == Corners(ts, faces[k])
    ensures forall i :: 0 <= i < 4 ==>
              var v, at := ts.corner(faces[k].data, faces[k].side, i), faces[k].at;
              Corners(ts, faces[k])[i]
              == Vertex(v.x + at.x as real, v.y + at.y as real, v.z + at.z as real, v.attributes)
    ensures MeshOf(ts, faces).indices[6 * k..6 * k + 6]
            == [4 * k, 4 * k + 2, 4 * k + 3, 4 * k, 4 * k + 3, 4 * k + 1]
  {
    hide Corners, Rebase;
    var last := |faces| - 1;
    QuadCounts(ts, faces);
    QuadCounts(ts, faces[..last]);
    PatternOfQuad(k);
    if k < last {
      QuadsAreSeparate(ts, faces[..last], k);
    }
  }

  lemma PatternOfQuad(k: nat)
    ensures Rebase(INDEX_PATTERN, 4 * k) == [4 * k, 4 * k + 2, 4 * k + 3, 4 * k, 4 * k + 3, 4 * k + 1]
  {
  }

  lemma {:induction false} QuadCounts(ts: TileSet, faces: seq<Face>)
    ensures |QuadVertices(ts, faces)| == 4 * |faces| && |QuadIndices(|faces|)| == 6 * |faces|
  {
    if faces == [] {
    } else {
      QuadCounts(ts, faces[..|faces| - 1]);
    }
  }

  /**
    A face is drawn exactly if its tile is rendered and not on the skip list, and the neighbour there is on the skip
    list or does not occlude the side with which it looks back at the tile.
   */
  lemma FacesOfChunkComplete(ts: TileSet, w: Pos -> TileData, n: nat, i: nat, d: nat)
    requires i < n && d < 6
    ensures var p := Unflatten(i);
            var neighbour := w(p.Plus(Offset(d)));
            Face(w(p), p, d) in FacesOfChunk(ts, w, n) <==>
              && w(p) !in ts.skipList && ts.rendered(w(p))
              && (neighbour in ts.skipList
                  || forall o :: 0 <= o < 6 && p.Plus(Offset(d)).Plus(Offset(o)) == p ==>
                       !ts.occludesSide(neighbour, o))
  {
    hide Unflatten, FacesOfChunk;
    FacesOfChunkShown(ts, w, n, i, d);
    LooksBack(Unflatten(i), d);
  }

  /** There is just one direction back. */
  lemma LooksBack(p: Pos, d: nat)
    requires d < 6
    ensures forall o :: 0 <= o < 6 ==> (p.Plus(Offset(d)).Plus(Offset(o)) == p <==> o == OpposingDirection(d))
  {
  }

  lemma {:induction false} FacesOfChunkShown(ts: TileSet, w: Pos -> TileData, n: nat, i: nat, d: nat)
    requires i < n && d < 6
    ensures Shows(ts, w, Unflatten(i), d) <==> Face(w(Unflatten(i)), Unflatten(i), d) in FacesOfChunk(ts, w, n)
    decreases n
  {
    hide Shows, Unflatten;
    var p, q, f := Unflatten(i), Unflatten(n - 1), Face(w(Unflatten(i)), Unflatten(i), d);
    FacesOfTileComplete(ts, w, q, 6, f);
    if i < n - 1 {
      FacesOfChunkShown(ts, w, n - 1, i, d);
      UnflattenDistinct(i, n - 1);
    } else {
      FacesStayBehind(ts, w, n - 1, n - 1, f);
    }
  }

  lemma UnflattenDistinct(i: nat, j: nat)
    requires i != j
    ensures Unflatten(i) != Unflatten(j)
  {
    hide Unflatten, Flatten;
    FlattenIsOnto(i);
    FlattenIsOnto(j);
  }

  lemma {:induction false} FacesStayBehind(ts: TileSet, w: Pos -> TileData, n: nat, i: nat, f: Face)
    requires n <= i && f.at == Unflatten(i)
    ensures f !in FacesOfChunk(ts, w, n)
  {
    hide Shows, Unflatten, FacesOfTile;
    if n == 0 {
    } else {
      var before, tile := FacesOfChunk(ts, w, n - 1), FacesOfTile(ts, w, Unflatten(n - 1), 6);
      FacesStayBehind(ts, w, n - 1, i, f);
      FacesOfTileComplete(ts, w, Unflatten(n - 1), 6, f);
      UnflattenDistinct(n - 1, i);
      assert f !in before && f !in tile;
      assert FacesOfChunk(ts, w, n) == before + tile;
    }
  }

  lemma {:induction false} FacesOfTileComplete(ts: TileSet, w: Pos -> TileData, p: Pos, n: nat, f: Face)
    requires n <= 6
    ensures f in FacesOfTile(ts, w, p, n) <==> f.side < n && f.at == p && f.data == w(p) && Shows(ts, w, p, f.side)
  {
    hide Shows;
    if n == 0 {
    } else {
      FacesOfTileComplete(ts, w, p, n - 1, f);
    }
  }

  /** Where a face comes in flatten order, then direction order. */
  function Rank(f: Face): int {
    6 * Flatten(f.at) + f.side
  }

  /** Faces come in strictly ascending order; with FacesOfChunkComplete this leaves one possible list. */
  lemma {:induction false} FacesAreOrdered(ts: TileSet, w: Pos -> TileData, n: nat)
    requires n <= CHUNK_VOLUME
    ensures forall f :: f in FacesOfChunk(ts, w, n) ==> Rank(f) < 6 * n
    ensures forall a, b :: 0 <= a < b < |FacesOfChunk(ts, w, n)| ==>
              Rank(FacesOfChunk(ts, w, n)[a]) < Rank(FacesOfChunk(ts, w, n)[b])
  {
    hide FacesOfTile, Rank, Unflatten, Flatten;
    if n == 0 {
    } else {
      FacesAreOrdered(ts, w, n - 1);
      FlattenIsOnto(n - 1);
      TileFacesAreOrdered(ts, w, Unflatten(n - 1), 6);
      var before, tile := FacesOfChunk(ts, w, n - 1), FacesOfTile(ts, w, Unflatten(n - 1), 6);
      forall a, b | 0 <= a < b < |before + tile| ensures Rank((before + tile)[a]) < Rank((before + tile)[b]) {
        if a < |before| <= b {
          assert before[a] in before && tile[b - |before|] in tile;
        }
      }
    }
  }

  lemma {:induction false} TileFacesAreOrdered(ts: TileSet, w: Pos -> TileData, p: Pos, n: nat)
    requires n <= 6
    ensures forall f :: f in FacesOfTile(ts, w, p, n) ==> 6 * Flatten(p) <= Rank(f) < 6 * Flatten(p) + n
    ensures forall a, b :: 0 <= a < b < |FacesOfTile(ts, w, p, n)| ==>
              Rank(FacesOfTile(ts, w, p, n)[a]) < Rank(FacesOfTile(ts, w, p, n)[b])
  {
    hide Shows, Flatten;
    if n == 0 {
    } else {
      TileFacesAreOrdered(ts, w, p, n - 1);
      var before := FacesOfTile(ts, w, p, n - 1);
      assert forall a :: 0 <= a < |before| ==> before[a] in before;
    }
  }

  // ----- the mesh of one tile, and putting meshes together

  /** The faces of a tile at the origin, for a bit field of visible sides. */
  function FacesForSides(data: TileData, sides: set<nat>, n: nat): seq<Face> {
    if n == 0 then []
    else FacesForSides(data, sides, n - 1) + (if n - 1 in sides then [Face(data, Pos(0, 0, 0), n - 1)] else [])
  }

  function TileMesh(ts: TileSet, data: TileData, sides: set<nat>): Mesh {
    if ts.rendered(data) then MeshOf(ts, FacesForSides(data, sides, 6)) else EMPTY_MESH
  }

  function VisibleSides(ts: TileSet, w: Pos -> TileData, p: Pos, n: nat): set<nat>
    requires n <= 6
  {
    if n == 0 then {} else VisibleSides(ts, w, p, n - 1) + (if Shows(ts, w, p, n - 1) then {n - 1} else {})
  }

  /** Appending a mesh whose vertices are moved and whose indices are rebased on the vertices already there. */
  function Join(m: Mesh, tile: Mesh, at: Pos): Mesh {
    Mesh(m.vertices + Move(tile.vertices, at), m.indices + Rebase(tile.indices, |m.vertices|))
  }

  function PlaceFaces(faces: seq<Face>, at: Pos): (r: seq<Face>)
    ensures |r| == |faces| && forall i :: 0 <= i < |r| ==> r[i] == Face(faces[i].data, at, faces[i].side)
  {
    seq(|faces|, i requires 0 <= i < |faces| => Face(faces[i].data, at, faces[i].side))
  }

  /** Joining the mesh of faces around the origin is meshing them where they belong. */
  lemma {:induction false} JoinMeshes(ts: TileSet, faces: seq<Face>, tile: seq<Face>, at: Pos)
    requires forall f :: f in tile ==> f.at == Pos(0, 0, 0)
    ensures Join(MeshOf(ts, faces), MeshOf(ts, tile), at) == MeshOf(ts, faces + PlaceFaces(tile, at))
    decreases |tile|
  {
    JoinVertices(ts, faces, tile, at);
    JoinIndices(|faces|, |tile|);
    QuadCounts(ts, faces);
  }

  lemma {:induction false} JoinVertices(ts: TileSet, faces: seq<Face>, tile: seq<Face>, at: Pos)
    requires forall f :: f in tile ==> f.at == Pos(0, 0, 0)
    ensures QuadVertices(ts, faces) + Move(QuadVertices(ts, tile), at) == QuadVertices(ts, faces + PlaceFaces(tile, at))
    decreases |tile|
  {
    hide QuadVertices, Corners, Move;
    NoQuads(ts);
    if tile == [] {
      assert faces + PlaceFaces(tile, at) == faces;
    } else {
      var last := |tile| - 1;
      JoinVertices(ts, faces, tile[..last], at);
      var placed, face := faces + PlaceFaces(tile[..last], at), Face(tile[last].data, at, tile[last].side);
      assert faces + PlaceFaces(tile, at) == placed + [face];
      assert tile == tile[..last] + [tile[last]];
      QuadAppended(ts, placed, face);
      QuadAppended(ts, tile[..last], tile[last]);
      MoveCorners(ts, tile[last], at);
      MoveConcat(QuadVertices(ts, tile[..last]), Corners(ts, tile[last]), at);
    }
  }

  lemma MoveCorners(ts: TileSet, f: Face, at: Pos)
    requires f.at == Pos(0, 0, 0)
    ensures Move(Corners(ts, f), at) == Corners(ts, Face(f.data, at, f.side))
  {}

  lemma MoveConcat(a: seq<Vertex>, b: seq<Vertex>, at: Pos)
    ensures Move(a + b, at) == Move(a, at) + Move(b, at)
  {}

  lemma RebaseConcat(a: seq<nat>, b: seq<nat>, base: nat)
    ensures Rebase(a + b, base) == Rebase(a, base) + Rebase(b, base)
  {}

  lemma RebaseTwice(a: seq<nat>, m: nat, n: nat)
    ensures Rebase(Rebase(a, m), n) == Rebase(a, m + n)
  {}

  lemma {:induction false} JoinIndices(m: nat, n: nat)
    ensures QuadIndices(m) + Rebase(QuadIndices(n), 4 * m) == QuadIndices(m + n)
    decreases n
  {
    hide Rebase;
    if n == 0 {
    } else {
      JoinIndices(m, n - 1);
      RebaseConcat(QuadIndices(n - 1), Rebase(INDEX_PATTERN, 4 * (n - 1)), 4 * m);
      RebaseTwice(INDEX_PATTERN, 4 * (n - 1), 4 * m);
    }
  }

  /** The faces a tile shows are those its bit field of visible sides stands for. */
  lemma {:induction false} SidesGiveFaces(ts: TileSet, w: Pos -> TileData, p: Pos, n: nat)
    requires n <= 6
    ensures FacesOfTile(ts, w, p, n) == PlaceFaces(FacesForSides(w(p), VisibleSides(ts, w, p, n), n), p)
  {
    hide Shows;
    if n == 0 {
    } else {
      SidesGiveFaces(ts, w, p, n - 1);
      var sides, fewer := VisibleSides(ts, w, p, n), VisibleSides(ts, w, p, n - 1);
      SidesBelow(ts, w, p, n - 1);
      FacesForSidesAgree(w(p), sides, fewer, n - 1);
    }
  }

  lemma {:induction false} SidesBelow(ts: TileSet, w: Pos -> TileData, p: Pos, n: nat)
    requires n <= 6
    ensures forall d :: d in VisibleSides(ts, w, p, n) ==> d < n
  {
    if n == 0 {
    } else {
      SidesBelow(ts, w, p, n - 1);
    }
  }

  lemma {:induction false} FacesForSidesAgree(data: TileData, a: set<nat>, b: set<nat>, n: nat)
    requires forall d: nat :: d < n ==> (d in a <==> d in b)
    ensures FacesForSides(data, a, n) == FacesForSides(data, b, n)
    ensures forall f :: f in FacesForSides(data, a, n) ==> f.at == Pos(0, 0, 0)
  {
    if n == 0 {
    } else {
      FacesForSidesAgree(data, a, b, n - 1);
    }
  }

  // ----- the mesher's view of its surroundings

  /** A chunk and its six neighbours, where these are loaded. */
  datatype Neighbourhood = Neighbourhood(chunk: seq<TileData>, neighbours: seq<Option<seq<TileData>>>) {
    predicate Valid() {
      && |chunk| == CHUNK_VOLUME && |neighbours| == 6
      && (forall d :: 0 <= d < 6 && neighbours[d].Some? ==> |neighbours[d].value| == CHUNK_VOLUME)
    }
  }

  /** What the mesher reads at a position in the chunk or next to it. */
  function Lookup(ts: TileSet, nb: Neighbourhood, p: Pos): TileData
    requires nb.Valid()
  {
    if InChunk(p) then
      FlattenIsInjective(p);
      nb.chunk[Flatten(p)]
    else if NeighbourDirection(p) >= 6 || nb.neighbours[NeighbourDirection(p)].None? then ts.unknown
    else
      WorldPosSplits(p);
      FlattenIsInjective(ToLocalPos(p));
      nb.neighbours[NeighbourDirection(p)].value[Flatten(ToLocalPos(p))]
  }

  function Around(ts: TileSet, nb: Neighbourhood): Pos -> TileData
    requires nb.Valid()
  {
    p => Lookup(ts, nb, p)
  }

  lemma TileAt(ts: TileSet, nb: Neighbourhood, p: Pos)
    requires nb.Valid() && InChunk(p)
    ensures 0 <= Flatten(p) < CHUNK_VOLUME && nb.chunk[Flatten(p)] == Lookup(ts, nb, p)
  {
    FlattenIsInjective(p);
  }

  // ----- the loops

  type MeshCache = map<(TileData, set<nat>), Mesh>

  /** Whatever the cache holds is what meshing that tile state would give. */
  ghost predicate CacheIsSound(ts: TileSet, cache: MeshCache) {
    forall key :: key in cache ==> cache[key] == TileMesh(ts, key.0, key.1)
  }

  /** `tile::append_mesh`: the k-th visible side gets the index pattern shifted by 4k. */
  method AppendMesh(ts: TileSet, data: TileData, sides: set<nat>, dest: Mesh) returns (mesh: Mesh)
    ensures mesh.vertices == dest.vertices + TileMesh(ts, data, sides).vertices
    ensures mesh.indices == dest.indices + TileMesh(ts, data, sides).indices
  {
    hide QuadVertices, Corners, Rebase;
    mesh := dest;
    if !ts.rendered(data) {
      return;
    }
    NoQuads(ts);
    var renderedDirections := 0;
    for direction := 0 to 6
      invariant renderedDirections == |FacesForSides(data, sides, direction)|
      invariant mesh.vertices == dest.vertices + QuadVertices(ts, FacesForSides(data, sides, direction))
      invariant mesh.indices == dest.indices + QuadIndices(renderedDirections)
    {
      assert FacesForSides(data, sides, direction) + [] == FacesForSides(data, sides, direction);
      if direction in sides {
        var face := Face(data, Pos(0, 0, 0), direction);
        var indices := Rebase(INDEX_PATTERN, 4 * renderedDirections);
        QuadAppended(ts, FacesForSides(data, sides, direction), face);
        ghost var before := QuadVertices(ts, FacesForSides(data, sides, direction));
        assert dest.vertices + before + Corners(ts, face) == dest.vertices + (before + Corners(ts, face));
        assert dest.indices + QuadIndices(renderedDirections) + indices
            == dest.indices + (QuadIndices(renderedDirections) + indices);
        mesh := Mesh(mesh.vertices + Corners(ts, face), mesh.indices + indices);
        renderedDirections := renderedDirections + 1;
      }
    }
  }

  lemma NoQuads(ts: TileSet)
    ensures QuadVertices(ts, []) == []
  {}

  lemma QuadAppended(ts: TileSet, faces: seq<Face>, face: Face)
    ensures QuadVertices(ts, faces + [face]) == QuadVertices(ts, faces) + Corners(ts, face)
  {
    assert (faces + [face])[..|faces|] == faces;
  }

  /** Copies the tile's mesh to the end and then moves and rebases the copy in place. */
  method PushAndDenormalize(mesh: Mesh, tile: Mesh, at: Pos) returns (r: Mesh)
    ensures r == Join(mesh, tile, at)
  {
    var vertexStart, indexStart := |mesh.vertices|, |mesh.indices|;
    var vertices, indices := mesh.vertices + tile.vertices, mesh.indices + tile.indices;
    for i := vertexStart to |vertices|
      invariant |vertices| == vertexStart + |tile.vertices|
      invariant forall j :: 0 <= j < vertexStart ==> vertices[j] == mesh.vertices[j]
      invariant forall j :: vertexStart <= j < i ==> vertices[j] == MoveVertex(tile.vertices[j - vertexStart], at)
      invariant forall j :: i <= j < |vertices| ==> vertices[j] == tile.vertices[j - vertexStart]
    {
      vertices := vertices[i := MoveVertex(vertices[i], at)];
    }
    for i := indexStart to |indices|
      invariant |indices| == indexStart + |tile.indices|
      invariant forall j :: 0 <= j < indexStart ==> indices[j] == mesh.indices[j]
      invariant forall j :: indexStart <= j < i ==> indices[j] == tile.indices[j - indexStart] + vertexStart
      invariant forall j :: i <= j < |indices| ==> indices[j] == tile.indices[j - indexStart]
    {
      indices := indices[i := indices[i] + vertexStart];
    }
    r := Mesh(vertices, indices);
    assert r.vertices == Join(mesh, tile, at).vertices;
    assert r.indices == Join(mesh, tile, at).indices;
  }

  lemma VisibleSidesStart(ts: TileSet, w: Pos -> TileData, p: Pos)
    ensures VisibleSides(ts, w, p, 0) == {}
  {}

  lemma VisibleSidesNext(ts: TileSet, w: Pos -> TileData, p: Pos, n: nat)
    requires n < 6
    ensures VisibleSides(ts, w, p, n + 1) == VisibleSides(ts, w, p, n) + (if Shows(ts, w, p, n) then {n} else {})
  {}

  method FindVisibleSides(ts: TileSet, nb: Neighbourhood, where: Pos) returns (sides: set<nat>)
    requires nb.Valid() && ts.Rendered(Lookup(ts, nb, where))
    ensures sides == VisibleSides(ts, Around(ts, nb), where, 6)
  {
    hide VisibleSides, Lookup, Offset, OpposingDirection;
    ghost var w := Around(ts, nb);
    VisibleSidesStart(ts, w, where);
    sides := {};
    for dir := 0 to 6
      invariant sides == VisibleSides(ts, w, where, dir)
    {
      VisibleSidesNext(ts, w, where, dir);
      var neighbour := Lookup(ts, nb, where.Plus(Offset(dir)));
      var visible := neighbour in ts.skipList || !ts.occludesSide(neighbour, OpposingDirection(dir));
      if visible {
        sides := sides + {dir};
      }
    }
  }

  /** The callback for one tile: skipped, or meshed from the cache or afresh. */
  method MeshTile(ts: TileSet, nb: Neighbourhood, where: Pos, data: TileData, mesh: Mesh, cache: MeshCache)
    returns (r: Mesh, newCache: MeshCache)
    requires nb.Valid() && CacheIsSound(ts, cache) && data == Lookup(ts, nb, where)
    ensures CacheIsSound(ts, newCache)
    ensures r == if ts.Rendered(data)
                 then Join(mesh, TileMesh(ts, data, VisibleSides(ts, Around(ts, nb), where, 6)), where) else mesh
  {
    hide VisibleSides, Lookup, TileMesh, Join;
    r, newCache := mesh, cache;
    if data in ts.skipList || !ts.rendered(data) {
      return;
    }
    var sides := FindVisibleSides(ts, nb, where);
    if (data, sides) in cache {
      r := PushAndDenormalize(mesh, cache[(data, sides)], where);
    } else {
      var temporary := AppendMesh(ts, data, sides, EMPTY_MESH);
      assert temporary == TileMesh(ts, data, sides);
      r := PushAndDenormalize(mesh, temporary, where);
      newCache := cache[(data, sides) := temporary];
    }
  }

  /** One more tile, joined as above, continues the mesh of the specification. */
  lemma TileContinues(ts: TileSet, w: Pos -> TileData, i: nat)
    ensures MeshOf(ts, FacesOfChunk(ts, w, i + 1)) ==
            (var p, mesh := Unflatten(i), MeshOf(ts, FacesOfChunk(ts, w, i));
             if ts.Rendered(w(p)) then Join(mesh, TileMesh(ts, w(p), VisibleSides(ts, w, p, 6)), p) else mesh)
  {
    hide Unflatten, MeshOf, Join, Shows;
    var p, faces := Unflatten(i), FacesOfChunk(ts, w, i);
    if ts.Rendered(w(p)) {
      var sides := VisibleSides(ts, w, p, 6);
      SidesGiveFaces(ts, w, p, 6);
      FacesForSidesAgree(w(p), sides, sides, 6);
      JoinMeshes(ts, faces, FacesForSides(w(p), sides, 6), p);
    } else {
      NotRenderedNoFaces(ts, w, p, 6);
      assert faces + [] == faces;
    }
  }

  lemma {:induction false} NotRenderedNoFaces(ts: TileSet, w: Pos -> TileData, p: Pos, n: nat)
    requires n <= 6 && !ts.Rendered(w(p))
    ensures FacesOfTile(ts, w, p, n) == []
  {
    if n == 0 {
    } else {
      NotRenderedNoFaces(ts, w, p, n - 1);
    }
  }

  lemma NoTiles(ts: TileSet, w: Pos -> TileData)
    ensures MeshOf(ts, FacesOfChunk(ts, w, 0)) == EMPTY_MESH
  {}

  /** `mesh_chunk`: whatever sound cache it starts with, the result is the mesh of the specification. */
  method MeshChunk(ts: TileSet, nb: Neighbourhood, cache: MeshCache) returns (mesh: Mesh, newCache: MeshCache)
    requires nb.Valid() && CacheIsSound(ts, cache)
    ensures mesh == ChunkMesh(ts, Around(ts, nb))
    ensures CacheIsSound(ts, newCache)
  {
    hide CacheIsSound, Shows, FacesOfChunk, MeshOf, Lookup, TileMesh, VisibleSides, Join;
    mesh, newCache := EMPTY_MESH, cache;
    var i := 0;
    ghost var w := Around(ts, nb);
    NoTiles(ts, w);
    for x := 0 to CHUNK_SIZE
      invariant i == Flatten(Pos(x, 0, 0))
      invariant CacheIsSound(ts, newCache) && mesh == MeshOf(ts, FacesOfChunk(ts, w, i))
    {
      for y := 0 to CHUNK_SIZE
        invariant i == Flatten(Pos(x, y, 0))
        invariant CacheIsSound(ts, newCache) && mesh == MeshOf(ts, FacesOfChunk(ts, w, i))
      {
        for z := 0 to CHUNK_SIZE
          invariant i == Flatten(Pos(x, y, z))
          invariant CacheIsSound(ts, newCache) && mesh == MeshOf(ts, FacesOfChunk(ts, w, i))
        {
          FlattenIsInjective(Pos(x, y, z));
          TileAt(ts, nb, Pos(x, y, z));
          TileContinues(ts, w, i);
          mesh, newCache := MeshTile(ts, nb, Pos(x, y, z), nb.chunk[i], mesh, newCache);
          i := i + 1;
        }
      }
    }
  }
}
