/**
  One chunk with a write lock: while it is locked, writes are kept aside and applied in order when it is unlocked.
  Seen through its pending writes it is a plain three-dimensional array.
 */
module VoxelChunk {
  import opened VoxelGeometry
  import opened ChunkMesher

  type Write = (Pos, TileData)

  /** A chunk as a value: what is committed, and what waits for the lock to be released. */
  datatype ChunkState = ChunkState(data: seq<TileData>, locked: bool, pending: seq<Write>)

  ghost predicate Valid(c: ChunkState) {
    && |c.data| == CHUNK_VOLUME
    && (forall w :: w in c.pending ==> InChunk(w.0))
    && (!c.locked ==> c.pending == [])
  }

  function Put(data: seq<TileData>, w: Write): (r: seq<TileData>)
    requires |data| == CHUNK_VOLUME && InChunk(w.0)
    ensures |r| == CHUNK_VOLUME
  {
    FlattenIsInjective(w.0);
    data[Flatten(w.0) := w.1]
  }

  /** All writes in order. */
  function Replay(data: seq<TileData>, ws: seq<Write>): (r: seq<TileData>)
    requires |data| == CHUNK_VOLUME && forall w :: w in ws ==> InChunk(w.0)
    ensures |r| == CHUNK_VOLUME
    decreases |ws|
  {
    if ws == [] then data else Put(Replay(data, ws[..|ws| - 1]), ws[|ws| - 1])
  }

  datatype Op = PutOp(at: Pos, td: TileData) | PutAllOp(source: seq<TileData>) | LockOp(locked: bool)

  predicate Possible(op: Op) {
    && (op.PutOp? ==> InChunk(op.at))
    && (op.PutAllOp? ==> |op.source| == CHUNK_VOLUME)
  }

  /** The writes that fill a chunk in the order of iteration. */
  function FillWrites(source: seq<TileData>, n: nat): (ws: seq<Write>)
    requires |source| == CHUNK_VOLUME && n <= CHUNK_VOLUME
    ensures |ws| == n && forall w :: w in ws ==> InChunk(w.0)
  {
    if n == 0 then []
    else
      FlattenIsOnto(n - 1);
      FillWrites(source, n - 1) + [(Unflatten(n - 1), source[n - 1])]
  }

  function Step(c: ChunkState, op: Op): ChunkState
    requires Valid(c) && Possible(op)
  {
    match op
    case PutOp(at, td) =>
      if c.locked then c.(pending := c.pending + [(at, td)]) else c.(data := Put(c.data, (at, td)))
    case PutAllOp(source) =>
      if c.locked then c.(pending := FillWrites(source, CHUNK_VOLUME)) else c.(data := source)
    case LockOp(locked) =>
      if locked then c.(locked := true) else ChunkState(Replay(c.data, c.pending), false, [])
  }

  /** The chunk as its writers see it. */
  function Contents(c: ChunkState): seq<TileData>
    requires Valid(c)
  {
    Replay(c.data, c.pending)
  }

  /** A plain array does not know about locks. */
  function PlainStep(a: seq<TileData>, op: Op): (r: seq<TileData>)
    requires |a| == CHUNK_VOLUME && Possible(op)
    ensures |r| == CHUNK_VOLUME
  {
    match op
    case PutOp(at, td) => Put(a, (at, td))
    case PutAllOp(source) => source
    case LockOp(_) => a
  }

  lemma ReplayAppends(data: seq<TileData>, ws: seq<Write>, w: Write)
    requires |data| == CHUNK_VOLUME && InChunk(w.0) && forall v :: v in ws ==> InChunk(v.0)
    ensures forall v :: v in ws + [w] ==> InChunk(v.0)
    ensures Replay(data, ws + [w]) == Put(Replay(data, ws), w)
  {
    hide InChunk, Put;
    assert (ws + [w])[..|ws|] == ws;
  }

  /** Filling in iteration order overwrites everything, because that order agrees with flatten. */
  lemma {:induction false} FillReplaces(data: seq<TileData>, source: seq<TileData>, n: nat)
    requires |data| == CHUNK_VOLUME && |source| == CHUNK_VOLUME && n <= CHUNK_VOLUME
    ensures Replay(data, FillWrites(source, n)) == source[..n] + data[n..]
  {
    if n == 0 {
      assert source[..0] + data[0..] == data;
    } else {
      hide InChunk, Flatten, Unflatten;
      FlattenIsOnto(n - 1);
      FillReplaces(data, source, n - 1);
      ReplayAppends(data, FillWrites(source, n - 1), (Unflatten(n - 1), source[n - 1]));
      assert (source[..n - 1] + data[n - 1..])[n - 1 := source[n - 1]] == source[..n] + data[n..];
    }
  }

  /** Every operation does to the contents what it does to a plain array. */
  lemma StepRefinesPlain(c: ChunkState, op: Op)
    requires Valid(c) && Possible(op)
    ensures Valid(Step(c, op)) && Contents(Step(c, op)) == PlainStep(Contents(c), op)
  {
    hide InChunk, Put, FillWrites;
    match op
    case PutOp(at, td) =>
      ReplayAppends(c.data, c.pending, (at, td));
    case PutAllOp(source) =>
      FillReplaces(c.data, source, CHUNK_VOLUME);
      assert source[..CHUNK_VOLUME] + c.data[CHUNK_VOLUME..] == source;
    case LockOp(_) =>
  }

  function Run(c: ChunkState, ops: seq<Op>): (r: ChunkState)
    requires Valid(c) && forall op :: op in ops ==> Possible(op)
    ensures Valid(r)
    decreases |ops|
  {
    if ops == [] then c
    else
      var before := Run(c, ops[..|ops| - 1]);
      StepRefinesPlain(before, ops[|ops| - 1]);
      Step(before, ops[|ops| - 1])
  }

  function PlainRun(a: seq<TileData>, ops: seq<Op>): (r: seq<TileData>)
    requires |a| == CHUNK_VOLUME && forall op :: op in ops ==> Possible(op)
    ensures |r| == CHUNK_VOLUME
    decreases |ops|
  {
    if ops == [] then a else PlainStep(PlainRun(a, ops[..|ops| - 1]), ops[|ops| - 1])
  }

  /** Any run of writes and lock toggles leaves the contents that the writes alone, in program order, would. */
  lemma {:induction false} RunRefinesPlain(c: ChunkState, ops: seq<Op>)
    requires Valid(c) && forall op :: op in ops ==> Possible(op)
    ensures Contents(Run(c, ops)) == PlainRun(Contents(c), ops)
    decreases |ops|
  {
    hide Valid, Possible, Contents, Step, PlainStep;
    if ops == [] {
    } else {
      RunRefinesPlain(c, ops[..|ops| - 1]);
      StepRefinesPlain(Run(c, ops[..|ops| - 1]), ops[|ops| - 1]);
    }
  }

  /** Nothing that happens under the lock shows in the committed data until the unlock, which commits just that. */
  lemma {:induction false} LockedDataStays(c: ChunkState, ops: seq<Op>)
    requires Valid(c) && c.locked && forall op :: op in ops ==> Possible(op) && op != LockOp(false)
    ensures var r := Run(c, ops);
            && r.locked && r.data == c.data
            && Step(r, LockOp(false)) == ChunkState(PlainRun(Contents(c), ops), false, [])
    decreases |ops|
  {
    hide Valid, Possible, Replay, Put, FillWrites;
    RunRefinesPlain(c, ops);
    if ops == [] {
    } else {
      LockedDataStays(c, ops[..|ops| - 1]);
      assert ops[|ops| - 1] in ops;
    }
  }

  class Chunk {
    const data: array<TileData>
    var locked: bool
    var pending: seq<Write>

    ghost function View(): ChunkState
      reads this, data
    {
      ChunkState(data[..], locked, pending)
    }

    constructor (air: TileData)
      ensures Valid(View()) && fresh(data) && !locked
    {
      data := new TileData[CHUNK_VOLUME](_ => air);
      locked, pending := false, [];
    }

    method GetData(at: Pos) returns (td: TileData)
      requires Valid(View()) && InChunk(at)
      ensures 0 <= Flatten(at) < CHUNK_VOLUME && td == View().data[Flatten(at)]
    {
      FlattenIsInjective(at);
      td := data[Flatten(at)];
    }

    /** The result is the committed tile, also when the write is put aside. */
    method SetData(at: Pos, td: TileData) returns (committed: TileData)
      requires Valid(View()) && InChunk(at)
      modifies this, data
      ensures View() == Step(old(View()), PutOp(at, td)) && Valid(View())
      ensures 0 <= Flatten(at) < CHUNK_VOLUME && committed == old(View()).data[Flatten(at)]
    {
      FlattenIsInjective(at);
      committed := data[Flatten(at)];
      if locked {
        pending := pending + [(at, td)];
        return;
      }
      data[Flatten(at)] := td;
    }

    method ToggleWriteLock(on: bool)
      requires Valid(View())
      modifies this, data
      ensures View() == Step(old(View()), LockOp(on))
    {
      locked := on;
      if !on {
        ApplyPending();
      }
    }

    method ApplyPending()
      requires data.Length == CHUNK_VOLUME && !locked && forall w :: w in pending ==> InChunk(w.0)
      modifies this, data
      ensures View() == ChunkState(Replay(old(data[..]), old(pending)), false, [])
    {
      hide InChunk;
      var changes := pending;
      ghost var before := data[..];
      pending := [];
      for i := 0 to |changes|
        invariant !locked && pending == [] && data[..] == Replay(before, changes[..i])
      {
        assert changes[..i + 1] == changes[..i] + [changes[i]];
        assert changes[i] in changes;
        ReplayAppends(before, changes[..i], changes[i]);
        var committed := SetData(changes[i].0, changes[i].1);
      }
      assert changes[..|changes|] == changes;
    }

    method SetChunkData(source: seq<TileData>)
      requires Valid(View()) && |source| == CHUNK_VOLUME
      modifies this, data
      ensures View() == Step(old(View()), PutAllOp(source))
    {
      if locked {
        CollectFill(source);
      } else {
        for i := 0 to CHUNK_VOLUME
          modifies data
          invariant data[..i] == source[..i]
        {
          data[i] := source[i];
        }
        assert source[..CHUNK_VOLUME] == source && data[..CHUNK_VOLUME] == data[..];
      }
    }

    method CollectFill(source: seq<TileData>)
      requires |source| == CHUNK_VOLUME
      modifies this
      ensures View() == old(View()).(pending := FillWrites(source, CHUNK_VOLUME))
    {
      hide InChunk, Unflatten;
      var i := 0;
      pending := [];
      for x := 0 to CHUNK_SIZE
        invariant i == Flatten(Pos(x, 0, 0)) && pending == FillWrites(source, i) && locked == old(locked)
      {
        for y := 0 to CHUNK_SIZE
          invariant i == Flatten(Pos(x, y, 0)) && pending == FillWrites(source, i) && locked == old(locked)
        {
          for z := 0 to CHUNK_SIZE
            invariant i == Flatten(Pos(x, y, z)) && pending == FillWrites(source, i) && locked == old(locked)
          {
            InsideChunk(x, y, z);
            pending := pending + [(Pos(x, y, z), source[i])];
            i := i + 1;
          }
        }
      }
    }
  }

  lemma InsideChunk(x: int, y: int, z: int)
    requires 0 <= x < CHUNK_SIZE && 0 <= y < CHUNK_SIZE && 0 <= z < CHUNK_SIZE
    ensures var i := Flatten(Pos(x, y, z)); 0 <= i < CHUNK_VOLUME && Unflatten(i) == Pos(x, y, z)
  {
    FlattenIsInjective(Pos(x, y, z));
  }
}
