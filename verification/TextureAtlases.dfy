/**
  The atlases as objects: a single atlas with its set of occupied blocks, and the atlas that grows by whole atlases.
  Texture coordinates are whole pixels here.
 */
module TextureAtlases {
  import opened Wrappers
  import opened AtlasModel

  const MAX_ATLASES := 255

  class AlignedTextureAtlas {
    const grid: Grid
    var occupied: set<Block>

    constructor (grid: Grid)
      requires grid.Valid()
      ensures this.grid == grid && occupied == {}
    {
      this.grid := grid;
      occupied := {};
    }

    /** Is every block of that rectangle free? The inner two loops of the search, left at the first taken block. */
    method IsFree(x: nat, y: nat, w: nat, h: nat) returns (free: bool)
      ensures free <==> Cells(Rect(x, y, w, h)) !! occupied
    {
      free := true;
      for dx := 0 to w
        invariant Cells(Rect(x, y, dx, h)) !! occupied
      {
        for dy := 0 to h
          invariant Cells(Rect(x + dx, y, 1, dy)) !! occupied
        {
          if (x + dx, y + dy) in occupied {
            assert (x + dx, y + dy) in Cells(Rect(x, y, w, h));
            return false;
          }
          NextCell(Rect(x + dx, y, 1, dy));
        }
        NextColumn(Rect(x, y, dx, h));
      }
    }

    method FindStorage(w: nat, h: nat) returns (found: Option<Block>)
      requires w <= grid.width && h <= grid.height
      ensures found == FirstFrom(grid, occupied, w, h, 0, 0)
    {
      hide Cells;
      var x := 0;
      while x <= grid.width - w
        invariant x <= grid.width - w + 1
        invariant FirstFrom(grid, occupied, w, h, x, 0) == FirstFrom(grid, occupied, w, h, 0, 0)
      {
        var y := 0;
        while y <= grid.height - h
          invariant y <= grid.height - h + 1
          invariant FirstFrom(grid, occupied, w, h, x, y) == FirstFrom(grid, occupied, w, h, 0, 0)
        {
          var free := IsFree(x, y, w, h);
          if free {
            return Some((x, y));
          }
          y := y + 1;
        }
        x := x + 1;
      }
      found := None;
    }

    method MarkStorage(r: Rect, occupy: bool)
      modifies this
      ensures occupied == if occupy then old(occupied) + Cells(r) else old(occupied) - Cells(r)
    {
      for x := r.x to r.x + r.w
        invariant Marked(old(occupied), occupied, Rect(r.x, r.y, x - r.x, r.h), occupy)
      {
        ghost var before := occupied;
        for y := r.y to r.y + r.h
          invariant Marked(before, occupied, Rect(x, r.y, 1, y - r.y), occupy)
        {
          MarkOne(before, occupied, Rect(x, r.y, 1, y - r.y), occupy);
          if occupy {
            occupied := occupied + {(x, y)};
          } else {
            occupied := occupied - {(x, y)};
          }
        }
        MarkColumn(old(occupied), before, occupied, Rect(r.x, r.y, x - r.x, r.h), occupy);
      }
    }

    method PrepareStorage(size: Size) returns (st: Option<Subtexture>)
      requires grid.Valid() && grid.Admits(size)
      modifies this
      ensures match Prepare(grid, old(occupied), size)
              case None => st == None && occupied == old(occupied)
              case Some((placed, after)) => st == Some(placed) && occupied == after
    {
      hide Cells;
      var location := FindStorage(grid.ToBlocks(size.w), grid.ToBlocks(size.h));
      if location.None? {
        return None;
      }
      MarkStorage(BlockRect(grid, location.value, size), true);
      var (x, y) := location.value;
      st := Some(Subtexture(x * grid.alignment, y * grid.alignment, size, 0));
    }

    method Remove(st: Subtexture)
      requires grid.Valid()
      modifies this
      ensures occupied == old(occupied) - Cells(RectOf(grid, st))
    {
      MarkStorage(RectOf(grid, st), false);
    }

    /** All or nothing: what was already placed is removed again, and then the atlas is as before the call. */
    method PrepareStorageForAll(sizes: seq<Size>) returns (result: Option<seq<Subtexture>>)
      requires grid.Valid() && AllAdmitted(grid, sizes)
      modifies this
      ensures match PrepareAll(grid, old(occupied), sizes)
              case None => result == None && occupied == old(occupied)
              case Some((placed, after)) => result == Some(placed) && occupied == after
    {
      hide Cells, RectOf, Prepare;
      var sts := [];
      for i := 0 to |sizes|
        invariant AllAdmitted(grid, sizes[..i])
        invariant PrepareAll(grid, old(occupied), sizes[..i]) == Some((sts, occupied))
      {
        assert sizes[..i + 1][..i] == sizes[..i] && sizes[i] in sizes;
        var st := PrepareStorage(sizes[i]);
        if st.None? {
          PrefixFails(grid, old(occupied), sizes, i + 1);
          RollbackRestores(grid, old(occupied), sizes[..i]);
          Rollback(sts);
          return None;
        }
        sts := sts + [st.value];
      }
      assert sizes[..|sizes|] == sizes;
      result := Some(sts);
    }

    method Rollback(sts: seq<Subtexture>)
      requires grid.Valid()
      modifies this
      ensures occupied == RemoveAll(grid, old(occupied), sts)
    {
      hide Cells, RectOf;
      for i := 0 to |sts|
        invariant occupied == RemoveAll(grid, old(occupied), sts[..i])
      {
        assert sts[..i + 1][..i] == sts[..i];
        Remove(sts[i]);
      }
      assert sts[..|sts|] == sts;
    }
  }

  ghost predicate Marked(before: set<Block>, after: set<Block>, r: Rect, occupy: bool) {
    after == if occupy then before + Cells(r) else before - Cells(r)
  }

  lemma NextCell(r: Rect)
    requires r.w == 1
    ensures Cells(r.(h := r.h + 1)) == Cells(r) + {(r.x, r.y + r.h)}
  {
  }

  lemma NextColumn(r: Rect)
    ensures Cells(r.(w := r.w + 1)) == Cells(r) + Cells(Rect(r.x + r.w, r.y, 1, r.h))
  {
  }

  lemma MarkOne(before: set<Block>, after: set<Block>, r: Rect, occupy: bool)
    requires r.w == 1 && Marked(before, after, r, occupy)
    ensures Marked(before, if occupy then after + {(r.x, r.y + r.h)} else after - {(r.x, r.y + r.h)},
                   r.(h := r.h + 1), occupy)
  {
    NextCell(r);
  }

  lemma MarkColumn(before: set<Block>, mid: set<Block>, after: set<Block>, r: Rect, occupy: bool)
    requires Marked(before, mid, r, occupy) && Marked(mid, after, Rect(r.x + r.w, r.y, 1, r.h), occupy)
    ensures Marked(before, after, r.(w := r.w + 1), occupy)
  {
    NextColumn(r);
  }

  // ----- the atlas that grows

  /** The occupied blocks of each atlas, all of the same grid. */
  type Atlases = seq<set<Block>>

  /** The first atlas from index i on that takes the whole batch. */
  function FirstTaker(g: Grid, atlases: Atlases, sizes: seq<Size>, i: nat): Option<nat>
    requires g.Valid() && AllAdmitted(g, sizes) && i <= |atlases|
    decreases |atlases| - i
  {
    if i == |atlases| then None
    else if PrepareAll(g, atlases[i], sizes).Some? then Some(i)
    else FirstTaker(g, atlases, sizes, i + 1)
  }

  function WithBinding(sts: seq<Subtexture>, binding: nat): (r: seq<Subtexture>)
    ensures |r| == |sts| && forall i :: 0 <= i < |r| ==> r[i] == sts[i].(binding := binding)
  {
    seq(|sts|, i requires 0 <= i < |sts| => sts[i].(binding := binding))
  }

  /** `invoke_until_success` with a batch: an existing atlas, or else a new one while there are fewer than 255. */
  function PlaceBatch(g: Grid, atlases: Atlases, sizes: seq<Size>): (Option<seq<Subtexture>>, Atlases)
    requires g.Valid() && AllAdmitted(g, sizes)
  {
    match FirstTaker(g, atlases, sizes, 0)
    case Some(i) =>
      FirstTakerFound(g, atlases, sizes, 0);
      var (sts, after) := PrepareAll(g, atlases[i], sizes).value;
      (Some(WithBinding(sts, i)), atlases[i := after])
    case None =>
      if |atlases| >= MAX_ATLASES then (None, atlases)
      else match PrepareAll(g, {}, sizes)
        case None => (None, atlases + [{}])
        case Some((sts, after)) => (Some(WithBinding(sts, |atlases|)), atlases + [after])
  }

  lemma {:induction false} FirstTakerFound(g: Grid, atlases: Atlases, sizes: seq<Size>, i: nat)
    requires g.Valid() && AllAdmitted(g, sizes) && i <= |atlases|
    ensures match FirstTaker(g, atlases, sizes, i)
            case None => forall j :: i <= j < |atlases| ==> PrepareAll(g, atlases[j], sizes).None?
            case Some(k) =>
              && i <= k < |atlases|
              && PrepareAll(g, atlases[k], sizes).Some?
              && (forall j :: i <= j < k ==> PrepareAll(g, atlases[j], sizes).None?)
    decreases |atlases| - i
  {
    if i < |atlases| && PrepareAll(g, atlases[i], sizes).None? {
      FirstTakerFound(g, atlases, sizes, i + 1);
    }
  }

  /** The batch lies in atlas b, which its bindings name, on blocks free before; no other atlas has changed. */
  ghost predicate GoesTo(g: Grid, atlases: Atlases, sizes: seq<Size>, sts: seq<Subtexture>, after: Atlases, b: nat)
    requires g.Valid()
  {
    && b < |after| && |after| >= |atlases| && |sts| == |sizes|
    && (forall i :: 0 <= i < |sizes| ==> sts[i].binding == b && sts[i].size == sizes[i])
    && (forall j :: 0 <= j < |atlases| && j != b ==> after[j] == atlases[j])
    && (var occupied := if b < |atlases| then atlases[b] else {};
        after[b] == occupied + Covered(g, sts) && Covered(g, sts) !! occupied)
  }

  /** A success puts the whole batch into the one atlas that its bindings name; no other atlas changes. */
  lemma BatchGoesToOneAtlas(g: Grid, atlases: Atlases, sizes: seq<Size>)
    requires g.Valid() && AllAdmitted(g, sizes) && PlaceBatch(g, atlases, sizes).0.Some?
    ensures var (result, after) := PlaceBatch(g, atlases, sizes);
            exists b :: GoesTo(g, atlases, sizes, result.value, after, b)
  {
    hide PrepareAll, FirstTaker, Covered;
    FirstTakerFound(g, atlases, sizes, 0);
    var taker := FirstTaker(g, atlases, sizes, 0);
    var b := if taker.Some? then taker.value else |atlases|;
    var occupied := if taker.Some? then atlases[b] else {};
    BatchTakesFreeBlocks(g, occupied, sizes);
    var (sts, after) := PrepareAll(g, occupied, sizes).value;
    BindingIsNoPlace(g, sts, b);
    var (result, now) := PlaceBatch(g, atlases, sizes);
    assert GoesTo(g, atlases, sizes, result.value, now, b);
  }

  lemma {:induction false} BindingIsNoPlace(g: Grid, sts: seq<Subtexture>, b: nat)
    requires g.Valid()
    ensures Covered(g, WithBinding(sts, b)) == Covered(g, sts)
  {
    hide Cells;
    if sts == [] {
    } else {
      BindingIsNoPlace(g, sts[..|sts| - 1], b);
      assert WithBinding(sts, b)[..|sts| - 1] == WithBinding(sts[..|sts| - 1], b);
    }
  }

  /**
    A batch fails exactly if no existing atlas takes it whole and either there are 255 of them or it does not even
    fit an empty one. The existing atlases stay as they were, but unless there are 255 an empty one is added.
   */
  lemma BatchFailsOnlyWhenFull(g: Grid, atlases: Atlases, sizes: seq<Size>)
    requires g.Valid() && AllAdmitted(g, sizes)
    ensures PlaceBatch(g, atlases, sizes).0.None? <==>
              (forall j :: 0 <= j < |atlases| ==> PrepareAll(g, atlases[j], sizes).None?)
              && (|atlases| >= MAX_ATLASES || PrepareAll(g, {}, sizes).None?)
    ensures PlaceBatch(g, atlases, sizes).0.None? ==>
              PlaceBatch(g, atlases, sizes).1 == if |atlases| >= MAX_ATLASES then atlases else atlases + [{}]
  {
    hide PrepareAll, FirstTaker;
    FirstTakerFound(g, atlases, sizes, 0);
  }

  /** What so many attempts at the same batch leave of a generative atlas. */
  function AfterAttempts(g: Grid, sizes: seq<Size>, n: nat): Atlases
    requires g.Valid() && AllAdmitted(g, sizes)
  {
    if n == 0 then [] else PlaceBatch(g, AfterAttempts(g, sizes, n - 1), sizes).1
  }

  /** A batch that fits no atlas leaves an empty one behind at every attempt, until there are 255. */
  lemma {:induction false} FailedBatchesPileUp(g: Grid, sizes: seq<Size>, n: nat)
    requires g.Valid() && AllAdmitted(g, sizes) && PrepareAll(g, {}, sizes).None?
    ensures var atlases := AfterAttempts(g, sizes, n);
            && |atlases| == (if n <= 255 then n else 255)
            && (forall j :: 0 <= j < |atlases| ==> atlases[j] == {})
            && PlaceBatch(g, atlases, sizes).0 == None
  {
    hide PrepareAll, PlaceBatch;
    if n == 0 {
    } else {
      FailedBatchesPileUp(g, sizes, n - 1);
      BatchFailsOnlyWhenFull(g, AfterAttempts(g, sizes, n - 1), sizes);
    }
    BatchFailsOnlyWhenFull(g, AfterAttempts(g, sizes, n), sizes);
  }

  /** Such a batch: two textures, each as large as the atlas, which is of one block here. */
  lemma TwoFullTextures(a: nat)
    requires a > 0
    ensures var g, s := Grid(1, 1, a), Size(a, a);
            && AllAdmitted(g, [s, s]) && PrepareAll(g, {}, [s, s]).None?
            && PlaceBatch(g, [{}], [s, s]) == (None, [{}, {}])
  {
    hide PlaceBatch, Prepare;
    var g, s := Grid(1, 1, a), Size(a, a);
    BlocksOfLocation(a, 1);
    assert g.ToBlocks(a) == 1 && g.Admits(s);
    OneBlockIsTakenOnce(g, {}, s);
    var none: seq<Size> := [];
    assert none + [s] == [s] && [s] + [s] == [s, s];
    PrepareOneMore(g, {}, none, s);
    PrepareOneMore(g, {}, [s], s);
    if PrepareAll(g, {}, [s]).Some? {
      OneBlockIsTakenOnce(g, PrepareAll(g, {}, [s]).value.1, s);
    }
    var one: Atlases := [{}];
    assert one + [{}] == [{}, {}];
    BatchFailsOnlyWhenFull(g, one, [s, s]);
  }

  lemma PrepareOneMore(g: Grid, occupied: set<Block>, sizes: seq<Size>, s: Size)
    requires g.Valid() && AllAdmitted(g, sizes) && g.Admits(s)
    ensures PrepareAll(g, occupied, sizes + [s]).Some? ==>
              var before := PrepareAll(g, occupied, sizes);
              && before.Some? && Prepare(g, before.value.1, s).Some?
              && PrepareAll(g, occupied, sizes + [s]).value.1 == Prepare(g, before.value.1, s).value.1
    ensures PrepareAll(g, occupied, []) == Some(([], occupied))
  {
    hide Prepare;
    assert (sizes + [s])[..|sizes|] == sizes;
  }

  lemma OneBlockIsTakenOnce(g: Grid, occupied: set<Block>, s: Size)
    requires g.Valid() && g.width == g.height == 1 && g.ToBlocks(s.w) == g.ToBlocks(s.h) == 1
    ensures Prepare(g, occupied, s).Some? ==> (0, 0) !in occupied && (0, 0) in Prepare(g, occupied, s).value.1
  {
    FirstFitIsLeast(g, occupied, 1, 1, 0, 0, (0, 0));
    var found := FirstFrom(g, occupied, 1, 1, 0, 0);
    if found.Some? {
      assert found.value == (0, 0) && (0, 0) in Cells(Rect(0, 0, 1, 1));
    }
  }

  class GenerativeTextureAtlas {
    const grid: Grid
    var atlases: seq<AlignedTextureAtlas>

    ghost predicate Valid()
      reads this
    {
      && grid.Valid() && 0 < |atlases| <= MAX_ATLASES
      && (forall i :: 0 <= i < |atlases| ==> atlases[i].grid == grid)
      && (forall i, j :: 0 <= i < j < |atlases| ==> atlases[i] != atlases[j])
    }

    ghost function View(): Atlases
      reads this, atlases
    {
      seq(|atlases|, i requires 0 <= i < |atlases| reads this, atlases => atlases[i].occupied)
    }

    constructor (grid: Grid)
      requires grid.Valid()
      ensures Valid() && this.grid == grid && View() == [{}]
    {
      this.grid := grid;
      var first := new AlignedTextureAtlas(grid);
      atlases := [first];
    }

    /** Tries every atlas in turn; one that fails is left as it was. */
    method TryExisting(sizes: seq<Size>) returns (result: Option<seq<Subtexture>>)
      requires Valid() && AllAdmitted(grid, sizes)
      modifies atlases
      ensures match FirstTaker(grid, old(View()), sizes, 0)
              case None => result == None && View() == old(View())
              case Some(i) =>
                i < |atlases| && PrepareAll(grid, old(View())[i], sizes).Some? &&
                var (sts, after) := PrepareAll(grid, old(View())[i], sizes).value;
                result == Some(WithBinding(sts, i)) && View() == old(View())[i := after]
    {
      hide PrepareAll, AllAdmitted;
      ghost var before := View();
      for i := 0 to |atlases|
        invariant View() == before
        invariant FirstTaker(grid, before, sizes, i) == FirstTaker(grid, before, sizes, 0)
      {
        assert before[i] == atlases[i].occupied;
        result := atlases[i].PrepareStorageForAll(sizes);
        if result.Some? {
          assert View() == before[i := atlases[i].occupied];
          return Some(WithBinding(result.value, i));
        }
        assert View() == before;
      }
      result := None;
    }

    method PrepareStorageForAll(sizes: seq<Size>) returns (result: Option<seq<Subtexture>>)
      requires Valid() && AllAdmitted(grid, sizes)
      modifies this, atlases
      ensures Valid() && (result, View()) == PlaceBatch(grid, old(View()), sizes)
    {
      hide PrepareAll, AllAdmitted, FirstTaker;
      ghost var before := View();
      result := TryExisting(sizes);
      if result.Some? || |atlases| >= MAX_ATLASES {
        return;
      }
      var atlas := new AlignedTextureAtlas(grid);
      assert View() == before;
      atlases := atlases + [atlas];
      assert View() == before + [{}];
      result := atlas.PrepareStorageForAll(sizes);
      assert View() == before + [atlas.occupied];
      if result.Some? {
        result := Some(WithBinding(result.value, |atlases| - 1));
      }
    }
  }
}
