/** Allocating rectangles of blocks in one texture atlas: first fit, freeing, and batches that succeed or fail whole. */
module AtlasModel {
  import opened Wrappers

  type Block = (nat, nat)

  /** An atlas of width times height blocks of `alignment` pixels. */
  datatype Grid = Grid(width: nat, height: nat, alignment: nat) {
    predicate Valid() {
      alignment > 0
    }

    /** Blocks needed for that many pixels. */
    function ToBlocks(pixels: nat): nat
      requires Valid()
    {
      (pixels + alignment - 1) / alignment
    }

    /** Requests must not be larger than the atlas: the loop bounds of the search are unsigned differences. */
    predicate Admits(size: Size)
      requires Valid()
    {
      ToBlocks(size.w) <= width && ToBlocks(size.h) <= height
    }
  }

  datatype Size = Size(w: nat, h: nat)

  /** A region in pixels, and which atlas it is in. */
  datatype Subtexture = Subtexture(u: nat, v: nat, size: Size, binding: nat)

  datatype Rect = Rect(x: nat, y: nat, w: nat, h: nat)

  function Cells(r: Rect): set<Block> {
    set x, y | r.x <= x < r.x + r.w && r.y <= y < r.y + r.h :: (x, y)
  }

  ghost predicate Fits(g: Grid, occupied: set<Block>, r: Rect) {
    r.x + r.w <= g.width && r.y + r.h <= g.height && Cells(r) !! occupied
  }

  // ----- first fit

  /** The search from (x, y) on, column by column. */
  function FirstFrom(g: Grid, occupied: set<Block>, w: nat, h: nat, x: nat, y: nat): Option<Block>
    requires w <= g.width && h <= g.height && x <= g.width - w + 1 && y <= g.height - h + 1
    decreases g.width - w + 1 - x, g.height - h + 1 - y
  {
    if x > g.width - w then None
    else if y > g.height - h then FirstFrom(g, occupied, w, h, x + 1, 0)
    else if Cells(Rect(x, y, w, h)) !! occupied then Some((x, y))
    else FirstFrom(g, occupied, w, h, x, y + 1)
  }

  predicate Precedes(a: Block, b: Block) {
    a.0 < b.0 || (a.0 == b.0 && a.1 <= b.1)
  }

  /** The search is sound, finds the least place, and fails only if there is none. */
  lemma {:induction false} FirstFitIsLeast(g: Grid, occupied: set<Block>, w: nat, h: nat, x: nat, y: nat, p: Block)
    requires w <= g.width && h <= g.height && x <= g.width - w + 1 && y <= g.height - h + 1
    requires Precedes((x, y), p)
    ensures var found := FirstFrom(g, occupied, w, h, x, y);
            && (found.Some? ==> Fits(g, occupied, Rect(found.value.0, found.value.1, w, h)))
            && (Fits(g, occupied, Rect(p.0, p.1, w, h)) ==> found.Some? && Precedes(found.value, p))
    decreases g.width - w + 1 - x, g.height - h + 1 - y
  {
    hide Cells;
    if x <= g.width - w {
      if y > g.height - h {
        if Precedes((x + 1, 0), p) {
          FirstFitIsLeast(g, occupied, w, h, x + 1, 0, p);
        } else {
          FirstFitIsLeast(g, occupied, w, h, x + 1, 0, (x + 1, 0));
        }
      } else if !(Cells(Rect(x, y, w, h)) !! occupied) {
        if Precedes((x, y + 1), p) {
          FirstFitIsLeast(g, occupied, w, h, x, y + 1, p);
        } else {
          FirstFitIsLeast(g, occupied, w, h, x, y + 1, (x, y + 1));
        }
      }
    }
  }

  // ----- one request

  function BlockRect(g: Grid, at: Block, size: Size): Rect
    requires g.Valid()
  {
    Rect(at.0, at.1, g.ToBlocks(size.w), g.ToBlocks(size.h))
  }

  /** The blocks that `remove` computes from a subtexture's pixels. */
  function RectOf(g: Grid, st: Subtexture): Rect
    requires g.Valid()
  {
    Rect(g.ToBlocks(st.u), g.ToBlocks(st.v), g.ToBlocks(st.size.w), g.ToBlocks(st.size.h))
  }

  function Prepare(g: Grid, occupied: set<Block>, size: Size): Option<(Subtexture, set<Block>)>
    requires g.Valid() && g.Admits(size)
  {
    match FirstFrom(g, occupied, g.ToBlocks(size.w), g.ToBlocks(size.h), 0, 0)
    case None => None
    case Some(at) =>
      Some((Subtexture(at.0 * g.alignment, at.1 * g.alignment, size, 0), occupied + Cells(BlockRect(g, at, size))))
  }

  lemma BlocksOfLocation(a: nat, k: nat)
    requires a > 0
    ensures (k * a + a - 1) / a == k
  {
    var q, n := (k * a + a - 1) / a, k * a + a - 1;
    assert n == q * a + n % a;
    if q > k {
      MoreIsMore(q, k + 1, a);
    } else if q < k {
      MoreIsMore(k, q + 1, a);
    }
  }

  lemma MoreIsMore(q: nat, k: nat, a: nat)
    requires q >= k
    ensures q * a >= k * a
  {}

  /** A subtexture leads back to the very blocks that were marked for it, which were free and inside the atlas. */
  lemma PrepareMarksRect(g: Grid, occupied: set<Block>, size: Size)
    requires g.Valid() && g.Admits(size) && Prepare(g, occupied, size).Some?
    ensures var (st, after) := Prepare(g, occupied, size).value;
            Fits(g, occupied, RectOf(g, st)) && after == occupied + Cells(RectOf(g, st)) && st.size == size
  {
    hide Cells, FirstFrom;
    var at := FirstFrom(g, occupied, g.ToBlocks(size.w), g.ToBlocks(size.h), 0, 0).value;
    FirstFitIsLeast(g, occupied, g.ToBlocks(size.w), g.ToBlocks(size.h), 0, 0, (0, 0));
    BlocksOfLocation(g.alignment, at.0);
    BlocksOfLocation(g.alignment, at.1);
  }

  /** A request fails only if no free place of its size exists anywhere in the atlas. */
  lemma PrepareIsComplete(g: Grid, occupied: set<Block>, size: Size, at: Block)
    requires g.Valid() && g.Admits(size) && Fits(g, occupied, BlockRect(g, at, size))
    ensures Prepare(g, occupied, size).Some?
    ensures var (st, _) := Prepare(g, occupied, size).value; Precedes((RectOf(g, st).x, RectOf(g, st).y), at)
  {
    hide Cells, FirstFrom;
    FirstFitIsLeast(g, occupied, g.ToBlocks(size.w), g.ToBlocks(size.h), 0, 0, at);
    var found := FirstFrom(g, occupied, g.ToBlocks(size.w), g.ToBlocks(size.h), 0, 0).value;
    BlocksOfLocation(g.alignment, found.0);
    BlocksOfLocation(g.alignment, found.1);
  }

  // ----- batches

  predicate AllAdmitted(g: Grid, sizes: seq<Size>)
    requires g.Valid()
  {
    forall s :: s in sizes ==> g.Admits(s)
  }

  /** All requests placed one after the other, if that is possible. */
  function PrepareAll(g: Grid, occupied: set<Block>, sizes: seq<Size>): Option<(seq<Subtexture>, set<Block>)>
    requires g.Valid() && AllAdmitted(g, sizes)
    decreases |sizes|
  {
    if sizes == [] then Some(([], occupied))
    else match PrepareAll(g, occupied, sizes[..|sizes| - 1])
      case None => None
      case Some((sts, before)) =>
        assert sizes[|sizes| - 1] in sizes;
        match Prepare(g, before, sizes[|sizes| - 1])
        case None => None
        case Some((st, after)) => Some((sts + [st], after))
  }

  // ----- runs of allocating and freeing

  /** What is occupied is the disjoint union of the rectangles handed out and not yet removed. */
  ghost predicate Exact(g: Grid, occupied: set<Block>, live: seq<Subtexture>)
    requires g.Valid()
  {
    && (forall i :: 0 <= i < |live| ==> Cells(RectOf(g, live[i])) <= occupied && InBounds(g, RectOf(g, live[i])))
    && (forall i, j :: 0 <= i < j < |live| ==> Cells(RectOf(g, live[i])) !! Cells(RectOf(g, live[j])))
    && (forall c :: c in occupied ==> exists i :: 0 <= i < |live| && c in Cells(RectOf(g, live[i])))
  }

  predicate InBounds(g: Grid, r: Rect) {
    r.x + r.w <= g.width && r.y + r.h <= g.height
  }

  datatype Op = PrepareOp(size: Size) | PrepareAllOp(sizes: seq<Size>) | RemoveOp(index: nat)

  datatype State = State(occupied: set<Block>, live: seq<Subtexture>)

  predicate Possible(g: Grid, s: State, op: Op)
    requires g.Valid()
  {
    match op
    case PrepareOp(size) => g.Admits(size)
    case PrepareAllOp(sizes) => AllAdmitted(g, sizes)
    case RemoveOp(i) => i < |s.live|
  }

  function Step(g: Grid, s: State, op: Op): State
    requires g.Valid() && Possible(g, s, op)
  {
    match op
    case PrepareOp(size) =>
      (match Prepare(g, s.occupied, size)
       case None => s
       case Some((st, after)) => State(after, s.live + [st]))
    case PrepareAllOp(sizes) =>
      (match PrepareAll(g, s.occupied, sizes)
       case None => s
       case Some((sts, after)) => State(after, s.live + sts))
    case RemoveOp(i) =>
      State(s.occupied - Cells(RectOf(g, s.live[i])), s.live[..i] + s.live[i + 1..])
  }

  lemma AddKeepsExact(g: Grid, occupied: set<Block>, live: seq<Subtexture>, st: Subtexture)
    requires g.Valid() && Exact(g, occupied, live) && Fits(g, occupied, RectOf(g, st))
    ensures Exact(g, occupied + Cells(RectOf(g, st)), live + [st])
  {
    hide Cells, RectOf;
    var after, more := occupied + Cells(RectOf(g, st)), live + [st];
    forall c | c in after ensures exists i :: 0 <= i < |more| && c in Cells(RectOf(g, more[i])) {
      if c in occupied {
        var i :| 0 <= i < |live| && c in Cells(RectOf(g, live[i]));
        assert more[i] == live[i];
      } else {
        assert more[|live|] == st;
      }
    }
  }

  /** A batch gets rectangles that are apart from the live ones and from each other. */
  lemma {:induction false} BatchKeepsExact(g: Grid, occupied: set<Block>, live: seq<Subtexture>, sizes: seq<Size>)
    requires g.Valid() && AllAdmitted(g, sizes) && Exact(g, occupied, live) && PrepareAll(g, occupied, sizes).Some?
    ensures var (sts, after) := PrepareAll(g, occupied, sizes).value; Exact(g, after, live + sts)
    decreases |sizes|
  {
    hide Exact, Prepare, RectOf, Cells;
    if sizes == [] {
      assert live + [] == live;
    } else {
      var init, last := sizes[..|sizes| - 1], sizes[|sizes| - 1];
      assert last in sizes;
      BatchKeepsExact(g, occupied, live, init);
      var (sts, before) := PrepareAll(g, occupied, init).value;
      PrepareMarksRect(g, before, last);
      var st := Prepare(g, before, last).value.0;
      AddKeepsExact(g, before, live + sts, st);
      assert live + (sts + [st]) == live + sts + [st];
    }
  }

  lemma RemoveKeepsExact(g: Grid, occupied: set<Block>, live: seq<Subtexture>, k: nat)
    requires g.Valid() && Exact(g, occupied, live) && k < |live|
    ensures Exact(g, occupied - Cells(RectOf(g, live[k])), live[..k] + live[k + 1..])
  {
    hide Cells, RectOf;
    var gone := Cells(RectOf(g, live[k]));
    var after, rest := occupied - gone, live[..k] + live[k + 1..];
    forall i | 0 <= i < |rest| ensures Cells(RectOf(g, rest[i])) <= after && InBounds(g, RectOf(g, rest[i])) {
      OthersStay(g, occupied, live, k, if i < k then i else i + 1);
    }
    forall i, j | 0 <= i < j < |rest| ensures Cells(RectOf(g, rest[i])) !! Cells(RectOf(g, rest[j])) {
      assert rest[i] == live[if i < k then i else i + 1] && rest[j] == live[if j < k then j else j + 1];
    }
    forall c | c in after ensures exists i :: 0 <= i < |rest| && c in Cells(RectOf(g, rest[i])) {
      var i := OwnerOf(g, occupied, live, c);
      assert rest[if i < k then i else i - 1] == live[i];
    }
  }

  lemma OthersStay(g: Grid, occupied: set<Block>, live: seq<Subtexture>, k: nat, i: nat)
    requires g.Valid() && Exact(g, occupied, live) && k < |live| && i < |live| && i != k
    ensures Cells(RectOf(g, live[i])) <= occupied - Cells(RectOf(g, live[k])) && InBounds(g, RectOf(g, live[i]))
  {
    hide Cells, RectOf;
    var a, b := if i < k then i else k, if i < k then k else i;
    assert Cells(RectOf(g, live[a])) !! Cells(RectOf(g, live[b]));
  }

  lemma OwnerOf(g: Grid, occupied: set<Block>, live: seq<Subtexture>, c: Block) returns (i: nat)
    requires g.Valid() && Exact(g, occupied, live) && c in occupied
    ensures i < |live| && c in Cells(RectOf(g, live[i]))
  {
    hide Cells, RectOf;
    i :| 0 <= i < |live| && c in Cells(RectOf(g, live[i]));
  }

  lemma {:induction false} RunsStayExact(g: Grid, states: seq<State>, ops: seq<Op>, k: nat)
    requires g.Valid() && |states| == |ops| + 1 && states[0] == State({}, []) && k < |states|
    requires forall i :: 0 <= i < |ops| ==>
                           Possible(g, states[i], ops[i]) && states[i + 1] == Step(g, states[i], ops[i])
    ensures Exact(g, states[k].occupied, states[k].live)
  {
    hide Exact, Prepare, PrepareAll, Cells, RectOf;
    if k == 0 {
      NothingIsExact(g);
    } else {
      RunsStayExact(g, states, ops, k - 1);
      var s := states[k - 1];
      match ops[k - 1]
      case PrepareOp(size) =>
        if Prepare(g, s.occupied, size).Some? {
          PrepareMarksRect(g, s.occupied, size);
          AddKeepsExact(g, s.occupied, s.live, Prepare(g, s.occupied, size).value.0);
        }
      case PrepareAllOp(sizes) =>
        if PrepareAll(g, s.occupied, sizes).Some? {
          BatchKeepsExact(g, s.occupied, s.live, sizes);
        }
      case RemoveOp(i) =>
        RemoveKeepsExact(g, s.occupied, s.live, i);
    }
  }

  lemma NothingIsExact(g: Grid)
    requires g.Valid()
    ensures Exact(g, {}, [])
  {}

  // ----- undoing a batch

  /** Frees the rectangles of some subtextures. */
  function RemoveAll(g: Grid, occupied: set<Block>, sts: seq<Subtexture>): set<Block>
    requires g.Valid()
  {
    if sts == [] then occupied else RemoveAll(g, occupied, sts[..|sts| - 1]) - Cells(RectOf(g, sts[|sts| - 1]))
  }

  /** The union of the rectangles of some subtextures. */
  function Covered(g: Grid, sts: seq<Subtexture>): set<Block>
    requires g.Valid()
  {
    if sts == [] then {} else Covered(g, sts[..|sts| - 1]) + Cells(RectOf(g, sts[|sts| - 1]))
  }

  lemma {:induction false} RemoveAllFrees(g: Grid, occupied: set<Block>, sts: seq<Subtexture>)
    requires g.Valid()
    ensures RemoveAll(g, occupied, sts) == occupied - Covered(g, sts)
  {
    hide Cells, RectOf;
    if sts == [] {
    } else {
      RemoveAllFrees(g, occupied, sts[..|sts| - 1]);
    }
  }

  /** A placed batch takes up blocks that were free, one rectangle of the right size for each request. */
  lemma {:induction false} BatchTakesFreeBlocks(g: Grid, occupied: set<Block>, sizes: seq<Size>)
    requires g.Valid() && AllAdmitted(g, sizes) && PrepareAll(g, occupied, sizes).Some?
    ensures var (sts, after) := PrepareAll(g, occupied, sizes).value;
            && |sts| == |sizes| && (forall i :: 0 <= i < |sts| ==> sts[i].size == sizes[i])
            && after == occupied + Covered(g, sts) && Covered(g, sts) !! occupied
    decreases |sizes|
  {
    hide Cells, RectOf, Prepare;
    if sizes == [] {
    } else {
      var init, last := sizes[..|sizes| - 1], sizes[|sizes| - 1];
      assert last in sizes;
      BatchTakesFreeBlocks(g, occupied, init);
      var (sts, before) := PrepareAll(g, occupied, init).value;
      PrepareMarksRect(g, before, last);
      var st := Prepare(g, before, last).value.0;
      assert (sts + [st])[..|sts|] == sts;
    }
  }

  /** Undoing a batch gives back exactly the blocks it found. */
  lemma RollbackRestores(g: Grid, occupied: set<Block>, sizes: seq<Size>)
    requires g.Valid() && AllAdmitted(g, sizes) && PrepareAll(g, occupied, sizes).Some?
    ensures var (sts, after) := PrepareAll(g, occupied, sizes).value; RemoveAll(g, after, sts) == occupied
  {
    hide Covered, RemoveAll, PrepareAll;
    BatchTakesFreeBlocks(g, occupied, sizes);
    var (sts, after) := PrepareAll(g, occupied, sizes).value;
    RemoveAllFrees(g, after, sts);
  }

  /** Once a prefix of the batch does not fit, the whole batch does not. */
  lemma {:induction false} PrefixFails(g: Grid, occupied: set<Block>, sizes: seq<Size>, n: nat)
    requires g.Valid() && AllAdmitted(g, sizes) && n <= |sizes| && PrepareAll(g, occupied, sizes[..n]).None?
    ensures PrepareAll(g, occupied, sizes).None?
    decreases |sizes| - n
  {
    if n < |sizes| {
      assert sizes[..n + 1][..n] == sizes[..n];
      PrefixFails(g, occupied, sizes, n + 1);
    } else {
      assert sizes[..n] == sizes;
    }
  }
}
