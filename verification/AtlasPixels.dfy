/** What allocating blocks means for the pixels of the textures. */
module AtlasPixels {
  import opened AtlasModel
  import opened Wrappers

  predicate Covers(st: Subtexture, x: nat, y: nat) {
    st.u <= x < st.u + st.size.w && st.v <= y < st.v + st.size.h
  }

  predicate OnGrid(g: Grid, st: Subtexture)
    requires g.Valid()
  {
    st.u % g.alignment == 0 && st.v % g.alignment == 0
  }

  // ----- one axis

  lemma DivisionBounds(p: nat, a: nat)
    requires a > 0
    ensures p / a * a <= p < (p / a + 1) * a
  {
    assert p == p / a * a + p % a;
  }

  lemma ProductGrows(m: nat, n: nat, a: nat)
    requires m <= n
    ensures m * a <= n * a
  {
  }

  lemma DivisionIs(p: nat, a: nat, q: nat)
    requires a > 0 && q * a <= p < (q + 1) * a
    ensures p / a == q
  {
    DivisionBounds(p, a);
    if p / a < q {
      ProductGrows(p / a + 1, q, a);
    } else if p / a > q {
      ProductGrows(q + 1, p / a, a);
    }
  }

  /** The blocks for w pixels are the fewest that hold them. */
  lemma BlocksHold(g: Grid, w: nat)
    requires g.Valid()
    ensures var m := g.ToBlocks(w); w <= m * g.alignment && (m > 0 ==> (m - 1) * g.alignment < w) && (w > 0 ==> m > 0)
  {
    var a, m := g.alignment, (w + g.alignment - 1) / g.alignment;
    DivisionBounds(w + a - 1, a);
    assert (m + 1) * a == m * a + a;
    if m > 0 {
      assert m * a == (m - 1) * a + a;
    }
  }

  lemma BlocksOfStart(g: Grid, u: nat)
    requires g.Valid() && u % g.alignment == 0
    ensures g.ToBlocks(u) * g.alignment == u
  {
    var k := u / g.alignment;
    assert u == k * g.alignment;
    BlocksOfLocation(g.alignment, k);
  }

  /** A block is one of those for w pixels from u on if and only if one of the pixels is in it. */
  lemma BlocksOfSpan(g: Grid, u: nat, w: nat, x: nat)
    requires g.Valid() && u % g.alignment == 0
    ensures g.ToBlocks(u) <= x < g.ToBlocks(u) + g.ToBlocks(w) <==> exists p :: u <= p < u + w && p / g.alignment == x
  {
    hide Grid.ToBlocks;
    var a, k, m := g.alignment, g.ToBlocks(u), g.ToBlocks(w);
    BlocksHold(g, w);
    BlocksOfStart(g, u);
    if k <= x < k + m {
      FirstPixel(a, k, m, x, w);
      assert u <= x * a < u + w && (x * a) / a == x;
    }
    forall p | u <= p < u + w && p / a == x ensures k <= x < k + m {
      PixelWithin(a, k, m, w, p);
    }
  }

  lemma FirstPixel(a: nat, k: nat, m: nat, x: nat, w: nat)
    requires a > 0 && k <= x < k + m && (m - 1) * a < w
    ensures k * a <= x * a < k * a + w && (x * a) / a == x
  {
    ProductGrows(k, x, a);
    ProductGrows(x - k, m - 1, a);
    assert x * a == k * a + (x - k) * a;
    DivisionIs(x * a, a, x);
  }

  lemma PixelWithin(a: nat, k: nat, m: nat, w: nat, p: nat)
    requires a > 0 && w <= m * a && k * a <= p < k * a + w
    ensures k <= p / a < k + m
  {
    DivisionBounds(p, a);
    assert (k + m) * a == k * a + m * a;
    if p / a < k {
      ProductGrows(p / a + 1, k, a);
    } else if p / a >= k + m {
      ProductGrows(k + m, p / a, a);
    }
  }

  // ----- subtextures

  /** The blocks of a subtexture are those in which one of its pixels lies. */
  lemma BlocksArePixels(g: Grid, st: Subtexture, x: nat, y: nat)
    requires g.Valid() && OnGrid(g, st)
    ensures (x, y) in Cells(RectOf(g, st)) <==>
              exists px: nat, py: nat :: Covers(st, px, py) && px / g.alignment == x && py / g.alignment == y
  {
    hide Grid.ToBlocks;
    BlocksOfSpan(g, st.u, st.size.w, x);
    BlocksOfSpan(g, st.v, st.size.h, y);
    if (x, y) in Cells(RectOf(g, st)) {
      var px: nat :| st.u <= px < st.u + st.size.w && px / g.alignment == x;
      var py: nat :| st.v <= py < st.v + st.size.h && py / g.alignment == y;
      assert Covers(st, px, py);
    }
  }

  /** A subtexture inside the atlas in blocks is inside it in pixels. */
  lemma BoundsInPixels(g: Grid, st: Subtexture)
    requires g.Valid() && OnGrid(g, st) && InBounds(g, RectOf(g, st))
    ensures st.u + st.size.w <= g.width * g.alignment && st.v + st.size.h <= g.height * g.alignment
  {
    hide Grid.ToBlocks;
    SpanInPixels(g, st.u, st.size.w, g.width);
    SpanInPixels(g, st.v, st.size.h, g.height);
  }

  lemma SpanInPixels(g: Grid, u: nat, w: nat, n: nat)
    requires g.Valid() && u % g.alignment == 0 && g.ToBlocks(u) + g.ToBlocks(w) <= n
    ensures u + w <= n * g.alignment
  {
    hide Grid.ToBlocks;
    BlocksHold(g, w);
    BlocksOfStart(g, u);
    ProductGrows(g.ToBlocks(u) + g.ToBlocks(w), n, g.alignment);
    assert (g.ToBlocks(u) + g.ToBlocks(w)) * g.alignment
        == g.ToBlocks(u) * g.alignment + g.ToBlocks(w) * g.alignment;
  }

  lemma ApartInPixels(g: Grid, a: Subtexture, b: Subtexture, x: nat, y: nat)
    requires g.Valid() && OnGrid(g, a) && OnGrid(g, b) && Cells(RectOf(g, a)) !! Cells(RectOf(g, b))
    ensures !(Covers(a, x, y) && Covers(b, x, y))
  {
    hide Grid.ToBlocks, Cells, RectOf;
    var block := (x / g.alignment, y / g.alignment);
    BlocksArePixels(g, a, block.0, block.1);
    BlocksArePixels(g, b, block.0, block.1);
    assert block !in Cells(RectOf(g, a)) || block !in Cells(RectOf(g, b));
  }

  // ----- runs

  lemma PrepareOnGrid(g: Grid, occupied: set<Block>, size: Size)
    requires g.Valid() && g.Admits(size) && Prepare(g, occupied, size).Some?
    ensures OnGrid(g, Prepare(g, occupied, size).value.0) && Prepare(g, occupied, size).value.0.size == size
  {
    hide FirstFrom, Cells, Grid.ToBlocks;
    var at := FirstFrom(g, occupied, g.ToBlocks(size.w), g.ToBlocks(size.h), 0, 0).value;
    NoRemainder(at.0, g.alignment);
    NoRemainder(at.1, g.alignment);
  }

  lemma NoRemainder(k: nat, a: nat)
    requires a > 0
    ensures (k * a) % a == 0
  {
    DivisionIs(k * a, a, k);
    assert k * a == (k * a) / a * a + (k * a) % a;
  }

  lemma {:induction false} BatchOnGrid(g: Grid, occupied: set<Block>, sizes: seq<Size>)
    requires g.Valid() && AllAdmitted(g, sizes) && PrepareAll(g, occupied, sizes).Some?
    ensures var sts := PrepareAll(g, occupied, sizes).value.0;
            |sts| == |sizes| && forall i :: 0 <= i < |sts| ==> OnGrid(g, sts[i]) && sts[i].size == sizes[i]
    decreases |sizes|
  {
    hide Prepare, OnGrid;
    if sizes == [] {
    } else {
      var init, last := sizes[..|sizes| - 1], sizes[|sizes| - 1];
      assert last in sizes;
      BatchOnGrid(g, occupied, init);
      PrepareOnGrid(g, PrepareAll(g, occupied, init).value.1, last);
    }
  }

  ghost predicate IsRun(g: Grid, states: seq<State>, ops: seq<Op>)
    requires g.Valid()
  {
    && |states| == |ops| + 1 && states[0] == State({}, [])
    && forall i :: 0 <= i < |ops| ==> Possible(g, states[i], ops[i]) && states[i + 1] == Step(g, states[i], ops[i])
  }

  lemma {:induction false} RunsStayOnGrid(g: Grid, states: seq<State>, ops: seq<Op>, k: nat)
    requires g.Valid() && IsRun(g, states, ops) && k < |states|
    ensures forall i :: 0 <= i < |states[k].live| ==> OnGrid(g, states[k].live[i])
  {
    hide Prepare, PrepareAll, OnGrid, Cells, RectOf;
    if k == 0 {
    } else {
      RunsStayOnGrid(g, states, ops, k - 1);
      var s := states[k - 1];
      match ops[k - 1]
      case PrepareOp(size) =>
        if Prepare(g, s.occupied, size).Some? {
          PrepareOnGrid(g, s.occupied, size);
        }
      case PrepareAllOp(sizes) =>
        if PrepareAll(g, s.occupied, sizes).Some? {
          BatchOnGrid(g, s.occupied, sizes);
        }
      case RemoveOp(i) =>
    }
  }

  /**
    In every state of every run, the live textures begin at multiples of the alignment, lie within the atlas, and no
    pixel belongs to two of them.
   */
  lemma TexturesAreApart(g: Grid, states: seq<State>, ops: seq<Op>, k: nat)
    requires g.Valid() && IsRun(g, states, ops) && k < |states|
    ensures forall i :: 0 <= i < |states[k].live| ==>
              var st := states[k].live[i];
              && st.u % g.alignment == 0 && st.v % g.alignment == 0
              && st.u + st.size.w <= g.width * g.alignment && st.v + st.size.h <= g.height * g.alignment
    ensures forall i, j, x: nat, y: nat :: 0 <= i < j < |states[k].live| ==>
              !(Covers(states[k].live[i], x, y) && Covers(states[k].live[j], x, y))
  {
    hide Step, Covers, Cells, RectOf;
    RunsStayExact(g, states, ops, k);
    RunsStayOnGrid(g, states, ops, k);
    var live := states[k].live;
    forall i | 0 <= i < |live|
      ensures live[i].u + live[i].size.w <= g.width * g.alignment
      ensures live[i].v + live[i].size.h <= g.height * g.alignment
    {
      BoundsInPixels(g, live[i]);
    }
    forall i, j, x: nat, y: nat | 0 <= i < j < |live| ensures !(Covers(live[i], x, y) && Covers(live[j], x, y)) {
      ApartInPixels(g, live[i], live[j], x, y);
    }
  }

  /** A block is occupied if and only if a pixel of a live texture lies in it. */
  lemma OccupiedByPixels(g: Grid, states: seq<State>, ops: seq<Op>, k: nat, x: nat, y: nat)
    requires g.Valid() && IsRun(g, states, ops) && k < |states|
    ensures (x, y) in states[k].occupied <==>
              exists i, px: nat, py: nat :: 0 <= i < |states[k].live| && Covers(states[k].live[i], px, py)
                                  && px / g.alignment == x && py / g.alignment == y
  {
    hide Step, Covers, Cells, RectOf;
    RunsStayExact(g, states, ops, k);
    RunsStayOnGrid(g, states, ops, k);
    var live := states[k].live;
    forall i | 0 <= i < |live|
      ensures (x, y) in Cells(RectOf(g, live[i])) <==>
                exists px: nat, py: nat :: Covers(live[i], px, py) && px / g.alignment == x && py / g.alignment == y
    {
      BlocksArePixels(g, live[i], x, y);
    }
  }

  /** A request gets a texture of its size at the end of the list, or is refused; a removal takes out that texture. */
  lemma StepsAreBooked(g: Grid, states: seq<State>, ops: seq<Op>, k: nat)
    requires g.Valid() && IsRun(g, states, ops) && k < |ops|
    ensures var before, after := states[k].live, states[k + 1].live;
            match ops[k]
            case PrepareOp(size) =>
              || after == before
              || (|after| == |before| + 1 && after[..|before|] == before && after[|before|].size == size)
            case PrepareAllOp(sizes) =>
              || after == before
              || (&& |after| == |before| + |sizes| && after[..|before|] == before
                  && forall i :: 0 <= i < |sizes| ==> after[|before| + i].size == sizes[i])
            case RemoveOp(i) => i < |before| && after == before[..i] + before[i + 1..]
  {
    hide Prepare, PrepareAll, Cells, RectOf;
    var s := states[k];
    match ops[k]
    case PrepareOp(size) =>
      if Prepare(g, s.occupied, size).Some? {
        PrepareOnGrid(g, s.occupied, size);
      }
    case PrepareAllOp(sizes) =>
      if PrepareAll(g, s.occupied, sizes).Some? {
        BatchOnGrid(g, s.occupied, sizes);
      }
    case RemoveOp(i) =>
  }

  /**
    A request is refused only if at no place that begins at multiples of the alignment and lies within the atlas the
    blocks of its pixels are all free.
   */
  lemma RefusedOnlyIfFull(g: Grid, occupied: set<Block>, st: Subtexture)
    requires g.Valid() && OnGrid(g, st) && g.Admits(st.size) && Prepare(g, occupied, st.size).None?
    ensures || st.u + st.size.w > g.width * g.alignment || st.v + st.size.h > g.height * g.alignment
            || exists x: nat, y: nat :: Covers(st, x, y) && (x / g.alignment, y / g.alignment) in occupied
  {
    hide Prepare, Cells, Covers, Grid.ToBlocks;
    if st.u + st.size.w <= g.width * g.alignment && st.v + st.size.h <= g.height * g.alignment {
      SpanInBlocks(g, st.u, st.size.w, g.width);
      SpanInBlocks(g, st.v, st.size.h, g.height);
      var r := RectOf(g, st);
      assert r == BlockRect(g, (r.x, r.y), st.size);
      if Cells(r) !! occupied {
        PrepareIsComplete(g, occupied, st.size, (r.x, r.y));
      } else {
        var c :| c in Cells(r) && c in occupied;
        BlocksArePixels(g, st, c.0, c.1);
      }
    }
  }

  lemma SpanInBlocks(g: Grid, u: nat, w: nat, n: nat)
    requires g.Valid() && u % g.alignment == 0 && u + w <= n * g.alignment && g.ToBlocks(w) <= n
    ensures g.ToBlocks(u) + g.ToBlocks(w) <= n
  {
    hide Grid.ToBlocks;
    BlocksHold(g, w);
    BlocksOfStart(g, u);
    FewEnough(g.alignment, g.ToBlocks(u), g.ToBlocks(w), n, w);
  }

  lemma FewEnough(a: nat, k: nat, m: nat, n: nat, w: nat)
    requires a > 0 && k * a + w <= n * a && (m > 0 ==> (m - 1) * a < w)
    ensures k + m <= n
  {
    if m > 0 {
      BothProducts(k, m - 1, a);
      FewerBlocks(k + (m - 1), n, a);
    } else {
      BothProducts(n, 1, a);
      FewerBlocks(k, n + 1, a);
    }
  }

  lemma BothProducts(k: nat, m: nat, a: nat)
    ensures (k + m) * a == k * a + m * a
  {
  }

  lemma FewerBlocks(m: nat, n: nat, a: nat)
    requires a > 0 && m * a < n * a
    ensures m < n
  {
    if m >= n {
      ProductGrows(n, m, a);
    }
  }

  /** A removed texture leaves its blocks to the next one. */
  lemma RemovedIsFree(g: Grid, states: seq<State>, ops: seq<Op>, k: nat)
    requires g.Valid() && IsRun(g, states, ops) && k < |ops| && ops[k].RemoveOp?
    requires g.Admits(states[k].live[ops[k].index].size)
    ensures Prepare(g, states[k + 1].occupied, states[k].live[ops[k].index].size).Some?
  {
    hide Prepare, Cells, RectOf, Grid.ToBlocks, PrepareAll;
    var s, st := states[k], states[k].live[ops[k].index];
    RunsStayExact(g, states, ops, k);
    var r := RectOf(g, st);
    assert Cells(r) !! states[k + 1].occupied;
    RectIsBlocks(g, st);
    PrepareIsComplete(g, states[k + 1].occupied, st.size, (r.x, r.y));
  }

  lemma RectIsBlocks(g: Grid, st: Subtexture)
    requires g.Valid()
    ensures var r := RectOf(g, st); r == BlockRect(g, (r.x, r.y), st.size)
  {
  }
}
