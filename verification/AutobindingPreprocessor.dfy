/** The preprocessor's scanner, which edits the source it is reading, and the table it fills. */
module AutobindingPreprocessor {
  import opened Autobinding
  import opened Sequences
  import opened Wrappers

  class AutobindingData {
    var uboBindings: map<string, nat>
    var ssboBindings: map<string, nat>
    var constantBindings: map<string, nat>
    var uniformCount: nat
    var constantCount: nat

    constructor ()
      ensures View() == EMPTY
    {
      uboBindings, ssboBindings, constantBindings := map[], map[], map[];
      uniformCount, constantCount := 0, 0;
    }

    ghost function View(): Bindings
      reads this
    {
      Bindings(uboBindings, ssboBindings, constantBindings, uniformCount, constantCount)
    }

    method BindingFor(t: Token, name: string) returns (number: nat)
      modifies this
      ensures number == old(View()).NumberFor(t, name) && View() == old(View()).Bind(t, name)
    {
      match t {
        case UBO =>
          if name in uboBindings { return uboBindings[name]; }
          number, uniformCount := uniformCount, uniformCount + 1;
          uboBindings := uboBindings[name := number];
        case SSBO =>
          if name in ssboBindings { return ssboBindings[name]; }
          number, uniformCount := uniformCount, uniformCount + 1;
          ssboBindings := ssboBindings[name := number];
        case CONSTANT =>
          if name in constantBindings { return constantBindings[name]; }
          number, constantCount := constantCount, constantCount + 1;
          constantBindings := constantBindings[name := number];
      }
    }
  }

  method EatWhitespace(sv: string) returns (i: nat)
    ensures i == LeadingSpace(sv)
  {
    i := 0;
    assert sv[0..] == sv;
    while i < |sv| && IsSpace(sv[i])
      invariant i <= |sv| && i + LeadingSpace(sv[i..]) == LeadingSpace(sv)
    {
      assert sv[i..][1..] == sv[i + 1..];
      i := i + 1;
    }
  }

  method EatWord(sv: string) returns (i: nat)
    ensures i == LeadingWord(sv)
  {
    i := 0;
    assert sv[0..] == sv;
    while i < |sv| && !IsSpace(sv[i])
      invariant i <= |sv| && i + LeadingWord(sv[i..]) == LeadingWord(sv)
    {
      assert sv[i..][1..] == sv[i + 1..];
      i := i + 1;
    }
  }

  /** Behind what is done, what is still to come makes the text `target` and the table `end`. */
  ghost predicate Leads(done: string, unread: string, token: Option<Token>, now: Bindings, target: string,
                        end: Bindings)
  {
    var pieces := match token
      case None => Pieces(unread)
      case Some(t) => PiecesAfter(t, unread);
    target == done + Render(pieces, now) && end == BindAll(pieces, now)
  }

  /** The state of the scan; after the last character it may be one past the end. */
  ghost predicate Scanning(src: string, current: int, token: Option<Token>, start: int, now: Bindings, target: string,
                           end: Bindings)
  {
    if token == None then
      && 0 <= current <= |src| + 1
      && if current > |src| then target == src && end == now
         else Leads(src[..current], src[current..], None, now, target, end)
    else
      && 0 <= start <= current <= |src|
      && src[start..current] == token.value.Word()
      && Leads(src[..start], src[current..], token, now, target, end)
  }

  /**
    One pass over the source. The unread part is always an end of the source as it came in, and it gets shorter in
    every round.
   */
  method Preprocess(source: string, data: AutobindingData) returns (src: string)
    modifies data
    ensures src == Render(Pieces(source), old(data.View()))
    ensures data.View() == BindAll(Pieces(source), old(data.View()))
  {
    hide Pieces, PiecesAfter, Render, BindAll, Scanning, Token.Word, TokenAt, Advance, IsEndOf, LeadingSpace;
    src := source;
    var token: Option<Token> := None;
    var start, current := 0, 0;
    ghost var target, end := Render(Pieces(source), data.View()), BindAll(Pieces(source), data.View());
    ScanStarts(source, data.View());
    StartIsEnd(source);
    while current < |src|
      invariant Scanning(src, current, token, start, data.View(), target, end)
      invariant 0 <= current && (current <= |src| ==> IsEndOf(src[current..], source))
      decreases |src| - current
    {
      match token {
        case None =>
          var space := EatWhitespace(src[current..]);
          ghost var last := start;
          start := current + space;
          token := TokenAt(src[start..]);
          ScanToToken(src, current, last, start, data.View(), target, end);
          IsEndLater(src, current, start + Advance(token), source);
          current := start + Advance(token);
        case Some(t) =>
          src, current := ReplaceDirective(src, current, t, start, data, source, target, end);
          token := None;
      }
    }
    ScanEnds(src, current, token, start, data.View(), target, end);
  }

  /** Reads the name and puts the layout in the place of the token, which moves what has been read. */
  method ReplaceDirective(src: string, current: nat, t: Token, start: int, data: AutobindingData, ghost source: string,
                          ghost target: string, ghost end: Bindings)
    returns (r: string, next: nat)
    requires current < |src| && IsEndOf(src[current..], source)
    requires Scanning(src, current, Some(t), start, data.View(), target, end)
    modifies data
    ensures Scanning(r, next, None, start, data.View(), target, end)
    ensures next <= |r| && IsEndOf(r[next..], source)
    ensures |r| - next < |src| - current
  {
    hide Pieces, PiecesAfter, Scanning, Token.Word, Bindings.Bind, Bindings.NumberFor, Replacement, IsEndOf,
         LeadingSpace, LeadingWord;
    ScanPastDirective(src, current, t, start, data.View(), target, end);
    var space := EatWhitespace(src[current..]);
    var length := EatWord(src[current + space..]);
    var name := src[current + space..][..length];
    SliceOfSlice(src, current + space, 0, current + space + length);
    assert name == src[current + space..current + space + length];
    IsEndLater(src, current, current + space + length, source);
    var number := data.BindingFor(t, name);
    var replacement := Replacement(t, number);
    r := src[..start] + replacement + src[start + |t.Word()|..];
    next := current + space + length - |t.Word()| + |replacement|;
  }

  predicate IsEndOf(end: string, s: string) {
    |end| <= |s| && end == s[|s| - |end|..]
  }

  lemma StartIsEnd(source: string)
    ensures IsEndOf(source[0..], source)
  {
  }

  lemma IsEndLater(src: string, current: nat, later: nat, source: string)
    requires current <= |src| && IsEndOf(src[current..], source)
    ensures current <= later <= |src| ==> IsEndOf(src[later..], source)
  {
    if current <= later <= |src| {
      assert src[later..] == src[current..][later - current..];
    }
  }

  /** Without a token the scan moves on by one character. */
  function Advance(token: Option<Token>): (n: nat)
    ensures n > 0
  {
    match token
    case None => 1
    case Some(t) => |t.Word()|
  }

  lemma ScanStarts(source: string, b: Bindings)
    ensures Scanning(source, 0, None, 0, b, Render(Pieces(source), b), BindAll(Pieces(source), b))
  {
    hide Render, BindAll, Pieces;
    assert source[..0] == "" && source[0..] == source;
  }

  lemma ScanEnds(src: string, current: nat, token: Option<Token>, start: int, now: Bindings, target: string,
                 end: Bindings)
    requires Scanning(src, current, token, start, now, target, end) && current >= |src|
    ensures target == src && end == now
  {
    hide Token.Word;
    if current == |src| {
      assert src[current..] == "" && src[..current] == src;
      if token.Some? {
        var t := token.value;
        assert PiecesAfter(t, "") == [Text(t.Word())] + [];
        RenderText(t.Word(), [], now);
        assert src == src[..start] + t.Word();
      }
    }
  }

  lemma ScanToToken(src: string, current: nat, last: int, start: nat, now: Bindings, target: string, end: Bindings)
    requires current < |src| && start == current + LeadingSpace(src[current..])
    requires Scanning(src, current, None, last, now, target, end)
    ensures var token := TokenAt(src[start..]);
            Scanning(src, start + Advance(token), token, start, now, target, end)
  {
    hide Leads, TokenAt, Token.Word, LeadingSpace;
    var s := src[current..];
    var n := LeadingSpace(s);
    ToToken(src[..current], s, now, target, end);
    Joined(src, current, n);
    assert s[n..] == src[start..];
    if start < |src| {
      match TokenAt(src[start..])
      case None => ScanNoToken(src, current, n, start, now, target, end);
      case Some(t) => ScanSomeToken(src, current, n, t, start, now, target, end);
    } else {
      TokenIsSomething(src[start..]);
    }
  }

  lemma ScanNoToken(src: string, current: nat, n: nat, start: int, now: Bindings, target: string, end: Bindings)
    requires current + n < |src|
    requires Leads(src[..current] + src[current..][..n + 1], src[current..][n + 1..], None, now, target, end)
    ensures Scanning(src, current + n + 1, None, start, now, target, end)
  {
    hide Leads;
    Joined(src, current, n + 1);
    SliceOfSlice(src, current, n + 1, |src|);
  }

  lemma ScanSomeToken(src: string, current: nat, n: nat, t: Token, start: nat, now: Bindings, target: string,
                      end: Bindings)
    requires start == current + n <= |src| && t.Word() <= src[start..]
    requires Leads(src[..current] + src[current..][..n], src[start..][|t.Word()|..], Some(t), now, target, end)
    ensures Scanning(src, start + |t.Word()|, Some(t), start, now, target, end)
  {
    hide Leads, Token.Word;
    Joined(src, current, n);
    PrefixSlice(src, start, t.Word());
    SliceOfSlice(src, start, |t.Word()|, |src|);
  }

  lemma Joined(src: string, current: nat, n: nat)
    requires current + n <= |src|
    ensures src[..current] + src[current..][..n] == src[..current + n]
    ensures src[..current] + src[current..] == src
  {
  }

  lemma PrefixSlice(src: string, start: nat, w: string)
    requires start <= |src| && w <= src[start..]
    ensures start + |w| <= |src| && src[start..start + |w|] == w
  {
    assert src[start..][..|w|] == w;
  }

  lemma ToToken(done: string, s: string, now: Bindings, target: string, end: Bindings)
    requires s != "" && Leads(done, s, None, now, target, end)
    ensures var n := LeadingSpace(s);
            if n == |s| then target == done + s && end == now
            else match TokenAt(s[n..])
              case None => Leads(done + s[..n + 1], s[n + 1..], None, now, target, end)
              case Some(t) => Leads(done + s[..n], s[n..][|t.Word()|..], Some(t), now, target, end)
  {
    hide Leads, TokenAt, Token.Word, PiecesAfter, Pieces, LeadingSpace;
    FirstPiece(s);
    if LeadingSpace(s) == |s| {
      TextLast(done, s, now, target, end);
    } else {
      match TokenAt(s[LeadingSpace(s)..])
      case None => ToNoToken(done, s, now, target, end);
      case Some(t) => ToSomeToken(done, s, t, now, target, end);
    }
  }

  lemma ToNoToken(done: string, s: string, now: Bindings, target: string, end: Bindings)
    requires Leads(done, s, None, now, target, end)
    requires LeadingSpace(s) < |s| && TokenAt(s[LeadingSpace(s)..]).None?
    ensures Leads(done + s[..LeadingSpace(s) + 1], s[LeadingSpace(s) + 1..], None, now, target, end)
  {
    hide Render, BindAll, TokenAt, Pieces, LeadingSpace;
    var n := LeadingSpace(s);
    FirstPiece(s);
    TextFirst(done, s, s[..n + 1], Pieces(s[n + 1..]), now, target, end);
  }

  lemma ToSomeToken(done: string, s: string, t: Token, now: Bindings, target: string, end: Bindings)
    requires Leads(done, s, None, now, target, end)
    requires LeadingSpace(s) < |s| && TokenAt(s[LeadingSpace(s)..]) == Some(t)
    ensures Leads(done + s[..LeadingSpace(s)], s[LeadingSpace(s)..][|t.Word()|..], Some(t), now, target, end)
  {
    hide Render, BindAll, TokenAt, Token.Word, PiecesAfter, Pieces, LeadingSpace;
    var n := LeadingSpace(s);
    FirstPiece(s);
    TextFirst(done, s, s[..n], PiecesAfter(t, s[n..][|t.Word()|..]), now, target, end);
  }

  lemma TextLast(done: string, s: string, now: Bindings, target: string, end: Bindings)
    requires Leads(done, s, None, now, target, end) && Pieces(s) == [Text(s)] + []
    ensures target == done + s && end == now
  {
    hide Render, BindAll, Pieces;
    RenderText(s, [], now);
    RenderEmpty(now);
  }

  lemma TextFirst(done: string, s: string, text: string, rest: seq<Piece>, now: Bindings, target: string, end: Bindings)
    requires Leads(done, s, None, now, target, end) && Pieces(s) == [Text(text)] + rest
    ensures target == done + text + Render(rest, now) && end == BindAll(rest, now)
  {
    hide Render, BindAll, Pieces;
    RenderText(text, rest, now);
    Regroup(done, text, Render(rest, now));
  }

  lemma TokenIsSomething(s: string)
    ensures TokenAt(s).Some? ==> s != ""
  {
  }

  lemma RenderEmpty(b: Bindings)
    ensures Render([], b) == "" && BindAll([], b) == b
  {
  }

  lemma ScanPastDirective(src: string, current: nat, t: Token, start: int, now: Bindings, target: string, end: Bindings)
    requires current < |src| && Scanning(src, current, Some(t), start, now, target, end)
    ensures var n := LeadingSpace(src[current..]);
            var m := n + LeadingWord(src[current + n..]);
            var name := src[current + n..current + m];
            var replacement := Replacement(t, now.NumberFor(t, name));
            && 0 <= start && start + |t.Word()| == current && 0 < m <= |src| - current
            && var after := src[..start] + replacement + src[current..];
            && Scanning(after, start + |replacement| + m, None, start, now.Bind(t, name), target, end)
            && after[start + |replacement| + m..] == src[current + m..]
  {
    hide Leads, Token.Word, Replacement, Bindings.Bind, Bindings.NumberFor, LeadingSpace, LeadingWord;
    var s, done := src[current..], src[..start];
    var n := LeadingSpace(s);
    SliceOfSlice(src, current, n, |src|);
    var m := n + LeadingWord(s[n..]);
    var name := s[n..m];
    SliceOfSlice(src, current, n, current + m);
    SliceOfSlice(src, current, m, |src|);
    PastDirective(done, t, s, now, target, end);
    Cut(done, Replacement(t, now.NumberFor(t, name)), s, m);
  }

  lemma SliceOfSlice(src: string, current: nat, n: nat, end: nat)
    requires current + n <= end <= |src|
    ensures src[current..][n..end - current] == src[current + n..end]
    ensures src[current..][n..] == src[current + n..]
  {
  }

  lemma Cut(a: string, b: string, s: string, m: nat)
    requires m <= |s|
    ensures var all := a + b + s;
            all[..|a| + |b| + m] == a + b + s[..m] && all[|a| + |b| + m..] == s[m..]
  {
  }

  lemma PastDirective(done: string, t: Token, s: string, now: Bindings, target: string, end: Bindings)
    requires s != "" && Leads(done, s, Some(t), now, target, end)
    ensures var n := LeadingSpace(s);
            var m := n + LeadingWord(s[n..]);
            var name := s[n..m];
            && m > 0
            && Leads(done + Replacement(t, now.NumberFor(t, name)) + s[..m], s[m..], None, now.Bind(t, name), target,
                     end)
  {
    hide Render, BindAll, Token.Word, Pieces, Replacement, Bindings.Bind, Bindings.NumberFor;
    var n := LeadingSpace(s);
    var m := n + LeadingWord(s[n..]);
    RenderDirective(t, s[..n], s[n..m], Pieces(s[m..]), now);
    assert s[..n] + s[n..m] == s[..m];
    var replacement := Replacement(t, now.NumberFor(t, s[n..m]));
    var rest := Render(Pieces(s[m..]), now.Bind(t, s[n..m]));
    Regroup(replacement, s[..n], s[n..m]);
    Regroup(done, replacement + s[..m], rest);
    Regroup(done, replacement, s[..m]);
  }
}
