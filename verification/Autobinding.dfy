/**
  The shader preprocessor that turns `UBO Name`, `SSBO Name` and `CONSTANT type` into GLSL layout qualifiers.
  The table of bindings is shared by all stages of a shader.
 */
module Autobinding {
  import opened Wrappers

  datatype Token = UBO | SSBO | CONSTANT {
    function Word(): string {
      match this
      case UBO => "UBO"
      case SSBO => "SSBO"
      case CONSTANT => "CONSTANT"
    }
  }

  // ----- the binding table

  datatype Bindings = Bindings(ubo: map<string, nat>, ssbo: map<string, nat>, constants: map<string, nat>,
                               uniformCount: nat, constantCount: nat) {
    function Of(t: Token): map<string, nat> {
      match t
      case UBO => ubo
      case SSBO => ssbo
      case CONSTANT => constants
    }

    /** Blocks of both kinds count together. */
    function Count(t: Token): nat {
      if t == CONSTANT then constantCount else uniformCount
    }

    /** The number for a name: the known one, or the next free one. */
    function NumberFor(t: Token, name: string): nat {
      if name in Of(t) then Of(t)[name] else Count(t)
    }

    function Bind(t: Token, name: string): Bindings {
      if name in Of(t) then this
      else match t
        case UBO => this.(ubo := ubo[name := uniformCount], uniformCount := uniformCount + 1)
        case SSBO => this.(ssbo := ssbo[name := uniformCount], uniformCount := uniformCount + 1)
        case CONSTANT => this.(constants := constants[name := constantCount], constantCount := constantCount + 1)
    }

    function At(t: Token, name: string): Option<nat> {
      if name in Of(t) then Some(Of(t)[name]) else None
    }

    /** All numbers are below the count, and different entries that count together never share one. */
    ghost predicate Distinct() {
      && (forall t: Token, n :: At(t, n).Some? ==> At(t, n).value < Count(t))
      && (forall t: Token, u: Token, m, n :: At(t, m).Some? && At(t, m) == At(u, n) && CountTogether(t, u) ==>
            t == u && m == n)
    }

    /** Every entry is still there, with its number. */
    ghost predicate Extends(before: Bindings) {
      forall t: Token, n :: before.At(t, n).Some? ==> At(t, n) == before.At(t, n)
    }
  }

  predicate CountTogether(t: Token, u: Token) {
    (t == CONSTANT) == (u == CONSTANT)
  }

  const EMPTY := Bindings(map[], map[], map[], 0, 0)

  lemma EmptyIsDistinct()
    ensures EMPTY.Distinct()
  {
    assert forall t: Token :: EMPTY.Of(t) == map[];
  }

  lemma BindKeepsDistinct(b: Bindings, t: Token, name: string)
    requires b.Distinct()
    ensures b.Bind(t, name).Distinct() && b.Bind(t, name).Extends(b)
    ensures b.Bind(t, name).At(t, name) == Some(b.NumberFor(t, name))
  {
    hide Bindings.At, Bindings.Count, Bindings.Bind, CountTogether, Bindings.NumberFor;
    BindIs(b, t, name);
    CountedTogether(b, t);
  }

  lemma BindIs(b: Bindings, t: Token, name: string)
    ensures var after, known := b.Bind(t, name), b.At(t, name).Some?;
            && b.NumberFor(t, name) == (if known then b.At(t, name).value else b.Count(t))
            && (forall u: Token, n :: after.At(u, n) ==
                                      if u == t && n == name then Some(b.NumberFor(t, name)) else b.At(u, n))
            && (forall u: Token :: after.Count(u) == b.Count(u) + if CountTogether(t, u) && !known then 1 else 0)
  {
  }

  lemma CountedTogether(b: Bindings, t: Token)
    ensures forall u :: CountTogether(t, u) ==> b.Count(t) == b.Count(u)
    ensures forall u :: CountTogether(t, u) <==> CountTogether(u, t)
    ensures CountTogether(t, t)
  {
  }

  // ----- what the source consists of

  /** Text is copied; a directive is a token, the white space after it and the word after that. */
  datatype Piece = Text(text: string) | Directive(token: Token, gap: string, name: string) {
    function Source(): string {
      match this
      case Text(text) => text
      case Directive(t, gap, name) => t.Word() + gap + name
    }
  }

  predicate IsSpace(c: char) {
    c == ' ' || '\t' <= c <= '\r'
  }

  lemma WhiteSpace(c: char)
    ensures IsSpace(c) <==> c in " \t\n\U{0b}\U{0c}\r"
  {
    var spaces := " \t\n\U{0b}\U{0c}\r";
    assert spaces[0] == ' ' && spaces[1] == '\t' && spaces[2] == '\n';
    assert spaces[3] == '\U{0b}' && spaces[4] == '\U{0c}' && spaces[5] == '\r';
  }

  function LeadingSpace(s: string): (n: nat)
    ensures n <= |s| && (forall i :: 0 <= i < n ==> IsSpace(s[i])) && (n < |s| ==> !IsSpace(s[n]))
  {
    if s != "" && IsSpace(s[0]) then 1 + LeadingSpace(s[1..]) else 0
  }

  function LeadingWord(s: string): (n: nat)
    ensures n <= |s| && (forall i :: 0 <= i < n ==> !IsSpace(s[i])) && (n < |s| ==> IsSpace(s[n]))
  {
    if s != "" && !IsSpace(s[0]) then 1 + LeadingWord(s[1..]) else 0
  }

  /** A token need not end there: what follows it directly is taken as the name. */
  function TokenAt(s: string): (r: Option<Token>)
    ensures r.Some? ==> r.value.Word() <= s
  {
    if "UBO" <= s then Some(UBO)
    else if "SSBO" <= s then Some(SSBO)
    else if "CONSTANT" <= s then Some(CONSTANT)
    else None
  }

  function Pieces(s: string): seq<Piece>
    decreases |s|, 1
  {
    if s == "" then []
    else
      var n := LeadingSpace(s);
      var rest := s[n..];
      if rest == "" then [Text(s)]
      else match TokenAt(rest)
        case None => [Text(s[..n + 1])] + Pieces(s[n + 1..])
        case Some(t) => [Text(s[..n])] + PiecesAfter(t, rest[|t.Word()|..])
  }

  /** A token at the very end of the source is no directive. */
  function PiecesAfter(t: Token, s: string): seq<Piece>
    decreases |s|, 0
  {
    if s == "" then [Text(t.Word())]
    else
      var n := LeadingSpace(s);
      var m := n + LeadingWord(s[n..]);
      [Directive(t, s[..n], s[n..m])] + Pieces(s[m..])
  }

  function Original(pieces: seq<Piece>): string {
    if pieces == [] then "" else pieces[0].Source() + Original(pieces[1..])
  }

  lemma FirstPiece(s: string)
    requires s != ""
    ensures var n := LeadingSpace(s);
            if n == |s| then Pieces(s) == [Text(s)] + []
            else match TokenAt(s[n..])
              case None => Pieces(s) == [Text(s[..n + 1])] + Pieces(s[n + 1..])
              case Some(t) => Pieces(s) == [Text(s[..n])] + PiecesAfter(t, s[n..][|t.Word()|..])
  {
    hide TokenAt, Token.Word, PiecesAfter;
    assert [Text(s)] + [] == [Text(s)];
    assert s[LeadingSpace(s)..] == "" <==> LeadingSpace(s) == |s|;
  }

  /** Splitting a source into pieces loses nothing. */
  lemma {:induction false} PiecesMakeSource(s: string)
    ensures Original(Pieces(s)) == s
    decreases |s|, 1
  {
    hide Pieces, PiecesAfter, TokenAt, Token.Word, LeadingSpace, Original;
    if s == "" {
      NothingIsNothing();
    } else {
      var n := LeadingSpace(s);
      FirstPiece(s);
      if n == |s| {
        OriginalOf(Text(s), []);
        NothingIsNothing();
      } else {
        match TokenAt(s[n..])
        case None =>
          PiecesMakeSource(s[n + 1..]);
          OriginalOf(Text(s[..n + 1]), Pieces(s[n + 1..]));
        case Some(t) =>
          PiecesAfterMakeSource(t, s[n..][|t.Word()|..]);
          OriginalOf(Text(s[..n]), PiecesAfter(t, s[n..][|t.Word()|..]));
          assert s[n..] == t.Word() + s[n..][|t.Word()|..];
      }
    }
  }

  lemma NothingIsNothing()
    ensures Pieces("") == [] && Original([]) == ""
  {
  }

  lemma {:induction false} PiecesAfterMakeSource(t: Token, s: string)
    ensures Original(PiecesAfter(t, s)) == t.Word() + s
    decreases |s|, 0
  {
    hide Pieces, Token.Word, LeadingSpace, LeadingWord, Original;
    if s == "" {
      OriginalOf(Text(t.Word()), []);
      NothingIsNothing();
      assert [Text(t.Word())] + [] == [Text(t.Word())];
    } else {
      var n := LeadingSpace(s);
      var m := n + LeadingWord(s[n..]);
      PiecesMakeSource(s[m..]);
      OriginalOf(Directive(t, s[..n], s[n..m]), Pieces(s[m..]));
      assert t.Word() + s[..n] + s[n..m] + s[m..] == t.Word() + s;
    }
  }

  lemma OriginalOf(p: Piece, pieces: seq<Piece>)
    ensures Original([p] + pieces) == p.Source() + Original(pieces)
  {
    assert ([p] + pieces)[1..] == pieces;
  }

  // ----- what it becomes

  function Digit(n: nat): char
    requires n < 10
  {
    '0' + n as char
  }

  function Decimal(n: nat): string {
    if n < 10 then [Digit(n)] else Decimal(n / 10) + [Digit(n % 10)]
  }

  function Replacement(t: Token, number: nat): string {
    match t
    case UBO => "layout(std140, binding = " + Decimal(number) + ") uniform "
    case SSBO => "layout(std430, binding = " + Decimal(number) + ") buffer  "
    case CONSTANT => "layout(constant_id = " + Decimal(number) + ") const "
  }

  function Render(pieces: seq<Piece>, b: Bindings): string {
    if pieces == [] then ""
    else match pieces[0]
      case Text(text) => text + Render(pieces[1..], b)
      case Directive(t, gap, name) =>
        Replacement(t, b.NumberFor(t, name)) + gap + name + Render(pieces[1..], b.Bind(t, name))
  }

  function BindAll(pieces: seq<Piece>, b: Bindings): Bindings {
    if pieces == [] then b
    else match pieces[0]
      case Text(_) => BindAll(pieces[1..], b)
      case Directive(t, _, name) => BindAll(pieces[1..], b.Bind(t, name))
  }

  lemma RenderText(text: string, pieces: seq<Piece>, b: Bindings)
    ensures Render([Text(text)] + pieces, b) == text + Render(pieces, b)
    ensures BindAll([Text(text)] + pieces, b) == BindAll(pieces, b)
  {
    assert ([Text(text)] + pieces)[1..] == pieces;
  }

  lemma RenderDirective(t: Token, gap: string, name: string, pieces: seq<Piece>, b: Bindings)
    ensures Render([Directive(t, gap, name)] + pieces, b)
            == Replacement(t, b.NumberFor(t, name)) + gap + name + Render(pieces, b.Bind(t, name))
    ensures BindAll([Directive(t, gap, name)] + pieces, b) == BindAll(pieces, b.Bind(t, name))
  {
    assert ([Directive(t, gap, name)] + pieces)[1..] == pieces;
  }

  // ----- bindings across the stages of a shader

  datatype Written = Written(token: Token, name: string, number: nat)

  /** The number written at each directive of a source, in order. */
  function WrittenIn(pieces: seq<Piece>, b: Bindings): seq<Written> {
    if pieces == [] then []
    else match pieces[0]
      case Text(_) => WrittenIn(pieces[1..], b)
      case Directive(t, _, name) =>
        [Written(t, name, b.NumberFor(t, name))] + WrittenIn(pieces[1..], b.Bind(t, name))
  }

  /** The stages are preprocessed one after the other with the same table. */
  function WrittenInStages(stages: seq<string>, b: Bindings): seq<Written> {
    if stages == [] then []
    else WrittenIn(Pieces(stages[0]), b) + WrittenInStages(stages[1..], BindAll(Pieces(stages[0]), b))
  }

  function AfterStages(stages: seq<string>, b: Bindings): Bindings {
    if stages == [] then b else AfterStages(stages[1..], BindAll(Pieces(stages[0]), b))
  }

  /** The source with the given numbers filled in. */
  function Filled(pieces: seq<Piece>, written: seq<Written>): string {
    if pieces == [] then ""
    else match pieces[0]
      case Text(text) => text + Filled(pieces[1..], written)
      case Directive(t, gap, name) =>
        if written == [] then ""
        else Replacement(t, written[0].number) + gap + name + Filled(pieces[1..], written[1..])
  }

  lemma {:induction false} RenderFillsWritten(pieces: seq<Piece>, b: Bindings)
    ensures Render(pieces, b) == Filled(pieces, WrittenIn(pieces, b))
  {
    if pieces == [] {
    } else {
      match pieces[0]
      case Text(_) => RenderFillsWritten(pieces[1..], b);
      case Directive(t, _, name) =>
        RenderFillsWritten(pieces[1..], b.Bind(t, name));
        assert WrittenIn(pieces, b)[1..] == WrittenIn(pieces[1..], b.Bind(t, name));
    }
  }

  /** What was written is in the table. */
  ghost predicate Recorded(written: seq<Written>, b: Bindings) {
    forall w :: w in written ==> b.At(w.token, w.name) == Some(w.number)
  }

  lemma ExtendsTrans(a: Bindings, b: Bindings, c: Bindings)
    requires b.Extends(a) && c.Extends(b)
    ensures c.Extends(a)
  {
  }

  lemma {:induction false} WrittenIsRecorded(pieces: seq<Piece>, b: Bindings)
    requires b.Distinct()
    ensures BindAll(pieces, b).Distinct() && BindAll(pieces, b).Extends(b)
    ensures Recorded(WrittenIn(pieces, b), BindAll(pieces, b))
  {
    if pieces == [] {
    } else {
      match pieces[0]
      case Text(_) => WrittenIsRecorded(pieces[1..], b);
      case Directive(t, _, name) =>
        var next := b.Bind(t, name);
        BindKeepsDistinct(b, t, name);
        WrittenIsRecorded(pieces[1..], next);
        ExtendsTrans(b, next, BindAll(pieces[1..], next));
    }
  }

  lemma {:induction false} WrittenInStagesIsRecorded(stages: seq<string>, b: Bindings)
    requires b.Distinct()
    ensures AfterStages(stages, b).Distinct() && AfterStages(stages, b).Extends(b)
    ensures Recorded(WrittenInStages(stages, b), AfterStages(stages, b))
  {
    if stages == [] {
    } else {
      var next := BindAll(Pieces(stages[0]), b);
      WrittenIsRecorded(Pieces(stages[0]), b);
      WrittenInStagesIsRecorded(stages[1..], next);
      ExtendsTrans(b, next, AfterStages(stages[1..], next));
    }
  }

  /**
    Over all stages of a shader: two blocks get the same binding if and only if they are of the same kind and name;
    two constants get the same id if and only if the words after CONSTANT are the same.
   */
  lemma SameBindingIffSameName(stages: seq<string>, i: nat, j: nat)
    requires i < |WrittenInStages(stages, EMPTY)| && j < |WrittenInStages(stages, EMPTY)|
    requires CountTogether(WrittenInStages(stages, EMPTY)[i].token, WrittenInStages(stages, EMPTY)[j].token)
    ensures var v, w := WrittenInStages(stages, EMPTY)[i], WrittenInStages(stages, EMPTY)[j];
            v.number == w.number <==> v.token == w.token && v.name == w.name
  {
    hide WrittenInStages, AfterStages;
    EmptyIsDistinct();
    WrittenInStagesIsRecorded(stages, EMPTY);
    var written := WrittenInStages(stages, EMPTY);
    assert written[i] in written && written[j] in written;
  }

  /** Numbers are written so that they can be told apart. */
  function Parsed(s: string): int {
    if s == "" then 0 else 10 * Parsed(s[..|s| - 1]) + (s[|s| - 1] as int - '0' as int)
  }

  lemma {:induction false} DecimalRoundTrip(n: nat)
    ensures Parsed(Decimal(n)) == n
  {
    if n < 10 {
      assert [Digit(n)][..0] == "" && Parsed([Digit(n)]) == n;
    } else {
      DecimalRoundTrip(n / 10);
      assert (Decimal(n / 10) + [Digit(n % 10)])[..|Decimal(n / 10)|] == Decimal(n / 10);
    }
  }

  // ----- which sources are changed

  predicate HasDirective(pieces: seq<Piece>) {
    exists p :: p in pieces && p.Directive?
  }

  /** A token at i, even inside a longer word, with something after it. */
  predicate TokenWithin(s: string, i: nat) {
    i <= |s| && TokenAt(s[i..]).Some? && i + |TokenAt(s[i..]).value.Word()| < |s|
  }

  lemma {:induction false} NoDirectiveNoChange(pieces: seq<Piece>, b: Bindings)
    requires !HasDirective(pieces)
    ensures Render(pieces, b) == Original(pieces) && BindAll(pieces, b) == b
  {
    if pieces == [] {
    } else {
      assert pieces[0] in pieces;
      NoDirectiveNoChange(pieces[1..], b);
    }
  }

  lemma TokenStartsNoSpace(s: string)
    requires TokenAt(s).Some?
    ensures s != "" && !IsSpace(s[0])
  {
  }

  /** No token starts inside a token that ends the source. */
  lemma NoTokenInsideToken(t: Token, k: nat)
    requires 0 < k <= |t.Word()|
    ensures TokenAt(t.Word()[k..]).None?
  {
    var w := t.Word()[k..];
    assert w == "" || w[0] == t.Word()[k];
    assert |w| >= 2 ==> w[1] == t.Word()[k + 1];
  }

  lemma {:induction false} TokenMakesDirective(s: string, i: nat)
    requires TokenWithin(s, i)
    ensures HasDirective(Pieces(s))
    decreases |s|
  {
    hide TokenAt, HasDirective, Token.Word, IsSpace, PiecesAfter;
    var n := LeadingSpace(s);
    var rest := s[n..];
    TokenStartsNoSpace(s[i..]);
    assert s[i] == s[i..][0] && i >= n;
    match TokenAt(rest)
    case None =>
      assert s[i..] == rest[i - n..];
      assert s[n + 1..][i - n - 1..] == s[i..];
      TokenMakesDirective(s[n + 1..], i - n - 1);
      HasDirectiveAfter(Text(s[..n + 1]), Pieces(s[n + 1..]));
    case Some(t) =>
      assert s[i..] == rest[i - n..];
      TokenAfterTokenAtEnd(t, rest, i - n);
      HasDirectiveAfter(Text(s[..n]), PiecesAfter(t, rest[|t.Word()|..]));
  }

  lemma TokenAfterTokenAtEnd(t: Token, rest: string, i: nat)
    requires TokenAt(rest) == Some(t) && TokenWithin(rest, i)
    ensures |t.Word()| <= |rest| && HasDirective(PiecesAfter(t, rest[|t.Word()|..]))
  {
    hide TokenAt, Pieces, Token.Word;
    var after := rest[|t.Word()|..];
    if after == "" {
      assert rest == t.Word();
      assert rest[0..] == rest;
      if i > 0 {
        NoTokenInsideToken(t, i);
      }
    } else {
      assert PiecesAfter(t, after)[0].Directive?;
    }
  }

  lemma HasDirectiveAfter(p: Piece, pieces: seq<Piece>)
    ensures HasDirective([p] + pieces) <==> p.Directive? || HasDirective(pieces)
  {
    assert forall q :: q in [p] + pieces <==> q == p || q in pieces;
  }

  lemma {:induction false} DirectiveNeedsToken(s: string) returns (i: nat)
    requires HasDirective(Pieces(s))
    ensures TokenWithin(s, i)
    decreases |s|
  {
    hide Pieces, PiecesAfter, TokenAt, Token.Word, LeadingSpace, HasDirective, IsSpace;
    NoDirectiveInNothing();
    var n := LeadingSpace(s);
    FirstPiece(s);
    if n == |s| {
      HasDirectiveAfter(Text(s), []);
      assert false;
    } else {
      match TokenAt(s[n..])
      case None =>
        HasDirectiveAfter(Text(s[..n + 1]), Pieces(s[n + 1..]));
        var j := DirectiveNeedsToken(s[n + 1..]);
        i := n + 1 + j;
        assert s[n + 1..][j..] == s[i..];
      case Some(t) =>
        i := n;
        HasDirectiveAfter(Text(s[..n]), PiecesAfter(t, s[n..][|t.Word()|..]));
        TokenAtEndIsText(t, s[n..][|t.Word()|..]);
    }
  }

  lemma NoDirectiveInNothing()
    ensures !HasDirective(Pieces("")) && !HasDirective([])
  {
  }

  lemma TokenAtEndIsText(t: Token, after: string)
    requires HasDirective(PiecesAfter(t, after))
    ensures after != ""
  {
  }

  /** A source is left alone, and the table with it, exactly if no token occurs in it anywhere but at its very end. */
  lemma DirectivesAreTokens(s: string, b: Bindings)
    ensures HasDirective(Pieces(s)) <==> exists i :: TokenWithin(s, i)
    ensures (forall i :: !TokenWithin(s, i)) ==> Render(Pieces(s), b) == s && BindAll(Pieces(s), b) == b
  {
    hide TokenWithin, HasDirective;
    if HasDirective(Pieces(s)) {
      var i := DirectiveNeedsToken(s);
    } else {
      NoDirectiveNoChange(Pieces(s), b);
      PiecesMakeSource(s);
      forall i | TokenWithin(s, i) ensures false {
        TokenMakesDirective(s, i);
      }
    }
  }

  // ----- which directives stand alone

  /** White space, or the start of the source, is in front. */
  predicate Parted(before: string) {
    before == "" || IsSpace(before[|before| - 1])
  }

  /** A directive as it is meant: a token, white space and a name. */
  predicate Proper(p: Piece) {
    p.Directive? ==> p.gap != "" && p.name != ""
  }

  /** Every directive starts after white space and has white space between its token and its name, which is there. */
  ghost predicate DirectivesStandAlone(pieces: seq<Piece>) {
    forall k :: 0 <= k < |pieces| && pieces[k].Directive? ==> Proper(pieces[k]) && Parted(Original(pieces[..k]))
  }

  ghost predicate IsToken(word: string) {
    exists t: Token :: word == t.Word()
  }

  /** No token starts in the first w characters, except one that ends the source. */
  ghost predicate TokenFree(s: string, w: nat) {
    forall i :: 0 <= i < w ==> !TokenWithin(s, i)
  }

  /** What comes after the next word. */
  function AfterName(s: string): (r: string)
    ensures |r| <= |s| && (r == "" || IsSpace(r[0]))
  {
    var n := LeadingSpace(s);
    s[n + LeadingWord(s[n..])..]
  }

  /**
    Word by word: behind a word that is a token the next word is its name, which may be anything but has to be there
    unless the token ends the source; no other word has a token in it.
   */
  ghost predicate TokensStandAlone(s: string)
    decreases |s|
  {
    var u := s[LeadingSpace(s)..];
    var w := LeadingWord(u);
    var rest := u[w..];
    if u == "" then true
    else if IsToken(u[..w]) then
      rest == "" || (LeadingSpace(rest) < |rest| && TokensStandAlone(AfterName(rest)))
    else
      TokenFree(u, w) && TokensStandAlone(rest)
  }

  predicate PartedAfter(parted: bool, text: string) {
    if text == "" then parted else Parted(text)
  }

  /** The same from the front: `parted` says whether white space is in front of the first piece. */
  predicate StandAlone(pieces: seq<Piece>, parted: bool) {
    pieces == []
    || (&& (pieces[0].Directive? ==> parted && Proper(pieces[0]))
        && StandAlone(pieces[1..], PartedAfter(parted, pieces[0].Source())))
  }

  lemma {:induction false} StandAloneBehind(before: string, pieces: seq<Piece>)
    ensures StandAlone(pieces, Parted(before))
            <==> forall k :: 0 <= k < |pieces| && pieces[k].Directive? ==>
                               Proper(pieces[k]) && Parted(before + Original(pieces[..k]))
    decreases |pieces|
  {
    hide Piece.Source, Parted, PartedAfter;
    if pieces == [] {
    } else {
      var next := before + pieces[0].Source();
      PartedJoins(before, pieces[0].Source());
      StandAloneBehind(next, pieces[1..]);
      assert before + Original(pieces[..0]) == before;
      forall k | 0 < k < |pieces|
        ensures pieces[k] == pieces[1..][k - 1]
        ensures before + Original(pieces[..k]) == next + Original(pieces[1..][..k - 1])
      {
        assert pieces[..k][1..] == pieces[1..][..k - 1];
      }
      assert forall k :: 0 <= k < |pieces| - 1 ==> pieces[1..][k] == pieces[k + 1];
    }
  }

  lemma PartedJoins(before: string, text: string)
    ensures PartedAfter(Parted(before), text) == Parted(before + text)
  {
    assert text == "" ==> before + text == before;
  }

  lemma StandAloneFirst(p: Piece, pieces: seq<Piece>, parted: bool)
    ensures StandAlone([p] + pieces, parted)
            <==> (p.Directive? ==> parted && Proper(p)) && StandAlone(pieces, PartedAfter(parted, p.Source()))
  {
    assert ([p] + pieces)[1..] == pieces;
  }

  /** A token is a whole word, or it is within a longer one. */
  lemma TokenOrLonger(s: string, t: Token)
    requires TokenAt(s) == Some(t)
    ensures LeadingSpace(s) == 0 && |t.Word()| <= LeadingWord(s)
    ensures IsToken(s[..LeadingWord(s)]) <==> LeadingWord(s) == |t.Word()|
    ensures TokenWithin(s, 0) <==> s != t.Word()
    ensures LeadingWord(s) == |t.Word()| ==> s[..LeadingWord(s)] == t.Word()
  {
    hide LeadingSpace, LeadingWord;
    var w := LeadingWord(s);
    assert s[0..] == s;
    forall i | 0 <= i < |t.Word()| ensures !IsSpace(s[i]) {
      assert s[i] == t.Word()[i];
    }
    assert !IsSpace(s[0]) && LeadingSpace(s) == 0;
    assert w >= |t.Word()|;
    if IsToken(s[..w]) {
      var u: Token :| s[..w] == u.Word();
      TokensAreNoPrefixes(t, u, s);
    }
  }

  lemma TokensAreNoPrefixes(t: Token, u: Token, s: string)
    requires TokenAt(s) == Some(t) && u.Word() <= s
    ensures t == u
  {
    assert s[0] == t.Word()[0] == u.Word()[0];
  }

  lemma WholeTokenIsToken(s: string, t: Token)
    requires t.Word() <= s
    ensures TokenAt(s).Some?
  {
  }

  lemma NoTokenNoWord(s: string)
    requires TokenAt(s).None?
    ensures !IsToken(s[..LeadingWord(s)]) && !TokenWithin(s, 0)
  {
    hide LeadingWord;
    assert s[0..] == s;
    if IsToken(s[..LeadingWord(s)]) {
      var u: Token :| s[..LeadingWord(s)] == u.Word();
      WholeTokenIsToken(s, u);
    }
  }

  /** A source, or the part of one that begins with white space. */
  lemma {:induction false} StandAloneIs(s: string, parted: bool)
    requires parted || s == "" || IsSpace(s[0])
    ensures StandAlone(Pieces(s), parted) <==> TokensStandAlone(s)
    decreases |s|, 1
  {
    hide Pieces, PiecesAfter, TokenAt, Token.Word, IsToken, TokenFree, LeadingWord, LeadingSpace, StandAlone,
         TokensStandAlone;
    var n := LeadingSpace(s);
    var u := s[n..];
    if u == "" {
      OnlySpace(s, parted);
    } else {
      FirstPiece(s);
      PartedAtWord(s, parted);
      match TokenAt(u)
      case Some(t) =>
        StandAloneFirst(Text(s[..n]), PiecesAfter(t, u[|t.Word()|..]), parted);
        StandAloneAtToken(s, t);
      case None =>
        StandAloneFirst(Text(s[..n + 1]), Pieces(s[n + 1..]), parted);
        StandAloneInWord(s[n + 1..]);
        assert s[n + 1..] == u[1..];
        StandAloneAtWord(s);
    }
  }

  lemma OnlySpace(s: string, parted: bool)
    requires LeadingSpace(s) == |s|
    ensures StandAlone(Pieces(s), parted) && TokensStandAlone(s)
  {
    assert s != "" ==> Pieces(s) == [Text(s)];
  }

  lemma PartedAtWord(s: string, parted: bool)
    requires parted || s == "" || IsSpace(s[0])
    requires LeadingSpace(s) < |s|
    ensures var n := LeadingSpace(s); PartedAfter(parted, s[..n]) && !PartedAfter(parted, s[..n + 1])
  {
    hide LeadingSpace, IsSpace;
  }

  lemma {:induction false} StandAloneAtToken(s: string, t: Token)
    requires LeadingSpace(s) < |s| && TokenAt(s[LeadingSpace(s)..]) == Some(t)
    ensures var u := s[LeadingSpace(s)..];
            |t.Word()| <= |u| && (StandAlone(PiecesAfter(t, u[|t.Word()|..]), true) <==> TokensStandAlone(s))
    decreases |s|, 0
  {
    hide Pieces, PiecesAfter, TokenAt, Token.Word, IsToken, TokenFree, LeadingWord, LeadingSpace, StandAlone,
         TokenWithin, TokensStandAlone, AfterName;
    var u := s[LeadingSpace(s)..];
    var rest := u[|t.Word()|..];
    TokenOrLonger(u, t);
    if rest == "" {
      TokenAtEndStandsAlone(s, t);
    } else {
      var parted := PiecesAtToken(t, rest);
      TokenIsWordIfParted(u, t);
      if LeadingSpace(rest) == 0 {
        TokenInLongerWord(s);
      } else {
        TokenWithName(s, t);
        StandAloneIs(AfterName(rest), parted);
      }
    }
  }

  lemma PiecesAtToken(t: Token, s: string) returns (parted: bool)
    requires s != ""
    ensures StandAlone(PiecesAfter(t, s), true)
            <==> 0 < LeadingSpace(s) < |s| && StandAlone(Pieces(AfterName(s)), parted)
  {
    hide Pieces, PiecesAfter, LeadingWord, LeadingSpace, StandAlone, Piece.Source, Proper;
    var n := LeadingSpace(s);
    var m := n + LeadingWord(s[n..]);
    var d := Directive(t, s[..n], s[n..m]);
    parted := PartedAfter(true, d.Source());
    PiecesAfterIs(t, s);
    StandAloneFirst(d, Pieces(s[m..]), true);
    ProperIff(t, s, n, m);
    NameIsThere(s);
  }

  lemma TokenIsWordIfParted(s: string, t: Token)
    requires |t.Word()| <= LeadingWord(s) && |t.Word()| < |s|
    ensures LeadingWord(s) == |t.Word()| <==> LeadingSpace(s[|t.Word()|..]) > 0
  {
    hide LeadingWord, LeadingSpace, Token.Word, IsSpace;
    var n := |t.Word()|;
    var c := s[n];
    assert s[n..][0] == c;
    assert LeadingSpace(s[n..]) > 0 <==> IsSpace(c);
    assert LeadingWord(s) > n ==> !IsSpace(c);
  }

  lemma ProperIff(t: Token, s: string, n: nat, m: nat)
    requires n <= m <= |s|
    ensures Proper(Directive(t, s[..n], s[n..m])) <==> 0 < n < m
  {
  }

  lemma NameIsThere(s: string)
    ensures LeadingWord(s[LeadingSpace(s)..]) > 0 <==> LeadingSpace(s) < |s|
  {
    hide LeadingSpace, LeadingWord, IsSpace;
    var n := LeadingSpace(s);
    if n < |s| {
      assert s[n..][0] == s[n];
    }
  }

  lemma PiecesAfterIs(t: Token, s: string)
    requires s != ""
    ensures var n := LeadingSpace(s);
            var m := n + LeadingWord(s[n..]);
            PiecesAfter(t, s) == [Directive(t, s[..n], s[n..m])] + Pieces(s[m..])
  {
    hide Pieces, LeadingSpace, LeadingWord;
  }

  lemma TokenAtEndStandsAlone(s: string, t: Token)
    requires var u := s[LeadingSpace(s)..]; u != "" && IsToken(u[..LeadingWord(u)]) && |u| == LeadingWord(u)
    ensures StandAlone(PiecesAfter(t, ""), true) && TokensStandAlone(s)
  {
    hide LeadingSpace, LeadingWord, IsToken, Token.Word;
  }

  lemma TokenInLongerWord(s: string)
    requires var u := s[LeadingSpace(s)..]; 0 < LeadingWord(u) && !IsToken(u[..LeadingWord(u)]) && TokenWithin(u, 0)
    ensures !TokensStandAlone(s)
  {
    hide LeadingSpace, LeadingWord, IsToken, TokenWithin;
  }

  lemma TokenWithName(s: string, t: Token)
    requires var u := s[LeadingSpace(s)..];
             u != "" && IsToken(u[..LeadingWord(u)]) && |t.Word()| == LeadingWord(u) < |u|
    ensures var rest := s[LeadingSpace(s)..][|t.Word()|..];
            TokensStandAlone(s) <==> LeadingSpace(rest) < |rest| && TokensStandAlone(AfterName(rest))
  {
    hide LeadingSpace, LeadingWord, IsToken, Token.Word, AfterName;
  }

  /** The part of a source that begins inside a word. */
  lemma {:induction false} StandAloneInWord(s: string)
    ensures StandAlone(Pieces(s), false) <==> TokenFree(s, LeadingWord(s)) && TokensStandAlone(s[LeadingWord(s)..])
    decreases |s|, 2
  {
    hide Pieces, PiecesAfter, TokenAt, Token.Word, IsToken, TokenFree, LeadingWord, LeadingSpace, StandAlone, IsSpace,
         TokensStandAlone;
    if s == "" || IsSpace(s[0]) {
      StandAloneIs(s, false);
      NoWordInFront(s);
    } else {
      FirstPiece(s);
      assert s[0..] == s;
      match TokenAt(s)
      case Some(t) =>
        StandAloneFirst(Text(s[..0]), PiecesAfter(t, s[|t.Word()|..]), false);
        TokenInsideWord(s, t);
      case None =>
        StandAloneFirst(Text(s[..1]), Pieces(s[1..]), false);
        StandAloneInWord(s[1..]);
        WordGoesOn(s);
    }
  }

  lemma NoWordInFront(s: string)
    requires s == "" || IsSpace(s[0])
    ensures LeadingWord(s) == 0 && s[LeadingWord(s)..] == s && TokenFree(s, 0)
  {
  }

  lemma WordGoesOn(s: string)
    requires s != "" && !IsSpace(s[0]) && TokenAt(s).None?
    ensures LeadingWord(s) == 1 + LeadingWord(s[1..]) && s[LeadingWord(s)..] == s[1..][LeadingWord(s[1..])..]
    ensures TokenFree(s, LeadingWord(s)) <==> TokenFree(s[1..], LeadingWord(s[1..]))
  {
    hide TokenAt, Token.Word, IsSpace;
    assert s[0..] == s;
    forall i | 0 <= i < |s| ensures TokenWithin(s[1..], i) == TokenWithin(s, i + 1) {
      assert s[1..][i..] == s[i + 1..];
    }
    assert forall i :: 0 < i < LeadingWord(s) ==> TokenWithin(s, i) == TokenWithin(s[1..], i - 1);
  }

  /** It is no directive if it ends the source, and one inside a word otherwise. */
  lemma TokenInsideWord(s: string, t: Token)
    requires s != "" && !IsSpace(s[0]) && TokenAt(s) == Some(t)
    ensures |t.Word()| <= |s|
    ensures StandAlone(PiecesAfter(t, s[|t.Word()|..]), false)
            <==> TokenFree(s, LeadingWord(s)) && TokensStandAlone(s[LeadingWord(s)..])
  {
    hide Pieces, Token.Word, IsToken, LeadingWord, LeadingSpace, IsSpace, TokenWithin, TokenAt;
    TokenOrLonger(s, t);
    var rest := s[|t.Word()|..];
    if rest == "" {
      assert s == t.Word() && s[LeadingWord(s)..] == "";
      forall i | 0 <= i < |s| ensures !TokenWithin(s, i) {
        NoTokenWithinToken(t, i);
      }
    } else {
      StandAloneFirst(PiecesAfter(t, rest)[0], PiecesAfter(t, rest)[1..], false);
      assert TokenWithin(s, 0);
    }
  }

  lemma NoTokenWithinToken(t: Token, i: nat)
    requires i <= |t.Word()|
    ensures !TokenWithin(t.Word(), i)
  {
    hide TokenAt, Token.Word;
    if i > 0 {
      NoTokenInsideToken(t, i);
    } else if TokenWithin(t.Word(), 0) {
      assert t.Word()[0..] == t.Word();
      TokensAreNoPrefixes(TokenAt(t.Word()).value, t, t.Word());
    }
  }

  /** A source whose first word does not start with a token. */
  lemma StandAloneAtWord(s: string)
    requires LeadingSpace(s) < |s| && TokenAt(s[LeadingSpace(s)..]).None?
    ensures var u := s[LeadingSpace(s)..];
            var w := LeadingWord(u[1..]);
            TokensStandAlone(s) <==> TokenFree(u[1..], w) && TokensStandAlone(u[1..][w..])
  {
    hide LeadingSpace, LeadingWord, TokenAt, IsSpace, IsToken, TokenFree, Token.Word;
    var u := s[LeadingSpace(s)..];
    NoTokenNoWord(u);
    WordGoesOn(u);
  }

  /**
    The directives of a source are whole words, each with white space and then a name behind it, if and only if a word
    follows each token that is a word, unless it ends the source, and no other word has a token in it, those names
    excepted.
   */
  lemma DirectivesStandAloneIff(s: string)
    ensures DirectivesStandAlone(Pieces(s)) <==> TokensStandAlone(s)
  {
    hide Pieces, TokensStandAlone, StandAlone, Piece.Source;
    StandAloneIs(s, true);
    StandAloneBehind("", Pieces(s));
    assert forall k :: 0 <= k < |Pieces(s)| ==> "" + Original(Pieces(s)[..k]) == Original(Pieces(s)[..k]);
  }

  // ----- where they do not

  predicate Plain(text: string) {
    forall i :: 0 <= i < |text| ==> text[i] != 'U' && text[i] != 'S' && text[i] != 'C'
  }

  lemma SkipCharacter(c: char, rest: string, b: Bindings)
    requires Plain([c])
    ensures Render(Pieces([c] + rest), b) == [c] + Render(Pieces(rest), b)
    ensures WrittenIn(Pieces([c] + rest), b) == WrittenIn(Pieces(rest), b)
    ensures StandAlone(Pieces([c] + rest), true) ==> StandAlone(Pieces(rest), true)
  {
    hide Pieces, StandAlone, Render, WrittenIn, LeadingSpace, TokenAt, IsSpace, BindAll, PiecesAfter, Parted,
         PartedAfter;
    var s := [c] + rest;
    if !IsSpace(c) || rest == "" {
      LoneCharacter(c, rest);
      TextInFront([c], Pieces(rest), b);
    } else {
      var x, y := MoreSpace(c, rest);
      TextInFront([c] + x, y, b);
      TextInFront(x, y, b);
      SpaceParts(c, x);
      StandAloneFirst(Text([c] + x), y, true);
      StandAloneFirst(Text(x), y, true);
      assert [c] + (x + Render(y, b)) == [c] + x + Render(y, b);
    }
  }

  lemma SpaceParts(c: char, text: string)
    requires IsSpace(c)
    ensures PartedAfter(true, [c] + text) == PartedAfter(true, text)
  {
  }

  lemma TextInFront(text: string, pieces: seq<Piece>, b: Bindings)
    ensures Render([Text(text)] + pieces, b) == text + Render(pieces, b)
    ensures WrittenIn([Text(text)] + pieces, b) == WrittenIn(pieces, b)
    ensures StandAlone([Text(text)] + pieces, true) ==> StandAlone(pieces, true)
    ensures StandAlone(pieces, PartedAfter(true, text)) ==> StandAlone([Text(text)] + pieces, true)
  {
    hide Render, WrittenIn, StandAlone, Parted, Pieces;
    RenderText(text, pieces, b);
    StandAloneFirst(Text(text), pieces, true);
    if StandAlone(pieces, PartedAfter(true, text)) {
      StandAloneMonotone(pieces, PartedAfter(true, text));
    }
    WrittenText(text, pieces, b);
  }

  lemma WrittenText(text: string, pieces: seq<Piece>, b: Bindings)
    ensures WrittenIn([Text(text)] + pieces, b) == WrittenIn(pieces, b)
  {
    assert ([Text(text)] + pieces)[1..] == pieces;
  }

  lemma {:induction false} StandAloneMonotone(pieces: seq<Piece>, parted: bool)
    requires StandAlone(pieces, parted)
    ensures StandAlone(pieces, true)
  {
    if pieces != [] && pieces[0].Source() == "" {
      StandAloneMonotone(pieces[1..], parted);
    }
  }

  lemma LoneCharacter(c: char, rest: string)
    requires Plain([c]) && (!IsSpace(c) || rest == "")
    ensures Pieces([c] + rest) == [Text([c])] + Pieces(rest)
  {
    hide PiecesAfter, Pieces, LeadingSpace;
    var s := [c] + rest;
    FirstPiece(s);
    assert s[0] == c && s[1..] == rest && s[..1] == [c];
    if IsSpace(c) {
      NothingIsNothing();
      assert s == [c] && LeadingSpace(s) == 1;
    } else {
      PlainIsNoToken(s);
      assert LeadingSpace(s) == 0 && s[0..] == s;
    }
  }

  lemma PlainIsNoToken(s: string)
    requires s != "" && Plain(s[..1])
    ensures TokenAt(s).None?
  {
    assert s[0] == s[..1][0];
  }

  lemma OneMoreSpace(c: char, rest: string)
    requires IsSpace(c)
    ensures LeadingSpace([c] + rest) == 1 + LeadingSpace(rest)
  {
    hide IsSpace;
    assert ([c] + rest)[1..] == rest;
  }

  lemma MoreSpace(c: char, rest: string) returns (text: string, pieces: seq<Piece>)
    requires IsSpace(c) && rest != ""
    ensures Pieces(rest) == [Text(text)] + pieces && Pieces([c] + rest) == [Text([c] + text)] + pieces
  {
    hide PiecesAfter, Pieces, TokenAt, IsSpace, LeadingSpace, Token.Word;
    var s := [c] + rest;
    FirstPiece(s);
    FirstPiece(rest);
    var n := LeadingSpace(rest);
    OneMoreSpace(c, rest);
    assert s[1 + n..] == rest[n..];
    if n == |rest| {
      text, pieces := rest, [];
    } else {
      match TokenAt(rest[n..])
      case None =>
        text, pieces := rest[..n + 1], Pieces(rest[n + 1..]);
        assert s[..n + 2] == [c] + text && s[n + 2..] == rest[n + 1..];
      case Some(t) =>
        text, pieces := rest[..n], PiecesAfter(t, rest[n..][|t.Word()|..]);
        assert s[..n + 1] == [c] + text;
    }
  }

  lemma {:induction false} SkipText(text: string, rest: string, b: Bindings)
    requires Plain(text)
    ensures Render(Pieces(text + rest), b) == text + Render(Pieces(rest), b)
    ensures WrittenIn(Pieces(text + rest), b) == WrittenIn(Pieces(rest), b)
    ensures StandAlone(Pieces(text + rest), true) ==> StandAlone(Pieces(rest), true)
  {
    hide Pieces, Render, WrittenIn, StandAlone;
    if text == "" {
      assert text + rest == rest;
    } else {
      assert text + rest == [text[0]] + (text[1..] + rest);
      SkipCharacter(text[0], text[1..] + rest, b);
      SkipText(text[1..], rest, b);
      assert [text[0]] + (text[1..] + Render(Pieces(rest), b)) == text + Render(Pieces(rest), b);
    }
  }

  predicate IsWord(s: string) {
    s != "" && forall i :: 0 <= i < |s| ==> !IsSpace(s[i])
  }

  predicate AllSpace(s: string) {
    forall i :: 0 <= i < |s| ==> IsSpace(s[i])
  }

  /** A source that begins with a directive. */
  lemma DirectiveInFront(t: Token, gap: string, name: string, rest: string, b: Bindings)
    requires AllSpace(gap) && IsWord(name) && (rest == "" || IsSpace(rest[0]))
    ensures var s := t.Word() + gap + name + rest;
            && Render(Pieces(s), b)
               == Replacement(t, b.NumberFor(t, name)) + gap + name + Render(Pieces(rest), b.Bind(t, name))
            && WrittenIn(Pieces(s), b)
               == [Written(t, name, b.NumberFor(t, name))] + WrittenIn(Pieces(rest), b.Bind(t, name))
            && (StandAlone(Pieces(s), true) ==> gap != "" && StandAlone(Pieces(rest), true))
  {
    hide Pieces, PiecesAfter, Render, WrittenIn, StandAlone, Replacement, Bindings.NumberFor, Bindings.Bind, Token.Word,
         AllSpace, IsWord, IsSpace;
    var s := t.Word() + gap + name + rest;
    var d := Directive(t, gap, name);
    SplitsDirective(t, gap, name, rest);
    TextInFront("", [d] + Pieces(rest), b);
    RenderDirective(t, gap, name, Pieces(rest), b);
    WrittenDirective(d, Pieces(rest), b);
    StandAloneFirst(d, Pieces(rest), true);
    if StandAlone(Pieces(rest), PartedAfter(true, d.Source())) {
      StandAloneMonotone(Pieces(rest), PartedAfter(true, d.Source()));
    }
  }

  lemma WrittenDirective(d: Piece, pieces: seq<Piece>, b: Bindings)
    requires d.Directive?
    ensures WrittenIn([d] + pieces, b)
            == [Written(d.token, d.name, b.NumberFor(d.token, d.name))] + WrittenIn(pieces, b.Bind(d.token, d.name))
  {
    assert ([d] + pieces)[1..] == pieces;
  }

  lemma SplitsDirective(t: Token, gap: string, name: string, rest: string)
    requires AllSpace(gap) && IsWord(name) && (rest == "" || IsSpace(rest[0]))
    ensures Pieces(t.Word() + gap + name + rest) == [Text("")] + ([Directive(t, gap, name)] + Pieces(rest))
  {
    hide Pieces, PiecesAfter, LeadingSpace, Token.Word, TokenAt, IsSpace, AllSpace, IsWord;
    var after := gap + (name + rest);
    var s := t.Word() + after;
    assert t.Word() + gap + name + rest == s;
    TokenInFront(t, after);
    TokenStartsNoSpace(s);
    FirstPiece(s);
    assert LeadingSpace(s) == 0 && s[0..] == s && s[..0] == "" && s[|t.Word()|..] == after;
    SplitsAfterToken(t, gap, name, rest);
  }

  lemma SplitsAfterToken(t: Token, gap: string, name: string, rest: string)
    requires AllSpace(gap) && IsWord(name) && (rest == "" || IsSpace(rest[0]))
    ensures PiecesAfter(t, gap + (name + rest)) == [Directive(t, gap, name)] + Pieces(rest)
  {
    hide Pieces, PiecesAfter, LeadingSpace, LeadingWord, IsSpace, AllSpace;
    var after := gap + (name + rest);
    var w := |gap|;
    PiecesAfterIs(t, after);
    SpaceLength(gap, name + rest);
    WordLength(name, rest);
    assert after[w..] == name + rest && after[..w] == gap;
    assert after[w..w + |name|] == name && after[w + |name|..] == rest;
  }

  lemma SpaceLength(space: string, rest: string)
    requires AllSpace(space) && (rest == "" || !IsSpace(rest[0]))
    ensures LeadingSpace(space + rest) == |space|
  {
    hide IsSpace, LeadingSpace;
    var s := space + rest;
    forall i | 0 <= i < |space| ensures IsSpace(s[i]) {
      assert s[i] == space[i];
    }
    assert LeadingSpace(s) >= |space|;
    assert rest != "" ==> s[|space|] == rest[0];
  }

  lemma WordLength(word: string, rest: string)
    requires IsWord(word) && (rest == "" || IsSpace(rest[0]))
    ensures LeadingWord(word + rest) == |word|
  {
    hide IsSpace, LeadingWord;
    var s := word + rest;
    forall i | 0 <= i < |word| ensures !IsSpace(s[i]) {
      assert s[i] == word[i];
    }
    assert LeadingWord(s) >= |word|;
    assert rest != "" ==> s[|word|] == rest[0];
  }

  lemma TokenInFront(t: Token, after: string)
    ensures TokenAt(t.Word() + after) == Some(t)
  {
    var s := t.Word() + after;
    WholeTokenIsToken(s, t);
    TokensAreNoPrefixes(TokenAt(s).value, t, s);
  }

  /** Text without a token, from one word to the next. */
  predicate Between(text: string) {
    text != "" && IsSpace(text[0]) && Plain(text)
  }

  /** A directive, text, and what follows. */
  lemma DirectiveAndText(t: Token, gap: string, name: string, text: string, rest: string, b: Bindings)
    requires AllSpace(gap) && IsWord(name) && Between(text)
    ensures var s := t.Word() + gap + name + text + rest;
            var next := b.Bind(t, name);
            && Render(Pieces(s), b)
               == Replacement(t, b.NumberFor(t, name)) + gap + name + text + Render(Pieces(rest), next)
            && WrittenIn(Pieces(s), b)
               == [Written(t, name, b.NumberFor(t, name))] + WrittenIn(Pieces(rest), next)
            && (StandAlone(Pieces(s), true) ==> gap != "" && StandAlone(Pieces(rest), true))
  {
    hide Pieces, Render, WrittenIn, StandAlone, Replacement, Bindings.NumberFor, Bindings.Bind, Token.Word, AllSpace,
         IsWord, IsSpace, Plain;
    var s := t.Word() + gap + name + text + rest;
    assert s == t.Word() + gap + name + (text + rest);
    DirectiveInFront(t, gap, name, text + rest, b);
    SkipText(text, rest, b.Bind(t, name));
    var out := Replacement(t, b.NumberFor(t, name)) + gap + name;
    assert out + (text + Render(Pieces(rest), b.Bind(t, name))) == out + text + Render(Pieces(rest), b.Bind(t, name));
  }

  /**
    A block whose instance is called something that ends in UBO: both where it is declared and where it is used, the
    end of the instance's name becomes a layout, with a binding of its own.
   */
  lemma TokenInsideName(block: string, head: string, tail: string, body: string, member: string, end: string)
    requires IsWord(block) && IsWord(tail) && IsWord(member) && Between(head) && Between(body) && Between(end)
    requires block != tail && block != member && tail != member
    ensures var s := "UBO" + " " + block + head + "UBO" + tail + body + "UBO" + member + end;
            && Render(Pieces(s), EMPTY)
               == Replacement(UBO, 0) + " " + block + head + Replacement(UBO, 1) + tail + body
                  + Replacement(UBO, 2) + member + end
            && !TokensStandAlone(s)
  {
    hide Pieces, Render, WrittenIn, StandAlone, Replacement, AllSpace, IsWord, Between, IsSpace, TokensStandAlone,
         Bindings.NumberFor, Bindings.Bind;
    var s := "UBO" + " " + block + head + "UBO" + tail + body + "UBO" + member + end;
    var use := "UBO" + "" + member + end;
    var declared := "UBO" + "" + tail + body + use;
    assert s == "UBO" + " " + block + head + declared;
    OneSpace();
    FirstThree(block, tail, member);
    var one := EMPTY.Bind(UBO, block);
    DirectiveAndText(UBO, " ", block, head, declared, EMPTY);
    DirectiveAndText(UBO, "", tail, body, use, one);
    assert use == use + "";
    DirectiveAndText(UBO, "", member, end, "", one.Bind(UBO, tail));
    NothingRenders(one.Bind(UBO, tail).Bind(UBO, member));
    StandAloneIs(s, true);
  }

  lemma FirstThree(a: string, b: string, c: string)
    requires a != b && a != c && b != c
    ensures EMPTY.NumberFor(UBO, a) == 0
    ensures EMPTY.Bind(UBO, a).NumberFor(UBO, b) == 1
    ensures EMPTY.Bind(UBO, a).Bind(UBO, b).NumberFor(UBO, c) == 2
  {
  }

  lemma NothingRenders(b: Bindings)
    ensures Render(Pieces(""), b) == "" && WrittenIn(Pieces(""), b) == [] && BindAll(Pieces(""), b) == b
  {
  }

  /** A token with nothing but white space behind it becomes a layout too, for a block without a name. */
  lemma TokenWithoutName(t: Token, gap: string, b: Bindings)
    requires AllSpace(gap) && gap != ""
    ensures Render(Pieces(t.Word() + gap), b) == Replacement(t, b.NumberFor(t, "")) + gap
    ensures BindAll(Pieces(t.Word() + gap), b) == b.Bind(t, "")
    ensures !TokensStandAlone(t.Word() + gap)
  {
    hide Pieces, PiecesAfter, Render, BindAll, StandAlone, Replacement, Bindings.NumberFor, Bindings.Bind, Token.Word,
         AllSpace, IsSpace, TokenAt, LeadingSpace, TokensStandAlone;
    var s, d := t.Word() + gap, Directive(t, gap, "");
    TokenInFront(t, gap);
    TokenStartsNoSpace(s);
    FirstPiece(s);
    assert LeadingSpace(s) == 0 && s[0..] == s && s[..0] == "" && s[|t.Word()|..] == gap;
    PiecesAfterIs(t, gap);
    SpaceLength(gap, "");
    assert gap + "" == gap && gap[..|gap|] == gap && gap[|gap|..] == "";
    RenderText("", [d] + Pieces(""), b);
    RenderDirective(t, gap, "", Pieces(""), b);
    NothingRenders(b.Bind(t, ""));
    StandAloneFirst(Text(""), [d] + Pieces(""), true);
    StandAloneFirst(d, Pieces(""), true);
    StandAloneIs(s, true);
  }

  lemma OneSpace()
    ensures AllSpace(" ") && AllSpace("")
  {
  }

  lemma ShaderWithToken()
    ensures var s := "UBO" + " " + "Camera" + " { mat4 m; } cam" + "UBO" + ";"
                     + " void main() { gl_Position = cam" + "UBO" + ".m[0];" + " }";
            && Render(Pieces(s), EMPTY)
               == "layout(std140, binding = 0) uniform " + " " + "Camera" + " { mat4 m; } cam"
                  + "layout(std140, binding = 1) uniform " + ";"
                  + " void main() { gl_Position = cam" + "layout(std140, binding = 2) uniform " + ".m[0];" + " }"
            && !TokensStandAlone(s)
  {
    hide Pieces, Render, TokensStandAlone;
    TokenInsideName("Camera", " { mat4 m; } cam", ";", " void main() { gl_Position = cam", ".m[0];", " }");
    LayoutsOfThree();
  }

  lemma LayoutsOfThree()
    ensures Replacement(UBO, 0) == "layout(std140, binding = 0) uniform "
    ensures Replacement(UBO, 1) == "layout(std140, binding = 1) uniform "
    ensures Replacement(UBO, 2) == "layout(std140, binding = 2) uniform "
  {
    assert Decimal(0) == "0" && Decimal(1) == "1" && Decimal(2) == "2";
  }

  /** One directive of each kind: blocks share a count, constants have their own. */
  lemma OneOfEach(block: string, head: string, storage: string, body: string, kind: string, end: string)
    requires IsWord(block) && IsWord(storage) && IsWord(kind) && Between(head) && Between(body) && Between(end)
    ensures Render(Pieces("UBO" + " " + block + head + ("SSBO" + " " + storage + body
                                                         + ("CONSTANT" + " " + kind + end))), EMPTY)
            == "layout(std140, binding = 0) uniform " + " " + block + head
               + ("layout(std430, binding = 1) buffer  " + " " + storage + body
                  + ("layout(constant_id = 0) const " + " " + kind + end))
  {
    hide Pieces, Render, WrittenIn, StandAlone, Replacement, AllSpace, IsWord, IsSpace, Between, Bindings.NumberFor,
         Bindings.Bind;
    var third := "CONSTANT" + " " + kind + end;
    var second := "SSBO" + " " + storage + body + third;
    OneSpace();
    var one := EMPTY.Bind(UBO, block);
    var two := one.Bind(SSBO, storage);
    NumbersOfEach(block, storage, kind);
    LayoutsOfEach();
    DirectiveAndText(UBO, " ", block, head, second, EMPTY);
    DirectiveAndText(SSBO, " ", storage, body, third, one);
    assert third + "" == third;
    DirectiveAndText(CONSTANT, " ", kind, end, "", two);
    NothingRenders(two.Bind(CONSTANT, kind));
    var last := "layout(constant_id = 0) const " + " " + kind + end;
    assert last + "" == last;
  }

  lemma NumbersOfEach(block: string, storage: string, kind: string)
    ensures EMPTY.NumberFor(UBO, block) == 0
    ensures EMPTY.Bind(UBO, block).NumberFor(SSBO, storage) == 1
    ensures EMPTY.Bind(UBO, block).Bind(SSBO, storage).NumberFor(CONSTANT, kind) == 0
  {
  }

  lemma LayoutsOfEach()
    ensures Replacement(UBO, 0) == "layout(std140, binding = 0) uniform "
    ensures Replacement(SSBO, 1) == "layout(std430, binding = 1) buffer  "
    ensures Replacement(CONSTANT, 0) == "layout(constant_id = 0) const "
  {
    assert Decimal(0) == "0" && Decimal(1) == "1";
  }

  /** The id of a constant goes by the word behind CONSTANT, its type: two constants of one type get the same id. */
  lemma ConstantsOfOneTypeCollide(kind: string, first: string, second: string)
    requires IsWord(kind) && Between(first) && Between(second)
    ensures WrittenInStages(["CONSTANT" + " " + kind + first + "CONSTANT" + " " + kind + second], EMPTY)
            == [Written(CONSTANT, kind, 0), Written(CONSTANT, kind, 0)]
  {
    hide Pieces, Render, WrittenIn, StandAlone, Replacement, AllSpace, IsWord, IsSpace, Plain;
    var rest := "CONSTANT" + " " + kind + second;
    var s := "CONSTANT" + " " + kind + first + "CONSTANT" + " " + kind + second;
    assert s == "CONSTANT" + " " + kind + first + rest;
    OneSpace();
    var b := EMPTY.Bind(CONSTANT, kind);
    DirectiveAndText(CONSTANT, " ", kind, first, rest, EMPTY);
    assert rest + "" == rest;
    DirectiveAndText(CONSTANT, " ", kind, second, "", b);
    NothingRenders(b.Bind(CONSTANT, kind));
    assert [s][1..] == [];
  }

  lemma TwoConstants()
    ensures WrittenInStages(["CONSTANT uint A; CONSTANT uint B;"], EMPTY)
            == [Written(CONSTANT, "uint", 0), Written(CONSTANT, "uint", 0)]
  {
    hide WrittenInStages;
    ConstantsOfOneTypeCollide("uint", " A; ", " B;");
    assert "CONSTANT" + " " + "uint" + " A; " + "CONSTANT" + " " + "uint" + " B;"
        == "CONSTANT uint A; CONSTANT uint B;";
  }
}
