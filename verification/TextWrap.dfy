/**
 * Word wrapping with a hanging indent.  A text is a sequence of glyphs: a
 * visible character, or an escape sequence, which has no width.
 */
module TextWrap {
  import opened Common

  datatype Glyph = Ch(c: char) | Esc(sequence: string)

  type Text = seq<Glyph>

  const Newline := Ch('\n')
  const Space := Ch(' ')

  /** `visibleLen`: escapes do not count. */
  function Visible(text: Text): (n: nat)
    ensures n <= |text|
  {
    if text == [] then 0 else (if text[0].Ch? then 1 else 0) + Visible(text[1..])
  }

  /** `unicode.IsSpace`. */
  predicate IsWhite(c: char) {
    || c in "\t\n\r "
    || c in ['\U{B}', '\U{C}', '\U{85}', '\U{A0}', '\U{1680}', '\U{2028}', '\U{2029}', '\U{202F}', '\U{205F}', '\U{3000}']
    || '\U{2000}' <= c <= '\U{200A}'
  }

  predicate WhiteGlyph(g: Glyph) {
    g.Ch? && IsWhite(g.c)
  }

  predicate AllWhite(text: Text) {
    forall i :: 0 <= i < |text| ==> WhiteGlyph(text[i])
  }

  function Spaces(n: nat): (text: Text)
    ensures |text| == n && forall i :: 0 <= i < n ==> text[i] == Space
  {
    seq(n, _ => Space)
  }

  /** The count behind `leadingSpaces`: escapes are looked through. */
  function LeadingSpaces(line: Text): nat {
    if line == [] then 0
    else if line[0].Esc? then LeadingSpaces(line[1..])
    else if line[0] == Space then 1 + LeadingSpaces(line[1..])
    else 0
  }

  function TrimLeft(text: Text): Text {
    if text != [] && text[0] == Space then TrimLeft(text[1..]) else text
  }

  // ----- Tokens -----

  predicate SameRun(a: Glyph, b: Glyph) {
    a.Ch? && b.Ch? && (a == Space <==> b == Space)
  }

  /** The length of the run a text begins with: an escape, or a maximal run of
      spaces, or a maximal run of other characters. */
  function RunLength(text: Text): (n: nat)
    requires text != []
    ensures 0 < n <= |text|
    ensures forall i :: 0 < i < n ==> SameRun(text[0], text[i])
    ensures n < |text| ==> !SameRun(text[0], text[n])
  {
    if |text| == 1 || !SameRun(text[0], text[1]) then 1 else 1 + RunLength(text[1..])
  }

  function Tokens(text: Text): seq<Text> {
    if text == [] then [] else [text[..RunLength(text)]] + Tokens(text[RunLength(text)..])
  }

  predicate AllSpace(t: Text) {
    forall i :: 0 <= i < |t| ==> t[i] == Space
  }

  predicate IsWord(t: Text) {
    t != [] && forall i :: 0 <= i < |t| ==> t[i].Ch? && t[i] != Space
  }

  /** An escape, a run of spaces, or a word. */
  predicate IsToken(t: Text) {
    t != [] && ((|t| == 1 && t[0].Esc?) || AllSpace(t) || IsWord(t))
  }

  lemma {:induction false} TokensAreTokens(text: Text)
    ensures forall t :: t in Tokens(text) ==> IsToken(t)
  {
    if text != [] {
      var n := RunLength(text);
      assert IsToken(text[..n]);
      TokensAreTokens(text[n..]);
    }
  }

  function Flatten(pieces: seq<Text>): Text {
    if pieces == [] then [] else pieces[0] + Flatten(pieces[1..])
  }

  /** Tokenising loses nothing. */
  lemma {:induction false} FlattenTokens(text: Text)
    ensures Flatten(Tokens(text)) == text
  {
    if text != [] {
      FlattenTokens(text[RunLength(text)..]);
    }
  }

  lemma TokensUnfold(text: Text, n: nat)
    requires text != [] && n == RunLength(text)
    ensures Tokens(text) == [text[..n]] + Tokens(text[n..])
  {
  }

  /** Runs end at an escape, so a text may be tokenised piece by piece there. */
  lemma {:induction false} TokensSplit(a: Text, b: Text)
    requires a == [] || b == [] || a[|a| - 1].Esc? || b[0].Esc?
    ensures Tokens(a + b) == Tokens(a) + Tokens(b)
  {
    if a == [] {
      assert a + b == b;
    } else if b == [] {
      assert a + b == a;
    } else {
      RunOfConcat(a, b);
      var n := RunLength(a);
      var tail := a[n..];
      assert tail == [] || b[0].Esc? || tail[|tail| - 1].Esc?;
      TokensSplit(tail, b);
      TokensJoin(a, b, n);
    }
  }

  lemma TokensJoin(a: Text, b: Text, n: nat)
    requires a != [] && n == RunLength(a) == RunLength(a + b)
    requires Tokens(a[n..] + b) == Tokens(a[n..]) + Tokens(b)
    ensures Tokens(a + b) == Tokens(a) + Tokens(b)
  {
    hide Tokens, RunLength;
    TokensUnfold(a, n);
    TokensUnfold(a + b, n);
    assert (a + b)[..n] == a[..n];
    assert (a + b)[n..] == a[n..] + b;
    ConcatAssociative([a[..n]], Tokens(a[n..]), Tokens(b));
  }

  lemma NoTokens()
    ensures Tokens([]) == []
  {
  }

  lemma EscapeToken(g: Glyph)
    requires g.Esc?
    ensures Tokens([g]) == [[g]]
  {
    assert [g][1..] == [] && [g][..1] == [g];
    assert Tokens([g][1..]) == [];
  }

  lemma RunLengthIs(text: Text, n: nat)
    requires 0 < n <= |text|
    requires forall k :: 0 < k < n ==> SameRun(text[0], text[k])
    requires n < |text| ==> !SameRun(text[0], text[n])
    ensures RunLength(text) == n
  {
  }

  /** A stretch of one kind that cannot be extended is the first token. */
  lemma RunIs(text: Text, i: nat, j: nat)
    requires i < j <= |text|
    requires forall k :: i < k < j ==> SameRun(text[i], text[k])
    requires j < |text| ==> !SameRun(text[i], text[j])
    ensures Tokens(text[i..]) == [text[i..j]] + Tokens(text[j..])
  {
    hide Tokens;
    var tail := text[i..];
    RunLengthIs(tail, j - i);
    assert tail[..j - i] == text[i..j] && tail[j - i..] == text[j..];
    TokensUnfold(tail, j - i);
  }

  lemma {:induction false} RunOfConcat(a: Text, b: Text)
    requires a != [] && b != [] && (a[|a| - 1].Esc? || b[0].Esc?)
    ensures RunLength(a + b) == RunLength(a)
  {
    if |a| > 1 {
      assert (a + b)[1..] == a[1..] + b;
      RunOfConcat(a[1..], b);
    }
  }

  method SplitVisibleTokens(text: Text) returns (tokens: seq<Text>)
    requires forall i :: 0 <= i < |text| ==> text[i].Ch?
    ensures tokens == Tokens(text)
  {
    hide Tokens;
    NoTokens();
    tokens := [];
    var i := 0;
    while i < |text|
      invariant 0 <= i <= |text| && tokens + Tokens(text[i..]) == Tokens(text)
    {
      var j := i;
      if text[i] == Space {
        while j < |text| && text[j] == Space
          invariant i <= j <= |text| && forall k :: i <= k < j ==> text[k] == Space
        {
          j := j + 1;
        }
      } else {
        while j < |text| && text[j] != Space
          invariant i <= j <= |text| && forall k :: i <= k < j ==> text[k] != Space
        {
          j := j + 1;
        }
      }
      RunIs(text, i, j);
      ConcatAssociative(tokens, [text[i..j]], Tokens(text[j..]));
      tokens := tokens + [text[i..j]];
      i := j;
    }
    assert text[i..] == [];
  }

  lemma TokensExtend(line: Text, i: nat, j: nat)
    requires i <= j <= |line| && (i == 0 || line[i - 1].Esc? || (i < j && line[i].Esc?))
    ensures Tokens(line[..j]) == Tokens(line[..i]) + Tokens(line[i..j])
  {
    assert line[..j] == line[..i] + line[i..j];
    TokensSplit(line[..i], line[i..j]);
  }

  /** The tokens of a line: its escapes, and its visible stretches split. */
  method LineTokens(line: Text) returns (tokens: seq<Text>)
    ensures tokens == Tokens(line)
  {
    hide Tokens;
    NoTokens();
    tokens := [];
    var cursor := 0;
    for i := 0 to |line|
      invariant 0 <= cursor <= i && forall k :: cursor <= k < i ==> line[k].Ch?
      invariant cursor > 0 ==> line[cursor - 1].Esc?
      invariant tokens == Tokens(line[..cursor])
    {
      if line[i].Esc? {
        if i > cursor {
          var stretch := SplitVisibleTokens(line[cursor..i]);
          tokens := tokens + stretch;
          TokensExtend(line, cursor, i);
        }
        assert tokens == Tokens(line[..i]);
        EscapeToken(line[i]);
        TokensExtend(line, i, i + 1);
        assert line[i..i + 1] == [line[i]];
        tokens := tokens + [[line[i]]];
        cursor := i + 1;
      }
    }
    if cursor < |line| {
      var stretch := SplitVisibleTokens(line[cursor..]);
      tokens := tokens + stretch;
      TokensExtend(line, cursor, |line|);
      assert line[cursor..] == line[cursor..|line|];
    }
    assert line[..|line|] == line;
  }

  // ----- Laying out one line -----

  function Break(indent: nat): Text {
    [Newline] + Spaces(indent)
  }

  /** The column reached so far, and whether this is still the first line. */
  datatype Cursor = Cursor(col: nat, first: bool)

  predicate Overflows(tok: Text, width: int, at: Cursor) {
    at.col > 0 && at.col + Visible(tok) > width
  }

  predicate Skipped(tok: Text, indent: nat, at: Cursor) {
    !at.first && at.col == indent && AllWhite(tok)
  }

  /** The pieces written for one token. */
  function Head(tok: Text, indent: nat, width: int, at: Cursor): seq<Text> {
    if Visible(tok) == 0 then [tok]
    else if Overflows(tok, width, at) then
      [Break(indent)] + (if TrimLeft(tok) == [] then [] else [TrimLeft(tok)])
    else if Skipped(tok, indent, at) then []
    else [tok]
  }

  function Advance(tok: Text, indent: nat, width: int, at: Cursor): Cursor {
    if Visible(tok) == 0 then at
    else if Overflows(tok, width, at) then Cursor(indent + |TrimLeft(tok)|, false)
    else if Skipped(tok, indent, at) then at
    else Cursor(at.col + Visible(tok), at.first)
  }

  function Pieces(tokens: seq<Text>, indent: nat, width: int, at: Cursor): seq<Text> {
    if tokens == [] then []
    else Head(tokens[0], indent, width, at) + Pieces(tokens[1..], indent, width, Advance(tokens[0], indent, width, at))
  }

  const LineStart := Cursor(0, true)

  function WrapLine(line: Text, width: int): Text {
    if Visible(line) <= width then line
    else Flatten(Pieces(Tokens(line), LeadingSpaces(line), width, LineStart))
  }

  lemma {:induction false} FlattenConcat(a: seq<Text>, b: seq<Text>)
    ensures Flatten(a + b) == Flatten(a) + Flatten(b)
  {
    if a == [] {
      assert a + b == b;
    } else {
      assert (a + b)[1..] == a[1..] + b;
      FlattenConcat(a[1..], b);
    }
  }

  /** One token's contribution to what is written. */
  lemma WriteStep(tokens: seq<Text>, indent: nat, width: int, at: Cursor)
    requires tokens != []
    ensures Flatten(Pieces(tokens, indent, width, at))
         == Flatten(Head(tokens[0], indent, width, at))
            + Flatten(Pieces(tokens[1..], indent, width, Advance(tokens[0], indent, width, at)))
  {
    hide Head, Advance, Flatten;
    FlattenConcat(Head(tokens[0], indent, width, at), Pieces(tokens[1..], indent, width, Advance(tokens[0], indent, width, at)));
  }

  lemma HeadText(tok: Text, indent: nat, width: int, at: Cursor)
    ensures Flatten(Head(tok, indent, width, at))
         == if Visible(tok) == 0 then tok
            else if Overflows(tok, width, at) then Break(indent) + TrimLeft(tok)
            else if Skipped(tok, indent, at) then []
            else tok
  {
    var trimmed := TrimLeft(tok);
    assert Flatten([tok]) == tok;
    assert Flatten([trimmed]) == trimmed;
    assert ([Break(indent)] + [trimmed])[1..] == [trimmed];
    assert Flatten([Break(indent)]) == Break(indent);
  }

  /** One token more behind what is written already. */
  lemma WriteNext(r: Text, tokens: seq<Text>, i: nat, indent: nat, width: int, at: Cursor)
    requires i < |tokens|
    ensures r + Flatten(Pieces(tokens[i..], indent, width, at))
         == (if Visible(tokens[i]) == 0 then r + tokens[i]
             else if Overflows(tokens[i], width, at) then ((r + [Newline]) + Spaces(indent)) + TrimLeft(tokens[i])
             else if Skipped(tokens[i], indent, at) then r
             else r + tokens[i])
            + Flatten(Pieces(tokens[i + 1..], indent, width, Advance(tokens[i], indent, width, at)))
  {
    hide Pieces, Flatten, Visible, TrimLeft, Head, Advance, Overflows, Skipped;
    var tok := tokens[i];
    assert tokens[i..][1..] == tokens[i + 1..];
    WriteStep(tokens[i..], indent, width, at);
    HeadText(tok, indent, width, at);
    ConcatAssociative(r, Flatten(Head(tok, indent, width, at)),
                      Flatten(Pieces(tokens[i + 1..], indent, width, Advance(tok, indent, width, at))));
    ConcatAssociative(r, [Newline], Spaces(indent));
    ConcatAssociative(r, Break(indent), TrimLeft(tok));
    assert r + [] == r;
  }

  method WrapSingleLine(out: Text, line: Text, width: int) returns (r: Text)
    ensures r == out + Flatten(Pieces(Tokens(line), LeadingSpaces(line), width, LineStart))
  {
    hide Tokens, Pieces, Flatten, LeadingSpaces, Visible, TrimLeft, AllWhite, Head, IsWhite, WhiteGlyph;
    r := out;
    var indent := Spaces(LeadingSpaces(line));
    var indentWidth := |indent|;
    var tokens := LineTokens(line);
    var col: nat := 0;
    var firstLine := true;
    for i := 0 to |tokens|
      invariant r + Flatten(Pieces(tokens[i..], indentWidth, width, Cursor(col, firstLine)))
             == out + Flatten(Pieces(tokens, indentWidth, width, LineStart))
    {
      var tok := tokens[i];
      WriteNext(r, tokens, i, indentWidth, width, Cursor(col, firstLine));
      if Visible(tok) == 0 {
        r := r + tok;
        continue;
      }
      if col > 0 && col + Visible(tok) > width {
        var trimmed := TrimLeft(tok);
        r := r + [Newline];
        r := r + indent;
        col := indentWidth;
        firstLine := false;
        var trimmedVisible := |trimmed|;
        if trimmedVisible == 0 {
          continue;
        }
        r := r + trimmed;
        col := col + trimmedVisible;
        continue;
      }
      if !firstLine && col == indentWidth && AllWhite(tok) {
        continue;
      }
      r := r + tok;
      col := col + Visible(tok);
    }
    assert tokens[|tokens|..] == [];
    NothingLeft(indentWidth, width, Cursor(col, firstLine));
  }

  lemma NothingLeft(indent: nat, width: int, at: Cursor)
    ensures Flatten(Pieces([], indent, width, at)) == []
  {
  }

  // ----- What survives -----

  /** The pieces that hold anything but white space. */
  function Solid(pieces: seq<Text>): seq<Text> {
    if pieces == [] then []
    else (if AllWhite(pieces[0]) then [] else [pieces[0]]) + Solid(pieces[1..])
  }

  lemma {:induction false} SolidConcat(a: seq<Text>, b: seq<Text>)
    ensures Solid(a + b) == Solid(a) + Solid(b)
  {
    if a == [] {
      assert a + b == b;
    } else {
      assert (a + b)[1..] == a[1..] + b;
      SolidConcat(a[1..], b);
    }
  }

  lemma {:induction false} TrimSpaces(t: Text)
    requires AllSpace(t)
    ensures TrimLeft(t) == []
  {
    if t != [] {
      TrimSpaces(t[1..]);
    }
  }

  lemma TrimLeftToken(t: Text)
    requires IsToken(t)
    ensures TrimLeft(t) == if t[0] == Space then [] else t
  {
  }

  lemma HeadSolid(tok: Text, indent: nat, width: int, at: Cursor)
    requires IsToken(tok)
    ensures Solid(Head(tok, indent, width, at)) == Solid([tok])
  {
    TrimLeftToken(tok);
    var trimmed := TrimLeft(tok);
    assert AllWhite(Break(indent));
    assert Solid([Break(indent)] + [tok]) == Solid([tok]) by {
      assert ([Break(indent)] + [tok])[1..] == [tok];
    }
    if trimmed == [] {
      assert AllWhite(tok);
    }
  }

  /** Every word and every escape is written, whole and in order; all that is
      added or dropped between them is white space. */
  lemma {:induction false} WordsSurvive(tokens: seq<Text>, indent: nat, width: int, at: Cursor)
    requires forall i :: 0 <= i < |tokens| ==> IsToken(tokens[i])
    ensures Solid(Pieces(tokens, indent, width, at)) == Solid(tokens)
  {
    hide Head, Advance, AllWhite, IsToken;
    if tokens != [] {
      var tok, rest := tokens[0], tokens[1..];
      var next := Advance(tok, indent, width, at);
      HeadSolid(tok, indent, width, at);
      WordsSurvive(rest, indent, width, next);
      SolidConcat(Head(tok, indent, width, at), Pieces(rest, indent, width, next));
      SolidConcat([tok], rest);
      assert tokens == [tok] + rest;
    }
  }

  // ----- How wide lines get -----

  /** Starting in column `col`, no line of the text goes past `width`. */
  predicate LinesFit(text: Text, width: int, col: nat) {
    col <= width
    && (text == []
        || LinesFit(text[1..], width, if text[0] == Newline then 0 else if text[0].Ch? then col + 1 else col))
  }

  predicate OneLine(text: Text) {
    forall i :: 0 <= i < |text| ==> text[i] != Newline
  }

  lemma {:induction false} FitThrough(a: Text, b: Text, width: int, col: nat)
    requires OneLine(a)
    ensures LinesFit(a + b, width, col) <==> LinesFit(b, width, col + Visible(a))
  {
    if a == [] {
      assert a + b == b;
    } else {
      assert (a + b)[1..] == a[1..] + b;
      var next := if a[0].Ch? then col + 1 else col;
      assert next + Visible(a[1..]) == col + Visible(a);
      FitThrough(a[1..], b, width, next);
      if LinesFit(b, width, col + Visible(a)) {
        FitStarts(b, width, col + Visible(a));
      }
    }
  }

  lemma FitStarts(text: Text, width: int, col: nat)
    requires LinesFit(text, width, col)
    ensures col <= width
  {
  }

  lemma FitBreak(indent: nat, rest: Text, width: int, col: nat)
    ensures LinesFit(Break(indent) + rest, width, col) <==> LinesFit(rest, width, indent) && col <= width
  {
    var text := Break(indent) + rest;
    assert text[0] == Newline && text[1..] == Spaces(indent) + rest;
    FitThrough(Spaces(indent), rest, width, 0);
    VisibleChars(Spaces(indent));
    if LinesFit(rest, width, indent) {
      FitStarts(rest, width, indent);
    }
  }

  lemma {:induction false} VisibleChars(text: Text)
    requires forall i :: 0 <= i < |text| ==> text[i].Ch?
    ensures Visible(text) == |text|
  {
    if text != [] {
      VisibleChars(text[1..]);
    }
  }

  lemma TokenVisible(tok: Text)
    requires IsToken(tok)
    ensures Visible(tok) == if tok[0].Esc? then 0 else |tok|
    ensures IsWord(tok) <==> tok[0].Ch? && tok[0] != Space
    ensures AllSpace(tok) <==> tok[0] == Space
  {
    if tok[0].Esc? {
      assert tok[1..] == [];
    } else {
      VisibleChars(tok);
    }
  }

  // ----- The indent a line still owes -----

  /** Leading spaces of the line that are not yet written. */
  function Lead(tokens: seq<Text>): nat {
    LeadingSpaces(Flatten(tokens))
  }

  lemma LeadStep(tokens: seq<Text>)
    requires tokens != [] && IsToken(tokens[0])
    ensures Lead(tokens) == if tokens[0][0].Esc? then Lead(tokens[1..])
                            else if tokens[0][0] == Space then |tokens[0]| + Lead(tokens[1..])
                            else 0
  {
    var tok, rest := tokens[0], Flatten(tokens[1..]);
    assert Flatten(tokens) == tok + rest;
    if tok[0].Esc? {
      assert (tok + rest)[1..] == rest;
    } else if tok[0] == Space {
      LeadOfSpaces(tok, rest);
    }
  }

  lemma {:induction false} LeadOfSpaces(tok: Text, rest: Text)
    requires AllSpace(tok)
    ensures LeadingSpaces(tok + rest) == |tok| + LeadingSpaces(rest)
  {
    if tok == [] {
      assert tok + rest == rest;
    } else {
      assert (tok + rest)[1..] == tok[1..] + rest;
      LeadOfSpaces(tok[1..], rest);
    }
  }

  /** On the first line the indent is written or still owed; afterwards every
      line starts with it. */
  ghost predicate Owes(tokens: seq<Text>, indent: nat, at: Cursor) {
    (at.first && at.col + Lead(tokens) == indent) || (at.col >= indent && (at.first ==> at.col > 0))
  }

  /** The indent fits, and so does every word next to it. */
  predicate WordsFit(tokens: seq<Text>, indent: nat, width: int) {
    indent <= width && forall i :: 0 <= i < |tokens| && IsWord(tokens[i]) ==> indent + |tokens[i]| <= width
  }

  lemma OwesStep(tokens: seq<Text>, indent: nat, width: int, at: Cursor)
    requires tokens != [] && IsToken(tokens[0]) && Owes(tokens, indent, at)
    ensures Owes(tokens[1..], indent, Advance(tokens[0], indent, width, at))
  {
    TokenVisible(tokens[0]);
    LeadStep(tokens);
    TrimLeftToken(tokens[0]);
  }

  /** White space at the start of a continuation line is left out. */
  predicate Dropped(tok: Text, indent: nat, width: int, at: Cursor) {
    !Overflows(tok, width, at) && Skipped(tok, indent, at)
  }

  /** A word fits beside the indent, or is blank and dropped where it would go. */
  predicate TokenPlaced(tok: Text, indent: nat, width: int, at: Cursor) {
    IsWord(tok) && indent + |tok| > width ==> Dropped(tok, indent, width, at)
  }

  /** So is every word, each from the column the tokens before it leave. */
  predicate Placed(tokens: seq<Text>, indent: nat, width: int, at: Cursor) {
    tokens == []
    || (TokenPlaced(tokens[0], indent, width, at)
        && Placed(tokens[1..], indent, width, Advance(tokens[0], indent, width, at)))
  }

  /** A token leaves the column inside the width exactly when it is placed. */
  lemma AdvanceFits(tokens: seq<Text>, indent: nat, width: int, at: Cursor)
    requires tokens != [] && IsToken(tokens[0]) && Owes(tokens, indent, at) && indent <= width && at.col <= width
    ensures Advance(tokens[0], indent, width, at).col <= width <==> TokenPlaced(tokens[0], indent, width, at)
  {
    var tok := tokens[0];
    TokenVisible(tok);
    LeadStep(tokens);
    TrimLeftToken(tok);
    assert AllSpace(tok) ==> AllWhite(tok);
  }

  lemma VisibleTrimmed(tok: Text)
    requires IsToken(tok)
    ensures Visible(TrimLeft(tok)) == if tok[0].Esc? then 0 else |TrimLeft(tok)|
    ensures OneLine(tok) ==> OneLine(TrimLeft(tok))
  {
    TrimLeftToken(tok);
    TokenVisible(tok);
  }

  lemma BreakFits(tok: Text, tail: Text, indent: nat, width: int, col: nat)
    requires IsToken(tok) && OneLine(tok) && tok[0].Ch?
    ensures LinesFit((Break(indent) + TrimLeft(tok)) + tail, width, col)
       <==> LinesFit(tail, width, indent + |TrimLeft(tok)|) && col <= width
  {
    hide LinesFit, TrimLeft, Break, IsToken, OneLine, Visible;
    VisibleTrimmed(tok);
    FitThrough(TrimLeft(tok), tail, width, indent);
    FitBreak(indent, TrimLeft(tok) + tail, width, col);
    ConcatAssociative(Break(indent), TrimLeft(tok), tail);
  }

  /** What is written for one token fits exactly when what follows fits from
      the column it leaves, and the column it starts in does. */
  lemma HeadFits(tok: Text, tail: Text, indent: nat, width: int, at: Cursor)
    requires IsToken(tok) && OneLine(tok)
    ensures LinesFit(Flatten(Head(tok, indent, width, at)) + tail, width, at.col)
       <==> LinesFit(tail, width, Advance(tok, indent, width, at).col) && at.col <= width
  {
    hide LinesFit, TrimLeft, Break, Visible, Head, Flatten, AllWhite;
    HeadText(tok, indent, width, at);
    TokenVisible(tok);
    if Visible(tok) > 0 && Overflows(tok, width, at) {
      BreakFits(tok, tail, indent, width, at.col);
    } else if Visible(tok) > 0 && Skipped(tok, indent, at) {
      assert [] + tail == tail;
      TooFar(tail, width, at.col);
    } else {
      FitThrough(tok, tail, width, at.col);
      TooFar(tok + tail, width, at.col);
    }
  }

  lemma TooFar(text: Text, width: int, col: nat)
    ensures LinesFit(text, width, col) ==> col <= width
  {
  }

  /** With the indent inside the width, every line written is exactly when every
      word is placed. */
  lemma {:induction false} PiecesFit(tokens: seq<Text>, indent: nat, width: int, at: Cursor)
    requires forall i :: 0 <= i < |tokens| ==> IsToken(tokens[i]) && OneLine(tokens[i])
    requires Owes(tokens, indent, at) && indent <= width && at.col <= width
    ensures LinesFit(Flatten(Pieces(tokens, indent, width, at)), width, at.col) <==> Placed(tokens, indent, width, at)
  {
    if tokens == [] {
      NothingLeft(indent, width, at);
    } else {
      hide Pieces, Flatten, LinesFit, Owes, Head, Advance, IsToken, OneLine, TokenPlaced;
      var next := Advance(tokens[0], indent, width, at);
      var tail := Flatten(Pieces(tokens[1..], indent, width, next));
      AdvanceFits(tokens, indent, width, at);
      OwesStep(tokens, indent, width, at);
      WriteStep(tokens, indent, width, at);
      HeadFits(tokens[0], tail, indent, width, at);
      if next.col <= width {
        PiecesFit(tokens[1..], indent, width, next);
      } else {
        TooFar(tail, width, next.col);
      }
    }
  }

  /** Words that all fit beside the indent are placed, and no others are unless
      some are blank. */
  lemma {:induction false} FittingWordsPlaced(tokens: seq<Text>, indent: nat, width: int, at: Cursor)
    requires indent <= width
    ensures WordsFit(tokens, indent, width) ==> Placed(tokens, indent, width, at)
    ensures (forall i :: 0 <= i < |tokens| && IsWord(tokens[i]) ==> !AllWhite(tokens[i])) ==>
              (Placed(tokens, indent, width, at) <==> WordsFit(tokens, indent, width))
  {
    if tokens != [] {
      hide Advance, IsWord, AllWhite, Overflows;
      FittingWordsPlaced(tokens[1..], indent, width, Advance(tokens[0], indent, width, at));
      assert forall i :: 0 < i < |tokens| ==> tokens[i] == tokens[1..][i - 1];
      assert forall i :: 0 <= i < |tokens| - 1 ==> tokens[1..][i] == tokens[i + 1];
    }
  }

  /** An indent wider than the width overruns on its own. */
  lemma {:induction false} IndentOverruns(tokens: seq<Text>, indent: nat, width: int, at: Cursor)
    requires forall i :: 0 <= i < |tokens| ==> IsToken(tokens[i]) && OneLine(tokens[i])
    requires at.first && at.col + Lead(tokens) == indent > width
    ensures !LinesFit(Flatten(Pieces(tokens, indent, width, at)), width, at.col)
  {
    hide Pieces, Flatten, LinesFit, Head, OneLine, Lead;
    if tokens == [] {
      NoLead();
      TooFar(Flatten(Pieces(tokens, indent, width, at)), width, at.col);
    } else {
      var tok, next := tokens[0], Advance(tokens[0], indent, width, at);
      var tail := Flatten(Pieces(tokens[1..], indent, width, next));
      WriteStep(tokens, indent, width, at);
      HeadFits(tok, tail, indent, width, at);
      TooFar(tail, width, next.col);
      TokenVisible(tok);
      LeadStep(tokens);
      if next.col <= width && at.col <= width {
        IndentOverruns(tokens[1..], indent, width, next);
      }
    }
  }

  lemma NoLead()
    ensures Lead([]) == 0
  {
  }

  lemma {:induction false} TokensOfLine(line: Text)
    requires OneLine(line)
    ensures forall i :: 0 <= i < |Tokens(line)| ==> IsToken(Tokens(line)[i]) && OneLine(Tokens(line)[i])
  {
    if line != [] {
      var n := RunLength(line);
      TokensOfLine(line[n..]);
      assert IsToken(line[..n]) && OneLine(line[..n]);
    }
  }

  // ----- Where lines are broken -----

  /** The column a text ends in when it starts in column `col`. */
  function ColumnAfter(text: Text, col: nat): nat {
    if text == [] then col
    else ColumnAfter(text[1..], if text[0] == Newline then 0 else if text[0].Ch? then col + 1 else col)
  }

  lemma {:induction false} ColumnConcat(a: Text, b: Text, col: nat)
    ensures ColumnAfter(a + b, col) == ColumnAfter(b, ColumnAfter(a, col))
  {
    if a == [] {
      assert a + b == b;
    } else {
      assert (a + b)[1..] == a[1..] + b;
      ColumnConcat(a[1..], b, if a[0] == Newline then 0 else if a[0].Ch? then col + 1 else col);
    }
  }

  lemma {:induction false} ColumnOfLine(text: Text, col: nat)
    requires OneLine(text)
    ensures ColumnAfter(text, col) == col + Visible(text)
  {
    if text != [] {
      ColumnOfLine(text[1..], if text[0].Ch? then col + 1 else col);
    }
  }

  lemma ColumnOfBreak(indent: nat, rest: Text, col: nat)
    requires OneLine(rest)
    ensures ColumnAfter(Break(indent) + rest, col) == indent + Visible(rest)
  {
    hide Visible;
    var text := Break(indent) + rest;
    assert text[0] == Newline && text[1..] == Spaces(indent) + rest;
    ColumnConcat(Spaces(indent), rest, 0);
    ColumnOfLine(Spaces(indent), 0);
    ColumnOfLine(rest, indent);
    VisibleChars(Spaces(indent));
  }

  function CursorAfter(tokens: seq<Text>, indent: nat, width: int, at: Cursor): Cursor {
    if tokens == [] then at else CursorAfter(tokens[1..], indent, width, Advance(tokens[0], indent, width, at))
  }

  /** A cursor tells the column that a text ends in, and whether it is one line. */
  ghost predicate Tells(at: Cursor, text: Text) {
    at.col == ColumnAfter(text, 0) && (at.first <==> Newline !in text)
  }

  lemma TellsNext(tok: Text, indent: nat, width: int, at: Cursor, text: Text)
    requires IsToken(tok) && OneLine(tok) && Tells(at, text)
    ensures Tells(Advance(tok, indent, width, at), text + Flatten(Head(tok, indent, width, at)))
  {
    hide Visible, ColumnAfter, IsToken, TrimLeft, Head, AllWhite, Flatten;
    HeadText(tok, indent, width, at);
    VisibleTrimmed(tok);
    TrimLeftToken(tok);
    ColumnConcat(text, Flatten(Head(tok, indent, width, at)), 0);
    ColumnOfLine(tok, at.col);
    assert OneLine(TrimLeft(tok));
    ColumnOfBreak(indent, TrimLeft(tok), at.col);
    assert text + [] == text;
    assert Break(indent)[0] == Newline;
  }

  lemma {:induction false} TellsAfter(tokens: seq<Text>, indent: nat, width: int, at: Cursor, text: Text)
    requires forall i :: 0 <= i < |tokens| ==> IsToken(tokens[i]) && OneLine(tokens[i])
    requires Tells(at, text)
    ensures Tells(CursorAfter(tokens, indent, width, at), text + Flatten(Pieces(tokens, indent, width, at)))
  {
    hide Tells, Advance, Head, IsToken, OneLine, Flatten;
    if tokens == [] {
      NothingLeft(indent, width, at);
      assert text + [] == text;
    } else {
      var tok, next := tokens[0], Advance(tokens[0], indent, width, at);
      TellsNext(tok, indent, width, at, text);
      WriteStep(tokens, indent, width, at);
      TellsAfter(tokens[1..], indent, width, next, text + Flatten(Head(tok, indent, width, at)));
      ConcatAssociative(text, Flatten(Head(tok, indent, width, at)), Flatten(Pieces(tokens[1..], indent, width, next)));
    }
  }

  /** What is written for some tokens and one more. */
  lemma {:induction false} WriteLast(tokens: seq<Text>, last: Text, indent: nat, width: int, at: Cursor)
    ensures Flatten(Pieces(tokens + [last], indent, width, at))
         == Flatten(Pieces(tokens, indent, width, at))
            + Flatten(Head(last, indent, width, CursorAfter(tokens, indent, width, at)))
  {
    hide Advance, Head, Flatten;
    WriteStep(tokens + [last], indent, width, at);
    if tokens == [] {
      assert tokens + [last] == [last] && [last][1..] == [];
      NothingLeft(indent, width, at);
      NothingLeft(indent, width, Advance(last, indent, width, at));
    } else {
      assert (tokens + [last])[1..] == tokens[1..] + [last];
      var next := Advance(tokens[0], indent, width, at);
      WriteStep(tokens, indent, width, at);
      WriteLast(tokens[1..], last, indent, width, next);
      ConcatAssociative(Flatten(Head(tokens[0], indent, width, at)), Flatten(Pieces(tokens[1..], indent, width, next)),
                        Flatten(Head(last, indent, width, CursorAfter(tokens, indent, width, at))));
    }
  }

  /** The first `k` tokens of a line as they are laid out. */
  function Laid(line: Text, width: int, k: nat): Text
    requires k <= |Tokens(line)|
  {
    Flatten(Pieces(Tokens(line)[..k], LeadingSpaces(line), width, LineStart))
  }

  /** Every break is forced: a new line is begun exactly where the next word or
      run of spaces would pass the width on a line that holds something already.
      White space is left out only right behind the indent of a new line. */
  lemma BreaksAreForced(line: Text, width: int, k: nat)
    requires OneLine(line) && k < |Tokens(line)|
    ensures var tok, before := Tokens(line)[k], Laid(line, width, k);
            var col := ColumnAfter(before, 0);
            Laid(line, width, k + 1)
            == before + if Visible(tok) == 0 then tok
                        else if col > 0 && col + Visible(tok) > width then
                          [Newline] + Spaces(LeadingSpaces(line)) + (if AllSpace(tok) then [] else tok)
                        else if Newline in before && col == LeadingSpaces(line) && AllWhite(tok) then []
                        else tok
    ensures Visible(line) > width ==> WrapLine(line, width) == Laid(line, width, |Tokens(line)|)
  {
    hide Tokens, Visible, LeadingSpaces, Pieces, Flatten, ColumnAfter, CursorAfter, IsToken, TrimLeft, Head, AllWhite, OneLine;
    var tokens, indent := Tokens(line), LeadingSpaces(line);
    var tok, at := tokens[k], CursorAfter(tokens[..k], indent, width, LineStart);
    TokensOfLine(line);
    AtStart();
    TellsAfter(tokens[..k], indent, width, LineStart, []);
    assert [] + Laid(line, width, k) == Laid(line, width, k);
    WriteLast(tokens[..k], tok, indent, width, LineStart);
    assert tokens[..k] + [tok] == tokens[..k + 1];
    HeadText(tok, indent, width, at);
    TrimLeftToken(tok);
    TokenVisible(tok);
    SpacesOrNot(tok);
    assert tokens[..|tokens|] == tokens;
  }

  lemma AtStart()
    ensures Tells(LineStart, [])
  {
  }

  lemma SpacesOrNot(tok: Text)
    requires IsToken(tok)
    ensures AllSpace(tok) <==> tok[0] == Space
  {
  }

  // ----- Fitting lines -----

  /** No word is made of white space other than spaces alone. */
  predicate NoBlankWords(line: Text) {
    forall i :: 0 <= i < |Tokens(line)| ==> IsWord(Tokens(line)[i]) ==> !AllWhite(Tokens(line)[i])
  }

  predicate Wrappable(line: Text, width: int) {
    Visible(line) <= width
    || (LeadingSpaces(line) <= width && Placed(Tokens(line), LeadingSpaces(line), width, LineStart))
  }

  lemma StartOwes(line: Text)
    ensures Owes(Tokens(line), LeadingSpaces(line), LineStart)
  {
    FlattenTokens(line);
  }

  /** No line comes out wider than the width if and only if the line is no wider,
      or its indent fits and every word is placed. */
  lemma WrapLineFits(line: Text, width: int)
    requires OneLine(line) && width > 0
    ensures LinesFit(WrapLine(line, width), width, 0) <==> Wrappable(line, width)
  {
    hide Pieces, Flatten, LinesFit, LeadingSpaces, Tokens, AllWhite, Placed;
    var tokens, indent := Tokens(line), LeadingSpaces(line);
    if Visible(line) <= width {
      ShortLineFits(line, width);
    } else {
      TokensOfLine(line);
      StartOwes(line);
      if indent <= width {
        PiecesFit(tokens, indent, width, LineStart);
      } else {
        FlattenTokens(line);
        IndentOverruns(tokens, indent, width, LineStart);
      }
    }
  }

  /** It is enough that the indent and every word beside it fit, and needed too
      unless a word is nothing but tabs or the like. */
  lemma WordsDecide(line: Text, width: int)
    ensures WordsFit(Tokens(line), LeadingSpaces(line), width) ==> Wrappable(line, width)
    ensures NoBlankWords(line) && Wrappable(line, width) && Visible(line) > width ==>
              WordsFit(Tokens(line), LeadingSpaces(line), width)
  {
    hide Tokens, LeadingSpaces, Placed, AllWhite, IsWord;
    if LeadingSpaces(line) <= width {
      FittingWordsPlaced(Tokens(line), LeadingSpaces(line), width, LineStart);
    }
  }

  lemma ShortLineFits(line: Text, width: int)
    requires OneLine(line) && Visible(line) <= width
    ensures LinesFit(line, width, 0)
  {
    FitThrough(line, [], width, 0);
    assert line + [] == line;
  }

  // ----- Whole texts -----

  /** The length of the first line, its newline excluded. */
  function FirstLine(text: Text): (n: nat)
    ensures n <= |text| && OneLine(text[..n])
    ensures n < |text| ==> text[n] == Newline
  {
    if text == [] || text[0] == Newline then 0 else 1 + FirstLine(text[1..])
  }

  /** `strings.Split(text, "\n")`. */
  function Split(text: Text): (lines: seq<Text>)
    ensures lines != [] && forall i :: 0 <= i < |lines| ==> OneLine(lines[i])
  {
    var n := FirstLine(text);
    if n == |text| then [text] else [text[..n]] + Split(text[n + 1..])
  }

  function WrapAll(lines: seq<Text>, width: int): Text
    requires lines != []
  {
    if |lines| == 1 then WrapLine(lines[0], width)
    else WrapLine(lines[0], width) + ([Newline] + WrapAll(lines[1..], width))
  }

  /** `wrapLines`. */
  function WrapText(text: Text, width: int): Text {
    if width <= 0 then text else WrapAll(Split(text), width)
  }

  method WrapLines(text: Text, width: int) returns (out: Text)
    ensures out == WrapText(text, width)
  {
    hide WrapAll, Split, Pieces, Flatten, Tokens;
    if width <= 0 {
      return text;
    }
    var lines := Split(text);
    out := [];
    assert lines[0..] == lines && [] + WrapAll(lines, width) == WrapAll(lines, width);
    for i := 0 to |lines|
      invariant i < |lines| ==> out + ((if i > 0 then [Newline] else []) + WrapAll(lines[i..], width)) == WrapAll(lines, width)
      invariant i == |lines| ==> out == WrapAll(lines, width)
    {
      ghost var tail := WrapAll(lines[i..], width);
      WrapAllStep(lines[i..], width);
      if i > 0 {
        ConcatAssociative(out, [Newline], tail);
        out := out + [Newline];
      }
      assert out + tail == WrapAll(lines, width);
      if i + 1 < |lines| {
        assert lines[i..][1..] == lines[i + 1..];
        ConcatAssociative(out, WrapLine(lines[i], width), [Newline] + WrapAll(lines[i + 1..], width));
      }
      if Visible(lines[i]) <= width {
        out := out + lines[i];
        continue;
      }
      out := WrapSingleLine(out, lines[i], width);
    }
  }

  lemma WrapAllStep(lines: seq<Text>, width: int)
    requires lines != []
    ensures WrapAll(lines, width)
         == WrapLine(lines[0], width) + if |lines| == 1 then [] else [Newline] + WrapAll(lines[1..], width)
  {
  }

  lemma {:induction false} FitAtNewline(a: Text, b: Text, width: int, col: nat)
    requires width >= 0
    ensures LinesFit(a + ([Newline] + b), width, col) <==> LinesFit(a, width, col) && LinesFit(b, width, 0)
  {
    if a == [] {
      assert a + ([Newline] + b) == [Newline] + b && ([Newline] + b)[1..] == b;
    } else {
      assert (a + ([Newline] + b))[1..] == a[1..] + ([Newline] + b);
      FitAtNewline(a[1..], b, width, if a[0] == Newline then 0 else if a[0].Ch? then col + 1 else col);
    }
  }

  /** The wrapped lines together fit exactly when each could be wrapped. */
  lemma {:induction false} WrapAllFits(lines: seq<Text>, width: int)
    requires width > 0 && lines != [] && forall k :: 0 <= k < |lines| ==> OneLine(lines[k])
    ensures LinesFit(WrapAll(lines, width), width, 0) <==> forall k :: 0 <= k < |lines| ==> Wrappable(lines[k], width)
  {
    hide LinesFit, WrapLine, Wrappable;
    WrapLineFits(lines[0], width);
    if |lines| > 1 {
      WrapAllFits(lines[1..], width);
      assert forall k :: 0 < k < |lines| ==> lines[k] == lines[1..][k - 1];
      assert forall k :: 0 <= k < |lines| - 1 ==> lines[1..][k] == lines[k + 1];
      FitAtNewline(WrapLine(lines[0], width), WrapAll(lines[1..], width), width, 0);
    }
  }

  /** A text whose lines all fit is left as it is. */
  lemma FittingTextUnchanged(text: Text, width: int)
    requires width > 0 && LinesFit(text, width, 0)
    ensures WrapText(text, width) == text
  {
    FittingLines(text, width);
    SplitJoins(text, width);
  }

  /** In a text that fits, each line is at most `width` wide. */
  lemma {:induction false} FittingLines(text: Text, width: int)
    requires LinesFit(text, width, 0)
    ensures forall i :: 0 <= i < |Split(text)| ==> Visible(Split(text)[i]) <= width
  {
    hide Split, LinesFit, Visible, FirstLine;
    var n := FirstLine(text);
    var line := text[..n];
    SplitStep(text);
    TooFar(text, width, 0);
    assert line + [] == line;
    FitThrough(line, [], width, 0);
    TooFar([], width, Visible(line));
    if n == |text| {
      assert line == text;
    } else {
      CutAtNewline(text, n);
      FitAtNewline(line, text[n + 1..], width, 0);
      FittingLines(text[n + 1..], width);
      var lines, tail := Split(text), Split(text[n + 1..]);
      forall i | 0 <= i < |lines|
        ensures Visible(lines[i]) <= width
      {
        assert i > 0 ==> lines[i] == lines[1..][i - 1] == tail[i - 1];
      }
    }
  }

  lemma SplitStep(text: Text)
    ensures var n := FirstLine(text);
            if n == |text| then Split(text) == [text]
            else |Split(text)| > 1 && Split(text)[0] == text[..n] && Split(text)[1..] == Split(text[n + 1..])
  {
    hide FirstLine, OneLine;
    var n := FirstLine(text);
    if n < |text| {
      DropFirst(text[..n], Split(text[n + 1..]));
    }
  }

  lemma DropFirst<T>(x: T, xs: seq<T>)
    ensures ([x] + xs)[1..] == xs
  {
  }

  lemma CutAtNewline(text: Text, n: nat)
    requires n < |text| && text[n] == Newline
    ensures text == text[..n] + ([Newline] + text[n + 1..])
  {
  }

  /** Joining short lines again gives back the text they were split from. */
  lemma {:induction false} SplitJoins(text: Text, width: int)
    requires forall k :: 0 <= k < |Split(text)| ==> Visible(Split(text)[k]) <= width
    ensures WrapAll(Split(text), width) == text
  {
    hide Split;
    var n := FirstLine(text);
    SplitStep(text);
    if n < |text| {
      CutAtNewline(text, n);
      var tail := Split(text[n + 1..]);
      forall k | 0 <= k < |tail|
        ensures Visible(tail[k]) <= width
      {
        assert Split(text)[k + 1] == tail[k];
      }
      SplitJoins(text[n + 1..], width);
    }
  }

  predicate AllWrappable(text: Text, width: int) {
    forall i :: 0 <= i < |Split(text)| ==> Wrappable(Split(text)[i], width)
  }

  predicate AllFit(text: Text, width: int) {
    forall i :: 0 <= i < |Split(text)| ==> Visible(Split(text)[i]) <= width
  }

  /** A text fits line by line exactly when it fits at all. */
  lemma AllFitIsFit(text: Text, width: int)
    requires width > 0
    ensures AllFit(text, width) <==> LinesFit(text, width, 0)
  {
    hide LinesFit, Visible, Split, WrapLine;
    if LinesFit(text, width, 0) {
      FittingLines(text, width);
    }
    if AllFit(text, width) {
      SplitJoins(text, width);
      WrapAllFits(Split(text), width);
    }
  }

  /** Every line of the result is at most the width wide if and only if every
      line can be wrapped; then wrapping again changes nothing. */
  lemma WrapTwice(text: Text, width: int)
    ensures width > 0 ==> (AllFit(WrapText(text, width), width) <==> AllWrappable(text, width))
    ensures AllWrappable(text, width) ==> WrapText(WrapText(text, width), width) == WrapText(text, width)
  {
    hide LinesFit, Visible, Split, Wrappable;
    if width > 0 {
      WrapAllFits(Split(text), width);
      AllFitIsFit(WrapText(text, width), width);
      if AllWrappable(text, width) {
        FittingTextUnchanged(WrapText(text, width), width);
      }
    }
  }

  // ----- Nothing but white space changes -----

  function Ink(text: Text): Text {
    if text == [] then [] else (if WhiteGlyph(text[0]) then [] else [text[0]]) + Ink(text[1..])
  }

  lemma {:induction false} InkConcat(a: Text, b: Text)
    ensures Ink(a + b) == Ink(a) + Ink(b)
  {
    if a == [] {
      assert a + b == b;
    } else {
      assert (a + b)[1..] == a[1..] + b;
      InkConcat(a[1..], b);
    }
  }

  lemma {:induction false} WhiteHasNoInk(text: Text)
    requires AllWhite(text)
    ensures Ink(text) == []
  {
    if text != [] {
      WhiteHasNoInk(text[1..]);
    }
  }

  /** The ink of pieces is the ink of their solid ones. */
  lemma {:induction false} SolidInk(pieces: seq<Text>)
    ensures Ink(Flatten(pieces)) == Ink(Flatten(Solid(pieces)))
  {
    if pieces != [] {
      var solid := Solid(pieces[1..]);
      SolidInk(pieces[1..]);
      InkConcat(pieces[0], Flatten(pieces[1..]));
      if AllWhite(pieces[0]) {
        WhiteHasNoInk(pieces[0]);
        assert Solid(pieces) == [] + solid == solid;
        assert [] + Ink(Flatten(solid)) == Ink(Flatten(solid));
      } else {
        assert Solid(pieces) == [pieces[0]] + solid;
        assert ([pieces[0]] + solid)[1..] == solid;
        InkConcat(pieces[0], Flatten(solid));
      }
    }
  }

  lemma LineInk(line: Text, width: int)
    requires OneLine(line)
    ensures Ink(WrapLine(line, width)) == Ink(line)
  {
    if Visible(line) > width {
      var tokens := Tokens(line);
      TokensOfLine(line);
      FlattenTokens(line);
      WordsSurvive(tokens, LeadingSpaces(line), width, LineStart);
      SolidInk(tokens);
      SolidInk(Pieces(tokens, LeadingSpaces(line), width, LineStart));
    }
  }

  lemma {:induction false} InkAll(text: Text, width: int)
    ensures Ink(WrapAll(Split(text), width)) == Ink(text)
  {
    hide WrapLine, Ink, Split;
    var n := FirstLine(text);
    SplitStep(text);
    LineInk(text[..n], width);
    if n == |text| {
      assert text[..n] == text;
    } else {
      var rest := text[n + 1..];
      CutAtNewline(text, n);
      InkAll(rest, width);
      InkBehindNewline(WrapLine(text[..n], width), WrapAll(Split(rest), width));
      InkBehindNewline(text[..n], rest);
    }
  }

  lemma InkBehindNewline(a: Text, b: Text)
    ensures Ink(a + ([Newline] + b)) == Ink(a) + Ink(b)
  {
    hide Ink;
    InkConcat(a, [Newline] + b);
    InkConcat([Newline], b);
    WhiteHasNoInk([Newline]);
  }

  /** For any text and width, every escape and every character that is not
      white space comes out, in order, and nothing else does. */
  lemma InkPreserved(text: Text, width: int)
    ensures Ink(WrapText(text, width)) == Ink(text)
  {
    if width > 0 {
      InkAll(text, width);
    }
  }
}
