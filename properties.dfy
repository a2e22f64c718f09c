/** What the tokenizer model guarantees: the token each scanning routine emits, how one turn
    of the dispatch loop moves the mode state, and what a whole run produces. */
module TokenizerProperties {
  import opened CssTokens
  import opened TokenizerSpec

  function Last(st: State): Token
    requires |st.tokens| > 0
  {
    st.tokens[|st.tokens| - 1]
  }

  /** How far the block depth moves when a token of this kind is emitted. */
  function DepthDelta(k: TokenKind): int {
    if k == LeftCurlyBracket then 1 else if k == RightCurlyBracket then -1 else 0
  }

  /** The url mode after emitting t: cleared by `)`, set by the identifier `url`. */
  function UrlAfter(u: bool, t: Token): bool {
    if t.kind == RightParenthesis then false else u || (t.kind == Identifier && t.text == "url")
  }

  /** r is st after emitting exactly one token: the old tokens are kept, the new one carries
      st's line and the next index, and the line counter, the block depth and the url mode
      move only as the new token's kind dictates. */
  predicate Follows(st: State, r: State) {
    && |r.tokens| == |st.tokens| + 1
    && r.tokens == st.tokens + [Last(r)]
    && Last(r).line == st.ln
    && Last(r).index == |st.tokens|
    && r.ln == st.ln + (if Last(r).kind == Newline then 1 else 0)
    && r.blockMode == st.blockMode + DepthDelta(Last(r).kind)
    && r.urlMode == UrlAfter(st.urlMode, Last(r))
  }

  /** The new token holds exactly the input from the old cursor up to and including the new
      one, cut at the end of input; the cursor has not moved back. */
  predicate Consumed(css: string, st: State, r: State)
    requires 0 <= st.pos < |css|
  {
    && |r.tokens| > 0
    && st.pos <= r.pos
    && Last(r).text == css[st.pos..Min(r.pos + 1, |css|)]
  }

  /** The characters s[i..e] form a run of escapes and plain characters: every backslash is
      followed by the character it escapes, and no unescaped character is a backslash or one
      of the stop characters. */
  predicate EscapedSpan(s: string, i: nat, e: nat, stops: set<char>)
    requires i <= e <= |s|
    decreases e - i
  {
    || i == e
    || (s[i] == '\\' && i + 2 <= e && EscapedSpan(s, i + 2, e, stops))
    || (s[i] != '\\' && s[i] !in stops && EscapedSpan(s, i + 1, e, stops))
  }

  /** s[i..e] is an escaped run followed by a lone backslash, which only the end of input can
      follow. */
  predicate EscapedSpanThenBackslash(s: string, i: nat, e: nat, stops: set<char>)
    requires i <= e <= |s|
  {
    i < e && s[e - 1] == '\\' && EscapedSpan(s, i, e - 1, stops)
  }

  /** The escape-aware loop started at i and ended at e: either on an unescaped stop character
      at e after an escaped run, or at the end of input after an escaped run, or one past the
      end of input after an escaped run and a lone backslash. */
  predicate EscapedRunEndsAt(s: string, i: nat, e: int, stops: set<char>)
    requires i <= |s|
  {
    && i <= e <= |s| + 1
    && (e < |s| ==> s[e] in stops && EscapedSpan(s, i, e, stops))
    && (e == |s| ==> EscapedSpan(s, i, e, stops))
    && (e == |s| + 1 ==> EscapedSpanThenBackslash(s, i, |s|, stops))
  }

  /** The escape-aware loop stops on the first unescaped stop character; when there is none it
      runs to the end of input, or one past it when the input ends in a lone backslash. */
  lemma {:induction false} EscapedScanEndSpan(css: string, i: nat, stops: set<char>)
    requires i <= |css| && '\\' !in stops
    ensures EscapedRunEndsAt(css, i, EscapedScanEnd(css, i, stops), stops)
    decreases |css| - i
  {
    var e := EscapedScanEnd(css, i, stops);
    if i == |css| {
    } else if css[i] == '\\' {
      if i + 2 <= |css| {
        EscapedScanEndSpan(css, i + 2, stops);
        if e == |css| + 1 {
          assert EscapedSpan(css, i + 2, |css| - 1, stops);
        }
      } else {
        assert e == |css| + 1;
        assert EscapedSpan(css, i, i, stops);
      }
    } else if css[i] in stops {
    } else {
      EscapedScanEndSpan(css, i + 1, stops);
      if e == |css| + 1 {
        assert EscapedSpan(css, i + 1, |css| - 1, stops);
      }
    }
  }

  /** A state that differs from st by one appended token of a kind that leaves the line
      counter and the block depth alone follows st. */
  lemma AppendFollows(st: State, tok: Token, r: State)
    requires tok.line == st.ln && tok.index == |st.tokens|
    requires tok.kind != Newline && DepthDelta(tok.kind) == 0
    requires r.tokens == st.tokens + [tok] && r.ln == st.ln && r.blockMode == st.blockMode
    requires r.urlMode == UrlAfter(st.urlMode, tok)
    ensures Follows(st, r) && Last(r) == tok
  {
  }

  /** `parseSpaces`, entered on a space: one Space token holding the input from the cursor
      to the cursor's new place, the last space of the run. */
  lemma SpacesToken(css: string, st: State)
    requires 0 <= st.pos < |css| && css[st.pos] == ' '
    ensures var r := ScanSpaces(css, st);
      Follows(st, r) && Last(r).kind == Space && Consumed(css, st, r)
  {
    var e := SpaceRunEnd(css, st.pos);
    var tok := Token(Space, css[st.pos..e], st.ln, |st.tokens|);
    var r := ScanSpaces(css, st);
    assert r == State(e - 1, st.urlMode, st.blockMode, st.ln, st.tokens + [tok]);
    AppendFollows(st, tok, r);
  }

  /** The run `parseSpaces` takes is the maximal run of spaces at the cursor, so never a tab
      or a line break. */
  lemma SpacesRun(css: string, st: State)
    requires 0 <= st.pos < |css| && css[st.pos] == ' '
    ensures var r := ScanSpaces(css, st);
      && st.pos <= r.pos < |css|
      && (forall k | st.pos <= k <= r.pos :: css[k] == ' ')
      && (r.pos + 1 == |css| || css[r.pos + 1] != ' ')
  {
    var e := SpaceRunEnd(css, st.pos);
    assert ScanSpaces(css, st).pos == e - 1;
  }

  /** `parseDecimalNumber`, entered on a digit: one DecimalNumber token holding the input from
      the cursor to the cursor's new place, the last digit of the run. */
  lemma DecimalNumberToken(css: string, st: State)
    requires 0 <= st.pos < |css| && IsDecimalDigit(css[st.pos])
    ensures var r := ScanDecimalNumber(css, st);
      Follows(st, r) && Last(r).kind == DecimalNumber && Consumed(css, st, r)
  {
    var e := DigitRunEnd(css, st.pos);
    var tok := Token(DecimalNumber, css[st.pos..e], st.ln, |st.tokens|);
    var r := ScanDecimalNumber(css, st);
    assert r == State(e - 1, st.urlMode, st.blockMode, st.ln, st.tokens + [tok]);
    AppendFollows(st, tok, r);
  }

  /** The run `parseDecimalNumber` takes is the maximal run of the digits 0 to 9 at the
      cursor, so no sign, point or exponent. */
  lemma DecimalNumberRun(css: string, st: State)
    requires 0 <= st.pos < |css| && IsDecimalDigit(css[st.pos])
    ensures var r := ScanDecimalNumber(css, st);
      && st.pos <= r.pos < |css|
      && (forall k | st.pos <= k <= r.pos :: '0' <= css[k] <= '9')
      && (r.pos + 1 == |css| || !IsDecimalDigit(css[r.pos + 1]))
  {
    var e := DigitRunEnd(css, st.pos);
    assert ScanDecimalNumber(css, st).pos == e - 1;
    forall k | st.pos <= k < e
      ensures '0' <= css[k] <= '9'
    {
      assert IsDecimalDigit(css[k]);
    }
  }

  /** `parseString` with quote q: one token that starts with q and holds what the scan
      consumed; the kind is StringDQ exactly for the double quote. */
  lemma StringToken(css: string, q: char, st: State)
    requires 0 <= st.pos < |css| && css[st.pos] == q && (q == '"' || q == '\'')
    ensures var r := ScanString(css, q, st);
      && Follows(st, r) && Consumed(css, st, r)
      && (Last(r).kind == StringDQ <==> q == '"')
      && (Last(r).kind == StringSQ <==> q == '\'')
      && Last(r).text[0] == q
  {
    var r := ScanString(css, q, st);
    assert Last(r).text == Substring(css, st.pos, r.pos + 1);
    assert r.tokens[..|st.tokens|] == st.tokens;
    assert r.tokens == st.tokens + [Last(r)];
  }

  /** Where `parseString` stops: on the first unescaped q, or at the end of input when there
      is none; a backslash always takes the character after it, even a quote. */
  lemma StringTokenEnd(css: string, q: char, st: State)
    requires 0 <= st.pos < |css| && css[st.pos] == q && (q == '"' || q == '\'')
    ensures EscapedRunEndsAt(css, st.pos + 1, ScanString(css, q, st).pos, {q})
  {
    var e := EscapedScanEnd(css, st.pos + 1, {q});
    EscapedScanEndSpan(css, st.pos + 1, {q});
    assert ScanString(css, q, st).pos == e;
  }

  /** `parseIdentifier`, entered on a slash or on a character outside the punctuation table:
      one Identifier token holding what the scan consumed. Url mode is set when the text is
      exactly `url` and is never cleared here. */
  lemma IdentifierToken(css: string, st: State)
    requires 0 <= st.pos < |css| && (css[st.pos] == '/' || !IsPunctuation(css[st.pos]))
    ensures var r := ScanIdentifier(css, st);
      && Follows(st, r) && Last(r).kind == Identifier && Consumed(css, st, r)
      && r.urlMode == (st.urlMode || Last(r).text == "url")
  {
    var r := ScanIdentifier(css, st);
    assert Last(r).text == Substring(css, st.pos, r.pos + 1);
    assert r.tokens[..|st.tokens|] == st.tokens;
    assert r.tokens == st.tokens + [Last(r)];
  }

  /** The escape-aware loop with the punctuation table as its stop set. */
  lemma PunctuationRunEndsAt(s: string, i: nat, x: int)
    requires i <= |s| && x == EscapedScanEnd(s, i, PunctuationKeys)
    ensures EscapedRunEndsAt(s, i, x, PunctuationKeys)
  {
    BackslashIsNotPunctuation();
    EscapedScanEndSpan(s, i, PunctuationKeys);
  }

  /** Where `parseIdentifier` stops: past the leading slashes, an escaped run ends on the first
      unescaped punctuation character, or at the end of input, or one past it after a lone
      backslash; a backslash always takes the character after it. The cursor is left one
      before that place. */
  lemma IdentifierTokenEnd(css: string, st: State)
    requires 0 <= st.pos < |css| && (css[st.pos] == '/' || !IsPunctuation(css[st.pos]))
    ensures EscapedRunEndsAt(css, SlashRunEnd(css, st.pos), ScanIdentifier(css, st).pos + 1, PunctuationKeys)
  {
    IdentifierScanPos(css, st);
    PunctuationRunEndsAt(css, SlashRunEnd(css, st.pos), ScanIdentifier(css, st).pos + 1);
  }

  /** Helper: the cursor `parseIdentifier` leaves, in terms of the escape-aware loop. */
  lemma IdentifierScanPos(css: string, st: State)
    requires 0 <= st.pos < |css|
    ensures ScanIdentifier(css, st).pos + 1 == EscapedScanEnd(css, SlashRunEnd(css, st.pos), PunctuationKeys)
  {
  }

  /** The punctuation branch: a one-character token of the table's kind; a line break raises
      the line counter by one, `{` and `}` move the depth by one either way without a lower
      bound, `)` clears url mode, and nothing else changes. */
  lemma PunctuationToken(css: string, st: State)
    requires 0 <= st.pos < |css| && IsPunctuation(css[st.pos])
    ensures var r := ScanPunctuation(css, st); var c := css[st.pos];
      && Follows(st, r) && Consumed(css, st, r) && r.pos == st.pos
      && Last(r).kind == Punctuation(c).value && Last(r).text == [c]
      && r.ln == st.ln + (if c == '\n' || c == '\r' then 1 else 0)
      && r.blockMode == st.blockMode + (if c == '{' then 1 else if c == '}' then -1 else 0)
      && r.urlMode == (c != ')' && st.urlMode)
  {
    var c := css[st.pos];
    var r := ScanPunctuation(css, st);
    assert r.tokens == st.tokens + [Token(Punctuation(c).value, [c], st.ln, |st.tokens|)];
  }

  /** A comment hook call: one token of the comment kind holding what the hook consumed. */
  lemma CommentToken(css: string, kind: TokenKind, h: Hook, st: State)
    requires 0 <= st.pos < |css| && Consumes(h)
    requires kind == CommentML || kind == CommentSL
    ensures var r := Comment(css, kind, h, st);
      Follows(st, r) && Last(r).kind == kind && Consumed(css, st, r)
  {
    var e := h(css, st.pos);
    var r := Comment(css, kind, h, st);
    assert r.tokens == st.tokens + [Token(kind, css[st.pos..e], st.ln, |st.tokens|)];
  }

  /** The case in which the dispatch loop emits nothing: `//` outside url mode that is not read
      as an identifier, with no single-line hook to call. */
  predicate DropsSlash(css: string, syntax: string, sl: Option<Hook>, st: State) {
    && 0 <= st.pos < |css|
    && css[st.pos] == '/' && CharIs(css, st.pos + 1, '/')
    && !st.urlMode
    && !(syntax == "css" && st.blockMode > 0)
    && sl.None?
  }

  /** One turn of the dispatch loop emits one token holding exactly the characters it
      consumed, and moves the state only as that token's kind dictates; the one exception is
      the dropped slash, where nothing at all changes. */
  lemma DispatchStep(css: string, syntax: string, ml: Hook, sl: Option<Hook>, st: State)
    requires 0 <= st.pos < |css| && HooksConsume(ml, sl)
    ensures var r := Dispatch(css, syntax, ml, sl, st);
      if DropsSlash(css, syntax, sl, st) then r == st
      else Follows(st, r) && Consumed(css, st, r)
  {
    var c := css[st.pos];
    if c == '/' && CharIs(css, st.pos + 1, '*') {
      CommentToken(css, CommentML, ml, st);
    } else if !st.urlMode && c == '/' && CharIs(css, st.pos + 1, '/') {
      if syntax == "css" && st.blockMode > 0 {
        IdentifierToken(css, st);
      } else if sl.Some? {
        CommentToken(css, CommentSL, sl.value, st);
      }
    } else if c == '"' || c == '\'' {
      StringToken(css, c, st);
    } else if c == ' ' {
      SpacesToken(css, st);
    } else if IsPunctuation(c) {
      PunctuationToken(css, st);
    } else if IsDecimalDigit(c) {
      DecimalNumberToken(css, st);
    } else {
      IdentifierToken(css, st);
    }
  }

  /** A slash followed by a star goes to the multiline hook whatever the url mode, the depth or the syntax, because
      that test comes first. */
  lemma SlashStarIsComment(css: string, syntax: string, ml: Hook, sl: Option<Hook>, st: State)
    requires 0 <= st.pos < |css| && HooksConsume(ml, sl)
    requires css[st.pos] == '/' && CharIs(css, st.pos + 1, '*')
    ensures var r := Dispatch(css, syntax, ml, sl, st);
      Follows(st, r) && Last(r).kind == CommentML && Consumed(css, st, r)
  {
    CommentToken(css, CommentML, ml, st);
  }

  /** `//` outside url mode, in css syntax and inside a block, is one Identifier token that
      starts with the two slashes. */
  lemma DoubleSlashInCssBlock(css: string, ml: Hook, sl: Option<Hook>, st: State)
    requires 0 <= st.pos < |css| && HooksConsume(ml, sl)
    requires css[st.pos] == '/' && CharIs(css, st.pos + 1, '/')
    requires !st.urlMode && st.blockMode > 0
    ensures var r := Dispatch(css, "css", ml, sl, st); var t := Last(r).text;
      Follows(st, r) && Last(r).kind == Identifier && |t| >= 2 && t[..2] == "//"
  {
    IdentifierToken(css, st);
    IdentifierTokenEnd(css, st);
    var a := SlashRunEnd(css, st.pos);
    assert st.pos + 2 <= a;
  }

  /** `//` outside url mode, when not read as an identifier, goes to the single-line hook if
      there is one. */
  lemma DoubleSlashIsComment(css: string, syntax: string, ml: Hook, sl: Option<Hook>, st: State)
    requires 0 <= st.pos < |css| && HooksConsume(ml, sl)
    requires css[st.pos] == '/' && CharIs(css, st.pos + 1, '/')
    requires !st.urlMode && !(syntax == "css" && st.blockMode > 0) && sl.Some?
    ensures var r := Dispatch(css, syntax, ml, sl, st);
      Follows(st, r) && Last(r).kind == CommentSL && Consumed(css, st, r)
  {
    CommentToken(css, CommentSL, sl.value, st);
  }

  /** In url mode `//` starts no comment and no identifier: the first slash is a plain Solidus
      token, url mode stays on, and the second slash is read on the next turn. */
  lemma DoubleSlashInUrlMode(css: string, syntax: string, ml: Hook, sl: Option<Hook>, st: State)
    requires 0 <= st.pos < |css| && HooksConsume(ml, sl)
    requires st.urlMode && css[st.pos] == '/' && CharIs(css, st.pos + 1, '/')
    ensures var r := Dispatch(css, syntax, ml, sl, st);
      && Follows(st, r) && Last(r) == Token(Solidus, "/", st.ln, |st.tokens|)
      && r.pos == st.pos && r.urlMode
  {
    PunctuationToken(css, st);
  }

  /** The texts of the tokens, in order. */
  function Texts(ts: seq<Token>): string {
    if ts == [] then [] else Texts(ts[..|ts| - 1]) + ts[|ts| - 1].text
  }

  /** The number of Newline tokens. */
  function Newlines(ts: seq<Token>): nat {
    if ts == [] then 0 else Newlines(ts[..|ts| - 1]) + (if ts[|ts| - 1].kind == Newline then 1 else 0)
  }

  /** The block depth after the tokens, starting from d. */
  function DepthAfter(d: int, ts: seq<Token>): int {
    if ts == [] then d else DepthAfter(d, ts[..|ts| - 1]) + DepthDelta(ts[|ts| - 1].kind)
  }

  /** The url mode after the tokens, starting from u. */
  function UrlModeAfter(u: bool, ts: seq<Token>): bool {
    if ts == [] then u else UrlAfter(UrlModeAfter(u, ts[..|ts| - 1]), ts[|ts| - 1])
  }

  /** What the state says about its tokens: each carries its own position as index and, as
      line, one more than the number of line breaks before it; the line counter, the depth
      and the url mode are those the tokens lead to from 1, b0 and u0. */
  predicate Stamped(st: State, u0: bool, b0: int) {
    && (forall i | 0 <= i < |st.tokens| ::
          st.tokens[i].index == i && st.tokens[i].line == 1 + Newlines(st.tokens[..i]))
    && st.ln == 1 + Newlines(st.tokens)
    && st.blockMode == DepthAfter(b0, st.tokens)
    && st.urlMode == UrlModeAfter(u0, st.tokens)
  }

  lemma FollowsKeepsStamped(st: State, r: State, u0: bool, b0: int)
    requires Stamped(st, u0, b0) && Follows(st, r)
    ensures Stamped(r, u0, b0)
  {
    assert r.tokens[..|r.tokens| - 1] == st.tokens;
    forall i | 0 <= i < |st.tokens|
      ensures r.tokens[..i] == st.tokens[..i]
    {
    }
  }

  /** The dispatch loop keeps the tokens stamped. */
  lemma {:induction false} LoopKeepsStamped(css: string, syntax: string, ml: Hook, sl: Option<Hook>,
                                            st: State, u0: bool, b0: int)
    requires 0 <= st.pos && HooksConsume(ml, sl) && Stamped(st, u0, b0)
    ensures Stamped(Loop(css, syntax, ml, sl, st), u0, b0)
    decreases |css| - st.pos
  {
    if st.pos < |css| {
      DispatchStep(css, syntax, ml, sl, st);
      var r := Dispatch(css, syntax, ml, sl, st);
      if !DropsSlash(css, syntax, sl, st) {
        FollowsKeepsStamped(st, r, u0, b0);
      }
      LoopKeepsStamped(css, syntax, ml, sl, Next(css, syntax, ml, sl, st), u0, b0);
    }
  }

  /** The tokens so far spell the input up to the cursor. */
  predicate Reproduces(css: string, st: State) {
    0 <= st.pos && Texts(st.tokens) == css[..Min(st.pos, |css|)]
  }

  /** When the single-line hook is there, the dispatch loop keeps the tokens spelling the
      input up to the cursor. */
  lemma {:induction false} LoopReproduces(css: string, syntax: string, ml: Hook, sl: Option<Hook>, st: State)
    requires HooksConsume(ml, sl) && sl.Some? && Reproduces(css, st)
    ensures Reproduces(css, Loop(css, syntax, ml, sl, st))
    decreases |css| - st.pos
  {
    if st.pos < |css| {
      DispatchStep(css, syntax, ml, sl, st);
      var r := Dispatch(css, syntax, ml, sl, st);
      var m := Min(r.pos + 1, |css|);
      assert r.tokens[..|r.tokens| - 1] == st.tokens;
      assert Texts(r.tokens) == css[..st.pos] + css[st.pos..m];
      assert css[..st.pos] + css[st.pos..m] == css[..m];
      LoopReproduces(css, syntax, ml, sl, Next(css, syntax, ml, sl, st));
    }
  }

  /** Round trip: with a single-line hook present, the token texts spell the input exactly. */
  lemma TokenizeRoundTrip(css: string, syntax: string, ml: Hook, sl: Option<Hook>, u0: bool, b0: int)
    requires HooksConsume(ml, sl) && sl.Some?
    ensures Texts(Tokenize(css, syntax, ml, sl, u0, b0).tokens) == css
  {
    var st0 := State(0, u0, b0, 1, []);
    LoopReproduces(css, syntax, ml, sl, st0);
  }

  /** Whatever the hooks: token i has index i and line 1 plus the line breaks before it; the
      final line counter, depth and url mode are those the tokens lead to. */
  lemma TokenizeStamped(css: string, syntax: string, ml: Hook, sl: Option<Hook>, u0: bool, b0: int)
    requires HooksConsume(ml, sl)
    ensures var r := Tokenize(css, syntax, ml, sl, u0, b0);
      && (forall i | 0 <= i < |r.tokens| ::
            r.tokens[i].index == i && r.tokens[i].line == 1 + Newlines(r.tokens[..i]))
      && r.ln == 1 + Newlines(r.tokens)
      && r.blockMode == DepthAfter(b0, r.tokens)
      && r.urlMode == UrlModeAfter(u0, r.tokens)
  {
    LoopKeepsStamped(css, syntax, ml, sl, State(0, u0, b0, 1, []), u0, b0);
  }

  lemma {:induction false} NewlinesMonotone(ts: seq<Token>, i: nat, j: nat)
    requires i <= j <= |ts|
    ensures Newlines(ts[..i]) <= Newlines(ts[..j])
    decreases j - i
  {
    if i < j {
      NewlinesMonotone(ts, i, j - 1);
      assert ts[..j][..j - 1] == ts[..j - 1];
    }
  }

  /** Line numbers: the first token is on line 1, a token follows its predecessor's line,
      one more exactly when the predecessor is a line break, so they never decrease. */
  lemma TokenizeLines(css: string, syntax: string, ml: Hook, sl: Option<Hook>, u0: bool, b0: int)
    requires HooksConsume(ml, sl)
    ensures var ts := Tokenize(css, syntax, ml, sl, u0, b0).tokens;
      && (|ts| > 0 ==> ts[0].line == 1)
      && (forall i | 0 <= i < |ts| - 1 ::
            ts[i + 1].line == ts[i].line + (if ts[i].kind == Newline then 1 else 0))
      && (forall i, j | 0 <= i <= j < |ts| :: ts[i].line <= ts[j].line)
  {
    TokenizeStamped(css, syntax, ml, sl, u0, b0);
    var ts := Tokenize(css, syntax, ml, sl, u0, b0).tokens;
    forall i | 0 <= i < |ts| - 1
      ensures ts[i + 1].line == ts[i].line + (if ts[i].kind == Newline then 1 else 0)
    {
      assert ts[..i + 1][..i] == ts[..i];
    }
    forall i, j | 0 <= i <= j < |ts|
      ensures ts[i].line <= ts[j].line
    {
      NewlinesMonotone(ts, i, j);
    }
  }

  /** The empty stylesheet gives no tokens and leaves the modes as they came in. */
  lemma TokenizeEmpty(syntax: string, ml: Hook, sl: Option<Hook>, u0: bool, b0: int)
    requires HooksConsume(ml, sl)
    ensures Tokenize("", syntax, ml, sl, u0, b0) == State(0, u0, b0, 1, [])
  {
  }

  /** The dropped slash: without a single-line hook, `//` outside a css block loses its first
      slash, so the round trip needs the hook. */
  lemma DroppedSlash(ml: Hook)
    requires Consumes(ml)
    ensures Tokenize("//", "css", ml, None, false, 0).tokens == [Token(Solidus, "/", 1, 0)]
    ensures Texts(Tokenize("//", "css", ml, None, false, 0).tokens) != "//"
  {
    var st0 := State(0, false, 0, 1, []);
    assert DropsSlash("//", "css", None, st0);
    DispatchStep("//", "css", ml, None, st0);
    var st1 := Next("//", "css", ml, None, st0);
    assert st1 == State(1, false, 0, 1, []);
    var st2 := Next("//", "css", ml, None, st1);
    PunctuationToken("//", st1);
    assert st2.tokens == [Token(Solidus, "/", 1, 0)];
  }
}
