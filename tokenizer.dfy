/** The tokenizer as the source writes it: a scanner object whose cursor, modes, line counter
    and token list are updated in place by one method per scanning routine. Each method is
    proved to have the effect of the matching function of TokenizerSpec. */
module CssTokenizer {
  import opened CssTokens
  import opened TokenizerSpec

  class Tokenizer {
    var pos: int
    var urlMode: bool
    var blockMode: int
    var ln: nat
    var tokens: seq<Token>

    /** The scan state these fields hold. */
    ghost function Current(): State
      reads this
    {
      State(pos, urlMode, blockMode, ln, tokens)
    }

    /** The module-level initialisation of the two modes, with the values they carry in. */
    constructor (urlMode0: bool, blockMode0: int)
      ensures Current() == State(0, urlMode0, blockMode0, 1, [])
    {
      pos := 0;
      urlMode := urlMode0;
      blockMode := blockMode0;
      ln := 1;
      tokens := [];
    }

    method PushToken(kind: TokenKind, text: string)
      modifies this
      ensures Current() == Push(old(Current()), kind, text)
    {
      tokens := tokens + [Token(kind, text, ln, |tokens|)];
    }

    method ParseSpaces(css: string)
      requires 0 <= pos <= |css|
      modifies this
      ensures Current() == ScanSpaces(css, old(Current()))
    {
      ghost var st0 := Current();
      var start := pos;
      ghost var end: int := SpaceRunEnd(css, pos);
      while pos < |css|
        invariant start <= pos <= |css|
        invariant SpaceRunEnd(css, pos) == end
        invariant tokens == st0.tokens && urlMode == st0.urlMode && blockMode == st0.blockMode && ln == st0.ln
        decreases |css| - pos
      {
        if css[pos] != ' ' {
          break;
        }
        pos := pos + 1;
      }
      assert pos == end;
      PushToken(Space, Substring(css, start, pos));
      pos := pos - 1;
      assert Current() == Push(st0.(pos := end), Space, Substring(css, start, end)).(pos := end - 1);
    }

    /** The escape-aware loop of `parseString` and `parseIdentifier`: a backslash takes the
        character after it along, and the loop stops on a stop character or at the end of
        input (one past it after a trailing backslash). */
    method SkipEscapedRun(css: string, stops: set<char>)
      requires 0 <= pos <= |css| + 1 && '\\' !in stops
      modifies this`pos
      ensures pos == EscapedScanEnd(css, old(pos), stops)
    {
      ghost var end := EscapedScanEnd(css, pos, stops);
      while pos < |css|
        invariant old(pos) <= pos <= |css| + 1
        invariant EscapedScanEnd(css, pos, stops) == end
        decreases |css| + 1 - pos
      {
        if css[pos] == '\\' {
          pos := pos + 1;
        } else if css[pos] in stops {
          break;
        }
        pos := pos + 1;
      }
    }

    method ParseString(css: string, q: char)
      requires 0 <= pos < |css| && css[pos] == q && q != '\\'
      modifies this
      ensures Current() == ScanString(css, q, old(Current()))
    {
      ghost var st0 := Current();
      var start := pos;
      pos := pos + 1;
      SkipEscapedRun(css, {q});
      ghost var end := pos;
      PushToken(if q == '"' then StringDQ else StringSQ, Substring(css, start, pos + 1));
      assert Current() == Push(st0.(pos := end), if q == '"' then StringDQ else StringSQ, Substring(css, start, end + 1));
    }

    method ParseDecimalNumber(css: string)
      requires 0 <= pos <= |css|
      modifies this
      ensures Current() == ScanDecimalNumber(css, old(Current()))
    {
      ghost var st0 := Current();
      var start := pos;
      ghost var end: int := DigitRunEnd(css, pos);
      while pos < |css|
        invariant start <= pos <= |css|
        invariant DigitRunEnd(css, pos) == end
        invariant tokens == st0.tokens && urlMode == st0.urlMode && blockMode == st0.blockMode && ln == st0.ln
        decreases |css| - pos
      {
        if !IsDecimalDigit(css[pos]) {
          break;
        }
        pos := pos + 1;
      }
      assert pos == end;
      PushToken(DecimalNumber, Substring(css, start, pos));
      pos := pos - 1;
      assert Current() == Push(st0.(pos := end), DecimalNumber, Substring(css, start, end)).(pos := end - 1);
    }

    method ParseIdentifier(css: string)
      requires 0 <= pos < |css|
      modifies this
      ensures Current() == ScanIdentifier(css, old(Current()))
    {
      ghost var st0 := Current();
      var start := pos;
      ghost var slashes: int := SlashRunEnd(css, pos);
      while CharIs(css, pos, '/')
        invariant start <= pos <= |css|
        invariant SlashRunEnd(css, pos) == slashes
        invariant tokens == st0.tokens && urlMode == st0.urlMode && blockMode == st0.blockMode && ln == st0.ln
        decreases |css| - pos
      {
        pos := pos + 1;
      }
      assert pos == slashes;
      BackslashIsNotPunctuation();
      SkipEscapedRun(css, PunctuationKeys);
      ghost var end: int := pos;
      var ident := Substring(css, start, pos);
      urlMode := urlMode || ident == "url";
      PushToken(Identifier, ident);
      pos := pos - 1;
      assert Current() == Push(st0.(pos := end, urlMode := st0.urlMode || ident == "url"), Identifier, ident).(pos := end - 1);
    }

    /** A call of a comment hook: the hook says where the comment ends, the text up to there
        becomes one token and the cursor is left on its last character. */
    method ParseComment(css: string, kind: TokenKind, h: Hook)
      requires 0 <= pos < |css| && Consumes(h)
      requires kind == CommentML || kind == CommentSL
      modifies this
      ensures Current() == Comment(css, kind, h, old(Current()))
    {
      var e := h(css, pos);
      PushToken(kind, css[pos..e]);
      pos := e - 1;
    }

    /** The body of the dispatch loop of `_getTokens`: look at the current and the next
        character and either call a scanner or emit one punctuation token. */
    method Step(css: string, syntax: string, ml: Hook, sl: Option<Hook>)
      requires 0 <= pos < |css| && HooksConsume(ml, sl)
      modifies this
      ensures Current() == Dispatch(css, syntax, ml, sl, old(Current()))
    {
      ghost var before := Current();
      var c := css[pos];
      if c == '/' && CharIs(css, pos + 1, '*') {
        ParseComment(css, CommentML, ml);
        assert Current() == Comment(css, CommentML, ml, before);
      } else if !urlMode && c == '/' && CharIs(css, pos + 1, '/') {
        if syntax == "css" && blockMode > 0 {
          ParseIdentifier(css);
          assert Current() == ScanIdentifier(css, before);
        } else if sl.Some? {
          ParseComment(css, CommentSL, sl.value);
          assert Current() == Comment(css, CommentSL, sl.value, before);
        }
      } else if c == '"' || c == '\'' {
        ParseString(css, c);
        assert Current() == ScanString(css, c, before);
      } else if c == ' ' {
        ParseSpaces(css);
        assert Current() == ScanSpaces(css, before);
      } else if IsPunctuation(c) {
        PushToken(Punctuation(c).value, [c]);
        ghost var pushed := Current();
        if c == '\n' || c == '\r' {
          ln := ln + 1;
        }
        if c == ')' {
          urlMode := false;
        }
        if c == '{' {
          blockMode := blockMode + 1;
        }
        if c == '}' {
          blockMode := blockMode - 1;
        }
        assert Current() == pushed.(ln := if c == '\n' || c == '\r' then pushed.ln + 1 else pushed.ln,
                                    urlMode := if c == ')' then false else pushed.urlMode,
                                    blockMode := if c == '{' then pushed.blockMode + 1
                                                 else if c == '}' then pushed.blockMode - 1 else pushed.blockMode);
        assert Current() == ScanPunctuation(css, before);
      } else if IsDecimalDigit(c) {
        ParseDecimalNumber(css);
        assert Current() == ScanDecimalNumber(css, before);
      } else {
        ParseIdentifier(css);
        assert Current() == ScanIdentifier(css, before);
      }
    }

    /** `_getTokens`: resets the token list, the cursor and the line counter, but not the two
        modes, then dispatches on each character in turn. */
    method GetTokens(css: string, syntax: string, ml: Hook, sl: Option<Hook>)
      requires HooksConsume(ml, sl)
      modifies this
      ensures Current() == Tokenize(css, syntax, ml, sl, old(urlMode), old(blockMode))
    {
      tokens := [];
      pos := 0;
      ln := 1;
      ghost var result := Loop(css, syntax, ml, sl, Current());
      while pos < |css|
        invariant 0 <= pos
        invariant Loop(css, syntax, ml, sl, Current()) == result
        decreases |css| - pos
      {
        ghost var before := Current();
        Step(css, syntax, ml, sl);
        pos := pos + 1;
        assert Current() == Next(css, syntax, ml, sl, before);
        LoopStep(css, syntax, ml, sl, before);
      }
    }
  }
}
