/** The tokenizer as functions on an explicit scan state: one function per scanning routine,
    one for the body of the dispatch loop, and the loop itself. */
module TokenizerSpec {
  import opened CssTokens

  /** `s.charAt(i)`: the one-character string at i, or the empty string outside s. */
  function CharAt(s: string, i: int): (r: string)
    ensures |r| <= 1
    ensures |r| == 1 <==> 0 <= i < |s|
    ensures |r| == 1 ==> r[0] == s[i]
  {
    if 0 <= i < |s| then [s[i]] else ""
  }

  /** `s.charAt(i) === c` for a single character c: the empty string outside s equals no
      character. */
  predicate CharIs(s: string, i: int, c: char)
    ensures CharIs(s, i, c) <==> CharAt(s, i) == [c]
  {
    0 <= i < |s| && s[i] == c
  }

  function Min(a: int, b: int): int {
    if a <= b then a else b
  }

  /** `s.substring(start, end)`: both bounds are clamped to the string, then ordered. */
  function Substring(s: string, start: int, end: int): (r: string)
    ensures 0 <= start <= end <= |s| ==> r == s[start..end]
    ensures 0 <= start <= |s| <= end ==> r == s[start..]
  {
    var a := if start < 0 then 0 else Min(start, |s|);
    var b := if end < 0 then 0 else Min(end, |s|);
    if a <= b then s[a..b] else s[b..a]
  }

  /** A comment scanner supplied by the syntax variant: given the stylesheet and the position
      of the comment's first character, the position one past its last character. */
  type Hook = (string, nat) -> nat

  /** The minimal contract of a comment scanner: it consumes at least the character it starts
      on and never reads past the end of the input. */
  ghost predicate Consumes(h: Hook) {
    forall css: string, p: nat :: p < |css| ==> p < h(css, p) <= |css|
  }

  /** The multiline scanner is always there; the single-line one may be missing. */
  ghost predicate HooksConsume(ml: Hook, sl: Option<Hook>) {
    Consumes(ml) && (sl.Some? ==> Consumes(sl.value))
  }

  /** The scan state: the cursor, the two modes, the line counter and the tokens so far. */
  datatype State = State(pos: int, urlMode: bool, blockMode: int, ln: nat, tokens: seq<Token>)

  /** `pushToken`: append a token stamped with the current line and the next index. */
  function Push(st: State, kind: TokenKind, text: string): State {
    st.(tokens := st.tokens + [Token(kind, text, st.ln, |st.tokens|)])
  }

  /** The loop of `parseSpaces`: the first position at or after i that is not a space. */
  function SpaceRunEnd(css: string, i: nat): (e: nat)
    requires i <= |css|
    ensures i <= e <= |css|
    ensures forall k :: i <= k < e ==> css[k] == ' '
    ensures e == |css| || css[e] != ' '
    decreases |css| - i
  {
    if i >= |css| || css[i] != ' ' then i else SpaceRunEnd(css, i + 1)
  }

  /** The loop of `parseDecimalNumber`: the first position at or after i that is not a digit. */
  function DigitRunEnd(css: string, i: nat): (e: nat)
    requires i <= |css|
    ensures i <= e <= |css|
    ensures forall k :: i <= k < e ==> css[k] in "0123456789"
    ensures e == |css| || !IsDecimalDigit(css[e])
    decreases |css| - i
  {
    if i >= |css| || !IsDecimalDigit(css[i]) then i else DigitRunEnd(css, i + 1)
  }

  /** The opening loop of `parseIdentifier`: the first position at or after i without a slash. */
  function SlashRunEnd(css: string, i: nat): (e: nat)
    requires i <= |css|
    ensures i <= e <= |css|
    ensures forall k :: i <= k < e ==> css[k] == '/'
    ensures !CharIs(css, e, '/')
    decreases |css| - i
  {
    if CharIs(css, i, '/') then SlashRunEnd(css, i + 1) else i
  }

  /** The escape-aware loop of `parseString` (stops = the quote) and of `parseIdentifier`
      (stops = the punctuation keys): a backslash skips the next character, a stop character
      ends the loop on itself. The result is where the cursor stands when the loop ends; it is
      one past the end of input when the input ends in a lone escaping backslash. */
  function EscapedScanEnd(css: string, i: nat, stops: set<char>): (e: nat)
    requires i <= |css| + 1
    requires '\\' !in stops
    ensures i <= e <= |css| + 1
    ensures e < |css| ==> css[e] in stops
    decreases |css| + 1 - i
  {
    if i >= |css| then i
    else if css[i] == '\\' then EscapedScanEnd(css, i + 2, stops)
    else if css[i] in stops then i
    else EscapedScanEnd(css, i + 1, stops)
  }

  /** `parseSpaces`: one Space token for the run of spaces at the cursor; the cursor is left
      on the last space. What the text holds is stated by TokenizerProperties.SpacesToken. */
  function ScanSpaces(css: string, st: State): (r: State)
    requires 0 <= st.pos <= |css|
    ensures CharIs(css, st.pos, ' ') ==> r.pos >= st.pos
    ensures r.pos < |css|
  {
    var e := SpaceRunEnd(css, st.pos);
    Push(st.(pos := e), Space, Substring(css, st.pos, e)).(pos := e - 1)
  }

  /** `parseDecimalNumber`: one DecimalNumber token for the run of digits at the cursor; the
      cursor is left on the last digit. */
  function ScanDecimalNumber(css: string, st: State): (r: State)
    requires 0 <= st.pos <= |css|
    ensures st.pos < |css| && IsDecimalDigit(css[st.pos]) ==> r.pos >= st.pos
    ensures r.pos < |css|
  {
    var e := DigitRunEnd(css, st.pos);
    Push(st.(pos := e), DecimalNumber, Substring(css, st.pos, e)).(pos := e - 1)
  }

  /** `parseString`: one string token from the opening quote q to the first unescaped q, or to
      the end of input; the cursor is left on the closing quote. */
  function ScanString(css: string, q: char, st: State): (r: State)
    requires 0 <= st.pos < |css| && css[st.pos] == q && q != '\\'
    ensures st.pos < r.pos <= |css| + 1
  {
    var p := EscapedScanEnd(css, st.pos + 1, {q});
    Push(st.(pos := p), if q == '"' then StringDQ else StringSQ, Substring(css, st.pos, p + 1))
  }

  /** `parseIdentifier`: leading slashes first, then an escaped run up to the first unescaped
      punctuation character; url mode is entered when the text is exactly `url`. The cursor is
      left on the last character consumed. */
  function ScanIdentifier(css: string, st: State): (r: State)
    requires 0 <= st.pos < |css|
    ensures st.pos - 1 <= r.pos <= |css|
  {
    var a := SlashRunEnd(css, st.pos);
    var e := EscapedScanEnd(css, a, PunctuationKeys);
    var ident := Substring(css, st.pos, e);
    Push(st.(pos := e, urlMode := st.urlMode || ident == "url"), Identifier, ident).(pos := e - 1)
  }

  /** Entered on a slash or on a character outside the punctuation table, `parseIdentifier`
      consumes at least that character, so its `pos--` never moves the cursor back. */
  lemma IdentifierAdvances(css: string, st: State)
    requires 0 <= st.pos < |css| && (css[st.pos] == '/' || !IsPunctuation(css[st.pos]))
    ensures ScanIdentifier(css, st).pos >= st.pos
  {
    var a := SlashRunEnd(css, st.pos);
    assert EscapedScanEnd(css, a, PunctuationKeys) > st.pos;
  }

  /** The punctuation branch of the dispatch loop: a one-character token of the table's kind;
      a line break moves the line counter, `)` leaves url mode, braces move the depth. */
  function ScanPunctuation(css: string, st: State): (r: State)
    requires 0 <= st.pos < |css| && IsPunctuation(css[st.pos])
    ensures r.pos == st.pos
  {
    var c := css[st.pos];
    var r := Push(st, Punctuation(c).value, [c]);
    r.(ln := if c == '\n' || c == '\r' then r.ln + 1 else r.ln,
       urlMode := if c == ')' then false else r.urlMode,
       blockMode := if c == '{' then r.blockMode + 1 else if c == '}' then r.blockMode - 1 else r.blockMode)
  }

  /** A comment hook: one token of the given kind holding exactly what the hook consumed; the
      cursor is left on its last character. */
  function Comment(css: string, kind: TokenKind, h: Hook, st: State): (r: State)
    requires 0 <= st.pos < |css| && Consumes(h)
    requires kind == CommentML || kind == CommentSL
    ensures st.pos <= r.pos < |css|
  {
    var e := h(css, st.pos);
    assert st.pos < e <= |css|;
    Push(st, kind, css[st.pos..e]).(pos := e - 1)
  }

  /** The body of the dispatch loop, before the loop's own increment of the cursor. Every case
      but the dropped slash emits one token holding exactly the characters it consumed; the
      cursor never moves back. */
  function Dispatch(css: string, syntax: string, ml: Hook, sl: Option<Hook>, st: State): (r: State)
    requires 0 <= st.pos < |css| && HooksConsume(ml, sl)
    ensures st.pos <= r.pos <= |css| + 1
  {
    var c := css[st.pos];
    if c == '/' && CharIs(css, st.pos + 1, '*') then
      Comment(css, CommentML, ml, st)
    else if !st.urlMode && c == '/' && CharIs(css, st.pos + 1, '/') then
      if syntax == "css" && st.blockMode > 0 then IdentifierAdvances(css, st); ScanIdentifier(css, st)
      else if sl.Some? then Comment(css, CommentSL, sl.value, st)
      else st
    else if c == '"' || c == '\'' then
      ScanString(css, c, st)
    else if c == ' ' then
      ScanSpaces(css, st)
    else if IsPunctuation(c) then
      ScanPunctuation(css, st)
    else if IsDecimalDigit(c) then
      ScanDecimalNumber(css, st)
    else
      IdentifierAdvances(css, st); ScanIdentifier(css, st)
  }

  /** The dispatch loop of `_getTokens`: dispatch, step past the last consumed character, and
      go on while the cursor is inside the input. It ends for every input because no dispatch
      moves the cursor back. */
  function Loop(css: string, syntax: string, ml: Hook, sl: Option<Hook>, st: State): (r: State)
    requires 0 <= st.pos && HooksConsume(ml, sl)
    ensures st.pos <= |css| + 2 ==> |css| <= r.pos <= |css| + 2
    ensures st.pos >= |css| ==> r == st
    decreases |css| - st.pos
  {
    if st.pos < |css| then Loop(css, syntax, ml, sl, Next(css, syntax, ml, sl, st)) else st
  }

  function Next(css: string, syntax: string, ml: Hook, sl: Option<Hook>, st: State): (r: State)
    requires 0 <= st.pos < |css| && HooksConsume(ml, sl)
    ensures st.pos < r.pos <= |css| + 2
  {
    var n := Dispatch(css, syntax, ml, sl, st);
    n.(pos := n.pos + 1)
  }

  /** One turn of the dispatch loop. */
  lemma LoopStep(css: string, syntax: string, ml: Hook, sl: Option<Hook>, st: State)
    requires 0 <= st.pos < |css| && HooksConsume(ml, sl)
    ensures Loop(css, syntax, ml, sl, st) == Loop(css, syntax, ml, sl, Next(css, syntax, ml, sl, st))
  {
  }

  /** `_getTokens`: the token list, the cursor and the line counter start afresh; the url mode
      and the block depth are carried in from the previous call. */
  function Tokenize(css: string, syntax: string, ml: Hook, sl: Option<Hook>,
                    urlMode0: bool, blockMode0: int): (r: State)
    requires HooksConsume(ml, sl)
    ensures |css| <= r.pos <= |css| + 2
  {
    Loop(css, syntax, ml, sl, State(0, urlMode0, blockMode0, 1, []))
  }
}
