/** Token kinds, tokens and the two character tables of the stylesheet tokenizer. */
module CssTokens {

  datatype Option<T> = None | Some(value: T)

  /** One kind per punctuation character of the table, plus the kinds of the scanned runs. */
  datatype TokenKind =
    | Space | Newline | Tab
    | ExclamationMark | QuotationMark | NumberSign | DollarSign | PercentSign | Ampersand
    | Apostrophe | LeftParenthesis | RightParenthesis | Asterisk | PlusSign | Comma
    | HyphenMinus | FullStop | Solidus | Colon | Semicolon | LessThanSign | EqualsSign
    | GreaterThanSign | QuestionMark | CommercialAt | LeftSquareBracket | RightSquareBracket
    | CircumflexAccent | LowLine | LeftCurlyBracket | VerticalLine | RightCurlyBracket | Tilde
    | StringDQ | StringSQ | DecimalNumber | Identifier | CommentML | CommentSL

  /** What `pushToken` records: the kind, the consumed text, the line counter at the time
      and the number of tokens emitted before this one. */
  datatype Token = Token(kind: TokenKind, text: string, line: nat, index: nat)

  /** The keys of the punctuation table, all of them between tab and `~`. */
  const PunctuationKeys: set<char> := set c: char | '\t' <= c <= '~' && Punctuation(c).Some?

  /** The punctuation table: the token kind of a punctuation character, None for any other. */
  function Punctuation(c: char): (r: Option<TokenKind>)
    ensures r.Some? ==> r.value !in {StringDQ, StringSQ, DecimalNumber, Identifier, CommentML, CommentSL}
    ensures r == Some(Space) <==> c == ' '
    ensures r == Some(Newline) <==> c == '\n' || c == '\r'
    ensures r == Some(RightParenthesis) <==> c == ')'
    ensures r == Some(LeftCurlyBracket) <==> c == '{'
    ensures r == Some(RightCurlyBracket) <==> c == '}'
  {
    match c
    case ' ' => Some(Space)
    case '\n' => Some(Newline)
    case '\r' => Some(Newline)
    case '\t' => Some(Tab)
    case '!' => Some(ExclamationMark)
    case '"' => Some(QuotationMark)
    case '#' => Some(NumberSign)
    case '$' => Some(DollarSign)
    case '%' => Some(PercentSign)
    case '&' => Some(Ampersand)
    case '\'' => Some(Apostrophe)
    case '(' => Some(LeftParenthesis)
    case ')' => Some(RightParenthesis)
    case '*' => Some(Asterisk)
    case '+' => Some(PlusSign)
    case ',' => Some(Comma)
    case '-' => Some(HyphenMinus)
    case '.' => Some(FullStop)
    case '/' => Some(Solidus)
    case ':' => Some(Colon)
    case ';' => Some(Semicolon)
    case '<' => Some(LessThanSign)
    case '=' => Some(EqualsSign)
    case '>' => Some(GreaterThanSign)
    case '?' => Some(QuestionMark)
    case '@' => Some(CommercialAt)
    case '[' => Some(LeftSquareBracket)
    case ']' => Some(RightSquareBracket)
    case '^' => Some(CircumflexAccent)
    case '_' => Some(LowLine)
    case '{' => Some(LeftCurlyBracket)
    case '|' => Some(VerticalLine)
    case '}' => Some(RightCurlyBracket)
    case '~' => Some(Tilde)
    case _ => None
  }

  /** The table's `in` test: whether c is a key of the punctuation table. */
  predicate IsPunctuation(c: char)
    ensures IsPunctuation(c) <==> Punctuation(c).Some?
  {
    c in PunctuationKeys
  }

  /** The keys written out: the space, the three control characters and the ASCII
      punctuation marks. `_` is one of them; the backslash, letters and digits are not. */
  lemma PunctuationKeysListed()
    ensures PunctuationKeys ==
      {' ', '\n', '\r', '\t', '!', '"', '#', '$', '%', '&', '\'', '(', ')', '*', '+', ',', '-',
       '.', '/', ':', ';', '<', '=', '>', '?', '@', '[', ']', '^', '_', '{', '|', '}', '~'}
    ensures '_' in PunctuationKeys && '\\' !in PunctuationKeys
  {
  }

  /** The backslash is not a key of the table, so it never stops the identifier scan. */
  lemma BackslashIsNotPunctuation()
    ensures '\\' !in PunctuationKeys
  {
  }

  /** Two punctuation characters share a kind only when both are line breaks. */
  lemma PunctuationInjective(c: char, d: char)
    requires Punctuation(c).Some? && Punctuation(c) == Punctuation(d)
    ensures c == d || (c in {'\n', '\r'} && d in {'\n', '\r'})
  {
  }

  /** `isDecimalDigit`: membership in the string of the ten ASCII digits. */
  predicate IsDecimalDigit(c: char)
    ensures IsDecimalDigit(c) <==> '0' <= c <= '9'
  {
    c in "0123456789"
  }

  /** Digits are not punctuation, so the dispatch order between the two tests does not matter. */
  lemma DigitsAreNotPunctuation(c: char)
    requires IsDecimalDigit(c)
    ensures !IsPunctuation(c)
  {
  }
}
