# gonzales-pe stylesheet tokenizer, modelled in Dafny

This project models the tokenizer of gonzales-pe (`src/tokenizer.js`). The tokenizer turns
a stylesheet string into a flat list of typed tokens. Each token carries:

- a kind;
- the exact text it consumed;
- the line counter at the time it was emitted;
- its index in the list.

The tokenizer works in a single forward scan. It looks at the current character and the next
one. It then either calls one of the scanners (spaces, quoted strings, decimal digits,
identifiers, and the two comment hooks), or emits a one-character token from the punctuation
table. Three pieces of state are carried from one character to the next:

- the url mode, entered by the identifier `url` and left on `)`;
- the block depth, raised by `{` and lowered by `}`;
- the line counter.

The project has four modules:

- `CssTokens` (`tokens.dfy`): the token kinds, the token record, the punctuation table and the
  decimal-digit test.
- `TokenizerSpec` (`spec.dfy`): the scan state, the JavaScript string primitives the code relies
  on, and one function per scanner, for the loop body (`Dispatch`) and for the whole run
  (`Tokenize`). These are the specification the methods are proved against. The primitives
  are `charAt`, which reads as empty outside the string, and `substring`, which clamps its
  bounds.
- `CssTokenizer` (`tokenizer.dfy`): the tokenizer as the code writes it. A `Tokenizer` object's
  fields `pos`, `urlMode`, `blockMode`, `ln` and `tokens` are updated in place by one method
  per scanning routine, with the code's loops and their invariants. Each method is proved to
  leave the object in the state the matching `TokenizerSpec` function computes.
- `TokenizerProperties` (`properties.dfy`): what the functions guarantee, namely:
  - the token each scanner emits and where it stops;
  - how one turn of the loop moves the modes;
  - the precedence of `/*` and the handling of `//`;
  - the round trip of the token texts;
  - line numbers, indices, depth and url mode over a whole run;
  - the dropped slash.

The comment scanners are defined outside this file and appear only as hooks. A hook is a
function from the input and the cursor to the end of the comment. The single-line hook may
be absent. The model makes these assumptions about a hook call:

- the comment ends after the cursor and no later than the end of the input;
- exactly the consumed text is emitted as one comment token;
- the cursor is left on the comment's last character;
- the line counter, url mode and depth are left unchanged.

Where the code and the design of the tokenizer differ, the model follows the code:

- **The modes are not reset per call.** `urlMode` and `blockMode` are module-level and are not
  reset at the start of a run (`src/tokenizer.js:4-5`, `:143-147`). `Tokenize` therefore takes
  their starting values as parameters.
- **Only punctuation line breaks count.** In this file the line counter moves only on a
  punctuation line break (`:180`). A line break inside a string does not move it. A line
  break inside a comment does not move it either, under the assumption above that the hooks
  leave the line counter alone.
- **A slash can be lost.** Take `//` outside url mode, where the syntax is not css or the depth
  is not positive, and where no single-line hook exists. Nothing is emitted for the first
  slash (`:165`), and the second slash is read on the next turn. The round trip therefore
  holds only with a single-line hook (`TokenizeRoundTrip`). `DroppedSlash` exhibits the loss
  on the input `//`.
- **The cursor can run past the end.** A string that ends in a lone backslash leaves the cursor
  one past the end of the input (`:79-86`). The token text is clamped by `substring`, and the
  loop still ends.

## Model

| member | source | states |
|---|---|---|
| CssTokens.Punctuation | src/tokenizer.js:7-42 | The table gives Space exactly for the space, Newline exactly for `\n` and `\r`, and RightParenthesis, LeftCurlyBracket and RightCurlyBracket exactly for `)`, `{` and `}`. It never gives a string, number, identifier or comment kind. |
| CssTokens.IsPunctuation | src/tokenizer.js:177 | The `in Punctuation` test holds exactly when the table has an entry for the character. |
| CssTokens.PunctuationKeysListed | src/tokenizer.js:7-42 | The keys are exactly the 34 listed characters. `_` is a key; the backslash is not. |
| CssTokens.BackslashIsNotPunctuation | src/tokenizer.js:7-42 | The backslash is not a key of the table, so it can never end an identifier. |
| CssTokens.PunctuationInjective | src/tokenizer.js:7-42 | Two characters share a kind only when both are line breaks (`\n`, `\r`). |
| CssTokens.IsDecimalDigit | src/tokenizer.js:49-51 | `isDecimalDigit` holds exactly for `0` to `9`. |
| CssTokens.DigitsAreNotPunctuation | src/tokenizer.js:177-188 | No digit is punctuation, so the digit branch is reached for every digit. |
| TokenizerSpec.CharIs | src/tokenizer.js:151-152 | The lookahead compares equal to a character exactly when `charAt` returns that one character; out of range it returns the empty string and matches none. |
| TokenizerSpec.CharAt | src/tokenizer.js:151-152 | `charAt` gives at most one character. It gives exactly one when the index is inside the string, and then it is the character at that index. |
| TokenizerSpec.Push | src/tokenizer.js:179 | `pushToken` appends the token with the current line counter and the number of tokens so far as its index, and leaves the rest of the state as it was. |
| TokenizerSpec.Substring | src/tokenizer.js:86 | `substring` with in-range bounds is the slice; with an end past the input it runs to the end. |
| TokenizerSpec.SpaceRunEnd | src/tokenizer.js:61-63 | The loop of `parseSpaces` stops on the first non-space at or after the cursor, or at the end, and everything before is a space. |
| TokenizerSpec.DigitRunEnd | src/tokenizer.js:97-99 | The loop of `parseDecimalNumber` stops on the first non-digit, or at the end, and everything before is a digit. |
| TokenizerSpec.SlashRunEnd | src/tokenizer.js:114 | The slash loop of `parseIdentifier` stops on the first position without a slash, and everything before is a slash. |
| TokenizerSpec.EscapedScanEnd | src/tokenizer.js:117-121 | The escape-aware loop ends within one past the input, and when it ends inside the input it ends on a stop character. |
| TokenizerSpec.ScanSpaces | src/tokenizer.js:57-68 | Entered on a space, `parseSpaces` never moves the cursor back and leaves it inside the input. |
| TokenizerSpec.ScanDecimalNumber | src/tokenizer.js:93-104 | Entered on a digit, `parseDecimalNumber` never moves the cursor back and leaves it inside the input. |
| TokenizerSpec.ScanString | src/tokenizer.js:75-87 | `parseString` always moves the cursor forward, at most one past the end of the input. |
| TokenizerSpec.ScanIdentifier | src/tokenizer.js:110-131 | `parseIdentifier` moves the cursor back by at most one and leaves it no later than the end of the input. |
| TokenizerSpec.IdentifierAdvances | src/tokenizer.js:110-131 | Entered on a slash or a non-punctuation character, `parseIdentifier` consumes at least that character, so its final `pos--` never moves the cursor back. |
| TokenizerSpec.ScanPunctuation | src/tokenizer.js:177-184 | The punctuation branch leaves the cursor where it is. |
| TokenizerSpec.Comment | src/tokenizer.js:156-158 | A hook call leaves the cursor on the comment's last character, inside the input. |
| TokenizerSpec.Dispatch | src/tokenizer.js:151-192 | The loop body never moves the cursor back, and leaves it at most one past the end of the input. |
| TokenizerSpec.Next | src/tokenizer.js:150 | Progress: a turn of the loop, with its increment, moves the cursor forward by at least one, and at most two past the end. |
| TokenizerSpec.Loop | src/tokenizer.js:150-193 | Totality: the loop ends for every input, with the cursor between the end of the input and two past it. Once the cursor is at or past the end, nothing changes. |
| TokenizerSpec.Tokenize | src/tokenizer.js:139-194 | A run starts from an empty token list, cursor 0 and line 1, and scans the whole input: it ends with the cursor between the end of the input and two past it. |
| CssTokenizer.Tokenizer.constructor | src/tokenizer.js:3-5 | A fresh object has no tokens, its cursor at 0, its line counter at 1, and the two modes it is given. |
| CssTokenizer.Tokenizer.PushToken | src/tokenizer.js:179 | `pushToken` appends one token with the current line counter and the next index, and changes nothing else. |
| CssTokenizer.Tokenizer.ParseSpaces | src/tokenizer.js:57-68 | The method's loop leaves the object in the state `ScanSpaces` gives. |
| CssTokenizer.Tokenizer.SkipEscapedRun | src/tokenizer.js:117-121 | The escape-aware loop shared by `parseString` and `parseIdentifier` leaves the cursor where `EscapedScanEnd` says and changes nothing else. |
| CssTokenizer.Tokenizer.ParseString | src/tokenizer.js:75-87 | The method's escape-aware loop leaves the object in the state `ScanString` gives. |
| CssTokenizer.Tokenizer.ParseDecimalNumber | src/tokenizer.js:93-104 | The method's loop leaves the object in the state `ScanDecimalNumber` gives. |
| CssTokenizer.Tokenizer.ParseIdentifier | src/tokenizer.js:110-131 | The method's slash loop and escape-aware loop, with the url-mode update, leave the object in the state `ScanIdentifier` gives. |
| CssTokenizer.Tokenizer.ParseComment | src/tokenizer.js:157 | A hook call emits the consumed text as one comment token and leaves the cursor on its last character. |
| CssTokenizer.Tokenizer.Step | src/tokenizer.js:151-192 | The loop body, with its in-place updates of the line counter, url mode and depth, has the effect of `Dispatch`. |
| CssTokenizer.Tokenizer.GetTokens | src/tokenizer.js:139-194 | `_getTokens` resets the tokens, the cursor and the line counter but not the modes, and ends in the state `Tokenize` gives for the modes it found. |
| TokenizerProperties.EscapedScanEndSpan | src/tokenizer.js:79-83 | The escape-aware loop has three possible endings. It stops on the first unescaped stop character. With none, it runs to the end of the input, or one past the end when the input ends in a lone backslash. Every backslash takes the character after it. |
| TokenizerProperties.SpacesToken | src/tokenizer.js:57-68 | `parseSpaces` emits one Space token. The token holds exactly the input from the old cursor to the new one, with the line counter, index and modes as for any non-line-break token. |
| TokenizerProperties.SpacesRun | src/tokenizer.js:61-67 | That run is non-empty and all spaces, and the next character is not a space, so a tab or line break is never included. The cursor ends on the last space. |
| TokenizerProperties.DecimalNumberToken | src/tokenizer.js:93-104 | `parseDecimalNumber` emits one DecimalNumber token holding exactly the input it consumed. |
| TokenizerProperties.DecimalNumberRun | src/tokenizer.js:97-103 | That run is non-empty and made only of `0` to `9`, and the next character is not a digit. A sign, point or exponent is never included. |
| TokenizerProperties.StringToken | src/tokenizer.js:75-87 | `parseString` emits one token that starts with the quote and holds exactly the input consumed (cut at the end). Its kind is StringDQ exactly for `"` and StringSQ exactly for `'`. |
| TokenizerProperties.StringTokenEnd | src/tokenizer.js:79-83 | The string ends on the first unescaped matching quote, or at the end of the input, or one past it after a trailing lone backslash. An escaped quote never ends it. |
| TokenizerProperties.IdentifierToken | src/tokenizer.js:123-130 | `parseIdentifier` emits one Identifier token holding exactly the input it consumed. Afterwards url mode is the old mode or the text being `url`, so it is never cleared here. |
| TokenizerProperties.IdentifierTokenEnd | src/tokenizer.js:114-121 | After the leading slashes, the identifier ends on the first unescaped punctuation character, or at the end of the input, or one past it after a trailing lone backslash. Every backslash takes the character after it, so an escaped punctuation character never ends it. The cursor is left one before that place. |
| TokenizerProperties.PunctuationToken | src/tokenizer.js:177-184 | Each of the following holds. The branch emits a one-character token of the table's kind, and the cursor stays. A line break raises the line counter by exactly one. `{` and `}` move the depth by one, with no lower bound. `)` clears url mode. Nothing else changes. |
| TokenizerProperties.CommentToken | src/tokenizer.js:156-165 | A hook call emits one comment token holding exactly what the hook consumed. |
| TokenizerProperties.DispatchStep | src/tokenizer.js:151-192 | Every turn but the dropped slash appends exactly one token. The token holds the input it consumed, and the line counter, depth and url mode move only as its kind dictates. On the dropped slash, nothing changes. |
| TokenizerProperties.SlashStarIsComment | src/tokenizer.js:156-158 | A slash followed by a star always goes to the multiline hook, whatever the url mode, depth or syntax. |
| TokenizerProperties.DoubleSlashInCssBlock | src/tokenizer.js:160-164 | `//` outside url mode, in css syntax and at positive depth, becomes one Identifier token starting with the two slashes. |
| TokenizerProperties.DoubleSlashIsComment | src/tokenizer.js:160-165 | `//` outside url mode, when not read as an identifier, goes to the single-line hook if one exists. |
| TokenizerProperties.DoubleSlashInUrlMode | src/tokenizer.js:159-165 | In url mode `//` is not a comment start and not an identifier: the first slash becomes one Solidus token `/` with the current line and index, the cursor stays on it, and url mode stays on. |
| TokenizerProperties.FollowsKeepsStamped | src/tokenizer.js:179-183 | Appending a token as the loop does keeps each token's index and line, and the state's line counter, depth and url mode, equal to what the tokens so far determine. |
| TokenizerProperties.LoopKeepsStamped | src/tokenizer.js:150-193 | The loop preserves that agreement between the state and its tokens. |
| TokenizerProperties.LoopReproduces | src/tokenizer.js:150-193 | With a single-line hook, the loop preserves that the token texts spell the input up to the cursor. |
| TokenizerProperties.TokenizeRoundTrip | src/tokenizer.js:150-193 | With a single-line hook, the concatenated token texts are exactly the input. |
| TokenizerProperties.TokenizeStamped | src/tokenizer.js:139-194 | After a run, token i has index i and line 1 plus the number of line-break tokens before it. The final line counter, depth and url mode are what the tokens lead to from the starting values. |
| TokenizerProperties.TokenizeLines | src/tokenizer.js:180 | The first token is on line 1. Each token is on its predecessor's line, plus one exactly when the predecessor is a line break. Line numbers never decrease. |
| TokenizerProperties.TokenizeEmpty | src/tokenizer.js:150 | The empty input gives no tokens and leaves the modes as they came in. |
| TokenizerProperties.DroppedSlash | src/tokenizer.js:165 | Without a single-line hook, `//` in css syntax at depth 0 gives the single token Solidus `/` on line 1. The texts do not spell the input. |

## Left out

- The comment scanners `parseMLComment` and `parseSLComment` are not part of this model. They
  are defined elsewhere and are reached through the free variable `s`. They are hooks that
  only say where the comment ends; the model assumes they emit exactly the consumed text as
  one token and leave the cursor on its last character.
- `pushToken`, the `tn` counter and the `TokenType` enumeration are not part of this model.
  `pushToken` is modelled as appending a token with the current line counter and, as index,
  the number of tokens already emitted. `TokenType` is the `TokenKind` datatype.
- The immediately invoked wrapper and the returned function (`:1`, `:196-200`) are module
  plumbing.
- State carried between calls through the never-reset modes is not modelled. Their starting
  values are parameters of `Tokenize` and of the constructor, and a single call is modelled.
- `_getTokens` has no return statement. The model's result is the token list the call leaves
  behind.
- JavaScript's `isDecimalDigit('')` is true, because `indexOf('')` is 0. The loop never passes
  it an empty string, so `IsDecimalDigit` takes a single character.
- Characters are Dafny characters, not UTF-16 code units, and cursor values are unbounded
  integers, not doubles. No input short of 2^53 characters is affected.
- The hooks are assumed to leave the line counter, url mode and depth unchanged, since the
  comment scanners are not part of this model. TokenizeLines, TokenizeStamped,
  LoopKeepsStamped and DispatchStep rely on this assumption.
- TokenizeRoundTrip: requires the single-line hook in every run. The code needs it only when
  a dropped slash would be reached.
