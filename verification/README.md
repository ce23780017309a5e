# A verified model of the gosqlite shell's SQL lexer

The shell's SQL lexer (`external/gosqlite/shell/lex.go`) is a hand-written
state machine in the style of Go's template lexer. It turns a line of SQL
into items `{typ, pos, val}`:

- blanks and comments;
- operators;
- string, blob and number literals;
- quoted and bracketed identifiers;
- bind parameters;
- keywords, looked up upper-cased in the `key` table.

The first error item or the EOF item ends the scan.

The project has two layers, and proves them equal:

- **`lexer.dfy`, the state machine in the source's own shape.** A class
  `Lexer.Lexer` has the source's `pos`, `start` and `width` fields.
  Its methods `Next`, `Peek`, `Backup`, `Emit` and `Errorf` move those
  fields. There is one method per state: `LexSpace`, `LexQuote`, and the
  `lexStart` cases. Each state loops rune by rune, as the source does.
  `NextItem` runs one `lexStart` step and the sub-state it enters, and
  returns the one item they emit. The driver `Lex` pulls items until the
  machine is done.
- **`scan.dfy`, the token language as pure functions.**
  `Scan.Step(s, p)` is one step from position `p`. `Scan.Tokens(s, p)` is
  the item stream from `p`. Every state method is proved to produce the
  outcome of its function, and `Lex` to return `Tokens(input, 0)`.

The other files prove what the source promises about those functions:

- `stream.dfy`: the stream as a whole. It stops at the first terminal item
  and tiles the input without gaps.
- `shapes.dfy`: every kind of token, and for the literals, blobs and
  numbers, which inputs are accepted and which are errors.
- `keyword_facts.dfy`: the keyword table.
- `examples.dfy`: concrete inputs.

`keywords.dfy` holds the keyword kinds and the `key` table. The table has
124 entries for 113 kinds, grouped by initial letter. `keyword_table.dfy`
checks the table's layout one initial at a time. The item kinds `itemType`
(lex.go:41-188) are the constructors of `Scan.ItemType`.

Input is a sequence of code points, and positions are indices into it. A
rune is a code point, or -1 (EOF) past the end.

Where the code and its intended behaviour part ways, the model follows the
code:

- `0x`/`0X` literals always fail. The digit counter `n` of `lexHexInteger`
  is never incremented.
- An exponent leaves an integer an `itemInteger`.
- A doubled quote is not an escape: `'it''s'` is two strings.
- The vertical tab extends a run of blanks but cannot start a token.
- An unterminated block comment is accepted as a blank.

## Model

| member | source | states |
|---|---|---|
| Lexer.Lexer.constructor | external/gosqlite/shell/lex.go:378-385 | a scanner over `input` at position 0, with nothing read yet |
| Lexer.Lexer.Next | external/gosqlite/shell/lex.go:331-340 | returns the rune at the cursor (EOF past the end) and advances past it; `width` is 1, or 0 at the end |
| Lexer.Lexer.Backup | external/gosqlite/shell/lex.go:350-352 | steps the cursor back by the width of the last rune read |
| Lexer.Lexer.Peek | external/gosqlite/shell/lex.go:343-347 | returns the rune at the cursor and leaves the cursor where it was; `width` is that rune's width, as the inner `next` left it |
| Lexer.Lexer.Emit | external/gosqlite/shell/lex.go:355-358 | the item of the given kind is the input from `start` to the cursor, at `start`; the next item starts at the cursor |
| Lexer.Lexer.Errorf | external/gosqlite/shell/lex.go:367-370 | an error item at `start` with the message as its text; the machine reaches the nil state |
| Lexer.Lexer.LexSpace | external/gosqlite/shell/lex.go:394-404 | the loop leaves the cursor at the end of the maximal run of `isSpace` runes, and the item is that run (`Scan.SpaceRun`) |
| Lexer.Lexer.LexLineComment | external/gosqlite/shell/lex.go:411-420 | the item runs through the first newline after the opening dashes, or to the end (`Scan.LineComment`) |
| Lexer.Lexer.LexBlockComment | external/gosqlite/shell/lex.go:422-433 | the `pr`/`r` loop stops just past the first star-slash pair after the opening pair, or at the end; never an error (`Scan.BlockComment`) |
| Lexer.Lexer.LexQuote | external/gosqlite/shell/lex.go:435-455 | the first later delimiter closes the token (`pr` is never the delimiter); a single quote gives a string and the others an identifier; end of input is "unterminated quoted string" (`Scan.Quote`) |
| Lexer.Lexer.LexBracket | external/gosqlite/shell/lex.go:457-469 | the token ends at the first `]`; end of input is "unterminated bracketed identifier" (`Scan.Bracket`) |
| Lexer.Lexer.LexBlobLiteral | external/gosqlite/shell/lex.go:471-487 | counts the hex digits; a blob when a quote follows an even count, else "malformed blob literal" (`Scan.BlobLiteral`) |
| Lexer.Lexer.LexHexInteger | external/gosqlite/shell/lex.go:489-504 | skips the hex digits and always fails with "malformed hex integer" (`Scan.HexInteger`) |
| Lexer.Lexer.SkipWhile | external/gosqlite/shell/lex.go:621-623 | the `for P(r) { r = l.next() }` loop stops at the end of the maximal run of its rune class and counts the runes passed; also used at lines 627-629, 635-637, 641-643, 660-661, 670-672 and 686-688 |
| Lexer.Lexer.LexNumber | external/gosqlite/shell/lex.go:621-631 | integer digits and an optional fraction that makes a float (`Scan.Number`) |
| Lexer.Lexer.LexExponent | external/gosqlite/shell/lex.go:632-650 | an optional `e`/`E`, sign and digits that keep the kind; a marker without digits is "bad number" (`Scan.Exponent`) |
| Lexer.Lexer.LexNumberEnd | external/gosqlite/shell/lex.go:651-656 | an identifier character right after the literal is "bad number"; otherwise the literal is emitted (`Scan.NumberEnd`) |
| Lexer.Lexer.LexOperator | external/gosqlite/shell/lex.go:518-604 | the operator cases of `lexStart`; `--` and the slash-star pair hand over to the comment states (`Scan.Operator`) |
| Lexer.Lexer.LexCompoundOperator | external/gosqlite/shell/lex.go:549-595 | `=`, `<`, `>`, `!` and `|` take a second rune that completes a two-rune operator; a lone `!` is an illegal rune (`Scan.CompoundOperator`) |
| Lexer.Lexer.LexNumeric | external/gosqlite/shell/lex.go:607-620 | a lone `.` is a dot, `0x`/`0X` starts a hex integer, anything else a decimal literal (`Scan.Numeric`) |
| Lexer.Lexer.LexPositional | external/gosqlite/shell/lex.go:659-664 | `?` and the ASCII digits after it form a variable |
| Lexer.Lexer.LexNamedVariable | external/gosqlite/shell/lex.go:665-675 | a sigil needs at least one identifier character and takes them all, else "bad variable name" (`Scan.NamedVariable`) |
| Lexer.Lexer.LexDefault | external/gosqlite/shell/lex.go:676-697 | `x'` starts a blob, an identifier character a word, and any other rune is "illegal rune" (`Scan.WordOrBlob`) |
| Lexer.Lexer.LexWord | external/gosqlite/shell/lex.go:682-695 | the maximal run of identifier characters, classified by its upper-cased text (`Scan.Word`) |
| Lexer.Lexer.NextItem | external/gosqlite/shell/lex.go:510-698 | one `lexStart` step with its sub-state produces exactly the item and cursor of `Scan.Step`; the machine is done exactly after an EOF or error item |
| Lexer.Lex | external/gosqlite/shell/lex.go:388-392 | running the state machine until its state is nil yields `Scan.Tokens(input, 0)` |
| Scan.Step | external/gosqlite/shell/lex.go:510-698 | one step from `p`: the item sits at `p`; it is EOF exactly at the end of the input; a non-error item's text is the input it consumed; a non-terminal step makes progress |
| Scan.Tokens | external/gosqlite/shell/lex.go:388-392 | the stream starts with the item of the step at `p` |
| Scan.IsSpace | external/gosqlite/shell/lex.go:407-409 | `isSpace`: blank, tab, newline, carriage return, form feed and vertical tab |
| Scan.IdChar | external/gosqlite/shell/lex.go:506-508 | `idChar`: ASCII letters and digits, `_`, and every code point above 127 |
| Scan.KindOfWord | external/gosqlite/shell/lex.go:690-693 | the kind of a word is its upper-cased form's entry in the table, or an identifier |
| Scan.RunEnd | external/gosqlite/shell/lex.go:395-400 | the end of a run lies within the input, and the rune there is not in the class |
| Scan.RunEndIs | external/gosqlite/shell/lex.go:395-400 | any end with all runes before it in the class and the one at it outside is the run's end |
| Scan.RunEndAll | external/gosqlite/shell/lex.go:395-400 | every rune before the run's end is in the class |
| Scan.FindFrom | external/gosqlite/shell/lex.go:411-418 | the index found holds the searched rune, or is the end of the input |
| Scan.FindFromFirst | external/gosqlite/shell/lex.go:411-418 | the searched rune does not occur before the index found |
| Scan.CloseFrom | external/gosqlite/shell/lex.go:422-431 | the end found is the end of the input or just past a star-slash pair |
| Scan.CloseFromFirst | external/gosqlite/shell/lex.go:422-431 | no star-slash pair starts before the one that ends the comment |
| Stream.TokensStopAtTerminal | external/gosqlite/shell/lex.go:388-392 | the last item of the stream, and only the last, is an error or EOF |
| Stream.TokensTile | external/gosqlite/shell/lex.go:355-358 | the items before the last spell the input from `p` up to the last item's position; EOF, when it comes, is the empty item at the end of the input |
| Stream.Lossless | external/gosqlite/shell/lex.go:355-358 | a stream ending in EOF spells the whole input |
| Stream.TokensAdjacent | external/gosqlite/shell/lex.go:355-358 | the first item is at `p`; each item but the last is non-empty, and the next starts where its text ends |
| Stream.TokensBound | external/gosqlite/shell/lex.go:388-392 | at most one item per rune, plus the terminal one |
| Shapes.SpaceToken | external/gosqlite/shell/lex.go:516-517 | a blank starts a maximal run of `isSpace` runes, vertical tab included, emitted as a blank |
| Shapes.SpaceRunShape | external/gosqlite/shell/lex.go:394-404 | the run has only `isSpace` runes and the rune after it is not one |
| Shapes.IllegalRuneToken | external/gosqlite/shell/lex.go:697 | a rune that no case handles is "illegal rune" at its position, and the error consumes it |
| Shapes.VerticalTabToken | external/gosqlite/shell/lex.go:516 | a vertical tab cannot start a token: it is an illegal rune |
| Shapes.LineCommentToken | external/gosqlite/shell/lex.go:518-521 | `--` starts a blank that runs through the first newline, with no newline before its last character, or to the end of the input |
| Shapes.LineCommentShape | external/gosqlite/shell/lex.go:411-420 | the line comment's text starts with `--`, has no newline before its last character, and ends with one unless the input ends |
| Shapes.BlockCommentToken | external/gosqlite/shell/lex.go:539-542 | slash-star starts a blank, never an error, ending just past the first star-slash pair after the opening one, or at the end of the input |
| Shapes.QuoteToken | external/gosqlite/shell/lex.go:605-606 | a quote character opens a token that is an error exactly when the delimiter never recurs; otherwise it ends at the next delimiter, which occurs nowhere inside it; a string for `'`, an identifier for the others |
| Shapes.QuoteShape | external/gosqlite/shell/lex.go:435-455 | the same, for the quote state itself |
| Shapes.BracketToken | external/gosqlite/shell/lex.go:657-658 | `[` opens an identifier ending at the first `]`, or fails exactly when there is none |
| Shapes.BracketShape | external/gosqlite/shell/lex.go:457-469 | the same, for the bracket state itself |
| Shapes.DelimitedEnd | external/gosqlite/shell/lex.go:437-447 | the search for a closing delimiter reaches the end exactly when none follows, and meets no delimiter on the way |
| Shapes.BlobToken | external/gosqlite/shell/lex.go:676-680 | `x'` gives a blob made of the opening pair, an even number of hex digits and a closing quote, or "malformed blob literal" |
| Shapes.BlobShape | external/gosqlite/shell/lex.go:471-487 | the same, for the blob state itself |
| Shapes.BlobAccepted | external/gosqlite/shell/lex.go:471-487 | conversely, an even run of hex digits closed by a quote is a blob spanning exactly that text |
| Shapes.BlobLiteralAccepts | external/gosqlite/shell/lex.go:471-487 | the same, for the blob state itself |
| Shapes.RunOfAll | external/gosqlite/shell/lex.go:473-479 | a run of the class that stops at a rune outside it is the one the scan measures |
| Shapes.HexIntegerToken | external/gosqlite/shell/lex.go:614-619 | `0x`/`0X` never yields an integer: always "malformed hex integer" |
| Shapes.NumberToken | external/gosqlite/shell/lex.go:607-656 | a digit or `.digit` gives an integer or a float, a float exactly when its text holds a `.`, never directly followed by an identifier character; otherwise "bad number" |
| Shapes.NumberShape | external/gosqlite/shell/lex.go:621-656 | the same, for the decimal branch itself |
| Shapes.ExponentShape | external/gosqlite/shell/lex.go:632-656 | the exponent part keeps the kind, adds no `.`, and is not followed by an identifier character; otherwise "bad number" |
| Shapes.NumberAccepted | external/gosqlite/shell/lex.go:621-656 | conversely, digits, an optional `.` and digits, an optional exponent with digits, and no identifier character after them make one literal spanning exactly that text, a float exactly when it has a fraction |
| Shapes.IdCharAfterLiteral | external/gosqlite/shell/lex.go:651-653 | a well-formed literal followed by an identifier character is "bad number" |
| Shapes.BadExponent | external/gosqlite/shell/lex.go:632-649 | an `e` or `E` with no digit after the optional sign is "bad number" |
| Shapes.NumberPrefix | external/gosqlite/shell/lex.go:621-631 | the integer digits and the fraction fix the kind and where the exponent starts |
| Shapes.ExponentEnds | external/gosqlite/shell/lex.go:632-656 | a well-formed exponent, or none, ends the literal where its digits end |
| Shapes.LoneDot | external/gosqlite/shell/lex.go:607-611 | a `.` that no digit follows is the dot operator, one rune long |
| Shapes.PositionalToken | external/gosqlite/shell/lex.go:659-664 | `?` gives a variable of `?` and digits, not followed by a digit |
| Shapes.NamedVariableToken | external/gosqlite/shell/lex.go:665-675 | a sigil gives an error exactly when no identifier character follows; otherwise a variable with the longest run of identifier characters |
| Shapes.NamedVariableShape | external/gosqlite/shell/lex.go:665-675 | the same, for the sigil branch itself |
| Shapes.WordToken | external/gosqlite/shell/lex.go:682-695 | an identifier character (not a digit, not `x'`) starts the longest run of identifier characters, whose kind is that of its upper-cased text |
| Shapes.WordShape | external/gosqlite/shell/lex.go:682-695 | the same, for the word branch itself |
| Shapes.OperatorLongest | external/gosqlite/shell/lex.go:549-595 | `==`, `<=`, `<>`, `<<`, `>=`, `>>`, `!=` and `||` are always taken whole, with their kinds |
| Shapes.OperatorSingle | external/gosqlite/shell/lex.go:518-604 | a one-character operator not extended by the next rune to a two-character operator or a comment is a one-rune item of its kind |
| Shapes.OperatorSingleShape | external/gosqlite/shell/lex.go:518-604 | the same, for the operator cases themselves |
| Shapes.CompoundSingleShape | external/gosqlite/shell/lex.go:549-595 | the same, for `=`, `<`, `>` and `|` |
| Shapes.BangToken | external/gosqlite/shell/lex.go:582-587 | `!` not followed by `=` is "illegal rune", reported after the next rune is read |
| Shapes.ErrorMessage | external/gosqlite/shell/lex.go:367-370 | every error item carries one of the lexer's messages |
| Shapes.OperatorReports | external/gosqlite/shell/lex.go:582-585 | the operator cases report only the lexer's messages |
| Shapes.NumericReports | external/gosqlite/shell/lex.go:607-656 | the numeric cases report only the lexer's messages |
| Shapes.WordOrBlobReports | external/gosqlite/shell/lex.go:676-697 | the blob, word and illegal-rune cases report only the lexer's messages |
| KeywordFacts.BucketBound | external/gosqlite/shell/lex.go:192-317 | no initial files more than 14 reserved words, so every entry lies within the 16 the search looks at |
| KeywordFacts.FindAt | external/gosqlite/shell/lex.go:690 | the search reaches an entry when every entry before it in its group holds another word |
| KeywordFacts.LookupComplete | external/gosqlite/shell/lex.go:192-317 | every entry of the table is found: its word looks up to its kind |
| KeywordFacts.KeywordKind | external/gosqlite/shell/lex.go:690-693 | a word whose upper-cased form is a reserved word has that word's kind, in any case |
| KeywordTable.Filed | external/gosqlite/shell/lex.go:192-317 | every entry is filed under its word's initial, after entries that all hold other words |
| KeywordFacts.UpperIdempotent | external/gosqlite/shell/lex.go:690 | upper-casing twice is upper-casing once |
| KeywordFacts.FindSound | external/gosqlite/shell/lex.go:690 | a word found is an entry under its initial, at or after the search's start |
| KeywordFacts.LookupSound | external/gosqlite/shell/lex.go:690 | a word the table knows is one of its entries, with that kind |
| KeywordFacts.KindIgnoresCase | external/gosqlite/shell/lex.go:690-693 | a word's kind does not depend on its case |
| Keywords.Bucket | external/gosqlite/shell/lex.go:192-317 | the `key` map, grouped by initial letter, each group in the order of the map literal |
| Keywords.Find | external/gosqlite/shell/lex.go:690 | the search of a word among the entries under its initial |
| Keywords.Lookup | external/gosqlite/shell/lex.go:690 | `key[w]`: the kind of an upper-case reserved word, or none |
| Keywords.Upper | external/gosqlite/shell/lex.go:690 | upper-casing keeps the length and maps each character on its own |
| Examples.SelectInLowerCase | external/gosqlite/shell/lex.go:690-693 | `select` is the SELECT keyword |
| Examples.PlainIdentifier | external/gosqlite/shell/lex.go:690-693 | `users` is an identifier |
| Examples.SharedJoinKind | external/gosqlite/shell/lex.go:219-264 | CROSS (line 219) and LEFT (line 264) share the join kind |
| Examples.SharedLikeKind | external/gosqlite/shell/lex.go:245-286 | GLOB (line 245) and REGEXP (line 286) share the like kind |
| Examples.SharedTempKind | external/gosqlite/shell/lex.go:299-300 | TEMP (line 299) and TEMPORARY (line 300) share a kind |
| Examples.SharedTimeKind | external/gosqlite/shell/lex.go:220 | CURRENT_DATE has the time kind |
| Examples.ExponentKeepsInteger | external/gosqlite/shell/lex.go:632-656 | `12e5` is an integer |
| Examples.DigitThenLetter | external/gosqlite/shell/lex.go:651-653 | `1a` is a bad number |
| Examples.HexLiteral | external/gosqlite/shell/lex.go:489-504 | `0x1F` is a malformed hex integer |
| Examples.EvenBlob | external/gosqlite/shell/lex.go:471-487 | `x'1A2B'` is a blob |
| Examples.OddBlob | external/gosqlite/shell/lex.go:471-487 | `x'1A2'` is a malformed blob |
| Examples.DoubledQuote | external/gosqlite/shell/lex.go:435-455 | `'it''s'` starts with the string `'it'` |
| Examples.AfterDoubledQuote | external/gosqlite/shell/lex.go:435-455 | and goes on with the string `'s'` |
| Examples.VerticalTabInRun | external/gosqlite/shell/lex.go:394-409 | a vertical tab after a blank is part of the run |
| Examples.UnclosedComment | external/gosqlite/shell/lex.go:422-433 | an unclosed block comment runs to the end as a blank |
| Examples.PositionalVariable | external/gosqlite/shell/lex.go:659-664 | `?12` is one variable |
| Examples.BareSigil | external/gosqlite/shell/lex.go:665-669 | a lone `$` is a bad variable name |

## Left out

- The goroutine and the unbuffered item channel (lex.go:356, 368, 373-392)
  are replaced by a pull. `NextItem` returns the one item a step emits, and
  `Lex` collects them.
- `Parse` (lex.go:700-710) is not modelled. It waits for EOF only, so after
  an error it would block forever. `Lex` stops at either terminal item.
- UTF-8 decoding and byte widths (lex.go:331-352) are not modelled. The
  input is a sequence of code points, every rune has width 1, and `pos` is
  an index, not a byte offset.
- `unicode.IsDigit` and `strings.ToUpper` are restricted to ASCII. Non-ASCII
  decimal digits are not digits here, and non-ASCII letters are not
  upper-cased.
- `item.String` (lex.go:25-39) is not modelled: it is output formatting
  only.
- The `%q` quoting of the rune in "illegal rune" messages is simplified.
  The rune is shown between single quotes, without Go's escapes.
- `ignore` (lex.go:361-363) is never called and is not modelled.
- The `itemType` numbering and the `itemKeyword` delimiter (lex.go:41-187)
  are not modelled. Kinds are constructors, and keyword kinds carry their
  keyword.
- The `key` map (lex.go:192-317) is stored grouped by initial letter, with
  each group in the order in which the map literal lists it. The lookup is proved to find every entry
  and to find nothing else. That the words and kinds are the source's is a
  matter of transcription, which the proofs cannot check.
- Lexer.Lexer.NextItem: `width` is not stated afterwards. Every step starts
  with `next`, which sets it anew.
- Lexer.Lexer.LexSpace: `width` is not stated afterwards. Every step starts
  with `next`, which sets it anew.
- Lexer.Lexer.LexLineComment: `width` is not stated afterwards. Every step starts
  with `next`, which sets it anew.
- Lexer.Lexer.LexBlockComment: `width` is not stated afterwards. Every step starts
  with `next`, which sets it anew.
- Lexer.Lexer.LexQuote: `width` is not stated afterwards. Every step starts
  with `next`, which sets it anew.
- Lexer.Lexer.LexBracket: `width` is not stated afterwards. Every step starts
  with `next`, which sets it anew.
- Lexer.Lexer.LexBlobLiteral: `width` is not stated afterwards. Every step starts
  with `next`, which sets it anew.
- Lexer.Lexer.LexHexInteger: `width` is not stated afterwards. Every step starts
  with `next`, which sets it anew.
- Lexer.Lexer.LexNumber: `width` is not stated afterwards. Every step starts
  with `next`, which sets it anew.
- Lexer.Lexer.LexExponent: `width` is not stated afterwards. Every step starts
  with `next`, which sets it anew.
- Lexer.Lexer.LexNumberEnd: `width` is not stated afterwards. Every step starts
  with `next`, which sets it anew.
- Lexer.Lexer.LexOperator: `width` is not stated afterwards. Every step starts
  with `next`, which sets it anew.
- Lexer.Lexer.LexCompoundOperator: `width` is not stated afterwards. Every step starts
  with `next`, which sets it anew.
- Lexer.Lexer.LexNumeric: `width` is not stated afterwards. Every step starts
  with `next`, which sets it anew.
- Lexer.Lexer.LexPositional: `width` is not stated afterwards. Every step starts
  with `next`, which sets it anew.
- Lexer.Lexer.LexNamedVariable: `width` is not stated afterwards. Every step starts
  with `next`, which sets it anew.
- Lexer.Lexer.LexDefault: `width` is not stated afterwards. Every step starts
  with `next`, which sets it anew.
- Lexer.Lexer.LexWord: `width` is not stated afterwards. Every step starts
  with `next`, which sets it anew.
- The other files of the repository are not part of this model.
