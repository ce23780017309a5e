/** The token language of the SQL lexer, as pure functions over the input.

    The input is a sequence of code points and a position is an index into
    it. A rune is what the lexer's `next` returns: the code point at a
    position, or EOF past the end. `Step(s, p)` is what one run of the
    `lexStart` state, together with the sub-state it hands over to, does
    when the scan stands at `p`: the one item it emits and where the cursor
    is left. `Tokens(s, p)` is the whole item stream from `p` on. */
module Scan {
  import opened Keywords

  // ---------------------------------------------------------------------
  // Runes and character classes

  /** The rune `next` returns at the end of the input. */
  const EofRune: int := -1

  /** The rune at index `i`: what `next` returns when the cursor is at `i`. */
  function RuneAt(s: string, i: nat): int
  {
    if i < |s| then s[i] as int else EofRune
  }

  /** `isSpace`: blank, tab, newline, carriage return, form feed and vertical tab. */
  predicate IsSpace(r: int)
  {
    r == ' ' as int || r == '\t' as int || r == '\n' as int || r == '\r' as int
    || r == '\U{000C}' as int || r == '\U{000B}' as int
  }

  /** The blanks that `lexStart` hands to `lexSpace`: all of `isSpace` but
      the vertical tab. */
  predicate StartsSpace(c: char)
  {
    c == ' ' || c == '\t' || c == '\n' || c == '\U{000C}' || c == '\r'
  }

  /** `idChar`: ASCII letters and digits, underscore, and every code point above 127. */
  predicate IdChar(r: int)
  {
    ('0' as int <= r <= '9' as int) || ('A' as int <= r <= 'Z' as int) || r == '_' as int
    || ('a' as int <= r <= 'z' as int) || r > 127
  }

  /** A decimal digit (`unicode.IsDigit`, restricted to ASCII). */
  predicate IsDigit(r: int)
  {
    '0' as int <= r <= '9' as int
  }

  /** A hexadecimal digit, as tested in `lexBlobLiteral` and `lexHexInteger`. */
  predicate IsHexDigit(r: int)
  {
    ('0' as int <= r <= '9' as int) || ('a' as int <= r <= 'f' as int) || ('A' as int <= r <= 'F' as int)
  }

  // ---------------------------------------------------------------------
  // Items

  /** `itemType`. The keyword kinds carry their reserved word's identity. */
  datatype ItemType =
    | Error | EOF
    | Space
    | Minus | LP | RP | Semi | Plus | Star | Slash | Rem | Eq | LT | LE | NE
    | LShift | GT | GE | RShift | Concat | BitOr | Comma | BitAnd | BitNot
    | String | ID | Variable | Blob | Dot | Integer | Float
    | Kw(kw: Keyword)

  /** `item`: its kind, the position where it starts and its text (for an
      error, the message). */
  datatype Item = Item(typ: ItemType, pos: nat, val: string)

  /** An item after which the state machine stops (the nil state). */
  predicate IsTerminal(t: ItemType)
  {
    t.Error? || t.EOF?
  }

  // The error messages. The rune in "illegal rune" is shown between single
  // quotes, without Go's escaping of unprintable runes.
  const UnterminatedQuote := "unterminated quoted string"
  const UnterminatedBracket := "unterminated bracketed identifier"
  const MalformedBlob := "malformed blob literal"
  const MalformedHex := "malformed hex integer"
  const BadNumber := "bad number"
  const BadVariableName := "bad variable name"

  function IllegalRune(c: char): string
  {
    "illegal rune: '" + [c] + "'"
  }

  /** What one step leaves behind: the item it emitted and the cursor. */
  datatype Outcome = Outcome(item: Item, next: nat)

  /** The outcome of a step from `p` that did not reach the end of the
      input: an error item at `p`, or a non-empty item whose text is exactly
      the input it consumed. */
  predicate Spans(s: string, p: nat, o: Outcome)
  {
    p <= o.next <= |s| && o.item.pos == p && !o.item.typ.EOF?
    && (!o.item.typ.Error? ==> p < o.next && o.item.val == s[p..o.next])
  }

  /** `emit`: the item spanning `s[p..e]`. */
  function Emitted(s: string, p: nat, t: ItemType, e: nat): (o: Outcome)
    requires p < e <= |s| && !IsTerminal(t)
  {
    Outcome(Item(t, p, s[p..e]), e)
  }

  /** `errorf` after the rune at `q` has been read: the error item sits at
      the start of the failed token, and the cursor is past that rune. */
  function Failed(s: string, p: nat, msg: string, q: nat): (o: Outcome)
    requires p <= q <= |s|
  {
    Outcome(Item(Error, p, msg), if q < |s| then q + 1 else |s|)
  }

  // ---------------------------------------------------------------------
  // Scanning helpers

  /** The classes of runes whose runs the scanner skips over. */
  datatype RuneClass = Blank | Digit | HexDigit | Ident

  predicate InClass(cl: RuneClass, r: int)
  {
    match cl
    case Blank => IsSpace(r)
    case Digit => IsDigit(r)
    case HexDigit => IsHexDigit(r)
    case Ident => IdChar(r)
  }

  /** The end of the longest run of runes of class `cl` that starts at `i`. */
  function RunEnd(s: string, i: nat, cl: RuneClass): (e: nat)
    requires i <= |s|
    ensures i <= e <= |s|
    ensures e < |s| ==> !InClass(cl, s[e] as int)
    decreases |s| - i
  {
    if i < |s| && InClass(cl, s[i] as int) then RunEnd(s, i + 1, cl) else i
  }

  /** `RunEnd` is the one end that bounds a run of class `cl` from `i`: every
      rune before it is in the class, and the rune at it is not. */
  lemma {:induction false} RunEndIs(s: string, i: nat, e: nat, cl: RuneClass)
    requires i <= e <= |s|
    requires forall k | i <= k < e :: InClass(cl, s[k] as int)
    requires e == |s| || !InClass(cl, s[e] as int)
    ensures RunEnd(s, i, cl) == e
    decreases e - i
  {
    if i < e {
      RunEndIs(s, i + 1, e, cl);
    }
  }

  /** Every rune of the run that `RunEnd` measures is in the class. */
  lemma {:induction false} RunEndAll(s: string, i: nat, cl: RuneClass)
    requires i <= |s|
    ensures forall k | i <= k < RunEnd(s, i, cl) :: InClass(cl, s[k] as int)
    decreases |s| - i
  {
    if i < |s| && InClass(cl, s[i] as int) {
      RunEndAll(s, i + 1, cl);
    }
  }

  /** The first index at or after `i` holding `c`, or `|s|` when there is none. */
  function FindFrom(s: string, i: nat, c: char): (k: nat)
    requires i <= |s|
    ensures i <= k <= |s|
    ensures k < |s| ==> s[k] == c
    decreases |s| - i
  {
    if i == |s| || s[i] == c then i else FindFrom(s, i + 1, c)
  }

  /** `FindFrom` finds the first occurrence: `c` does not occur before it. */
  lemma {:induction false} FindFromFirst(s: string, i: nat, c: char)
    requires i <= |s|
    ensures forall k | i <= k < FindFrom(s, i, c) :: s[k] != c
    decreases |s| - i
  {
    if i < |s| && s[i] != c {
      FindFromFirst(s, i + 1, c);
    }
  }

  /** A comment-closing "*" "/" pair starts at `j`. */
  predicate ClosesAt(s: string, j: nat)
  {
    j + 1 < |s| && s[j] == '*' && s[j + 1] == '/'
  }

  /** The end of a block comment whose body starts at `i`: just past the
      first closing pair at or after `i`, or the end of the input. */
  function CloseFrom(s: string, i: nat): (e: nat)
    requires i <= |s|
    ensures i <= e <= |s|
    ensures e == |s| || (i + 2 <= e && ClosesAt(s, e - 2))
    decreases |s| - i
  {
    if i == |s| then i
    else if ClosesAt(s, i) then i + 2
    else CloseFrom(s, i + 1)
  }

  /** `CloseFrom` stops at the first closing pair: none starts between `i`
      and the end it returns, save the one that ends there. */
  lemma {:induction false} CloseFromFirst(s: string, i: nat)
    requires i <= |s|
    ensures forall j | i <= j && j + 2 < CloseFrom(s, i) :: !ClosesAt(s, j)
    decreases |s| - i
  {
    if i < |s| && !ClosesAt(s, i) {
      CloseFromFirst(s, i + 1);
    }
  }

  /** The kind of an identifier-like word: its reserved-word kind when the
      upper-cased word is in the keyword table, `ID` otherwise. */
  function KindOfWord(w: string): ItemType
  {
    match Lookup(Upper(w))
    case Some(k) => Kw(k)
    case None => ID
  }

  // ---------------------------------------------------------------------
  // The sub-states, each entered with the cursor past the rune(s) that
  // selected it; `p` is the start of the token.

  /** `lexSpace`: a maximal run of `isSpace` runes. */
  function SpaceRun(s: string, p: nat): (o: Outcome)
    requires p < |s|
    ensures Spans(s, p, o)
  {
    Emitted(s, p, Space, RunEnd(s, p + 1, Blank))
  }

  /** `lexLineComment`: everything through the next newline, or to the end. */
  function LineComment(s: string, p: nat): (o: Outcome)
    requires p + 1 < |s|
    ensures Spans(s, p, o)
  {
    var k := FindFrom(s, p + 1, '\n');
    Emitted(s, p, Space, if k < |s| then k + 1 else |s|)
  }

  /** `lexBlockComment`, entered past the opening pair. */
  function BlockComment(s: string, p: nat): (o: Outcome)
    requires p + 2 <= |s|
    ensures Spans(s, p, o)
  {
    Emitted(s, p, Space, CloseFrom(s, p + 2))
  }

  /** `lexQuote`: the token ends at the first later occurrence of its
      opening delimiter. */
  function Quote(s: string, p: nat): (o: Outcome)
    requires p < |s|
    ensures Spans(s, p, o)
  {
    var k := FindFrom(s, p + 1, s[p]);
    if k == |s| then Failed(s, p, UnterminatedQuote, k)
    else Emitted(s, p, if s[p] == '\'' then String else ID, k + 1)
  }

  /** `lexBracket`: the token ends at the first `]`. */
  function Bracket(s: string, p: nat): (o: Outcome)
    requires p < |s|
    ensures Spans(s, p, o)
  {
    var k := FindFrom(s, p + 1, ']');
    if k == |s| then Failed(s, p, UnterminatedBracket, k) else Emitted(s, p, ID, k + 1)
  }

  /** `lexBlobLiteral`, entered past `x'`: an even number of hex digits and a
      closing quote. */
  function BlobLiteral(s: string, p: nat): (o: Outcome)
    requires p + 2 <= |s|
    ensures Spans(s, p, o)
  {
    var e := RunEnd(s, p + 2, HexDigit);
    if RuneAt(s, e) == '\'' as int && (e - (p + 2)) % 2 == 0 then Emitted(s, p, Blob, e + 1)
    else Failed(s, p, MalformedBlob, e)
  }

  /** `lexHexInteger`, entered past `0x`: the digit counter `n` is never
      incremented, so the scan always fails once the hex digits end. */
  function HexInteger(s: string, p: nat): (o: Outcome)
    requires p + 2 <= |s|
    ensures Spans(s, p, o)
  {
    Failed(s, p, MalformedHex, RunEnd(s, p + 2, HexDigit))
  }

  /** The end of a decimal literal whose kind `typ` and end `q` are known:
      it must not run into an identifier character. */
  function NumberEnd(s: string, p: nat, typ: ItemType, q: nat): (o: Outcome)
    requires p < q <= |s| && (typ == Integer || typ == Float)
    ensures Spans(s, p, o)
  {
    if IdChar(RuneAt(s, q)) then Failed(s, p, BadNumber, q) else Emitted(s, p, typ, q)
  }

  /** The decimal branch of `lexStart`: digits, an optional `.` and digits
      (which make it a Float), then the exponent part. `s[p]` is a digit, or
      a `.` (then a digit). */
  function Number(s: string, p: nat): (o: Outcome)
    requires p < |s| && (IsDigit(s[p] as int) || s[p] == '.')
    ensures Spans(s, p, o)
  {
    var q1 := RunEnd(s, p, Digit);
    if RuneAt(s, q1) == '.' as int then Exponent(s, p, Float, RunEnd(s, q1 + 1, Digit))
    else Exponent(s, p, Integer, q1)
  }

  /** An optional exponent after the digits that end at `q`: `e` or `E`, an
      optional sign and at least one digit. It does not change the kind. */
  function Exponent(s: string, p: nat, typ: ItemType, q: nat): (o: Outcome)
    requires p < q <= |s| && (typ == Integer || typ == Float)
    ensures Spans(s, p, o)
  {
    var r := RuneAt(s, q);
    if r == 'e' as int || r == 'E' as int then
      var r1 := RuneAt(s, q + 1);
      if IsDigit(r1) then NumberEnd(s, p, typ, RunEnd(s, q + 1, Digit))
      else if r1 == '+' as int || r1 == '-' as int then
        if IsDigit(RuneAt(s, q + 2)) then NumberEnd(s, p, typ, RunEnd(s, q + 2, Digit))
        else Failed(s, p, BadNumber, q + 2)
      else Failed(s, p, BadNumber, q + 1)
    else NumberEnd(s, p, typ, q)
  }

  /** The `$`, `@`, `#` and `:` branch: at least one identifier character. */
  function NamedVariable(s: string, p: nat): (o: Outcome)
    requires p < |s|
    ensures Spans(s, p, o)
  {
    if IdChar(RuneAt(s, p + 1)) then Emitted(s, p, Variable, RunEnd(s, p + 1, Ident))
    else Failed(s, p, BadVariableName, p + 1)
  }

  /** The default branch: a maximal run of identifier characters, classified
      through the keyword table. */
  function Word(s: string, p: nat): (o: Outcome)
    requires p < |s| && IdChar(s[p] as int)
    ensures Spans(s, p, o)
  {
    var e := RunEnd(s, p, Ident);
    Emitted(s, p, KindOfWord(s[p..e]), e)
  }

  /** The operators, one or two characters long, and the two comment forms,
      which start like the `-` and `/` operators. */
  function Operator(s: string, p: nat): (o: Outcome)
    requires p < |s| && IsOperatorStart(s[p])
    ensures Spans(s, p, o)
  {
    var c, r := s[p], RuneAt(s, p + 1);
    if c == '-' then
      if r == '-' as int then LineComment(s, p) else Emitted(s, p, Minus, p + 1)
    else if c == '/' then
      if r == '*' as int then BlockComment(s, p) else Emitted(s, p, Slash, p + 1)
    else if c in "=<>!|" then CompoundOperator(s, p)
    else if c == '(' then Emitted(s, p, LP, p + 1)
    else if c == ')' then Emitted(s, p, RP, p + 1)
    else if c == ';' then Emitted(s, p, Semi, p + 1)
    else if c == '+' then Emitted(s, p, Plus, p + 1)
    else if c == '*' then Emitted(s, p, Star, p + 1)
    else if c == '%' then Emitted(s, p, Rem, p + 1)
    else if c == ',' then Emitted(s, p, Comma, p + 1)
    else if c == '&' then Emitted(s, p, BitAnd, p + 1)
    else Emitted(s, p, BitNot, p + 1)
  }

  /** The operators that take a second rune when it fits: `=` `==`, `<`
      `<=` `<>` `<<`, `>` `>=` `>>`, `!=` and `|` `||`. A `!` alone is an
      illegal rune, reported after the rune that follows it is consumed. */
  function CompoundOperator(s: string, p: nat): (o: Outcome)
    requires p < |s| && s[p] in "=<>!|"
    ensures Spans(s, p, o)
  {
    var c, r := s[p], RuneAt(s, p + 1);
    if c == '=' then Emitted(s, p, Eq, if r == '=' as int then p + 2 else p + 1)
    else if c == '<' then
      if r == '=' as int then Emitted(s, p, LE, p + 2)
      else if r == '>' as int then Emitted(s, p, NE, p + 2)
      else if r == '<' as int then Emitted(s, p, LShift, p + 2)
      else Emitted(s, p, LT, p + 1)
    else if c == '>' then
      if r == '=' as int then Emitted(s, p, GE, p + 2)
      else if r == '>' as int then Emitted(s, p, RShift, p + 2)
      else Emitted(s, p, GT, p + 1)
    else if c == '!' then
      if r == '=' as int then Emitted(s, p, NE, p + 2) else Failed(s, p, IllegalRune('!'), p + 1)
    else if r == '|' as int then Emitted(s, p, Concat, p + 2)
    else Emitted(s, p, BitOr, p + 1)
  }

  /** The `.` and digit branches: a lone `.` is the dot operator, `0x` and
      `0X` start a hexadecimal integer, anything else a decimal literal. */
  function Numeric(s: string, p: nat): (o: Outcome)
    requires p < |s| && (s[p] == '.' || IsDigit(s[p] as int))
    ensures Spans(s, p, o)
  {
    var c, r := s[p], RuneAt(s, p + 1);
    if c == '.' && !IsDigit(r) then Emitted(s, p, Dot, p + 1)
    else if c == '0' && (r == 'x' as int || r == 'X' as int) then HexInteger(s, p)
    else Number(s, p)
  }

  /** The `x` and `X` branch and the default one: `x'` starts a blob literal,
      an identifier character a word, and any other rune is illegal. */
  function WordOrBlob(s: string, p: nat): (o: Outcome)
    requires p < |s|
    ensures Spans(s, p, o)
  {
    var c := s[p];
    if (c == 'x' || c == 'X') && RuneAt(s, p + 1) == '\'' as int then BlobLiteral(s, p)
    else if IdChar(c as int) then Word(s, p)
    else Failed(s, p, IllegalRune(c), p)
  }

  predicate IsOperatorStart(c: char)
  {
    c in "();+*%,&~-/=<>!|"
  }

  // ---------------------------------------------------------------------
  // One step and the whole scan

  /** One `lexStart` step at `p`, including the sub-state it enters. */
  function Step(s: string, p: nat): (o: Outcome)
    requires p <= |s|
    ensures p <= o.next <= |s|
    ensures o.item.pos == p
    ensures o.item.typ.EOF? <==> p == |s|
    ensures !o.item.typ.Error? ==> o.item.val == s[p..o.next]
    ensures !IsTerminal(o.item.typ) ==> p < o.next
  {
    if p == |s| then Outcome(Item(EOF, p, ""), p)
    else
      var c := s[p];
      if StartsSpace(c) then SpaceRun(s, p)
      else if IsOperatorStart(c) then Operator(s, p)
      else if c == '`' || c == '\'' || c == '"' then Quote(s, p)
      else if c == '.' || IsDigit(c as int) then Numeric(s, p)
      else if c == '[' then Bracket(s, p)
      else if c == '?' then Emitted(s, p, Variable, RunEnd(s, p + 1, Digit))
      else if c == '$' || c == '@' || c == '#' || c == ':' then NamedVariable(s, p)
      else WordOrBlob(s, p)
  }

  /** The item stream from `p` on: one step after another until an error or
      the end of the input. */
  function Tokens(s: string, p: nat): (ts: seq<Item>)
    requires p <= |s|
    ensures |ts| >= 1 && ts[0] == Step(s, p).item
    decreases |s| - p
  {
    var o := Step(s, p);
    if IsTerminal(o.item.typ) then [o.item] else [o.item] + Tokens(s, o.next)
  }
}
