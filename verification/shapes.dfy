/** What each kind of token looks like: for every way a token can start,
    the kind of item one step emits, the text it spans and where it stops. */
module Shapes {
  import opened Keywords
  import opened Scan

  /** Every rune of `w` is in class `cl`. */
  predicate AllIn(cl: RuneClass, w: string)
  {
    forall k | 0 <= k < |w| :: InClass(cl, w[k] as int)
  }

  /** `c` does not occur in `w`. */
  predicate NoneOf(c: char, w: string)
  {
    forall k | 0 <= k < |w| :: w[k] != c
  }

  // ---------------------------------------------------------------------
  // Whitespace and comments

  /** A blank other than the vertical tab starts a maximal run of blanks,
      the vertical tab included. */
  lemma SpaceToken(s: string, p: nat)
    requires p < |s| && StartsSpace(s[p])
    ensures var o := Step(s, p);
      o.item.typ == Space && AllIn(Blank, o.item.val) && !IsSpace(RuneAt(s, o.next))
  {
    assert Step(s, p) == SpaceRun(s, p);
    SpaceRunShape(s, p);
  }

  lemma SpaceRunShape(s: string, p: nat)
    requires p < |s| && StartsSpace(s[p])
    ensures var o := SpaceRun(s, p);
      o.item.typ == Space && AllIn(Blank, o.item.val) && !IsSpace(RuneAt(s, o.next))
  {
    RunEndAll(s, p + 1, Blank);
  }

  /** The vertical tab is a blank inside a run but cannot start one: a token
      that starts with it is an illegal rune. */
  lemma VerticalTabToken(s: string, p: nat)
    requires p < |s| && s[p] == '\U{000B}'
    ensures Step(s, p) == Outcome(Item(Error, p, IllegalRune('\U{000B}')), p + 1)
  {
  }

  /** A line comment: two dashes, then everything through the next newline,
      or to the end of the input when there is none. */
  predicate LineCommentShaped(s: string, o: Outcome)
  {
    var v := o.item.val;
    o.item.typ == Space && 2 <= |v| && v[..2] == "--"
    && NoneOf('\n', v[..|v| - 1])
    && (v[|v| - 1] == '\n' || o.next == |s|)
  }

  /** `--` starts a line comment, reported as a blank. */
  lemma LineCommentToken(s: string, p: nat)
    requires p + 1 < |s| && s[p] == '-' && s[p + 1] == '-'
    ensures LineCommentShaped(s, Step(s, p))
  {
    assert Step(s, p) == LineComment(s, p);
    LineCommentShape(s, p);
  }

  lemma LineCommentShape(s: string, p: nat)
    requires p + 1 < |s| && s[p] == '-' && s[p + 1] == '-'
    ensures LineCommentShaped(s, LineComment(s, p))
  {
    var k := FindFrom(s, p + 1, '\n');
    var e := if k < |s| then k + 1 else |s|;
    var v := s[p..e];
    FindFromFirst(s, p + 1, '\n');
    assert v[..2] == "--";
    forall j | 0 <= j < |v| - 1
      ensures v[j] != '\n'
    {
      assert v[j] == s[p + j];
    }
    assert v[..|v| - 1] == s[p..e - 1];
  }

  /** A block comment: it ends just past the first star and slash after the
      opening pair, or at the end of the input when it is never closed. */
  predicate BlockCommentShaped(s: string, p: nat, o: Outcome)
  {
    o.item.typ == Space
    && (o.next == |s| || (p + 4 <= o.next && ClosesAt(s, o.next - 2)))
    && forall j | p + 2 <= j && j + 2 < o.next :: !ClosesAt(s, j)
  }

  /** A slash and a star start a block comment, reported as a blank and
      never as an error, closed or not. */
  lemma BlockCommentToken(s: string, p: nat)
    requires p + 1 < |s| && s[p] == '/' && s[p + 1] == '*'
    ensures BlockCommentShaped(s, p, Step(s, p))
  {
    assert Step(s, p) == BlockComment(s, p);
    CloseFromFirst(s, p + 2);
  }

  // ---------------------------------------------------------------------
  // Quoted tokens

  /** A token opened by delimiter `d` and closed by `close`: it ends at the
      first later `close`, which cannot occur inside it, and is of kind
      `typ`; with no `close` after `p` the scan fails with message `msg` at
      the end of the input. */
  predicate DelimitedShaped(s: string, p: nat, close: char, typ: ItemType, msg: string, o: Outcome)
    requires p < |s|
  {
    var v := o.item.val;
    (o.item.typ.Error? <==> NoneOf(close, s[p + 1..]))
    && (o.item.typ.Error? ==> v == msg && o.next == |s|)
    && (!o.item.typ.Error? ==>
          o.item.typ == typ && 2 <= |v| && v[|v| - 1] == close && NoneOf(close, v[1..|v| - 1]))
  }

  /** A quote, double quote or backquote opens a token that ends at the next
      occurrence of the same delimiter, so a doubled delimiter ends one token
      and opens the next. A single-quoted token is a string, the others
      identifiers. */
  lemma QuoteToken(s: string, p: nat)
    requires p < |s| && (s[p] == '`' || s[p] == '\'' || s[p] == '"')
    ensures DelimitedShaped(s, p, s[p], if s[p] == '\'' then String else ID, UnterminatedQuote, Step(s, p))
  {
    assert Step(s, p) == Quote(s, p);
    QuoteShape(s, p);
  }

  lemma QuoteShape(s: string, p: nat)
    requires p < |s|
    ensures DelimitedShaped(s, p, s[p], if s[p] == '\'' then String else ID, UnterminatedQuote, Quote(s, p))
  {
    DelimitedEnd(s, p, s[p]);
  }

  /** `[` opens an identifier that ends at the first `]`. */
  lemma BracketToken(s: string, p: nat)
    requires p < |s| && s[p] == '['
    ensures DelimitedShaped(s, p, ']', ID, UnterminatedBracket, Step(s, p))
  {
    assert Step(s, p) == Bracket(s, p);
    BracketShape(s, p);
  }

  lemma BracketShape(s: string, p: nat)
    requires p < |s|
    ensures DelimitedShaped(s, p, ']', ID, UnterminatedBracket, Bracket(s, p))
  {
    DelimitedEnd(s, p, ']');
  }

  /** The search for the closing delimiter fails exactly when there is none
      after `p`, and otherwise meets no other one on its way. */
  lemma DelimitedEnd(s: string, p: nat, close: char)
    requires p < |s|
    ensures var k := FindFrom(s, p + 1, close);
      (k == |s| <==> NoneOf(close, s[p + 1..]))
      && (k < |s| ==> NoneOf(close, s[p..k + 1][1..k - p]))
  {
    var k := FindFrom(s, p + 1, close);
    FindFromFirst(s, p + 1, close);
    if k < |s| {
      assert s[p + 1..][k - (p + 1)] == close;
      assert s[p..k + 1][1..k - p] == s[p + 1..k];
    }
  }

  // ---------------------------------------------------------------------
  // Blobs and numbers

  /** A blob literal: the item is a blob whose text is the opening pair, an
      even number of hex digits and a closing quote, or a malformed-blob
      error. */
  predicate BlobShaped(p: nat, o: Outcome)
  {
    var v := o.item.val;
    (o.item.typ == Blob || o.item == Item(Error, p, MalformedBlob))
    && (o.item.typ == Blob ==>
          3 <= |v| && v[|v| - 1] == '\'' && AllIn(HexDigit, v[2..|v| - 1]) && (|v| - 3) % 2 == 0)
  }

  /** `x'` or `X'` opens a blob literal. */
  lemma BlobToken(s: string, p: nat)
    requires p + 1 < |s| && (s[p] == 'x' || s[p] == 'X') && s[p + 1] == '\''
    ensures BlobShaped(p, Step(s, p))
  {
    assert Step(s, p) == BlobLiteral(s, p);
    BlobShape(s, p);
  }

  lemma BlobShape(s: string, p: nat)
    requires p + 2 <= |s|
    ensures BlobShaped(p, BlobLiteral(s, p))
  {
    var e := RunEnd(s, p + 2, HexDigit);
    RunEndAll(s, p + 2, HexDigit);
    if RuneAt(s, e) == '\'' as int && (e - (p + 2)) % 2 == 0 {
      var v := s[p..e + 1];
      assert BlobLiteral(s, p).item.val == v;
      var w := s[p + 2..e];
      forall k | 0 <= k < |w|
        ensures v[2 + k] == w[k] && InClass(HexDigit, w[k] as int)
      {
        assert w[k] == s[p + 2 + k] == v[2 + k];
      }
      assert v[2..|v| - 1] == w;
    } else {
      assert BlobLiteral(s, p) == Failed(s, p, MalformedBlob, e);
    }
  }

  /** Conversely, an even run of hex digits closed by a quote is a blob. */
  lemma BlobAccepted(s: string, p: nat, q: nat)
    requires p + 1 < |s| && (s[p] == 'x' || s[p] == 'X') && s[p + 1] == '\''
    requires p + 2 <= q < |s| && AllIn(HexDigit, s[p + 2..q]) && s[q] == '\''
    requires (q - (p + 2)) % 2 == 0
    ensures Step(s, p) == Outcome(Item(Blob, p, s[p..q + 1]), q + 1)
  {
    assert Step(s, p) == BlobLiteral(s, p);
    BlobLiteralAccepts(s, p, q);
  }

  lemma BlobLiteralAccepts(s: string, p: nat, q: nat)
    requires p + 2 <= q < |s| && AllIn(HexDigit, s[p + 2..q]) && s[q] == '\''
    requires (q - (p + 2)) % 2 == 0
    ensures BlobLiteral(s, p) == Outcome(Item(Blob, p, s[p..q + 1]), q + 1)
  {
    RunOfAll(s, p + 2, q, HexDigit);
  }

  /** A run of class `cl` from `i` to `q`, stopped by a rune outside it,
      is the one `RunEnd` measures. */
  lemma RunOfAll(s: string, i: nat, q: nat, cl: RuneClass)
    requires i <= q <= |s| && AllIn(cl, s[i..q]) && (q == |s| || !InClass(cl, s[q] as int))
    ensures RunEnd(s, i, cl) == q
  {
    forall k | i <= k < q
      ensures InClass(cl, s[k] as int)
    {
      assert s[i..q][k - i] == s[k];
    }
    RunEndIs(s, i, q, cl);
  }

  /** `0x` and `0X` never yield an integer: the hexadecimal scan always fails. */
  lemma HexIntegerToken(s: string, p: nat)
    requires p + 1 < |s| && s[p] == '0' && (s[p + 1] == 'x' || s[p + 1] == 'X')
    ensures Step(s, p).item == Item(Error, p, MalformedHex)
  {
    assert Step(s, p) == HexInteger(s, p);
  }

  /** Where the decimal branch starts: a digit that does not open `0x` or
      `0X`, or a `.` followed by a digit. */
  predicate NumberStart(s: string, p: nat)
  {
    p < |s|
    && ((IsDigit(s[p] as int) && !(s[p] == '0' && (RuneAt(s, p + 1) == 'x' as int || RuneAt(s, p + 1) == 'X' as int)))
        || (s[p] == '.' && IsDigit(RuneAt(s, p + 1))))
  }

  /** A decimal literal: an integer or a float, a float exactly when it
      holds a `.`, never directly followed by an identifier character; or a
      bad-number error. */
  predicate NumberShaped(s: string, p: nat, o: Outcome)
  {
    (o.item.typ == Integer || o.item.typ == Float || o.item == Item(Error, p, BadNumber))
    && (!o.item.typ.Error? ==>
          !IdChar(RuneAt(s, o.next)) && (o.item.typ == Float <==> '.' in o.item.val))
  }

  lemma NumberToken(s: string, p: nat)
    requires NumberStart(s, p)
    ensures NumberShaped(s, p, Step(s, p))
  {
    assert Step(s, p) == Number(s, p);
    NumberShape(s, p);
  }

  lemma NumberShape(s: string, p: nat)
    requires p < |s| && (IsDigit(s[p] as int) || s[p] == '.')
    ensures NumberShaped(s, p, Number(s, p))
  {
    var q1 := RunEnd(s, p, Digit);
    var o := Number(s, p);
    if RuneAt(s, q1) == '.' as int {
      var q2 := RunEnd(s, q1 + 1, Digit);
      assert o == Exponent(s, p, Float, q2);
      ExponentShape(s, p, Float, q2);
      if !o.item.typ.Error? {
        assert p <= q1 < q2 <= o.next;
        assert o.item.val[q1 - p] == s[q1];
      }
    } else {
      assert o == Exponent(s, p, Integer, q1);
      ExponentShape(s, p, Integer, q1);
      if !o.item.typ.Error? {
        RunEndAll(s, p, Digit);
        assert '.' !in o.item.val by {
          forall k | 0 <= k < |o.item.val|
            ensures o.item.val[k] != '.'
          {
            assert o.item.val[k] == s[p + k];
          }
        }
      }
    }
  }

  /** The exponent part keeps the kind and adds no `.`. */
  lemma ExponentShape(s: string, p: nat, typ: ItemType, q: nat)
    requires p < q <= |s| && (typ == Integer || typ == Float)
    ensures var o := Exponent(s, p, typ, q);
      (o.item.typ == typ || o.item == Item(Error, p, BadNumber))
      && (!o.item.typ.Error? ==>
            q <= o.next && !IdChar(RuneAt(s, o.next))
            && forall k | q <= k < o.next :: s[k] != '.')
  {
    var r := RuneAt(s, q);
    if r == 'e' as int || r == 'E' as int {
      RunEndAll(s, q + 1, Digit);
      if q + 1 < |s| {
        RunEndAll(s, q + 2, Digit);
      }
    }
  }

  /** `s[i..e]` is a maximal run of digits, possibly empty. */
  predicate DigitsTo(s: string, i: nat, e: nat)
  {
    i <= e <= |s| && AllIn(Digit, s[i..e]) && !IsDigit(RuneAt(s, e))
  }

  /** The optional fraction after integer digits that end at `i`: none, or
      a `.` and a maximal run of digits, possibly empty, that ends at `f`. */
  predicate FractionTo(s: string, i: nat, f: nat)
  {
    (RuneAt(s, i) != '.' as int && f == i)
    || (RuneAt(s, i) == '.' as int && DigitsTo(s, i + 1, f))
  }

  predicate IsExponentMarker(r: int)
  {
    r == 'e' as int || r == 'E' as int
  }

  /** Where the digits of an exponent whose marker is at `f` begin: past
      the sign, when there is one. */
  function ExponentDigits(s: string, f: nat): nat
  {
    if RuneAt(s, f + 1) == '+' as int || RuneAt(s, f + 1) == '-' as int then f + 2 else f + 1
  }

  /** The optional exponent after a fraction that ends at `f`: none, or a
      marker, an optional sign and a maximal non-empty run of digits that
      ends at `q`. */
  predicate ExponentTo(s: string, f: nat, q: nat)
  {
    (!IsExponentMarker(RuneAt(s, f)) && q == f)
    || (IsExponentMarker(RuneAt(s, f)) && ExponentDigits(s, f) < q && DigitsTo(s, ExponentDigits(s, f), q))
  }

  /** `s[p..q]` is a decimal literal: integer digits up to `i`, a fraction
      up to `f`, an exponent up to `q`. */
  predicate DecimalLiteral(s: string, p: nat, i: nat, f: nat, q: nat)
  {
    DigitsTo(s, p, i) && FractionTo(s, i, f) && ExponentTo(s, f, q)
  }

  /** Conversely to `NumberToken`, a well-formed decimal literal that does
      not run into an identifier character is accepted whole; it is a float
      exactly when it has a fraction. */
  lemma NumberAccepted(s: string, p: nat, i: nat, f: nat, q: nat)
    requires NumberStart(s, p) && DecimalLiteral(s, p, i, f, q) && !IdChar(RuneAt(s, q))
    ensures Step(s, p) == Outcome(Item(if i < f then Float else Integer, p, s[p..q]), q)
  {
    assert Step(s, p) == Number(s, p);
    NumberPrefix(s, p, i, f);
    ExponentEnds(s, p, if i < f then Float else Integer, f, q);
  }

  /** A literal that runs straight into an identifier character is a bad
      number. */
  lemma IdCharAfterLiteral(s: string, p: nat, i: nat, f: nat, q: nat)
    requires NumberStart(s, p) && DecimalLiteral(s, p, i, f, q) && IdChar(RuneAt(s, q))
    ensures Step(s, p).item == Item(Error, p, BadNumber)
  {
    assert Step(s, p) == Number(s, p);
    NumberPrefix(s, p, i, f);
    ExponentEnds(s, p, if i < f then Float else Integer, f, q);
  }

  /** An exponent marker with no digit after the optional sign is a bad
      number. */
  lemma BadExponent(s: string, p: nat, i: nat, f: nat)
    requires NumberStart(s, p) && DigitsTo(s, p, i) && FractionTo(s, i, f)
    requires IsExponentMarker(RuneAt(s, f)) && !IsDigit(RuneAt(s, ExponentDigits(s, f)))
    ensures Step(s, p).item == Item(Error, p, BadNumber)
  {
    assert Step(s, p) == Number(s, p);
    NumberPrefix(s, p, i, f);
  }

  /** The integer digits and the fraction fix the kind and where the
      exponent part starts. */
  lemma NumberPrefix(s: string, p: nat, i: nat, f: nat)
    requires p < |s| && (IsDigit(s[p] as int) || s[p] == '.')
    requires DigitsTo(s, p, i) && FractionTo(s, i, f)
    ensures p < f && Number(s, p) == Exponent(s, p, if i < f then Float else Integer, f)
  {
    assert s[p] == '.' ==> i == p;
    RunOfAll(s, p, i, Digit);
    if RuneAt(s, i) == '.' as int {
      RunOfAll(s, i + 1, f, Digit);
    }
  }

  /** A well-formed exponent part, or none, ends the literal at `q`. */
  lemma ExponentEnds(s: string, p: nat, typ: ItemType, f: nat, q: nat)
    requires p < f <= |s| && (typ == Integer || typ == Float) && ExponentTo(s, f, q)
    ensures p < q && Exponent(s, p, typ, f) == NumberEnd(s, p, typ, q)
  {
    if IsExponentMarker(RuneAt(s, f)) {
      var d := ExponentDigits(s, f);
      assert s[d..q][0] == s[d];
      RunOfAll(s, d, q, Digit);
    }
  }

  /** A dot that no digit follows is the dot operator. */
  lemma LoneDot(s: string, p: nat)
    requires p < |s| && s[p] == '.' && !IsDigit(RuneAt(s, p + 1))
    ensures Step(s, p) == Outcome(Item(Dot, p, "."), p + 1)
  {
    assert Step(s, p) == Numeric(s, p);
    assert s[p..p + 1] == ".";
  }

  // ---------------------------------------------------------------------
  // Variables and words

  /** `?` starts a positional variable: the question mark and the digits
      that follow it, possibly none. */
  lemma PositionalToken(s: string, p: nat)
    requires p < |s| && s[p] == '?'
    ensures var o := Step(s, p);
      o.item.typ == Variable && 1 <= |o.item.val| && AllIn(Digit, o.item.val[1..])
      && !IsDigit(RuneAt(s, o.next))
  {
    var e := RunEnd(s, p + 1, Digit);
    assert Step(s, p) == Outcome(Item(Variable, p, s[p..e]), e);
    RunEndAll(s, p + 1, Digit);
    assert s[p..e][1..] == s[p + 1..e];
  }

  /** `$`, `@`, `#` and `:` start a named variable, which needs at least
      one identifier character after the sigil and takes all of them. */
  predicate NamedVariableShaped(s: string, p: nat, o: Outcome)
  {
    var v := o.item.val;
    (o.item.typ.Error? <==> !IdChar(RuneAt(s, p + 1)))
    && (o.item.typ.Error? ==> v == BadVariableName)
    && (!o.item.typ.Error? ==>
          o.item.typ == Variable && 2 <= |v| && AllIn(Ident, v[1..]) && !IdChar(RuneAt(s, o.next)))
  }

  lemma NamedVariableToken(s: string, p: nat)
    requires p < |s| && (s[p] == '$' || s[p] == '@' || s[p] == '#' || s[p] == ':')
    ensures NamedVariableShaped(s, p, Step(s, p))
  {
    assert Step(s, p) == NamedVariable(s, p);
    NamedVariableShape(s, p);
  }

  lemma NamedVariableShape(s: string, p: nat)
    requires p < |s|
    ensures NamedVariableShaped(s, p, NamedVariable(s, p))
  {
    var e := RunEnd(s, p + 1, Ident);
    RunEndAll(s, p + 1, Ident);
    assert s[p..e][1..] == s[p + 1..e];
  }

  /** Any other identifier character starts a word: the longest run of
      identifier characters, a keyword when its upper-cased text is a
      reserved word and an identifier otherwise. */
  predicate WordShaped(s: string, o: Outcome)
  {
    o.item.typ == KindOfWord(o.item.val) && AllIn(Ident, o.item.val) && !IdChar(RuneAt(s, o.next))
  }

  lemma WordToken(s: string, p: nat)
    requires p < |s| && IdChar(s[p] as int) && !IsDigit(s[p] as int)
    requires !((s[p] == 'x' || s[p] == 'X') && RuneAt(s, p + 1) == '\'' as int)
    ensures WordShaped(s, Step(s, p))
  {
    var c := s[p];
    assert !StartsSpace(c) && !IsOperatorStart(c);
    assert c != '`' && c != '\'' && c != '"' && c != '.' && c != '[' && c != '?';
    assert c != '$' && c != '@' && c != '#' && c != ':';
    assert Step(s, p) == WordOrBlob(s, p);
    assert WordOrBlob(s, p) == Word(s, p);
    WordShape(s, p);
  }

  lemma WordShape(s: string, p: nat)
    requires p < |s| && IdChar(s[p] as int)
    ensures WordShaped(s, Word(s, p))
  {
    RunEndAll(s, p, Ident);
  }

  /** A rune that starts no token is an illegal rune; the error consumes it. */
  lemma IllegalRuneToken(s: string, p: nat)
    requires p < |s| && !IdChar(s[p] as int) && !StartsSpace(s[p]) && !IsOperatorStart(s[p])
    requires s[p] !in "`'\".[?$@#:"
    ensures Step(s, p) == Outcome(Item(Error, p, IllegalRune(s[p])), p + 1)
  {
  }

  // ---------------------------------------------------------------------
  // Operators

  /** The one-character operators and the item kind of each. */
  function SingleOperator(c: char): Option<ItemType>
  {
    match c
    case '(' => Some(LP)
    case ')' => Some(RP)
    case ';' => Some(Semi)
    case ',' => Some(Comma)
    case '+' => Some(Plus)
    case '-' => Some(Minus)
    case '*' => Some(Star)
    case '/' => Some(Slash)
    case '%' => Some(Rem)
    case '&' => Some(BitAnd)
    case '~' => Some(BitNot)
    case '|' => Some(BitOr)
    case '=' => Some(Eq)
    case '<' => Some(LT)
    case '>' => Some(GT)
    case _ => None
  }

  /** The two-character operators, first and second character, and the
      item kind of each. */
  function DoubleOperator(a: char, b: char): Option<ItemType>
  {
    match (a, b)
    case ('|', '|') => Some(Concat)
    case ('=', '=') => Some(Eq)
    case ('<', '>') => Some(NE)
    case ('!', '=') => Some(NE)
    case ('<', '=') => Some(LE)
    case ('<', '<') => Some(LShift)
    case ('>', '=') => Some(GE)
    case ('>', '>') => Some(RShift)
    case _ => None
  }

  /** The two characters open a comment. */
  predicate OpensComment(a: char, b: char)
  {
    (a == '-' && b == '-') || (a == '/' && b == '*')
  }

  /** A two-character operator is always taken whole. */
  lemma OperatorLongest(s: string, p: nat)
    requires p + 1 < |s| && DoubleOperator(s[p], s[p + 1]).Some?
    ensures Step(s, p) == Outcome(Item(DoubleOperator(s[p], s[p + 1]).value, p, s[p..p + 2]), p + 2)
  {
    var a := s[p];
    assert IsOperatorStart(a) && a in "=<>!|";
    assert Step(s, p) == Operator(s, p);
    assert Operator(s, p) == CompoundOperator(s, p);
  }

  /** A one-character operator stands alone when the next rune does not
      extend it to a two-character operator or a comment. */
  lemma OperatorSingle(s: string, p: nat)
    requires p < |s| && SingleOperator(s[p]).Some?
    requires p + 1 < |s| ==> DoubleOperator(s[p], s[p + 1]).None? && !OpensComment(s[p], s[p + 1])
    ensures Step(s, p) == Outcome(Item(SingleOperator(s[p]).value, p, [s[p]]), p + 1)
  {
    assert IsOperatorStart(s[p]);
    assert Step(s, p) == Operator(s, p);
    OperatorSingleShape(s, p);
  }

  lemma OperatorSingleShape(s: string, p: nat)
    requires p < |s| && SingleOperator(s[p]).Some? && IsOperatorStart(s[p])
    requires p + 1 < |s| ==> DoubleOperator(s[p], s[p + 1]).None? && !OpensComment(s[p], s[p + 1])
    ensures Operator(s, p) == Outcome(Item(SingleOperator(s[p]).value, p, [s[p]]), p + 1)
  {
    var a := s[p];
    assert s[p..p + 1] == [a];
    if a in "=<>!|" {
      CompoundSingleShape(s, p);
    } else if a != '-' && a != '/' {
      assert Operator(s, p) == Emitted(s, p, SingleOperator(a).value, p + 1);
    }
  }

  lemma CompoundSingleShape(s: string, p: nat)
    requires p < |s| && SingleOperator(s[p]).Some? && s[p] in "=<>!|"
    requires p + 1 < |s| ==> DoubleOperator(s[p], s[p + 1]).None?
    ensures CompoundOperator(s, p) == Emitted(s, p, SingleOperator(s[p]).value, p + 1)
  {
  }

  /** A `!` not followed by `=` is an illegal rune; the error is reported
      only after the rune that follows it has been read. */
  lemma BangToken(s: string, p: nat)
    requires p < |s| && s[p] == '!' && RuneAt(s, p + 1) != '=' as int
    ensures Step(s, p) == Outcome(Item(Error, p, IllegalRune('!')), if p + 1 < |s| then p + 2 else p + 1)
  {
    assert Step(s, p) == Operator(s, p);
    assert Operator(s, p) == CompoundOperator(s, p);
  }

  // ---------------------------------------------------------------------
  // Errors

  /** One of the lexer's error messages. An illegal-rune message is the only
      one 17 characters long, and names its rune at index 15. */
  predicate IsMessage(m: string)
  {
    m == UnterminatedQuote || m == UnterminatedBracket || m == MalformedBlob
    || m == MalformedHex || m == BadNumber || m == BadVariableName
    || (|m| == 17 && m == IllegalRune(m[15]))
  }

  /** An error outcome carries one of the lexer's messages. */
  predicate Reports(o: Outcome)
  {
    o.item.typ.Error? ==> IsMessage(o.item.val)
  }

  /** Every error item carries one of the lexer's messages. */
  lemma ErrorMessage(s: string, p: nat)
    requires p <= |s|
    ensures Reports(Step(s, p))
  {
    if p < |s| {
      var c, o := s[p], Step(s, p);
      if StartsSpace(c) || c == '?' {
      } else if IsOperatorStart(c) {
        assert o == Operator(s, p);
        OperatorReports(s, p);
      } else if c == '`' || c == '\'' || c == '"' {
        assert o == Quote(s, p);
      } else if c == '.' || IsDigit(c as int) {
        assert o == Numeric(s, p);
        NumericReports(s, p);
      } else if c == '[' {
        assert o == Bracket(s, p);
      } else if c == '$' || c == '@' || c == '#' || c == ':' {
        assert o == NamedVariable(s, p);
      } else {
        assert o == WordOrBlob(s, p);
        WordOrBlobReports(s, p);
      }
    }
  }

  lemma OperatorReports(s: string, p: nat)
    requires p < |s| && IsOperatorStart(s[p])
    ensures Reports(Operator(s, p))
  {
    if s[p] == '!' {
      assert Operator(s, p) == CompoundOperator(s, p);
      assert IllegalRune('!')[15] == '!';
    }
  }

  lemma NumericReports(s: string, p: nat)
    requires p < |s| && (s[p] == '.' || IsDigit(s[p] as int))
    ensures Reports(Numeric(s, p))
  {
  }

  lemma WordOrBlobReports(s: string, p: nat)
    requires p < |s|
    ensures Reports(WordOrBlob(s, p))
  {
    assert IllegalRune(s[p])[15] == s[p];
  }
}
