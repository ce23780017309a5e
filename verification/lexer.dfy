/** The SQL lexer as a state machine over a cursor, in the shape of its
    source: `next`, `peek`, `backup`, `emit` and `errorf` move `pos`,
    `start` and `width`, and each state scans rune by rune. The goroutine
    and the channel are replaced by a pull: `NextItem` runs the `lexStart`
    state and the sub-state it enters, and returns the one item they emit.
    Every step is proved to agree with `Scan.Step`. */
module Lexer {
  import opened Keywords
  import opened Scan

  class Lexer {
    /** The input being scanned. */
    const input: string
    /** Current position in the input. */
    var pos: nat
    /** Start position of the item being scanned. */
    var start: nat
    /** Width of the last rune read: 1, or 0 at the end of the input. */
    var width: nat
    /** The state machine has reached the nil state (after EOF or an error). */
    var done: bool

    ghost predicate Valid()
      reads this
    {
      start <= pos <= |input| && width <= 1
    }

    /** The cursor is just past index `q` (at the end, when `q` is the end). */
    ghost predicate Past(q: nat)
      reads this
    {
      q <= |input| && pos == if q < |input| then q + 1 else q
    }

    /** The rune at index `q` is the last one `next` read. */
    ghost predicate HasRead(q: nat)
      reads this
    {
      Past(q) && width == if q < |input| then 1 else 0
    }

    /** `lex`, without the goroutine: a scanner at the start of `input`. */
    constructor (input: string)
      ensures this.input == input && pos == 0 && start == 0 && width == 0 && !done
      ensures Valid()
    {
      this.input := input;
      pos, start, width, done := 0, 0, 0, false;
    }

    /** `next`: the rune at the cursor, which it then passes. */
    method Next() returns (r: int)
      requires Valid()
      modifies this`pos, this`width
      ensures Valid() && HasRead(old(pos)) && r == RuneAt(input, old(pos))
    {
      if pos >= |input| {
        width := 0;
        return EofRune;
      }
      r := input[pos] as int;
      width := 1;
      pos := pos + width;
    }

    /** `backup`: steps back over the last rune read. */
    method Backup()
      requires Valid() && start + width <= pos
      modifies this`pos
      ensures Valid() && pos == old(pos) - width
    {
      pos := pos - width;
    }

    /** `peek`: the rune at the cursor, which stays where it was. */
    method Peek() returns (r: int)
      requires Valid()
      modifies this`pos, this`width
      ensures Valid() && pos == old(pos) && r == RuneAt(input, pos)
      ensures width == if pos < |input| then 1 else 0
    {
      r := Next();
      Backup();
    }

    /** `emit`: the item from `start` to the cursor; the next item starts here. */
    method Emit(t: ItemType) returns (it: Item)
      requires Valid()
      modifies this`start
      ensures Valid() && it == Item(t, old(start), input[old(start)..pos]) && start == pos
    {
      it := Item(t, start, input[start..pos]);
      start := pos;
    }

    /** `errorf`: an error item at `start`; the next state is nil. */
    method Errorf(msg: string) returns (it: Item)
      requires Valid()
      modifies this`done
      ensures Valid() && it == Item(Error, start, msg) && done
    {
      it := Item(Error, start, msg);
      done := true;
    }

    /** `lexSpace`, entered with the first blank read. */
    method LexSpace() returns (it: Item)
      requires Valid() && start < |input| && HasRead(start)
      modifies this`pos, this`width, this`start
      ensures Valid() && Outcome(it, pos) == SpaceRun(input, old(start)) && start == pos
    {
      ghost var q := start + 1;
      var r := Next();
      while IsSpace(r)
        invariant Valid() && start == old(start) && start < q && HasRead(q) && r == RuneAt(input, q)
        invariant RunEnd(input, q, Blank) == RunEnd(input, start + 1, Blank)
        decreases |input| - q
      {
        r := Next();
        q := q + 1;
      }
      assert RunEnd(input, q, Blank) == q;
      Backup();
      assert pos == q;
      it := Emit(Space);
    }

    /** `lexLineComment`, entered after the first `-` with the second one ahead. */
    method LexLineComment() returns (it: Item)
      requires Valid() && start + 1 < |input| && pos == start + 1
      modifies this`pos, this`width, this`start
      ensures Valid() && Outcome(it, pos) == LineComment(input, old(start)) && start == pos
    {
      ghost var q := pos;
      var r := Next();
      while r != EofRune && r != '\n' as int
        invariant Valid() && start == old(start) && start < q && HasRead(q) && r == RuneAt(input, q)
        invariant FindFrom(input, q, '\n') == FindFrom(input, start + 1, '\n')
        decreases |input| - q
      {
        r := Next();
        q := q + 1;
      }
      it := Emit(Space);
    }

    /** `lexBlockComment`, entered past the opening pair; `pr` is the rune
        read before `r`. */
    method LexBlockComment() returns (it: Item)
      requires Valid() && start + 2 <= |input| && pos == start + 2
      modifies this`pos, this`width, this`start
      ensures Valid() && Outcome(it, pos) == BlockComment(input, old(start)) && start == pos
    {
      ghost var q := pos;
      var pr := 0;
      var r := Next();
      while !(r == EofRune || (pr == '*' as int && r == '/' as int))
        invariant Valid() && start == old(start) && start + 2 <= q && HasRead(q) && r == RuneAt(input, q)
        invariant q == start + 2 ==> pr == 0
        invariant q > start + 2 ==> pr == input[q - 1] as int && CloseFrom(input, start + 2) == CloseFrom(input, q - 1)
        decreases |input| - q
      {
        pr := r;
        r := Next();
        q := q + 1;
      }
      it := Emit(Space);
    }

    /** `lexQuote(delim)`, entered with the opening delimiter read. The test
        `pr != delim` never fails, since `pr` is never the delimiter: the
        first later delimiter closes the token. */
    method LexQuote(delim: char) returns (it: Item)
      requires Valid() && !done && start < |input| && HasRead(start) && input[start] == delim
      requires delim == '`' || delim == '\'' || delim == '"'
      modifies this`pos, this`width, this`start, this`done
      ensures Valid() && Outcome(it, pos) == Quote(input, old(start))
      ensures done == it.typ.Error? && start == (if done then old(start) else pos)
    {
      ghost var q := start + 1;
      var pr := 0;
      while true
        invariant Valid() && start == old(start) && start < q <= |input| && pos == q && !done
        invariant pr != delim as int
        invariant FindFrom(input, q, delim) == FindFrom(input, start + 1, delim)
        decreases |input| - q
      {
        var r := Next();
        if r == EofRune {
          it := Errorf(UnterminatedQuote);
          return;
        }
        if r == delim as int && pr != delim as int {
          break;
        }
        pr := r;
        q := q + 1;
      }
      if delim == '\'' {
        it := Emit(String);
        return;
      }
      it := Emit(ID);
    }

    /** `lexBracket`, entered with the `[` read. */
    method LexBracket() returns (it: Item)
      requires Valid() && !done && start < |input| && HasRead(start)
      modifies this`pos, this`width, this`start, this`done
      ensures Valid() && Outcome(it, pos) == Bracket(input, old(start))
      ensures done == it.typ.Error? && start == (if done then old(start) else pos)
    {
      ghost var q := start + 1;
      while true
        invariant Valid() && start == old(start) && start < q <= |input| && pos == q && !done
        invariant FindFrom(input, q, ']') == FindFrom(input, start + 1, ']')
        decreases |input| - q
      {
        var r := Next();
        if r == EofRune {
          it := Errorf(UnterminatedBracket);
          return;
        }
        if r == ']' as int {
          break;
        }
        q := q + 1;
      }
      it := Emit(ID);
    }

    /** `lexBlobLiteral`, entered past `x'`; `n` counts the hex digits. */
    method LexBlobLiteral() returns (it: Item)
      requires Valid() && start + 2 <= |input| && pos == start + 2 && !done
      modifies this`pos, this`width, this`start, this`done
      ensures Valid() && Outcome(it, pos) == BlobLiteral(input, old(start))
      ensures done == it.typ.Error? && start == (if done then old(start) else pos)
    {
      var r := Next();
      var n;
      ghost var e;
      r, n, e := SkipWhile(HexDigit, r, start + 2);
      if r != '\'' as int || n % 2 != 0 {
        it := Errorf(MalformedBlob);
        return;
      }
      it := Emit(Blob);
    }

    /** `lexHexInteger`, entered past `0x`. The source counts hex digits in
        `n` but never increments it, so its `n == 0` test holds on every
        path: once the hex digits end the scan fails, and the `backup` and
        `emit(itemInteger)` after the loop are never reached. */
    method LexHexInteger() returns (it: Item)
      requires Valid() && start + 2 <= |input| && pos == start + 2
      modifies this`pos, this`width, this`done
      ensures Valid() && Outcome(it, pos) == HexInteger(input, old(start))
      ensures done && start == old(start)
    {
      ghost var q := pos;
      var r := Next();
      while IsHexDigit(r)
        invariant Valid() && start == old(start) && start + 2 <= q && HasRead(q) && r == RuneAt(input, q)
        invariant RunEnd(input, q, HexDigit) == RunEnd(input, start + 2, HexDigit)
        decreases |input| - q
      {
        r := Next();
        q := q + 1;
      }
      it := Errorf(MalformedHex);
    }

    /** The loop `for P(r) { r = l.next() }` that the blob, number,
        variable and identifier scans run, `r` being the rune at `q`; `n`
        counts the runes it passes. It stops at the end of the run of runes
        of class `cl` that starts at `q`. */
    method SkipWhile(cl: RuneClass, r: int, ghost q: nat) returns (r': int, n: nat, ghost q': nat)
      requires Valid() && start <= q && Past(q) && r == RuneAt(input, q)
      modifies this`pos, this`width
      ensures q' == q + n
      ensures Valid() && q' == RunEnd(input, q, cl) && Past(q') && r' == RuneAt(input, q')
      ensures InClass(cl, r) == (q' > q)
      ensures q' > q ==> HasRead(q')
      ensures q' == q ==> width == old(width)
    {
      r', n, q' := r, 0, q;
      while InClass(cl, r')
        invariant q' == q + n
        invariant Valid() && Past(q') && r' == RuneAt(input, q')
        invariant q' > q ==> HasRead(q')
        invariant q' == q ==> width == old(width)
        invariant RunEnd(input, q', cl) == RunEnd(input, q, cl)
        decreases |input| - q'
      {
        r' := Next();
        n, q' := n + 1, q' + 1;
      }
    }

    /** The digit branch of `lexStart` (entered for a digit, or for a `.`
        before a digit), past the hexadecimal case: integer digits and an
        optional fraction that makes it a Float. */
    method LexNumber(r0: int) returns (it: Item)
      requires Valid() && !done && start < |input| && pos == start + 1 && r0 == input[start] as int
      requires IsDigit(r0) || r0 == '.' as int
      modifies this`pos, this`width, this`start, this`done
      ensures Valid() && Outcome(it, pos) == Number(input, old(start))
      ensures done == it.typ.Error? && start == (if done then old(start) else pos)
    {
      var r, n, q := SkipWhile(Digit, r0, start);
      var typ := Integer;
      if r == '.' as int {
        r := Next();
        r, n, q := SkipWhile(Digit, r, q + 1);
        typ := Float;
        assert q == RunEnd(input, RunEnd(input, start, Digit) + 1, Digit);
      }
      assert Number(input, start) == Exponent(input, start, typ, q);
      it := LexExponent(typ, r, q);
    }

    /** The rest of the digit branch, with the rune `r0` after the digits
        read: an optional exponent, which leaves the kind alone. */
    method LexExponent(typ: ItemType, r0: int, ghost q: nat) returns (it: Item)
      requires Valid() && !done && start < q && HasRead(q) && r0 == RuneAt(input, q)
      requires typ == Integer || typ == Float
      modifies this`pos, this`width, this`start, this`done
      ensures Valid() && Outcome(it, pos) == Exponent(input, old(start), typ, q)
      ensures done == it.typ.Error? && start == (if done then old(start) else pos)
    {
      if r0 != 'e' as int && r0 != 'E' as int {
        it := LexNumberEnd(typ, r0, q);
        return;
      }
      var r := Next();
      var n;
      ghost var e;
      if IsDigit(r) {
        r, n, e := SkipWhile(Digit, r, q + 1);
      } else if r == '+' as int || r == '-' as int {
        r := Next();
        if IsDigit(r) {
          r, n, e := SkipWhile(Digit, r, q + 2);
        } else {
          it := Errorf(BadNumber);
          return;
        }
      } else {
        it := Errorf(BadNumber);
        return;
      }
      it := LexNumberEnd(typ, r, e);
    }

    /** The end of the digit branch, with the rune `r` after the literal
        read: an identifier character there is an error, anything else is
        backed over and the literal emitted. */
    method LexNumberEnd(typ: ItemType, r: int, ghost e: nat) returns (it: Item)
      requires Valid() && !done && start < e && HasRead(e) && r == RuneAt(input, e)
      requires typ == Integer || typ == Float
      modifies this`pos, this`start, this`done
      ensures Valid() && Outcome(it, pos) == NumberEnd(input, old(start), typ, e)
      ensures done == it.typ.Error? && start == (if done then old(start) else pos)
    {
      if IdChar(r) {
        it := Errorf(BadNumber);
        return;
      }
      Backup();
      it := Emit(typ);
    }

    /** The operator cases of `lexStart`, entered with the operator's first
        rune read; `-` and `/` may instead start a comment. */
    method LexOperator(c: char) returns (it: Item)
      requires Valid() && !done && start < |input| && HasRead(start) && input[start] == c
      requires IsOperatorStart(c)
      modifies this`pos, this`width, this`start, this`done
      ensures Valid() && Outcome(it, pos) == Operator(input, old(start))
      ensures done == it.typ.Error? && start == (if done then old(start) else pos)
    {
      if c == '-' {
        var p := Peek();
        if p == '-' as int {
          it := LexLineComment();
        } else {
          it := Emit(Minus);
        }
      } else if c == '/' {
        var p := Peek();
        if p == '*' as int {
          var r := Next();
          it := LexBlockComment();
        } else {
          it := Emit(Slash);
        }
      } else if c in "=<>!|" {
        it := LexCompoundOperator(c);
      } else if c == '(' {
        it := Emit(LP);
      } else if c == ')' {
        it := Emit(RP);
      } else if c == ';' {
        it := Emit(Semi);
      } else if c == '+' {
        it := Emit(Plus);
      } else if c == '*' {
        it := Emit(Star);
      } else if c == '%' {
        it := Emit(Rem);
      } else if c == ',' {
        it := Emit(Comma);
      } else if c == '&' {
        it := Emit(BitAnd);
      } else {
        it := Emit(BitNot);
      }
    }

    /** The `=`, `<`, `>`, `!` and `|` cases of `lexStart`: a second rune
        that completes a two-rune operator is consumed. */
    method LexCompoundOperator(c: char) returns (it: Item)
      requires Valid() && !done && start < |input| && HasRead(start) && input[start] == c
      requires c in "=<>!|"
      modifies this`pos, this`width, this`start, this`done
      ensures Valid() && Outcome(it, pos) == CompoundOperator(input, old(start))
      ensures done == it.typ.Error? && start == (if done then old(start) else pos)
    {
      var r: int;
      if c == '=' {
        var p := Peek();
        if p == '=' as int {
          r := Next();
        }
        it := Emit(Eq);
      } else if c == '<' {
        var typ := LT;
        var p := Peek();
        if p == '=' as int {
          typ := LE;
          r := Next();
        } else if p == '>' as int {
          typ := NE;
          r := Next();
        } else if p == '<' as int {
          typ := LShift;
          r := Next();
        }
        it := Emit(typ);
      } else if c == '>' {
        var typ := GT;
        var p := Peek();
        if p == '=' as int {
          typ := GE;
          r := Next();
        } else if p == '>' as int {
          typ := RShift;
          r := Next();
        }
        it := Emit(typ);
      } else if c == '!' {
        r := Next();
        if r != '=' as int {
          it := Errorf(IllegalRune(c));
          return;
        }
        it := Emit(NE);
      } else {
        var p := Peek();
        if p == '|' as int {
          r := Next();
          it := Emit(Concat);
        } else {
          it := Emit(BitOr);
        }
      }
    }

    /** The `.` and digit cases of `lexStart`, entered with that rune read. A
        `.` without a digit after it is the dot operator; otherwise the `.`
        case falls through into the digit case, where `0x` starts a hex
        integer. */
    method LexNumeric(c: char) returns (it: Item)
      requires Valid() && !done && start < |input| && HasRead(start) && input[start] == c
      requires c == '.' || IsDigit(c as int)
      modifies this`pos, this`width, this`start, this`done
      ensures Valid() && Outcome(it, pos) == Numeric(input, old(start))
      ensures done == it.typ.Error? && start == (if done then old(start) else pos)
    {
      if c == '.' {
        var p := Peek();
        if !IsDigit(p) {
          it := Emit(Dot);
          return;
        }
      }
      if c == '0' {
        var p := Peek();
        if p == 'x' as int || p == 'X' as int {
          var r := Next();
          it := LexHexInteger();
          return;
        }
      }
      it := LexNumber(c as int);
    }

    /** The `?` case of `lexStart`: a run of ASCII digits. */
    method LexPositional() returns (it: Item)
      requires Valid() && !done && start < |input| && HasRead(start)
      modifies this`pos, this`width, this`start
      ensures Valid() && Outcome(it, pos) == Emitted(input, old(start), Variable, RunEnd(input, old(start) + 1, Digit))
      ensures start == pos
    {
      var r := Next();
      var n;
      ghost var e;
      r, n, e := SkipWhile(Digit, r, start + 1);
      Backup();
      it := Emit(Variable);
    }

    /** The `$`, `@`, `#` and `:` cases of `lexStart`: at least one
        identifier character. */
    method LexNamedVariable() returns (it: Item)
      requires Valid() && !done && start < |input| && HasRead(start)
      modifies this`pos, this`width, this`start, this`done
      ensures Valid() && Outcome(it, pos) == NamedVariable(input, old(start))
      ensures done == it.typ.Error? && start == (if done then old(start) else pos)
    {
      var r := Next();
      if !IdChar(r) {
        it := Errorf(BadVariableName);
        return;
      }
      var n;
      ghost var e;
      r, n, e := SkipWhile(Ident, r, start + 1);
      Backup();
      it := Emit(Variable);
    }

    /** The `x` and `X` case of `lexStart`, which falls through into the
        default one unless a quote follows: an identifier character starts a
        word, looked up upper-cased in the keyword table; any other rune is
        illegal. */
    method LexDefault(c: char) returns (it: Item)
      requires Valid() && !done && start < |input| && HasRead(start) && input[start] == c
      modifies this`pos, this`width, this`start, this`done
      ensures Valid() && Outcome(it, pos) == WordOrBlob(input, old(start))
      ensures done == it.typ.Error? && start == (if done then old(start) else pos)
    {
      var r := c as int;
      if c == 'x' || c == 'X' {
        var p := Peek();
        if p == '\'' as int {
          r := Next();
          it := LexBlobLiteral();
          return;
        }
      }
      if !IdChar(r) {
        it := Errorf(IllegalRune(c));
        return;
      }
      it := LexWord(r);
    }

    /** The identifier path of the default case, entered with its first
        rune `r` read: the longest run of identifier characters, looked up
        upper-cased in the keyword table. */
    method LexWord(r: int) returns (it: Item)
      requires Valid() && start < |input| && Past(start) && r == input[start] as int && IdChar(r)
      modifies this`pos, this`width, this`start
      ensures Valid() && Outcome(it, pos) == Word(input, old(start)) && start == pos
    {
      var r', n, e := SkipWhile(Ident, r, start);
      Backup();
      var w := input[start..pos];
      assert w == input[start..RunEnd(input, start, Ident)];
      it := Emit(KindOfWord(w));
    }

    /** One run of the `lexStart` state, including the sub-state it hands
        over to: reads the next rune, dispatches on it, and returns the one
        item emitted. After EOF or an error the machine is done. */
    method NextItem() returns (it: Item)
      requires Valid() && !done && start == pos
      modifies this`pos, this`width, this`start, this`done
      ensures Valid() && Outcome(it, pos) == Step(input, old(pos))
      ensures done == IsTerminal(it.typ)
      ensures start == if it.typ.Error? then old(start) else pos
    {
      var r := Next();
      if r == EofRune {
        it := Emit(EOF);
        done := true;
        return;
      }
      var c := input[start];
      if StartsSpace(c) {
        it := LexSpace();
      } else if IsOperatorStart(c) {
        it := LexOperator(c);
      } else if c == '`' || c == '\'' || c == '"' {
        it := LexQuote(c);
      } else if c == '.' || IsDigit(r) {
        it := LexNumeric(c);
      } else if c == '[' {
        it := LexBracket();
      } else if c == '?' {
        it := LexPositional();
      } else if c == '$' || c == '@' || c == '#' || c == ':' {
        it := LexNamedVariable();
      } else {
        it := LexDefault(c);
      }
    }
  }

  /** `lex` followed by `run`, with the item channel drained into a
      sequence: the items the state machine emits for `input`, up to and
      including the EOF or error item after which its state is nil. */
  method Lex(input: string) returns (items: seq<Item>)
    ensures items == Tokens(input, 0)
  {
    var lx := new Lexer(input);
    items := [];
    while !lx.done
      invariant lx.Valid() && lx.input == input
      invariant !lx.done ==> lx.start == lx.pos && items + Tokens(input, lx.pos) == Tokens(input, 0)
      invariant lx.done ==> items == Tokens(input, 0)
      decreases if lx.done then 0 else |input| - lx.pos + 1
    {
      ghost var p := lx.pos;
      ghost var rest := Tokens(input, p);
      var it := lx.NextItem();
      if !lx.done {
        assert rest == [it] + Tokens(input, lx.pos);
      }
      items := items + [it];
    }
  }
}
