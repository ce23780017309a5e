/** The scan of a few concrete inputs, one step at a time. */
module Examples {
  import opened Keywords
  import opened Scan

  /** Keywords are recognised in any case. */
  lemma SelectInLowerCase()
    ensures KindOfWord("select") == Kw(Select)
  {
    assert Upper("select") == "SELECT";
  }

  /** A word outside the table is an identifier. */
  lemma PlainIdentifier()
    ensures KindOfWord("users") == ID
  {
    assert Upper("users") == "USERS";
  }

  /** Several words share one kind. */
  lemma SharedJoinKind()
    ensures Lookup("LEFT") == Some(JoinKw) && Lookup("CROSS") == Some(JoinKw)
  {
  }

  lemma SharedLikeKind()
    ensures Lookup("GLOB") == Some(LikeKw) && Lookup("REGEXP") == Some(LikeKw)
  {
  }

  lemma SharedTempKind()
    ensures Lookup("TEMP") == Some(Temp) && Lookup("TEMPORARY") == Some(Temp)
  {
  }

  lemma SharedTimeKind()
    ensures Lookup("CURRENT_DATE") == Some(CtimeKw)
  {
  }

  /** An exponent does not make a float. */
  lemma ExponentKeepsInteger()
    ensures Step("12e5", 0) == Outcome(Item(Integer, 0, "12e5"), 4)
  {
    assert Step("12e5", 0) == Number("12e5", 0);
    assert RunEnd("12e5", 0, Digit) == 2;
    assert RunEnd("12e5", 3, Digit) == 4;
  }

  lemma DigitThenLetter()
    ensures Step("1a", 0).item == Item(Error, 0, BadNumber)
  {
  }

  lemma HexLiteral()
    ensures Step("0x1F", 0).item == Item(Error, 0, MalformedHex)
  {
  }

  lemma EvenBlob()
    ensures Step("x'1A2B'", 0) == Outcome(Item(Blob, 0, "x'1A2B'"), 7)
  {
  }

  lemma OddBlob()
    ensures Step("x'1A2'", 0).item == Item(Error, 0, MalformedBlob)
  {
  }

  /** A doubled quote is not an escape: it closes one string and opens the next. */
  lemma DoubledQuote()
    ensures Step("'it''s'", 0) == Outcome(Item(String, 0, "'it'"), 4)
  {
  }

  lemma AfterDoubledQuote()
    ensures Step("'it''s'", 4) == Outcome(Item(String, 4, "'s'"), 7)
  {
  }

  /** The vertical tab continues a run of blanks. */
  lemma VerticalTabInRun()
    ensures Step(" \U{000B}", 0) == Outcome(Item(Space, 0, " \U{000B}"), 2)
  {
  }

  /** A block comment that is never closed runs to the end of the input. */
  lemma UnclosedComment()
    ensures Step("/* x", 0) == Outcome(Item(Space, 0, "/* x"), 4)
  {
  }

  lemma PositionalVariable()
    ensures Step("?12", 0) == Outcome(Item(Variable, 0, "?12"), 3)
  {
  }

  lemma BareSigil()
    ensures Step("$", 0).item == Item(Error, 0, BadVariableName)
  {
  }
}
