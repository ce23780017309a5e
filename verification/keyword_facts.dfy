/** Properties of the reserved-word table and of how words are classified:
    a lookup answers with an entry of the table and finds every entry, and
    a word's kind does not depend on its case. */
module KeywordFacts {
  import opened Keywords
  import opened Scan
  import KeywordTable

  /** No initial files more than 14 words, so every entry lies within the
      16 the search looks at. */
  lemma BucketBound(c: char, i: nat)
    ensures Bucket(c, i).Some? ==> i < 14
  {
  }

  /** Upper-casing twice is upper-casing once. */
  lemma {:induction false} UpperIdempotent(w: string)
    ensures Upper(Upper(w)) == Upper(w)
  {
    if w != [] {
      UpperIdempotent(w[1..]);
      assert Upper(w)[1..] == Upper(w[1..]);
    }
  }

  /** The search finds a word only among the entries under its initial, from
      the `i`-th on. */
  lemma {:induction false} FindSound(w: string, i: nat, k: Keyword)
    requires w != [] && Find(w, i) == Some(k)
    ensures exists j | i <= j < 16 :: Bucket(w[0], j) == Some((w, k))
    decreases 16 - i
  {
    match Bucket(w[0], i)
    case Some(e) =>
      if e.0 != w {
        FindSound(w, i + 1, k);
      }
  }

  /** A word the table knows is one of its entries, filed under the word's
      initial. */
  lemma LookupSound(w: string, k: Keyword)
    requires Lookup(w) == Some(k)
    ensures exists j :: Bucket(w[0], j) == Some((w, k))
  {
    FindSound(w, 0, k);
  }

  /** The search from `i` reaches the entry `j` of `w`'s group when every
      entry between holds another word. */
  lemma {:induction false} FindAt(w: string, i: nat, j: nat, k: Keyword)
    requires w != [] && i <= j && Bucket(w[0], j) == Some((w, k))
    requires forall m: nat | i <= m < j :: Bucket(w[0], m).Some? && Bucket(w[0], m).value.0 != w
    ensures Find(w, i) == Some(k)
    decreases j - i
  {
    BucketBound(w[0], j);
    if i < j {
      FindAt(w, i + 1, j, k);
    }
  }

  /** Every entry of the table is found: its word looks up to its kind. */
  lemma LookupComplete(c: char, j: nat, w: string, k: Keyword)
    requires Bucket(c, j) == Some((w, k))
    ensures Lookup(w) == Some(k)
  {
    KeywordTable.Filed(c, j, w, k);
    FindAt(w, 0, j, k);
  }

  /** So a word whose upper-cased form is a reserved word has that word's
      kind, whatever its case. */
  lemma KeywordKind(v: string, c: char, j: nat, k: Keyword)
    requires Bucket(c, j).Some? && Bucket(c, j).value == (Upper(v), k)
    ensures KindOfWord(v) == Kw(k)
  {
    LookupComplete(c, j, Upper(v), k);
  }

  /** A word's kind does not depend on its case. */
  lemma KindIgnoresCase(w: string)
    ensures KindOfWord(Upper(w)) == KindOfWord(w)
  {
    UpperIdempotent(w);
  }
}
