/** The layout of the reserved-word table: every entry is filed under its
    word's initial, and the entries before it in its group hold other words.
    Together these make the lookup find every entry. Literal words are costly
    for the solver, so the table is checked one initial at a time. */
module KeywordTable {
  import opened Keywords

  /** The entry `j` under `c` has a word with initial `c`, and the entries
      before it exist and hold other words. */
  predicate FiledAt(c: char, j: nat, w: string)
  {
    w != [] && w[0] == c
    && forall m: nat | m < j :: Bucket(c, m).Some? && Bucket(c, m).value.0 != w
  }

  lemma Filed(c: char, j: nat, w: string, k: Keyword)
    requires Bucket(c, j) == Some((w, k))
    ensures FiledAt(c, j, w)
  {
    if c == 'A' {
      FiledUnderA(j, w, k);
    } else if c == 'B' {
      FiledUnderB(j, w, k);
    } else if c == 'C' {
      FiledUnderC(j, w, k);
    } else if c == 'D' {
      FiledUnderD(j, w, k);
    } else if c == 'E' {
      FiledUnderE(j, w, k);
    } else if c == 'F' {
      FiledUnderF(j, w, k);
    } else if c == 'G' {
      FiledUnderG(j, w, k);
    } else if c == 'H' {
      FiledUnderH(j, w, k);
    } else if c == 'I' {
      FiledUnderI(j, w, k);
    } else if c == 'J' {
      FiledUnderJ(j, w, k);
    } else if c == 'K' {
      FiledUnderK(j, w, k);
    } else if c == 'L' {
      FiledUnderL(j, w, k);
    } else if c == 'M' {
      FiledUnderM(j, w, k);
    } else if c == 'N' {
      FiledUnderN(j, w, k);
    } else if c == 'O' {
      FiledUnderO(j, w, k);
    } else if c == 'P' {
      FiledUnderP(j, w, k);
    } else if c == 'Q' {
      FiledUnderQ(j, w, k);
    } else if c == 'R' {
      FiledUnderR(j, w, k);
    } else if c == 'S' {
      FiledUnderS(j, w, k);
    } else if c == 'T' {
      FiledUnderT(j, w, k);
    } else if c == 'U' {
      FiledUnderU(j, w, k);
    } else if c == 'V' {
      FiledUnderV(j, w, k);
    } else if c == 'W' {
      FiledUnderW(j, w, k);
    }
  }

  // One lemma per initial, all stating the same fact: each proof then
  // handles only the few literal words of one group.

  lemma FiledUnderA(j: nat, w: string, k: Keyword)
    requires Bucket('A', j) == Some((w, k))
    ensures FiledAt('A', j, w)
  {
  }

  lemma FiledUnderB(j: nat, w: string, k: Keyword)
    requires Bucket('B', j) == Some((w, k))
    ensures FiledAt('B', j, w)
  {
  }

  lemma FiledUnderC(j: nat, w: string, k: Keyword)
    requires Bucket('C', j) == Some((w, k))
    ensures FiledAt('C', j, w)
  {
  }

  lemma FiledUnderD(j: nat, w: string, k: Keyword)
    requires Bucket('D', j) == Some((w, k))
    ensures FiledAt('D', j, w)
  {
  }

  lemma FiledUnderE(j: nat, w: string, k: Keyword)
    requires Bucket('E', j) == Some((w, k))
    ensures FiledAt('E', j, w)
  {
  }

  lemma FiledUnderF(j: nat, w: string, k: Keyword)
    requires Bucket('F', j) == Some((w, k))
    ensures FiledAt('F', j, w)
  {
  }

  lemma FiledUnderG(j: nat, w: string, k: Keyword)
    requires Bucket('G', j) == Some((w, k))
    ensures FiledAt('G', j, w)
  {
  }

  lemma FiledUnderH(j: nat, w: string, k: Keyword)
    requires Bucket('H', j) == Some((w, k))
    ensures FiledAt('H', j, w)
  {
  }

  lemma FiledUnderI(j: nat, w: string, k: Keyword)
    requires Bucket('I', j) == Some((w, k))
    ensures FiledAt('I', j, w)
  {
  }

  lemma FiledUnderJ(j: nat, w: string, k: Keyword)
    requires Bucket('J', j) == Some((w, k))
    ensures FiledAt('J', j, w)
  {
  }

  lemma FiledUnderK(j: nat, w: string, k: Keyword)
    requires Bucket('K', j) == Some((w, k))
    ensures FiledAt('K', j, w)
  {
  }

  lemma FiledUnderL(j: nat, w: string, k: Keyword)
    requires Bucket('L', j) == Some((w, k))
    ensures FiledAt('L', j, w)
  {
  }

  lemma FiledUnderM(j: nat, w: string, k: Keyword)
    requires Bucket('M', j) == Some((w, k))
    ensures FiledAt('M', j, w)
  {
  }

  lemma FiledUnderN(j: nat, w: string, k: Keyword)
    requires Bucket('N', j) == Some((w, k))
    ensures FiledAt('N', j, w)
  {
  }

  lemma FiledUnderO(j: nat, w: string, k: Keyword)
    requires Bucket('O', j) == Some((w, k))
    ensures FiledAt('O', j, w)
  {
  }

  lemma FiledUnderP(j: nat, w: string, k: Keyword)
    requires Bucket('P', j) == Some((w, k))
    ensures FiledAt('P', j, w)
  {
  }

  lemma FiledUnderQ(j: nat, w: string, k: Keyword)
    requires Bucket('Q', j) == Some((w, k))
    ensures FiledAt('Q', j, w)
  {
  }

  lemma FiledUnderR(j: nat, w: string, k: Keyword)
    requires Bucket('R', j) == Some((w, k))
    ensures FiledAt('R', j, w)
  {
  }

  lemma FiledUnderS(j: nat, w: string, k: Keyword)
    requires Bucket('S', j) == Some((w, k))
    ensures FiledAt('S', j, w)
  {
  }

  lemma FiledUnderT(j: nat, w: string, k: Keyword)
    requires Bucket('T', j) == Some((w, k))
    ensures FiledAt('T', j, w)
  {
  }

  lemma FiledUnderU(j: nat, w: string, k: Keyword)
    requires Bucket('U', j) == Some((w, k))
    ensures FiledAt('U', j, w)
  {
  }

  lemma FiledUnderV(j: nat, w: string, k: Keyword)
    requires Bucket('V', j) == Some((w, k))
    ensures FiledAt('V', j, w)
  {
  }

  lemma FiledUnderW(j: nat, w: string, k: Keyword)
    requires Bucket('W', j) == Some((w, k))
    ensures FiledAt('W', j, w)
  {
  }
}
