/** Properties of the whole item stream: where it stops, how its items tile
    the input, and how long it can be. */
module Stream {
  import opened Scan

  /** The texts of the items, end to end. */
  function Texts(ts: seq<Item>): string
  {
    if ts == [] then [] else ts[0].val + Texts(ts[1..])
  }

  lemma SliceJoin(s: string, p: nat, q: nat, e: nat)
    requires p <= q <= e <= |s|
    ensures s[p..q] + s[q..e] == s[p..e]
  {
  }

  /** The last item of `ts`, and only the last, is an error or EOF. */
  predicate StopsAtEnd(ts: seq<Item>)
  {
    forall i | 0 <= i < |ts| :: IsTerminal(ts[i].typ) <==> i == |ts| - 1
  }

  /** The stream stops at its first terminal item. */
  lemma {:induction false} TokensStopAtTerminal(s: string, p: nat)
    requires p <= |s|
    ensures StopsAtEnd(Tokens(s, p))
    decreases |s| - p
  {
    var o := Step(s, p);
    var ts := Tokens(s, p);
    if !IsTerminal(o.item.typ) {
      TokensStopAtTerminal(s, o.next);
      var rest := Tokens(s, o.next);
      assert StopsAtEnd(rest);
      assert ts == [o.item] + rest;
      forall i | 0 <= i < |ts|
        ensures IsTerminal(ts[i].typ) <==> i == |ts| - 1
      {
        if i > 0 {
          assert ts[i] == rest[i - 1];
        }
      }
    } else {
      assert ts == [o.item];
    }
  }

  /** The items before the last one cover the input from `p` up to the last
      item's position, without gap or overlap, and EOF, when it comes, is
      the empty item at the very end. */
  lemma {:induction false} TokensTile(s: string, p: nat)
    requires p <= |s|
    ensures var ts := Tokens(s, p); var n := |ts| - 1;
      p <= ts[n].pos <= |s|
      && Texts(ts[..n]) == s[p..ts[n].pos]
      && (ts[n].typ.EOF? ==> ts[n] == Item(EOF, |s|, ""))
    decreases |s| - p
  {
    var o := Step(s, p);
    var ts := Tokens(s, p);
    if IsTerminal(o.item.typ) {
      assert ts[..0] == [];
    } else {
      TokensTile(s, o.next);
      var rest := Tokens(s, o.next);
      var n := |rest|;
      assert ts == [o.item] + rest;
      var q, e := o.next, rest[n - 1].pos;
      assert ts[..n][1..] == rest[..n - 1];
      assert Texts(ts[..n]) == o.item.val + Texts(rest[..n - 1]);
      assert o.item.val == s[p..q];
      assert Texts(rest[..n - 1]) == s[q..e];
      SliceJoin(s, p, q, e);
    }
  }

  /** A stream that ends in EOF spells out the whole input from `p`. */
  lemma Lossless(s: string, p: nat)
    requires p <= |s|
    requires var ts := Tokens(s, p); ts[|ts| - 1].typ.EOF?
    ensures var ts := Tokens(s, p); Texts(ts[..|ts| - 1]) == s[p..]
  {
    TokensTile(s, p);
  }

  /** Consecutive items are adjacent: every item but the last is non-empty
      and the next one starts where its text ends. */
  lemma {:induction false} TokensAdjacent(s: string, p: nat)
    requires p <= |s|
    ensures var ts := Tokens(s, p);
      ts[0].pos == p
      && forall i | 0 <= i < |ts| - 1 :: ts[i].val != [] && ts[i + 1].pos == ts[i].pos + |ts[i].val|
    decreases |s| - p
  {
    var o := Step(s, p);
    if !IsTerminal(o.item.typ) {
      TokensAdjacent(s, o.next);
      var ts, rest := Tokens(s, p), Tokens(s, o.next);
      assert ts == [o.item] + rest;
      forall i | 0 <= i < |ts| - 1
        ensures ts[i].val != [] && ts[i + 1].pos == ts[i].pos + |ts[i].val|
      {
        if i > 0 {
          assert ts[i] == rest[i - 1] && ts[i + 1] == rest[i];
        }
      }
    }
  }

  /** Each item but the last consumes at least one rune, so the stream has
      at most one item per remaining rune, plus the terminal one. */
  lemma {:induction false} TokensBound(s: string, p: nat)
    requires p <= |s|
    ensures |Tokens(s, p)| <= |s| - p + 1
    decreases |s| - p
  {
    var o := Step(s, p);
    if !IsTerminal(o.item.typ) {
      TokensBound(s, o.next);
    }
  }
}
