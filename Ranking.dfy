/**
 * The ranking behind `top_list` and the `top3`/`top6` fields of the
 * session payload: the score table's items, in catalogue order, sorted by
 * score from highest to lowest with a stable sort, then cut to a length.
 */
module Ranking {
  import opened Catalog
  import opened Scoring

  /** One row of a ranking: a potential and its score. */
  datatype Entry = Entry(pot: Potential, score: nat)

  /**
   * `a` is ranked above `b`: a higher score, or the same score and an
   * earlier place in `Pots` (the order the score table's items come in,
   * which a stable sort keeps among equal scores).
   */
  predicate Before(a: Entry, b: Entry) {
    a.score > b.score || (a.score == b.score && CatalogIndex(a.pot) < CatalogIndex(b.pot))
  }

  /** Every entry is ranked above every entry after it. */
  predicate InRankOrder(s: seq<Entry>) {
    forall i, j :: 0 <= i < j < |s| ==> Before(s[i], s[j])
  }

  /** Entries in strictly increasing catalogue order. */
  predicate InCatalogOrder(s: seq<Entry>) {
    forall i, j :: 0 <= i < j < |s| ==> CatalogIndex(s[i].pot) < CatalogIndex(s[j].pot)
  }

  /** A table that has a score for every potential, as every table `ScoreAll` builds does. */
  predicate Complete(t: Table) {
    forall p: Potential :: p in t
  }

  lemma CatalogIndexOfPots(i: nat)
    requires i < |Pots|
    ensures CatalogIndex(Pots[i]) == i
  {
  }

  /** The items of a score table, in the order of `Pots`, which is the order the table was filled in. */
  function Items(t: Table): (r: seq<Entry>)
    requires Complete(t)
    ensures |r| == |Pots| && InCatalogOrder(r)
    ensures forall i :: 0 <= i < |r| ==> r[i] == Entry(Pots[i], t[Pots[i]])
  {
    var r := seq(|Pots|, i requires 0 <= i < |Pots| => Entry(Pots[i], t[Pots[i]]));
    assert InCatalogOrder(r) by {
      forall i, j | 0 <= i < j < |r| ensures CatalogIndex(r[i].pot) < CatalogIndex(r[j].pot) {
        CatalogIndexOfPots(i);
        CatalogIndexOfPots(j);
      }
    }
    r
  }

  /** Every potential has exactly its own score among a table's items. */
  lemma ItemsHoldEveryPotential(t: Table, p: Potential)
    requires Complete(t)
    ensures Entry(p, t[p]) in Items(t)
    ensures forall e :: e in Items(t) ==> e.score == t[e.pot]
  {
    assert Items(t)[CatalogIndex(p)] == Entry(p, t[p]);
  }

  /**
   * One step of a stable sort from highest to lowest score: `x` goes in
   * front of the first entry whose score does not exceed its own, so it
   * stays ahead of the entries it tied with.
   */
  function Insert(x: Entry, s: seq<Entry>): (r: seq<Entry>)
    ensures |r| == |s| + 1
  {
    if s == [] || s[0].score <= x.score then [x] + s
    else [s[0]] + Insert(x, s[1..])
  }

  /** `sorted(items, key=score, reverse=True)`: insert the entries from last to first. */
  function Ranked(s: seq<Entry>): (r: seq<Entry>)
    ensures |r| == |s|
  {
    if s == [] then [] else Insert(s[0], Ranked(s[1..]))
  }

  lemma {:induction false} InsertPermutes(x: Entry, s: seq<Entry>)
    ensures multiset(Insert(x, s)) == multiset(s) + multiset{x}
  {
    if s == [] || s[0].score <= x.score {
    } else {
      InsertPermutes(x, s[1..]);
      assert s == [s[0]] + s[1..];
    }
  }

  lemma {:induction false} InsertKeepsRankOrder(x: Entry, s: seq<Entry>)
    requires InRankOrder(s)
    requires forall e :: e in s ==> CatalogIndex(x.pot) < CatalogIndex(e.pot)
    ensures InRankOrder(Insert(x, s))
  {
    var r := Insert(x, s);
    if s == [] || s[0].score <= x.score {
      forall j | 0 < j < |r| ensures Before(r[0], r[j]) {
        assert r[j] == s[j - 1];
        if j > 1 {
          assert Before(s[0], s[j - 1]);
        }
      }
    } else {
      var tail := s[1..];
      DropFirst(s);
      InsertKeepsRankOrder(x, tail);
      InsertPermutes(x, tail);
      var rest := Insert(x, tail);
      forall j | 0 <= j < |rest| ensures Before(s[0], rest[j]) {
        assert rest[j] in multiset(tail) + multiset{x};
        if rest[j] != x {
          assert rest[j] in tail;
          var k :| 0 <= k < |tail| && tail[k] == rest[j];
          assert tail[k] == s[k + 1];
        }
      }
      assert r == [s[0]] + rest;
    }
  }

  lemma {:induction false} RankedPermutes(s: seq<Entry>)
    ensures multiset(Ranked(s)) == multiset(s)
  {
    if s != [] {
      RankedPermutes(s[1..]);
      InsertPermutes(s[0], Ranked(s[1..]));
      assert s == [s[0]] + s[1..];
    }
  }

  lemma {:induction false} RankedInRankOrder(s: seq<Entry>)
    requires InCatalogOrder(s)
    ensures InRankOrder(Ranked(s))
  {
    if s != [] {
      var tail := s[1..];
      assert InCatalogOrder(tail) by {
        forall i, j | 0 <= i < j < |tail| ensures CatalogIndex(tail[i].pot) < CatalogIndex(tail[j].pot) {
          assert tail[i] == s[i + 1] && tail[j] == s[j + 1];
        }
      }
      RankedInRankOrder(tail);
      RankedPermutes(tail);
      forall e | e in Ranked(tail) ensures CatalogIndex(s[0].pot) < CatalogIndex(e.pot) {
        assert e in multiset(tail);
        var k :| 0 <= k < |tail| && tail[k] == e;
        assert tail[k] == s[k + 1];
      }
      InsertKeepsRankOrder(s[0], Ranked(tail));
    }
  }

  /** What is left of a ranking after its first entry is still in rank order. */
  lemma DropFirst(s: seq<Entry>)
    requires InRankOrder(s) && s != []
    ensures InRankOrder(s[1..]) && multiset(s) == multiset{s[0]} + multiset(s[1..])
  {
    assert s == [s[0]] + s[1..];
    forall i, j | 0 <= i < j < |s[1..]| ensures Before(s[1..][i], s[1..][j]) {
      assert s[1..][i] == s[i + 1] && s[1..][j] == s[j + 1];
    }
  }

  /**
   * There is only one way to list a collection of entries in rank order,
   * so any sort that is descending by score and stable gives `Ranked`.
   */
  lemma {:induction false} RankOrderIsUnique(a: seq<Entry>, b: seq<Entry>)
    requires InRankOrder(a) && InRankOrder(b) && multiset(a) == multiset(b)
    ensures a == b
  {
    if a != [] {
      assert a[0] in multiset(b);
      assert b != [];
      assert b[0] in multiset(a);
      var m :| 0 <= m < |a| && a[m] == b[0];
      var k :| 0 <= k < |b| && b[k] == a[0];
      assert m == 0;
      assert a[0] == b[0];
      DropFirst(a);
      DropFirst(b);
      assert multiset(a[1..]) == multiset(a) - multiset{a[0]};
      assert multiset(b[1..]) == multiset(b) - multiset{a[0]};
      RankOrderIsUnique(a[1..], b[1..]);
    }
  }

  /**
   * The ranking of a score table lists each potential once with its own
   * score, from highest to lowest score, equal scores in `Pots` order; and
   * it is the only list with those properties.
   */
  lemma RankingOfTable(t: Table)
    requires Complete(t)
    ensures var r := Ranked(Items(t));
            && InRankOrder(r)
            && multiset(r) == multiset(Items(t))
            && forall other: seq<Entry> :: InRankOrder(other) && multiset(other) == multiset(Items(t)) ==> other == r
  {
    var r := Ranked(Items(t));
    RankedInRankOrder(Items(t));
    RankedPermutes(Items(t));
    forall other: seq<Entry> | InRankOrder(other) && multiset(other) == multiset(Items(t)) ensures other == r {
      RankOrderIsUnique(other, r);
    }
  }

  /** `top_list(scores, n)`: the first `n` entries of the ranking, or all of them when there are fewer. */
  function TopList(t: Table, n: nat): (r: seq<Entry>)
    requires Complete(t)
    ensures |r| == if n < |Pots| then n else |Pots|
  {
    var ranked := Ranked(Items(t));
    ranked[..if n < |ranked| then n else |ranked|]
  }

  /**
   * What a top list holds: entries in rank order, each with its own
   * potential's score, and none outranked by a potential left off it.
   */
  lemma TopListIsBestFirst(t: Table, n: nat)
    requires Complete(t)
    ensures var r := TopList(t, n);
            && InRankOrder(r)
            && (forall e :: e in r ==> e.score == t[e.pot])
            && forall e, p :: e in r && (forall f :: f in r ==> f.pot != p) ==> Before(e, Entry(p, t[p]))
  {
    RankingOfTable(t);
    TopListScores(t, n);
    TopListOutranksTheRest(t, n);
  }

  lemma TopListScores(t: Table, n: nat)
    requires Complete(t)
    ensures forall e :: e in TopList(t, n) ==> e.score == t[e.pot]
  {
    var ranked := Ranked(Items(t));
    RankedPermutes(Items(t));
    forall e | e in TopList(t, n) ensures e.score == t[e.pot] {
      assert e in ranked;
      assert e in multiset(Items(t));
      ItemsHoldEveryPotential(t, e.pot);
    }
  }

  lemma TopListOutranksTheRest(t: Table, n: nat)
    requires Complete(t)
    ensures var r := TopList(t, n);
            forall e, p :: e in r && (forall f :: f in r ==> f.pot != p) ==> Before(e, Entry(p, t[p]))
  {
    var ranked := Ranked(Items(t));
    var r := TopList(t, n);
    RankedInRankOrder(Items(t));
    RankedPermutes(Items(t));
    assert r == ranked[..|r|];
    forall e, p | e in r && (forall f :: f in r ==> f.pot != p) ensures Before(e, Entry(p, t[p])) {
      ItemsHoldEveryPotential(t, p);
      assert Entry(p, t[p]) in multiset(ranked);
      var k :| 0 <= k < |ranked| && ranked[k] == Entry(p, t[p]);
      var i :| 0 <= i < |r| && r[i] == e;
      if k < |r| {
        assert false;
      }
      assert ranked[i] == e;
    }
  }

  /** A shorter top list is the head of a longer one: `top3` is the first three rows of `top6`. */
  lemma TopListsNest(t: Table, m: nat, n: nat)
    requires Complete(t) && m <= n
    ensures TopList(t, m) == TopList(t, n)[..|TopList(t, m)|]
  {
  }
}
