/** The second phase of `compare` (scripts/caption_ocr/caption_replay.py), and the comparison as a whole. */
module CaptionCompare {
  import opened Prelude
  import opened CaptionMatches
  import opened CaptionChain
  import Fenwick

  const DUP_WINDOW := 8

  /** `bisect.bisect_left` over sorted keys. */
  function BisectLeft(a: seq<nat>, x: nat): (k: nat)
    ensures k <= |a|
    ensures (forall m :: 0 <= m < k ==> a[m] < x) && (k < |a| ==> x <= a[k])
  {
    if a == [] || x <= a[0] then 0 else 1 + BisectLeft(a[1..], x)
  }

  /** The stored rows within `DUP_WINDOW` of the pairs either side of reference row i. */
  predicate InWindow(rows: seq<Row>, pair: map<nat, nat>, paired: seq<nat>, i: nat, j: nat)
    requires forall m :: m in paired ==> m in pair
  {
    var k := BisectLeft(paired, i);
    && (k == 0 || pair[paired[k - 1]] - DUP_WINDOW <= j)
    && (k == |paired| || j <= pair[paired[k]] + DUP_WINDOW)
    && (k == 0 ==> 0 <= j) && (k == |paired| ==> j <= |rows|)
  }

  /** Nothing of `paired` lies strictly between a and b. */
  predicate NextTo(paired: seq<nat>, a: nat, b: nat) {
    forall m :: m in paired ==> m <= a || b <= m
  }

  /**
   * The window in the pairs' own terms: a row is in it exactly when it is at most `DUP_WINDOW` before
   * the row its nearest paired neighbour above has, and at most `DUP_WINDOW` behind the one below.
   */
  lemma WindowIff(rows: seq<Row>, pair: map<nat, nat>, paired: seq<nat>, i: nat, j: nat)
    requires forall m :: m in paired ==> m in pair
    requires forall x, y :: 0 <= x < y < |paired| ==> paired[x] < paired[y]
    requires i !in paired && j < |rows|
    ensures InWindow(rows, pair, paired, i, j) <==>
      && (forall m :: m in paired && m < i && NextTo(paired, m, i) ==> pair[m] <= j + DUP_WINDOW)
      && (forall m :: m in paired && i < m && NextTo(paired, i, m) ==> j <= pair[m] + DUP_WINDOW)
  {
    var k := BisectLeft(paired, i);
    if k > 0 {
      NearestAbove(paired, i, k);
    }
    if k < |paired| {
      NearestBelow(paired, i, k);
    }
  }

  lemma NearestAbove(paired: seq<nat>, i: nat, k: nat)
    requires forall x, y :: 0 <= x < y < |paired| ==> paired[x] < paired[y]
    requires 0 < k <= |paired| && paired[k - 1] < i && (k < |paired| ==> i <= paired[k])
    ensures NextTo(paired, paired[k - 1], i) && paired[k - 1] in paired
    ensures forall m :: m in paired && m < i && NextTo(paired, m, i) ==> m == paired[k - 1]
  {
    forall m | m in paired ensures m <= paired[k - 1] || i <= m {
      var x :| 0 <= x < |paired| && paired[x] == m;
    }
  }

  lemma NearestBelow(paired: seq<nat>, i: nat, k: nat)
    requires forall x, y :: 0 <= x < y < |paired| ==> paired[x] < paired[y]
    requires 0 <= k < |paired| && i < paired[k] && (k > 0 ==> paired[k - 1] < i)
    ensures NextTo(paired, i, paired[k]) && paired[k] in paired
    ensures forall m :: m in paired && i < m && NextTo(paired, i, m) ==> m == paired[k]
  {
    forall m | m in paired ensures m <= i || paired[k] <= m {
      var x :| 0 <= x < |paired| && paired[x] == m;
    }
  }

  /** The tuple order the leftovers are picked by: own speaker first, then ratio, then the earliest row. */
  predicate Outranks(rows: seq<Row>, speaker: Option<string>, a: Cand, b: Cand)
    requires a.j < |rows| && b.j < |rows|
  {
    var sa, sb := rows[a.j].speaker == speaker, rows[b.j].speaker == speaker;
    (sa && !sb) || (sa == sb && (a.ratio > b.ratio || (a.ratio == b.ratio && a.j < b.j)))
  }

  /** A candidate of reference row i within its window. */
  predicate Here(
    rows: seq<Row>, alike: seq<seq<Cand>>, chain: map<nat, nat>, paired: seq<nat>, i: nat, d: Cand)
    requires i < |alike| && forall m :: m in paired ==> m in chain
  {
    d in alike[i] && InWindow(rows, chain, paired, i, d.j)
  }

  predicate BetterHere(
    rows: seq<Row>, reference: seq<Row>, alike: seq<seq<Cand>>, chain: map<nat, nat>, paired: seq<nat>, i: nat,
    d: Cand, c: Cand)
    requires WellFormed(rows, reference, alike) && i < |alike| && c.j < |rows|
    requires forall m :: m in paired ==> m in chain
  {
    Here(rows, alike, chain, paired, i, d) && Outranks(rows, reference[i].speaker, d, c)
  }

  /** Row j went to the chain, or to a leftover before i. */
  ghost predicate TakenBefore(chain: map<nat, nat>, pair: map<nat, nat>, i: nat, j: nat) {
    exists m :: m in pair && pair[m] == j && (m in chain || m < i)
  }

  /** What became of a leftover reference row: the best free row of its window, or none was free. */
  ghost predicate Settled(
    rows: seq<Row>, reference: seq<Row>, alike: seq<seq<Cand>>, chain: map<nat, nat>, paired: seq<nat>,
    pair: map<nat, nat>, i: nat)
    requires WellFormed(rows, reference, alike) && i < |alike|
    requires forall m :: m in paired ==> m in chain
  {
    if i in pair then
      exists c :: && c in alike[i] && c.j == pair[i] && InWindow(rows, chain, paired, i, c.j)
                  && forall d :: BetterHere(rows, reference, alike, chain, paired, i, d, c) ==>
                                   TakenBefore(chain, pair, i, d.j)
    else
      forall d :: Here(rows, alike, chain, paired, i, d) ==> TakenBefore(chain, pair, i, d.j)
  }

  /** `max(near)` over the free candidates in the window, if there are any. */
  method Nearest(
    rows: seq<Row>, reference: seq<Row>, alike: seq<seq<Cand>>, chain: map<nat, nat>, paired: seq<nat>,
    used: set<nat>, i: nat)
    returns (best: Option<Cand>)
    requires WellFormed(rows, reference, alike) && i < |alike|
    requires forall m :: m in paired ==> m in chain
    ensures best.None? ==> forall d :: Here(rows, alike, chain, paired, i, d) ==> d.j in used
    ensures best.Some? ==> Here(rows, alike, chain, paired, i, best.value) && best.value.j !in used
    ensures best.Some? ==>
              forall d :: BetterHere(rows, reference, alike, chain, paired, i, d, best.value) ==> d.j in used
  {
    best := None;
    var found := alike[i];
    for x := 0 to |found|
      invariant best.Some? ==> Here(rows, alike, chain, paired, i, best.value) && best.value.j !in used
      invariant forall y :: 0 <= y < x && InWindow(rows, chain, paired, i, found[y].j) && found[y].j !in used ==>
        best.Some? && !Outranks(rows, reference[i].speaker, found[y], best.value)
    {
      var d := found[x];
      if InWindow(rows, chain, paired, i, d.j) && d.j !in used {
        if best.None? || Outranks(rows, reference[i].speaker, d, best.value) {
          best := Some(d);
        }
      }
    }
  }

  /** Only alike pairs, no stored row twice. */
  ghost predicate Matching(alike: seq<seq<Cand>>, pair: map<nat, nat>) {
    && Injective(pair)
    && forall i :: i in pair ==> i < |alike| && HasRow(alike[i], pair[i])
  }

  /** The fill once reference rows below n are done: the chain kept, every leftover so far settled. */
  ghost predicate GreedyFill(
    rows: seq<Row>, reference: seq<Row>, alike: seq<seq<Cand>>, chain: map<nat, nat>, paired: seq<nat>,
    pair: map<nat, nat>, n: nat)
    requires WellFormed(rows, reference, alike) && n <= |alike|
    requires forall m :: m in paired ==> m in chain
  {
    && Matching(alike, pair)
    && (forall m :: m in chain ==> m in pair && pair[m] == chain[m])
    && (forall m :: m in pair && m !in chain ==> m < n)
    && (forall m :: 0 <= m < n && m !in chain ==> Settled(rows, reference, alike, chain, paired, pair, m))
  }

  /** Rows already taken stay taken, by the same holder. */
  lemma TakenStays(chain: map<nat, nat>, pair: map<nat, nat>, n: nat, j: nat, i: nat, k: nat)
    requires n !in pair && TakenBefore(chain, pair, i, k)
    ensures TakenBefore(chain, pair[n := j], i, k)
  {
    var m :| m in pair && pair[m] == k && (m in chain || m < i);
    assert m in pair[n := j];
  }

  lemma SettledStays(
    rows: seq<Row>, reference: seq<Row>, alike: seq<seq<Cand>>, chain: map<nat, nat>, paired: seq<nat>,
    pair: map<nat, nat>, i: nat, n: nat, j: nat)
    requires WellFormed(rows, reference, alike) && i < n < |alike| && n !in pair
    requires forall m :: m in paired ==> m in chain
    requires Settled(rows, reference, alike, chain, paired, pair, i)
    ensures Settled(rows, reference, alike, chain, paired, pair[n := j], i)
  {
    forall k | TakenBefore(chain, pair, i, k) ensures TakenBefore(chain, pair[n := j], i, k) {
      TakenStays(chain, pair, n, j, i, k);
    }
  }

  lemma MatchingTakes(alike: seq<seq<Cand>>, pair: map<nat, nat>, n: nat, c: Cand)
    requires Matching(alike, pair) && n < |alike| && n !in pair && c in alike[n] && c.j !in pair.Values
    ensures Matching(alike, pair[n := c.j])
  {
    assert HasRow(alike[n], c.j);
    forall a | a in pair ensures pair[a] in pair.Values {}
  }

  lemma SettlesHere(
    rows: seq<Row>, reference: seq<Row>, alike: seq<seq<Cand>>, chain: map<nat, nat>, paired: seq<nat>,
    pair: map<nat, nat>, n: nat, c: Cand)
    requires WellFormed(rows, reference, alike) && n < |alike| && n !in pair
    requires forall m :: m in paired ==> m in chain
    requires forall m :: m in pair && m !in chain ==> m < n
    requires Here(rows, alike, chain, paired, n, c)
    requires forall d :: BetterHere(rows, reference, alike, chain, paired, n, d, c) ==> d.j in pair.Values
    ensures Settled(rows, reference, alike, chain, paired, pair[n := c.j], n)
  {
    var pair': map<nat, nat> := pair[n := c.j];
    forall d | BetterHere(rows, reference, alike, chain, paired, n, d, c) ensures TakenBefore(chain, pair', n, d.j) {
      assert TakenBefore(chain, pair, n, d.j);
      TakenStays(chain, pair, n, c.j, n, d.j);
    }
    assert c in alike[n] && c.j == pair'[n];
  }

  /** Giving leftover n the best free row of its window settles it and disturbs no other. */
  lemma FillTakes(
    rows: seq<Row>, reference: seq<Row>, alike: seq<seq<Cand>>, chain: map<nat, nat>, paired: seq<nat>,
    pair: map<nat, nat>, n: nat, c: Cand)
    requires WellFormed(rows, reference, alike) && n < |alike| && n !in pair
    requires forall m :: m in paired ==> m in chain
    requires GreedyFill(rows, reference, alike, chain, paired, pair, n)
    requires Here(rows, alike, chain, paired, n, c) && c.j !in pair.Values
    requires forall d :: BetterHere(rows, reference, alike, chain, paired, n, d, c) ==> d.j in pair.Values
    ensures GreedyFill(rows, reference, alike, chain, paired, pair[n := c.j], n + 1)
  {
    var pair': map<nat, nat> := pair[n := c.j];
    forall m | 0 <= m < n && m !in chain ensures Settled(rows, reference, alike, chain, paired, pair', m) {
      SettledStays(rows, reference, alike, chain, paired, pair, m, n, c.j);
    }
    SettlesHere(rows, reference, alike, chain, paired, pair, n, c);
    MatchingTakes(alike, pair, n, c);
  }

  /** Leaving reference row n out settles it when its window has no free row. */
  lemma FillSkips(
    rows: seq<Row>, reference: seq<Row>, alike: seq<seq<Cand>>, chain: map<nat, nat>, paired: seq<nat>,
    pair: map<nat, nat>, n: nat)
    requires WellFormed(rows, reference, alike) && n < |alike| && n !in pair
    requires forall m :: m in paired ==> m in chain
    requires GreedyFill(rows, reference, alike, chain, paired, pair, n)
    requires forall d :: Here(rows, alike, chain, paired, n, d) ==> d.j in pair.Values
    ensures GreedyFill(rows, reference, alike, chain, paired, pair, n + 1)
  {
    forall d | Here(rows, alike, chain, paired, n, d) ensures TakenBefore(chain, pair, n, d.j) {}
    assert Settled(rows, reference, alike, chain, paired, pair, n);
  }

  /** The greedy fill: keeps the chain, and settles every leftover in reference order. */
  method FillLeftovers(
    rows: seq<Row>, reference: seq<Row>, alike: seq<seq<Cand>>, chain: map<nat, nat>, paired: seq<nat>)
    returns (pair: map<nat, nat>)
    requires WellFormed(rows, reference, alike)
    requires chain.Keys == (set m | m in paired) && Matching(alike, chain)
    ensures GreedyFill(rows, reference, alike, chain, paired, pair, |alike|)
  {
    pair := chain;
    var used := chain.Values;
    for i := 0 to |alike|
      invariant GreedyFill(rows, reference, alike, chain, paired, pair, i)
      invariant used == pair.Values
    {
      if i in pair {
        continue;
      }
      var best := Nearest(rows, reference, alike, chain, paired, used, i);
      if best.Some? {
        FillTakes(rows, reference, alike, chain, paired, pair, i, best.value);
        ValuesGain(pair, i, best.value.j);
        pair := pair[i := best.value.j];
        used := used + {best.value.j};
      } else {
        FillSkips(rows, reference, alike, chain, paired, pair, i);
      }
    }
  }

  /** The reference rows paired with another speaker's row. */
  function Changed(rows: seq<Row>, reference: seq<Row>, pair: map<nat, nat>): set<nat> {
    set i | i in pair && !SameSpeaker(rows, reference, Fenwick.Pair(i, pair[i]))
  }

  /** `compare`'s counts. */
  datatype Drift = Drift(matched: nat, speakerChanged: nat, missing: int, extra: int)

  /** A matching has no more pairs than either side has rows. */
  lemma MatchingFits(rows: seq<Row>, reference: seq<Row>, alike: seq<seq<Cand>>, pair: map<nat, nat>)
    requires WellFormed(rows, reference, alike) && Matching(alike, pair)
    ensures |pair| <= |reference| && |pair| <= |rows|
  {
    BoundedCard(pair.Keys, |reference|);
    InjectiveCard(pair);
    forall j | j in pair.Values ensures j < |rows| {
      var i :| i in pair && pair[i] == j;
      var c :| c in alike[i] && c.j == j;
    }
    BoundedCard(pair.Values, |rows|);
    assert |pair| == |pair.Keys|;
  }

  /** An in-order pairing is a matching. */
  lemma ChainMatches(alike: seq<seq<Cand>>, pair: map<nat, nat>, paired: seq<nat>)
    requires pair.Keys == (set i | i in paired)
    requires IsChain(alike, Listed(pair, paired))
    ensures Matching(alike, pair)
  {
    var c := Listed(pair, paired);
    forall i | i in pair ensures i < |alike| && HasRow(alike[i], pair[i]) {
      var k :| 0 <= k < |paired| && paired[k] == i;
      assert c[k] in c && AlikePair(alike, c[k]);
    }
    forall a, b | a in pair && b in pair && pair[a] == pair[b] ensures a == b {
      var x :| 0 <= x < |paired| && paired[x] == a;
      var y :| 0 <= y < |paired| && paired[y] == b;
      assert x < y ==> Before(c[x], c[y]);
      assert y < x ==> Before(c[y], c[x]);
    }
  }

  lemma ListsAreWellFormed(
    matched: (seq<Word>, seq<Word>) -> nat, rows: seq<Row>, reference: seq<Row>, alike: seq<seq<Cand>>)
    requires |alike| == |reference|
    requires forall i :: 0 <= i < |reference| ==> Lists(matched, reference[i].words, rows, alike[i])
    ensures WellFormed(rows, reference, alike)
  {
    forall i, c | 0 <= i < |alike| && c in alike[i] ensures c.j < |rows| {
      assert Lists(matched, reference[i].words, rows, alike[i]);
    }
    forall i, x, y | 0 <= i < |alike| && 0 <= x < y < |alike[i]| ensures alike[i][x].j != alike[i][y].j {
      assert Lists(matched, reference[i].words, rows, alike[i]);
    }
  }

  /**
   * The whole comparison: the pairs extend an in-order pairing nothing outscores, each leftover
   * takes the best free row of its window, and the counts balance on both sides.
   */
  method Compare(matched: (seq<Word>, seq<Word>) -> nat, rows: seq<Row>, reference: seq<Row>)
    returns (drift: Drift, pair: map<nat, nat>, chain: map<nat, nat>, paired: seq<nat>, alike: seq<seq<Cand>>)
    ensures |alike| == |reference| && WellFormed(rows, reference, alike)
    ensures forall i :: 0 <= i < |reference| ==> Lists(matched, reference[i].words, rows, alike[i])
    ensures BestPairing(rows, reference, alike, chain, paired)
    ensures GreedyFill(rows, reference, alike, chain, paired, pair, |alike|)
    ensures drift.matched == |pair| && drift.missing >= 0 && drift.extra >= 0
    ensures drift.matched + drift.missing == |reference| && drift.matched + drift.extra == |rows|
    ensures drift.speakerChanged == |Changed(rows, reference, pair)|
    ensures forall i :: i in Changed(rows, reference, pair) <==>
              i in pair && i < |reference| && pair[i] < |rows| && rows[pair[i]].speaker != reference[i].speaker
  {
    alike := Matches(matched, rows, reference);
    ListsAreWellFormed(matched, rows, reference, alike);
    chain, paired := BestInOrder(rows, reference, alike);
    ChainMatches(alike, chain, paired);
    pair := FillLeftovers(rows, reference, alike, chain, paired);
    MatchingFits(rows, reference, alike, pair);
    drift := Drift(|pair|, |Changed(rows, reference, pair)|, |reference| - |pair|, |rows| - |pair|);
  }
}
