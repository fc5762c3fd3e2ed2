/**
 * Pairing true lines with read ones, best first (scripts/caption_ocr/caption_score.py). The accuracy
 * of each pair is an input; pairs are ranked by it, then by their indices.
 */
module PairLines {
  import opened Prelude

  datatype Pair = Pair(accuracy: real, truth: nat, ocr: nat)

  /** Python's order on the tuples, greatest first. */
  predicate RanksFirst(a: Pair, b: Pair) {
    || a.accuracy > b.accuracy
    || (a.accuracy == b.accuracy && (a.truth > b.truth || (a.truth == b.truth && a.ocr >= b.ocr)))
  }

  predicate Outranks(a: Pair, b: Pair) { RanksFirst(a, b) && a != b }

  /** Every pair of a true line and a read one, with its accuracy. */
  function AllPairs(accuracy: seq<seq<real>>, columns: nat): (r: seq<Pair>)
    requires forall i :: 0 <= i < |accuracy| ==> |accuracy[i]| == columns
  {
    if |accuracy| == 0 then [] else
      var i := |accuracy| - 1;
      AllPairs(accuracy[..i], columns) + seq(columns, j requires 0 <= j < columns => Pair(accuracy[i][j], i, j))
  }

  lemma {:induction false} AllPairsAll(accuracy: seq<seq<real>>, columns: nat, i: nat, j: nat)
    requires forall k :: 0 <= k < |accuracy| ==> |accuracy[k]| == columns
    requires i < |accuracy| && j < columns
    ensures Pair(accuracy[i][j], i, j) in AllPairs(accuracy, columns)
  {
    var n := |accuracy| - 1;
    var row := seq(columns, k requires 0 <= k < columns => Pair(accuracy[n][k], n, k));
    if i < n { AllPairsAll(accuracy[..n], columns, i, j); } else { assert row[j] == Pair(accuracy[i][j], i, j); }
  }

  lemma {:induction false} AllPairsOnly(accuracy: seq<seq<real>>, columns: nat, p: Pair)
    requires forall k :: 0 <= k < |accuracy| ==> |accuracy[k]| == columns
    requires p in AllPairs(accuracy, columns)
    ensures IsPair(accuracy, columns, p)
  {
    if |accuracy| > 0 {
      var n := |accuracy| - 1;
      if p in AllPairs(accuracy[..n], columns) { AllPairsOnly(accuracy[..n], columns, p); }
    }
  }

  predicate IsPair(accuracy: seq<seq<real>>, columns: nat, p: Pair)
    requires forall k :: 0 <= k < |accuracy| ==> |accuracy[k]| == columns
  {
    p.truth < |accuracy| && p.ocr < columns && p.accuracy == accuracy[p.truth][p.ocr]
  }

  // ---- Matchings -----------------------------------------------------------

  ghost predicate Matching(accuracy: seq<seq<real>>, columns: nat, partner: map<nat, nat>) {
    Injective(partner) && forall i :: i in partner ==> i < |accuracy| && partner[i] < columns
  }

  function PairOf(accuracy: seq<seq<real>>, columns: nat, i: nat, j: nat): Pair
    requires i < |accuracy| && |accuracy[i]| == columns && j < columns
  {
    Pair(accuracy[i][j], i, j)
  }

  /** One row of accuracies for each true line, with one column for each read line. */
  ghost predicate Table(accuracy: seq<seq<real>>, columns: nat) {
    forall k :: 0 <= k < |accuracy| ==> |accuracy[k]| == columns
  }

  /** Some matched pair that shares a line with this one ranks higher. */
  ghost predicate Beaten(accuracy: seq<seq<real>>, columns: nat, partner: map<nat, nat>, p: Pair)
    requires Table(accuracy, columns) && Matching(accuracy, columns, partner)
  {
    exists i :: i in partner && (i == p.truth || partner[i] == p.ocr) &&
      Outranks(PairOf(accuracy, columns, i, partner[i]), p)
  }

  predicate Matched(partner: map<nat, nat>, p: Pair) { p.truth in partner && partner[p.truth] == p.ocr }

  /** No blocking pair: every pair left out is beaten by a matched one. */
  ghost predicate Stable(accuracy: seq<seq<real>>, columns: nat, partner: map<nat, nat>)
    requires Table(accuracy, columns) && Matching(accuracy, columns, partner)
  {
    forall p :: IsPair(accuracy, columns, p) && !Matched(partner, p) ==> Beaten(accuracy, columns, partner, p)
  }

  lemma OrderTotal()
    ensures TotalPreorder(RanksFirst)
  {}

  /** The rank of a pair: its place in the sorted list. */
  lemma {:induction false} RankedBelow(ranked: seq<Pair>, a: Pair, b: Pair, k: nat) returns (m: nat)
    requires SortedBy(ranked, RanksFirst) && k < |ranked| && ranked[k] == b && a in ranked && Outranks(a, b)
    ensures m < k && ranked[m] == a
  {
    m :| m < |ranked| && ranked[m] == a;
    assert m > k ==> RanksFirst(ranked[k], ranked[m]);
  }

  /** A pair of one stable matching is in every other: a higher pair in which they differ would follow, without end. */
  lemma {:induction false} StableShares(
    accuracy: seq<seq<real>>, columns: nat, a: map<nat, nat>, b: map<nat, nat>, ranked: seq<Pair>, k: nat)
    requires Table(accuracy, columns) && SortedBy(ranked, RanksFirst) && k < |ranked|
    requires forall p :: p in ranked <==> IsPair(accuracy, columns, p)
    requires Matching(accuracy, columns, a) && Stable(accuracy, columns, a)
    requires Matching(accuracy, columns, b) && Stable(accuracy, columns, b)
    requires Matched(a, ranked[k])
    ensures Matched(b, ranked[k])
    decreases k
  {
    var p := ranked[k];
    assert p in ranked;
    if !Matched(b, p) {
      var i :| i in b && (i == p.truth || b[i] == p.ocr) && Outranks(PairOf(accuracy, columns, i, b[i]), p);
      var q := PairOf(accuracy, columns, i, b[i]);
      assert IsPair(accuracy, columns, q);
      var m := RankedBelow(ranked, q, p, k);
      StableShares(accuracy, columns, b, a, ranked, m);
    }
  }

  lemma {:induction false} StableAgrees(
    accuracy: seq<seq<real>>, columns: nat, a: map<nat, nat>, b: map<nat, nat>, ranked: seq<Pair>, i: nat)
    requires Table(accuracy, columns) && SortedBy(ranked, RanksFirst)
    requires forall p :: p in ranked <==> IsPair(accuracy, columns, p)
    requires Matching(accuracy, columns, a) && Stable(accuracy, columns, a)
    requires Matching(accuracy, columns, b) && Stable(accuracy, columns, b)
    requires i in a
    ensures i in b && b[i] == a[i]
  {
    var p := PairOf(accuracy, columns, i, a[i]);
    assert IsPair(accuracy, columns, p) && p in ranked;
    var k :| 0 <= k < |ranked| && ranked[k] == p;
    StableShares(accuracy, columns, a, b, ranked, k);
  }

  lemma {:induction false} RankedPairs(accuracy: seq<seq<real>>, columns: nat) returns (ranked: seq<Pair>)
    requires Table(accuracy, columns)
    ensures TotalPreorder(RanksFirst) && ranked == Sorted(AllPairs(accuracy, columns), RanksFirst)
    ensures SortedBy(ranked, RanksFirst) && forall p :: p in ranked <==> IsPair(accuracy, columns, p)
  {
    OrderTotal();
    var all := AllPairs(accuracy, columns);
    ranked := Sorted(all, RanksFirst);
    forall p ensures p in ranked <==> IsPair(accuracy, columns, p) {
      assert p in ranked <==> p in multiset(ranked);
      assert p in all <==> p in multiset(all);
      if p in all { AllPairsOnly(accuracy, columns, p); }
      if IsPair(accuracy, columns, p) { AllPairsAll(accuracy, columns, p.truth, p.ocr); }
    }
  }

  /** The pairs can be ranked; nothing else about the ranking matters. */
  lemma SomeRanking(accuracy: seq<seq<real>>, columns: nat) returns (ranked: seq<Pair>)
    requires Table(accuracy, columns)
    ensures SortedBy(ranked, RanksFirst) && forall p :: p in ranked <==> IsPair(accuracy, columns, p)
  {
    ranked := RankedPairs(accuracy, columns);
  }

  /** Every pair of one stable matching is in the other. */
  lemma {:induction false} StableWithin(accuracy: seq<seq<real>>, columns: nat, a: map<nat, nat>, b: map<nat, nat>)
    requires Table(accuracy, columns)
    requires Matching(accuracy, columns, a) && Stable(accuracy, columns, a)
    requires Matching(accuracy, columns, b) && Stable(accuracy, columns, b)
    ensures forall i :: i in a ==> i in b && b[i] == a[i]
  {
    var ranked := SomeRanking(accuracy, columns);
    forall i | i in a ensures i in b && b[i] == a[i] { StableAgrees(accuracy, columns, a, b, ranked, i); }
  }

  lemma SameMap(a: map<nat, nat>, b: map<nat, nat>)
    requires forall i :: i in a ==> i in b && b[i] == a[i]
    requires forall i :: i in b ==> i in a && a[i] == b[i]
    ensures a == b
  {}

  /** There is only one matching without a blocking pair. */
  lemma {:induction false} StableUnique(accuracy: seq<seq<real>>, columns: nat, a: map<nat, nat>, b: map<nat, nat>)
    requires Table(accuracy, columns)
    requires Matching(accuracy, columns, a) && Stable(accuracy, columns, a)
    requires Matching(accuracy, columns, b) && Stable(accuracy, columns, b)
    ensures a == b
  {
    StableWithin(accuracy, columns, a, b);
    StableWithin(accuracy, columns, b, a);
    SameMap(a, b);
  }

  /** A stable matching leaves no true line and no read line both unmatched, so it is as large as can be. */
  lemma {:induction false} StableIsFull(accuracy: seq<seq<real>>, columns: nat, partner: map<nat, nat>)
    requires Table(accuracy, columns) && Matching(accuracy, columns, partner) && Stable(accuracy, columns, partner)
    ensures |partner| == Min(|accuracy|, columns)
  {
    InjectiveCard(partner);
    BoundedCard(partner.Keys, |accuracy|);
    BoundedCard(partner.Values, columns);
    if |partner| < |accuracy| && |partner| < columns {
      var i := Missing(partner.Keys, |accuracy|);
      var j := Missing(partner.Values, columns);
      forall k | k in partner ensures partner[k] != j { assert partner[k] in partner.Values; }
      assert IsPair(accuracy, columns, PairOf(accuracy, columns, i, j));
    }
  }

  /** A set of fewer than n naturals misses one below n. */
  lemma {:induction false} Missing(s: set<nat>, n: nat) returns (k: nat)
    requires |s| < n
    ensures k < n && k !in s
  {
    if n - 1 !in s {
      k := n - 1;
    } else {
      k := Missing(s - {n - 1}, n - 1);
    }
  }

  // ---- The code ------------------------------------------------------------

  /** After the first k ranked pairs: each is matched or beaten, and only they were used. */
  ghost predicate Settled(accuracy: seq<seq<real>>, columns: nat, ranked: seq<Pair>, k: nat, partner: map<nat, nat>)
    requires Table(accuracy, columns) && k <= |ranked|
  {
    && Matching(accuracy, columns, partner)
    && (forall i :: i in partner ==> PairOf(accuracy, columns, i, partner[i]) in ranked[..k])
    && (forall m :: 0 <= m < k ==> Matched(partner, ranked[m]) || Beaten(accuracy, columns, partner, ranked[m]))
  }

  /** `pair_lines`: the partner of each true line, by index; the matching is the stable one. */
  method PairLines(accuracy: seq<seq<real>>, columns: nat) returns (partner: map<nat, nat>)
    requires Table(accuracy, columns)
    ensures Matching(accuracy, columns, partner) && Stable(accuracy, columns, partner)
    ensures |partner| == Min(|accuracy|, columns)
  {
    ghost var all := RankedPairs(accuracy, columns);
    var ranked := Sorted(AllPairs(accuracy, columns), RanksFirst);
    partner := map[];
    var usedTruth: set<nat>, usedOcr: set<nat> := {}, {};
    for k := 0 to |ranked|
      invariant usedTruth == partner.Keys && usedOcr == partner.Values
      invariant Settled(accuracy, columns, ranked, k, partner)
    {
      var p := ranked[k];
      assert p in ranked;
      if p.truth !in usedTruth && p.ocr !in usedOcr {
        ValuesGain(partner, p.truth, p.ocr);
        TakenSettles(accuracy, columns, ranked, k, partner);
        partner := partner[p.truth := p.ocr];
        usedTruth, usedOcr := usedTruth + {p.truth}, usedOcr + {p.ocr};
      } else {
        SkippedSettles(accuracy, columns, ranked, k, partner);
      }
    }
    SettledIsStable(accuracy, columns, ranked, partner);
    StableIsFull(accuracy, columns, partner);
  }

  lemma SettledIsStable(accuracy: seq<seq<real>>, columns: nat, ranked: seq<Pair>, partner: map<nat, nat>)
    requires Table(accuracy, columns) && Settled(accuracy, columns, ranked, |ranked|, partner)
    requires forall p :: p in ranked <==> IsPair(accuracy, columns, p)
    ensures Stable(accuracy, columns, partner)
  {
    forall p | IsPair(accuracy, columns, p) && !Matched(partner, p) ensures Beaten(accuracy, columns, partner, p) {
      assert p in ranked;
      var m :| 0 <= m < |ranked| && ranked[m] == p;
    }
  }

  lemma {:induction false} TakenSettles(
    accuracy: seq<seq<real>>, columns: nat, ranked: seq<Pair>, k: nat, partner: map<nat, nat>)
    requires Table(accuracy, columns) && k < |ranked| && Settled(accuracy, columns, ranked, k, partner)
    requires IsPair(accuracy, columns, ranked[k]) && ranked[k].truth !in partner && ranked[k].ocr !in partner.Values
    ensures Settled(accuracy, columns, ranked, k + 1, partner[ranked[k].truth := ranked[k].ocr])
  {
    var p, t := ranked[k], partner[ranked[k].truth := ranked[k].ocr];
    BeatenStays(accuracy, columns, partner, p, ranked[..k]);
    assert forall m :: 0 <= m < k ==> ranked[..k][m] == ranked[m];
    assert ranked[..k + 1] == ranked[..k] + [p];
  }

  lemma {:induction false} SkippedSettles(
    accuracy: seq<seq<real>>, columns: nat, ranked: seq<Pair>, k: nat, partner: map<nat, nat>)
    requires Table(accuracy, columns) && k < |ranked| && Settled(accuracy, columns, ranked, k, partner)
    requires SortedBy(ranked, RanksFirst) && IsPair(accuracy, columns, ranked[k])
    requires ranked[k].truth in partner || ranked[k].ocr in partner.Values
    ensures Settled(accuracy, columns, ranked, k + 1, partner)
  {
    UsedBeats(accuracy, columns, partner, ranked[k], ranked, k);
    assert ranked[..k + 1] == ranked[..k] + [ranked[k]];
  }

  lemma BeatenStays(accuracy: seq<seq<real>>, columns: nat, before: map<nat, nat>, p: Pair, done: seq<Pair>)
    requires Table(accuracy, columns) && IsPair(accuracy, columns, p) && Matching(accuracy, columns, before)
    requires p.truth !in before && p.ocr !in before.Values
    requires forall m :: 0 <= m < |done| ==> Matched(before, done[m]) || Beaten(accuracy, columns, before, done[m])
    ensures Matching(accuracy, columns, before[p.truth := p.ocr])
    ensures forall m :: 0 <= m < |done| ==>
              Matched(before[p.truth := p.ocr], done[m]) || Beaten(accuracy, columns, before[p.truth := p.ocr], done[m])
  {
    var t := before[p.truth := p.ocr];
    forall m | 0 <= m < |done| ensures Matched(t, done[m]) || Beaten(accuracy, columns, t, done[m]) {
      var q := done[m];
      if !Matched(before, q) {
        var i :| i in before && (i == q.truth || before[i] == q.ocr) &&
          Outranks(PairOf(accuracy, columns, i, before[i]), q);
        assert i in t && t[i] == before[i];
      }
    }
  }

  /** A pair with a line already used is beaten by the pair that used it, which came first. */
  lemma UsedBeats(accuracy: seq<seq<real>>, columns: nat, partner: map<nat, nat>, p: Pair, ranked: seq<Pair>, k: nat)
    requires Table(accuracy, columns) && Matching(accuracy, columns, partner) && SortedBy(ranked, RanksFirst)
    requires k < |ranked| && ranked[k] == p && IsPair(accuracy, columns, p)
    requires forall i :: i in partner ==> PairOf(accuracy, columns, i, partner[i]) in ranked[..k]
    requires p.truth in partner || p.ocr in partner.Values
    ensures Matched(partner, p) || Beaten(accuracy, columns, partner, p)
  {
    var i :| i in partner && (i == p.truth || partner[i] == p.ocr);
    var q := PairOf(accuracy, columns, i, partner[i]);
    var m :| 0 <= m < k && ranked[..k][m] == q;
    assert RanksFirst(ranked[m], ranked[k]);
  }
}
