/** The pruned candidate search of scripts/caption_ocr/caption_replay.py (`_matches`). */
module CaptionMatches {
  import opened Prelude

  type Word = string

  /** A stored caption row: who said it, and its words as `_words` splits them. */
  datatype Row = Row(speaker: Option<string>, words: seq<Word>)

  /** A stored row reading like a reference row, and how alike. */
  datatype Cand = Cand(ratio: real, j: nat)

  const MATCH_RATIO := 0.8

  predicate IsSubsequence(s: seq<Word>, a: seq<Word>) {
    s == [] || (a != [] && ((s[0] == a[0] && IsSubsequence(s[1..], a[1..])) || IsSubsequence(s, a[1..])))
  }

  /** What a matcher's matched count is allowed to be: the length of some common subsequence. */
  ghost predicate CountsCommonWords(matched: (seq<Word>, seq<Word>) -> nat) {
    forall a, b :: exists s :: IsSubsequence(s, a) && IsSubsequence(s, b) && |s| == matched(a, b)
  }

  /** `SequenceMatcher.ratio()`: two empty rows read exactly alike. */
  function Ratio(matched: (seq<Word>, seq<Word>) -> nat, a: seq<Word>, b: seq<Word>): real {
    if |a| + |b| == 0 then 1.0 else 2.0 * matched(a, b) as real / (|a| + |b|) as real
  }

  /** Whether either bound keeps the pair under the bar. */
  predicate Hopeless(a: seq<Word>, b: seq<Word>) {
    || 2.0 * Min(|a|, |b|) as real < MATCH_RATIO * (|a| + |b|) as real
    || 2.0 * |multiset(a) * multiset(b)| as real < MATCH_RATIO * (|a| + |b|) as real
  }

  predicate ShareWord(a: seq<Word>, b: seq<Word>) {
    exists w :: w in a && w in b
  }

  /** Whether the search reports a row: it shares a word, survives both bounds and meets the bar. */
  predicate Reported(matched: (seq<Word>, seq<Word>) -> nat, ref: seq<Word>, row: seq<Word>) {
    ShareWord(ref, row) && !Hopeless(ref, row) && Ratio(matched, ref, row) >= MATCH_RATIO
  }

  /** The rows a scan of every pair at the bar finds. */
  ghost function AllPairs(matched: (seq<Word>, seq<Word>) -> nat, ref: seq<Word>, rows: seq<Row>): set<nat> {
    set j: nat | j < |rows| && Ratio(matched, ref, rows[j].words) >= MATCH_RATIO
  }

  /** The rows of a list of candidates. */
  ghost function Js(found: seq<Cand>): set<nat> {
    set c | c in found :: c.j
  }

  /** `found` lists, once each and with their ratios, exactly the rows the search reports. */
  ghost predicate Lists(matched: (seq<Word>, seq<Word>) -> nat, ref: seq<Word>, rows: seq<Row>, found: seq<Cand>) {
    && (forall c :: c in found ==>
         c.j < |rows| && c.ratio == Ratio(matched, ref, rows[c.j].words) && Reported(matched, ref, rows[c.j].words))
    && (forall j: nat :: j < |rows| && Reported(matched, ref, rows[j].words) ==>
         Cand(Ratio(matched, ref, rows[j].words), j) in found)
    && (forall x, y :: 0 <= x < y < |found| ==> found[x].j != found[y].j)
  }

  // ---- Why the pruning loses nothing ---------------------------------------

  lemma {:induction false} SubsequenceInBag(s: seq<Word>, a: seq<Word>)
    requires IsSubsequence(s, a)
    ensures multiset(s) <= multiset(a) && |s| <= |a|
  {
    if s != [] {
      assert a == [a[0]] + a[1..];
      if s[0] == a[0] && IsSubsequence(s[1..], a[1..]) {
        SubsequenceInBag(s[1..], a[1..]);
        assert s == [s[0]] + s[1..];
      } else {
        SubsequenceInBag(s, a[1..]);
      }
    }
  }

  lemma BagBound(s: seq<Word>, x: multiset<Word>, y: multiset<Word>)
    requires multiset(s) <= x && multiset(s) <= y
    ensures |s| <= |x * y|
  {
    var both := x * y;
    assert multiset(s) <= both;
    assert both == multiset(s) + (both - multiset(s));
    assert |multiset(s)| == |s|;
  }

  /** A common subsequence is no longer than either row, nor than the words both hold. */
  lemma CommonBound(s: seq<Word>, a: seq<Word>, b: seq<Word>)
    requires IsSubsequence(s, a) && IsSubsequence(s, b)
    ensures |s| <= Min(|a|, |b|) && |s| <= |multiset(a) * multiset(b)|
    ensures s != [] ==> ShareWord(a, b)
  {
    SubsequenceInBag(s, a);
    SubsequenceInBag(s, b);
    BagBound(s, multiset(a), multiset(b));
    if s != [] {
      Shared(s[0], s, a);
      Shared(s[0], s, b);
    }
  }

  lemma Shared(w: Word, s: seq<Word>, a: seq<Word>)
    requires w in s && multiset(s) <= multiset(a)
    ensures w in a
  {
    assert w in multiset(s) && w in multiset(a);
  }

  lemma QuotientBar(x: real, y: real)
    requires y > 0.0 && x / y >= MATCH_RATIO
    ensures x >= MATCH_RATIO * y
  {
    assert x == (x / y) * y;
  }

  /** Unless both rows are empty, the search reports a row exactly when it reads alike. */
  lemma PruningLosesNothing(matched: (seq<Word>, seq<Word>) -> nat, a: seq<Word>, b: seq<Word>)
    requires CountsCommonWords(matched)
    ensures Reported(matched, a, b) <==> Ratio(matched, a, b) >= MATCH_RATIO && |a| + |b| > 0
  {
    if Ratio(matched, a, b) >= MATCH_RATIO && |a| + |b| > 0 {
      var s :| IsSubsequence(s, a) && IsSubsequence(s, b) && |s| == matched(a, b);
      CommonBound(s, a, b);
      QuotientBar(2.0 * matched(a, b) as real, (|a| + |b|) as real);
    }
  }

  /**
   * The search finds for a reference row exactly what scanning every pair would, if and only if
   * the reference row has words or every stored row has: two empty rows score 1.0 but share no word.
   */
  lemma PrunedIsAllPairs(
    matched: (seq<Word>, seq<Word>) -> nat, ref: seq<Word>, rows: seq<Row>, found: seq<Cand>)
    requires CountsCommonWords(matched)
    requires Lists(matched, ref, rows, found)
    ensures Js(found) == AllPairs(matched, ref, rows) <==>
            (ref != [] || forall row :: row in rows ==> row.words != [])
  {
    forall j: nat | j < |rows|
      ensures j in Js(found) <==> Ratio(matched, ref, rows[j].words) >= MATCH_RATIO && |ref| + |rows[j].words| > 0
    {
      PruningLosesNothing(matched, ref, rows[j].words);
      if j in Js(found) {
        var c :| c in found && c.j == j;
      }
    }
    if ref == [] && exists row :: row in rows && row.words == [] {
      var row :| row in rows && row.words == [];
      var j: nat :| j < |rows| && rows[j] == row;
      assert j in AllPairs(matched, ref, rows) && j !in Js(found);
    } else {
      forall j: nat ensures j in Js(found) <==> j in AllPairs(matched, ref, rows) {
        if j < |rows| { assert rows[j] in rows; }
      }
    }
  }

  // ---- The search itself ---------------------------------------------------

  predicate Has(index: map<Word, set<nat>>, w: Word, j: nat) {
    w in index && j in index[w]
  }

  /** The index knows, for each word, exactly the first n rows holding it. */
  ghost predicate Indexes(index: map<Word, set<nat>>, rows: seq<Row>, n: nat)
    requires n <= |rows|
  {
    && (forall w, j: nat :: Has(index, w, j) ==> j < n && w in rows[j].words)
    && (forall w, j: nat :: j < n && w in rows[j].words ==> Has(index, w, j))
  }

  method BuildIndex(rows: seq<Row>) returns (index: map<Word, set<nat>>)
    ensures Indexes(index, rows, |rows|)
  {
    index := map[];
    for j := 0 to |rows|
      invariant Indexes(index, rows, j)
    {
      var todo := set w | w in rows[j].words;
      while todo != {}
        invariant forall w :: w in todo ==> w in rows[j].words
        invariant forall w, k: nat :: Has(index, w, k) ==> k <= j && w in rows[k].words
        invariant forall w, k: nat :: k < j && w in rows[k].words ==> Has(index, w, k)
        invariant forall w :: w in rows[j].words && w !in todo ==> Has(index, w, j)
        decreases todo
      {
        var w :| w in todo;
        ghost var was := index;
        index := index[w := (if w in index then index[w] else {}) + {j}];
        assert forall v, k: nat :: Has(index, v, k) <==> Has(was, v, k) || (v == w && k == j);
        todo := todo - {w};
      }
    }
  }

  /** The rows sharing a word with `ref`, off the index. */
  method Sharing(ref: seq<Word>, rows: seq<Row>, index: map<Word, set<nat>>) returns (shared: set<nat>)
    requires Indexes(index, rows, |rows|)
    ensures forall j: nat :: j in shared <==> j < |rows| && ShareWord(ref, rows[j].words)
  {
    shared := {};
    var todo := set w | w in ref;
    while todo != {}
      invariant forall w :: w in todo ==> w in ref
      invariant forall j :: j in shared ==> j < |rows| && ShareWord(ref, rows[j].words)
      invariant forall w, j: nat :: w in ref && w !in todo && j < |rows| && w in rows[j].words ==> j in shared
      decreases todo
    {
      var w :| w in todo;
      if w in index {
        forall j | j in index[w] ensures j < |rows| && ShareWord(ref, rows[j].words) {
          assert Has(index, w, j);
        }
        shared := shared + index[w];
      }
      todo := todo - {w};
    }
  }

  /** One reference row's candidates, in whatever order the set of sharing rows yields them. */
  method Candidates(
    matched: (seq<Word>, seq<Word>) -> nat, ref: seq<Word>, rows: seq<Row>, index: map<Word, set<nat>>)
    returns (found: seq<Cand>)
    requires Indexes(index, rows, |rows|)
    ensures Lists(matched, ref, rows, found)
  {
    var todo := Sharing(ref, rows, index);
    found := [];
    while todo != {}
      invariant forall j :: j in todo ==> j < |rows| && ShareWord(ref, rows[j].words)
      invariant forall c :: c in found ==> c.j !in todo && c.j < |rows|
      invariant forall c :: c in found ==>
        c.ratio == Ratio(matched, ref, rows[c.j].words) && Reported(matched, ref, rows[c.j].words)
      invariant forall j: nat :: j < |rows| && j !in todo && Reported(matched, ref, rows[j].words) ==>
        Cand(Ratio(matched, ref, rows[j].words), j) in found
      invariant forall x, y :: 0 <= x < y < |found| ==> found[x].j != found[y].j
      decreases todo
    {
      var j :| j in todo;
      todo := todo - {j};
      if Hopeless(ref, rows[j].words) {
        continue;
      }
      var r := Ratio(matched, ref, rows[j].words);
      if r >= MATCH_RATIO {
        forall x | 0 <= x < |found| ensures found[x].j != j { assert found[x] in found; }
        found := found + [Cand(r, j)];
      }
    }
  }

  /** Per reference row, the rows reading alike. */
  method Matches(matched: (seq<Word>, seq<Word>) -> nat, rows: seq<Row>, reference: seq<Row>)
    returns (out: seq<seq<Cand>>)
    ensures |out| == |reference|
    ensures forall i :: 0 <= i < |reference| ==> Lists(matched, reference[i].words, rows, out[i])
  {
    var index := BuildIndex(rows);
    out := [];
    for i := 0 to |reference|
      invariant |out| == i
      invariant forall k :: 0 <= k < i ==> Lists(matched, reference[k].words, rows, out[k])
    {
      var found := Candidates(matched, reference[i].words, rows, index);
      out := out + [found];
    }
  }
}
