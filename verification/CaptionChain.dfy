/** The first phase of `compare` (scripts/caption_ocr/caption_replay.py): the best in-order pairing. */
module CaptionChain {
  import opened Prelude
  import opened Fenwick
  import opened CaptionMatches

  /** What `compare` needs of the candidate lists: rows that exist, none twice for one reference row. */
  ghost predicate WellFormed(rows: seq<Row>, reference: seq<Row>, alike: seq<seq<Cand>>) {
    && |alike| == |reference|
    && (forall i, c :: 0 <= i < |alike| && c in alike[i] ==> c.j < |rows|)
    && (forall i, x, y :: 0 <= i < |alike| && 0 <= x < y < |alike[i]| ==> alike[i][x].j != alike[i][y].j)
  }

  /** Some candidate in `found` is row j. */
  predicate HasRow(found: seq<Cand>, j: nat) {
    exists c :: c in found && c.j == j
  }

  predicate AlikePair(alike: seq<seq<Cand>>, p: Pair) {
    p.i < |alike| && HasRow(alike[p.i], p.j)
  }

  predicate Before(p: Pair, q: Pair) {
    p.i < q.i && p.j < q.j
  }

  predicate SameSpeaker(rows: seq<Row>, reference: seq<Row>, p: Pair) {
    p.i < |reference| && p.j < |rows| && rows[p.j].speaker == reference[p.i].speaker
  }

  function Weight(rows: seq<Row>, reference: seq<Row>, p: Pair): Score {
    Score(1, if SameSpeaker(rows, reference, p) then 1 else 0)
  }

  /** An in-order pairing: alike pairs, strictly increasing on both sides. */
  ghost predicate IsChain(alike: seq<seq<Cand>>, c: seq<Pair>) {
    && (forall p {:trigger AlikePair(alike, p)} :: p in c ==> AlikePair(alike, p))
    && (forall x, y {:trigger Before(c[x], c[y])} :: 0 <= x < y < |c| ==> Before(c[x], c[y]))
  }

  /** How many pairs a chain has, then how many keep their speaker. */
  function Value(rows: seq<Row>, reference: seq<Row>, c: seq<Pair>): Score {
    if |c| == 0 then Score(0, 0)
    else Add(Value(rows, reference, c[..|c| - 1]), Weight(rows, reference, c[|c| - 1]))
  }

  /** The pairing a map of reference row to stored row makes, listed by its sorted keys. */
  function Listed(pair: map<nat, nat>, paired: seq<nat>): (c: seq<Pair>)
    requires forall i :: i in paired ==> i in pair
    ensures |c| == |paired|
  {
    seq(|paired|, k requires 0 <= k < |paired| => Pair(paired[k], pair[paired[k]]))
  }

  /** `pair`, with sorted keys `paired`, is an in-order pairing no in-order pairing outscores. */
  ghost predicate BestPairing(
    rows: seq<Row>, reference: seq<Row>, alike: seq<seq<Cand>>, pair: map<nat, nat>, paired: seq<nat>)
  {
    && pair.Keys == (set i | i in paired)
    && IsChain(alike, Listed(pair, paired))
    && forall c :: IsChain(alike, c) ==> Le(Value(rows, reference, c), Value(rows, reference, Listed(pair, paired)))
  }

  // ---- The dynamic programme -----------------------------------------------

  function PrevScore(best: map<Pair, Score>, prev: Option<Pair>): Score {
    if prev.Some? && prev.value in best then best[prev.value] else Score(0, 0)
  }

  /** Pair p's score is w on top of the earlier processed pair `prev`. */
  ghost predicate Realises(best: map<Pair, Score>, p: Pair, prev: Option<Pair>, w: Score) {
    && p in best && best[p] == Add(PrevScore(best, prev), w)
    && (prev.Some? ==> prev.value in best && Before(prev.value, p))
  }

  /** A pair's score is its own weight on top of the earlier processed pair it points back to. */
  ghost predicate RealisedAt(
    rows: seq<Row>, reference: seq<Row>, best: map<Pair, Score>, back: map<Pair, Option<Pair>>, p: Pair)
    requires p in back
  {
    Realises(best, p, back[p], Weight(rows, reference, p))
  }

  ghost predicate Realised(
    rows: seq<Row>, reference: seq<Row>, best: map<Pair, Score>, back: map<Pair, Option<Pair>>)
  {
    && back.Keys == best.Keys
    && forall p {:trigger RealisedAt(rows, reference, best, back, p)} :: p in best ==>
         RealisedAt(rows, reference, best, back, p)
  }

  /** No processed predecessor would have served a processed pair better. */
  ghost predicate Dominant(rows: seq<Row>, reference: seq<Row>, best: map<Pair, Score>) {
    && (forall p :: p in best ==> Le(Weight(rows, reference, p), best[p]))
    && (forall q, p :: q in best && p in best && Before(q, p) ==>
          Le(Add(best[q], Weight(rows, reference, p)), best[p]))
  }

  /** The tree holds one node per processed pair. */
  ghost predicate Mirrors(puts: set<Node>, best: map<Pair, Score>) {
    && (forall nd :: nd in puts ==> nd.at.Some? && nd.at.value in best && nd.score == best[nd.at.value])
    && (forall p :: p in best ==> Node(best[p], Some(p)) in puts)
  }

  /** `end` is the best processed pair, if any. */
  ghost predicate Ends(end: Node, best: map<Pair, Score>) {
    && (end.at.None? ==> end == ZERO && forall p :: p !in best)
    && (end.at.Some? ==> end.at.value in best && best[end.at.value] == end.score)
    && (forall p :: p in best ==> Le(best[p], end.score))
  }

  /** Pair p can be processed next: nothing done follows it, and what is below its row is earlier. */
  ghost predicate Next(best: map<Pair, Score>, p: Pair) {
    p !in best && forall q :: q in best ==> !Before(p, q) && (q.j < p.j ==> q.i < p.i)
  }

  lemma RealisesStays(best: map<Pair, Score>, p: Pair, s: Score, q: Pair, prev: Option<Pair>, w: Score)
    requires Realises(best, q, prev, w) && p !in best
    ensures Realises(best[p := s], q, prev, w)
  {}

  lemma RealisesNew(best: map<Pair, Score>, p: Pair, prev: Option<Pair>, w: Score)
    requires p !in best && (prev.Some? ==> prev.value in best && Before(prev.value, p))
    ensures Realises(best[p := Add(PrevScore(best, prev), w)], p, prev, w)
  {}

  /** The same with the weights as one function of the pair. */
  ghost predicate RealisedBy(weigh: Pair -> Score, best: map<Pair, Score>, back: map<Pair, Option<Pair>>) {
    && back.Keys == best.Keys
    && forall p {:trigger weigh(p)} :: p in best ==> Realises(best, p, back[p], weigh(p))
  }

  lemma RealisedByExtends(
    weigh: Pair -> Score, best: map<Pair, Score>, back: map<Pair, Option<Pair>>, p: Pair, prev: Option<Pair>)
    requires RealisedBy(weigh, best, back) && p !in best
    requires prev.Some? ==> prev.value in best && Before(prev.value, p)
    ensures RealisedBy(weigh, best[p := Add(PrevScore(best, prev), weigh(p))], back[p := prev])
  {
    var s := Add(PrevScore(best, prev), weigh(p));
    RealisesNew(best, p, prev, weigh(p));
    forall q | q in best && q != p ensures Realises(best[p := s], q, back[p := prev][q], weigh(q)) {
      RealisesStays(best, p, s, q, back[q], weigh(q));
    }
  }

  lemma RealisedIffBy(
    rows: seq<Row>, reference: seq<Row>, weigh: Pair -> Score, best: map<Pair, Score>, back: map<Pair, Option<Pair>>)
    requires forall p :: weigh(p) == Weight(rows, reference, p)
    ensures Realised(rows, reference, best, back) <==> RealisedBy(weigh, best, back)
  {
    if Realised(rows, reference, best, back) {
      forall p | p in best ensures Realises(best, p, back[p], weigh(p)) {
        assert RealisedAt(rows, reference, best, back, p);
      }
    }
    if RealisedBy(weigh, best, back) {
      forall p | p in best ensures RealisedAt(rows, reference, best, back, p) {
        assert Realises(best, p, back[p], weigh(p));
      }
    }
  }

  lemma RealisedExtends(
    rows: seq<Row>, reference: seq<Row>, best: map<Pair, Score>, back: map<Pair, Option<Pair>>,
    p: Pair, prev: Option<Pair>)
    requires Realised(rows, reference, best, back) && p !in best
    requires prev.Some? ==> prev.value in best && Before(prev.value, p)
    ensures var s := Add(PrevScore(best, prev), Weight(rows, reference, p));
            Realised(rows, reference, best[p := s], back[p := prev])
  {
    var weigh := (q: Pair) => Weight(rows, reference, q);
    RealisedIffBy(rows, reference, weigh, best, back);
    RealisedByExtends(weigh, best, back, p, prev);
    RealisedIffBy(rows, reference, weigh, best[p := Add(PrevScore(best, prev), weigh(p))], back[p := prev]);
  }

  lemma AddMonotone(a: Score, b: Score, w: Score)
    requires Le(a, b)
    ensures Le(Add(a, w), Add(b, w)) && Le(w, Add(b, w))
  {}

  lemma DominantExtends(
    rows: seq<Row>, reference: seq<Row>, best: map<Pair, Score>, p: Pair, below: Score)
    requires Dominant(rows, reference, best) && Next(best, p)
    requires forall q :: q in best && Before(q, p) ==> Le(best[q], below)
    ensures Dominant(rows, reference, best[p := Add(below, Weight(rows, reference, p))])
  {
    var w := Weight(rows, reference, p);
    var best' := best[p := Add(below, w)];
    AddMonotone(below, below, w);
    forall q, r | q in best' && r in best' && Before(q, r)
      ensures Le(Add(best'[q], Weight(rows, reference, r)), best'[r])
    {
      if r == p { AddMonotone(best[q], below, w); }
    }
  }

  /** What the tree returns for p's row is p's best possible predecessor. */
  lemma FromTree(best: map<Pair, Score>, puts: set<Node>, p: Pair, out: Node)
    requires Mirrors(puts, best) && Next(best, p) && IsMaxOver(out, puts, 0, p.j)
    ensures out.at.Some? ==> out.at.value in best && Before(out.at.value, p)
    ensures PrevScore(best, out.at) == out.score
    ensures forall q :: q in best && Before(q, p) ==> Le(best[q], out.score)
  {
    forall q | q in best && Before(q, p) ensures Le(best[q], out.score) {
      assert Node(best[q], Some(q)) in puts;
    }
  }

  lemma MirrorsExtends(best: map<Pair, Score>, puts: set<Node>, p: Pair, score: Score)
    requires Mirrors(puts, best) && p !in best
    ensures Mirrors(puts + {Node(score, Some(p))}, best[p := score])
  {}

  /** Processing pair p against the tree keeps every clause of the programme. */
  lemma Extends(
    rows: seq<Row>, reference: seq<Row>, best: map<Pair, Score>, back: map<Pair, Option<Pair>>,
    puts: set<Node>, p: Pair, out: Node)
    requires Realised(rows, reference, best, back) && Dominant(rows, reference, best) && Mirrors(puts, best)
    requires Next(best, p)
    requires IsMaxOver(out, puts, 0, p.j)
    ensures var score := Add(out.score, Weight(rows, reference, p));
            && Realised(rows, reference, best[p := score], back[p := out.at])
            && Dominant(rows, reference, best[p := score])
            && Mirrors(puts + {Node(score, Some(p))}, best[p := score])
  {
    FromTree(best, puts, p, out);
    var s := Add(out.score, Weight(rows, reference, p));
    RealisedExtends(rows, reference, best, back, p, out.at);
    DominantExtends(rows, reference, best, p, out.score);
    MirrorsExtends(best, puts, p, s);
  }

  /** A chain scores no more than the programme's score for its last pair. */
  lemma {:induction false} ChainBound(
    rows: seq<Row>, reference: seq<Row>, alike: seq<seq<Cand>>, best: map<Pair, Score>, c: seq<Pair>)
    requires Dominant(rows, reference, best)
    requires forall p :: AlikePair(alike, p) ==> p in best
    requires IsChain(alike, c) && c != []
    ensures c[|c| - 1] in best && Le(Value(rows, reference, c), best[c[|c| - 1]])
  {
    var front, p := c[..|c| - 1], c[|c| - 1];
    assert p in c;
    if front == [] {
      assert Value(rows, reference, front) == Score(0, 0);
    } else {
      ChainBound(rows, reference, alike, best, front);
      assert front[|front| - 1] == c[|c| - 2] && Before(c[|c| - 2], p);
    }
  }

  /** Putting a pair in front of a chain adds its weight. */
  lemma {:induction false} ValuePrepend(rows: seq<Row>, reference: seq<Row>, p: Pair, c: seq<Pair>)
    ensures Value(rows, reference, [p] + c) == Add(Weight(rows, reference, p), Value(rows, reference, c))
  {
    var d := [p] + c;
    if c == [] {
      assert d[..|d| - 1] == c;
    } else {
      var front, last := c[..|c| - 1], Weight(rows, reference, c[|c| - 1]);
      ValuePrepend(rows, reference, p, front);
      assert d[..|d| - 1] == [p] + front && d[|d| - 1] == c[|c| - 1];
      assert Value(rows, reference, d) == Add(Value(rows, reference, [p] + front), last);
    }
  }

  predicate LaterRow(a: Cand, b: Cand) { a.j >= b.j }

  lemma LaterRowOrders()
    ensures TotalPreorder(LaterRow)
  {}

  /** The pairs processed once reference rows below i, and the first n candidates of row i, are done. */
  ghost predicate Processed(alike: seq<seq<Cand>>, best: map<Pair, Score>, i: nat, row: seq<Cand>, n: nat)
    requires n <= |row|
  {
    forall p :: p in best <==>
      (p.i < i && AlikePair(alike, p)) || (p.i == i && exists x :: 0 <= x < n && row[x].j == p.j)
  }

  lemma ProcessedStart(alike: seq<seq<Cand>>, best: map<Pair, Score>, i: nat, row: seq<Cand>)
    requires Processed(alike, best, i, [], 0)
    ensures Processed(alike, best, i, row, 0)
  {
    forall p ensures p in best <==> p.i < i && AlikePair(alike, p) {}
  }

  lemma ProcessedRow(alike: seq<seq<Cand>>, best: map<Pair, Score>, i: nat, row: seq<Cand>)
    requires i < |alike| && multiset(row) == multiset(alike[i])
    requires Processed(alike, best, i, row, |row|)
    ensures Processed(alike, best, i + 1, [], 0)
  {
    forall p: Pair | p.i == i
      ensures HasRow(alike[i], p.j) <==> exists x :: 0 <= x < |row| && row[x].j == p.j
    {
      if HasRow(alike[i], p.j) {
        var c :| c in alike[i] && c.j == p.j;
        assert c in multiset(row);
        var x :| 0 <= x < |row| && row[x] == c;
      }
      if x :| 0 <= x < |row| && row[x].j == p.j {
        assert row[x] in multiset(alike[i]);
      }
    }
  }

  /** A row's candidates in descending order never repeat a stored row. */
  lemma DescendingStrictly(found: seq<Cand>, row: seq<Cand>)
    requires row == Sorted(found, LaterRow) && TotalPreorder(LaterRow)
    requires forall x, y :: 0 <= x < y < |found| ==> found[x].j != found[y].j
    ensures forall x, y :: 0 <= x < y < |row| ==> row[x].j > row[y].j
  {
    forall x, y | 0 <= x < y < |row| ensures row[x].j > row[y].j {
      assert LaterRow(row[x], row[y]);
      if row[x].j == row[y].j {
        TwiceIn(row, x, y);
        DistinctOnce(found, row[x], row[y]);
      }
    }
  }

  lemma TwiceIn<T>(s: seq<T>, x: nat, y: nat)
    requires x < y < |s|
    ensures multiset{s[x], s[y]} <= multiset(s)
  {
    assert s == s[..x] + [s[x]] + s[x + 1..y] + [s[y]] + s[y + 1..];
  }

  lemma {:induction false} DistinctOnce(found: seq<Cand>, a: Cand, b: Cand)
    requires forall x, y :: 0 <= x < y < |found| ==> found[x].j != found[y].j
    requires a.j == b.j
    ensures !(multiset{a, b} <= multiset(found))
  {
    if found != [] {
      var rest := found[1..];
      assert found == [found[0]] + rest;
      DistinctOnce(rest, a, b);
    }
  }

  /** The next candidate of row i in descending order can be processed. */
  lemma NextUp(alike: seq<seq<Cand>>, best: map<Pair, Score>, i: nat, row: seq<Cand>, x: nat)
    requires x < |row| && forall y, z :: 0 <= y < z < |row| ==> row[y].j > row[z].j
    requires Processed(alike, best, i, row, x)
    ensures Next(best, Pair(i, row[x].j))
  {
    var p := Pair(i, row[x].j);
    forall q | q in best ensures q != p && !Before(p, q) && (q.j < p.j ==> q.i < p.i) {
      if q.i == i {
        var y :| 0 <= y < x && row[y].j == q.j;
      }
    }
  }

  lemma ProcessedNext(alike: seq<seq<Cand>>, best: map<Pair, Score>, i: nat, row: seq<Cand>, x: nat, score: Score)
    requires x < |row| && Processed(alike, best, i, row, x)
    ensures Processed(alike, best[Pair(i, row[x].j) := score], i, row, x + 1)
  {
    var best' := best[Pair(i, row[x].j) := score];
    forall p ensures p in best' <==>
        (p.i < i && AlikePair(alike, p)) || (p.i == i && exists y :: 0 <= y < x + 1 && row[y].j == p.j)
    {
      if p.i == i && p.j == row[x].j { assert 0 <= x < x + 1; }
    }
  }

  /** The programme's state after some reference rows: predecessors, tree and best end all agree. */
  ghost predicate Sound(
    rows: seq<Row>, reference: seq<Row>, best: map<Pair, Score>, back: map<Pair, Option<Pair>>,
    tree: seq<Node>, puts: set<Node>, end: Node)
  {
    && Realised(rows, reference, best, back) && Dominant(rows, reference, best)
    && Mirrors(puts, best) && Covers(tree, puts) && Ends(end, best)
  }

  lemma EndsExtend(end: Node, best: map<Pair, Score>, p: Pair, score: Score)
    requires Ends(end, best) && p !in best && score.pairs > 0
    ensures Ends(Better(end, Node(score, Some(p))), best[p := score])
  {
    var best' := best[p := score];
    forall q | q in best' ensures Le(best'[q], Better(end, Node(score, Some(p))).score) {
      if q != p { assert Le(best[q], end.score); }
    }
  }

  /** The whole state after one candidate, the tree aside. */
  lemma SoundNext(
    rows: seq<Row>, reference: seq<Row>, best: map<Pair, Score>, back: map<Pair, Option<Pair>>,
    tree: seq<Node>, puts: set<Node>, end: Node, p: Pair, prev: Node)
    requires Sound(rows, reference, best, back, tree, puts, end) && Next(best, p)
    requires IsMaxOver(prev, puts, 0, p.j)
    ensures var score := Add(prev.score, Weight(rows, reference, p));
            var node := Node(score, Some(p));
            forall tree' :: Covers(tree', puts + {node}) ==>
              Sound(rows, reference, best[p := score], back[p := prev.at], tree', puts + {node}, Better(end, node))
  {
    Extends(rows, reference, best, back, puts, p, prev);
    EndsExtend(end, best, p, Add(prev.score, Weight(rows, reference, p)));
  }

  /** One candidate: look up the best predecessor, point back to it, and put the new node. */
  method Step(
    rows: seq<Row>, reference: seq<Row>, p: Pair, tree: array<Node>, back: map<Pair, Option<Pair>>, end: Node,
    ghost best: map<Pair, Score>, ghost puts: set<Node>)
    returns (back': map<Pair, Option<Pair>>, end': Node, ghost score: Score, ghost puts': set<Node>)
    requires tree.Length == |rows| + 1 && p.j < |rows|
    requires Sound(rows, reference, best, back, tree[..], puts, end) && Next(best, p)
    modifies tree
    ensures Sound(rows, reference, best[p := score], back', tree[..], puts', end')
  {
    var prev := BestBelow(tree, puts, p.j);
    score := Add(prev.score, Weight(rows, reference, p));
    SoundNext(rows, reference, best, back, tree[..], puts, end, p, prev);
    var node := Node(Add(prev.score, Weight(rows, reference, p)), Some(p));
    back' := back[p := prev.at];
    Put(tree, puts, node);
    puts' := puts + {node};
    end' := Better(end, node);
  }

  /** The forward pass over every reference row's candidates, in descending row order. */
  method Forward(rows: seq<Row>, reference: seq<Row>, alike: seq<seq<Cand>>)
    returns (back: map<Pair, Option<Pair>>, end: Node, ghost best: map<Pair, Score>)
    requires WellFormed(rows, reference, alike)
    ensures Realised(rows, reference, best, back) && Dominant(rows, reference, best) && Ends(end, best)
    ensures forall p :: p in best <==> AlikePair(alike, p)
  {
    var tree := new Node[|rows| + 1](_ => ZERO);
    back, end := map[], ZERO;
    best := map[];
    ghost var puts: set<Node> := {};
    LaterRowOrders();
    for i := 0 to |alike|
      invariant Processed(alike, best, i, [], 0)
      invariant Sound(rows, reference, best, back, tree[..], puts, end)
    {
      var row := Sorted(alike[i], LaterRow);
      DescendingStrictly(alike[i], row);
      ProcessedStart(alike, best, i, row);
      for x := 0 to |row|
        invariant Processed(alike, best, i, row, x)
        invariant Sound(rows, reference, best, back, tree[..], puts, end)
      {
        NextUp(alike, best, i, row, x);
        assert row[x] in multiset(alike[i]);
        ghost var score;
        back, end, score, puts := Step(rows, reference, Pair(i, row[x].j), tree, back, end, best, puts);
        ProcessedNext(alike, best, i, row, x, score);
        best := best[Pair(i, row[x].j) := score];
      }
      ProcessedRow(alike, best, i, row);
    }
    forall p ensures p in best <==> AlikePair(alike, p) {}
  }

  ghost predicate AllAfter(p: Pair, c: seq<Pair>) {
    forall q :: q in c ==> Before(p, q)
  }

  lemma AllAfterPrepend(b: Pair, p: Pair, c: seq<Pair>)
    requires Before(b, p) && AllAfter(p, c)
    ensures AllAfter(b, [p] + c)
  {}

  lemma ChainPrepend(alike: seq<seq<Cand>>, p: Pair, c: seq<Pair>)
    requires IsChain(alike, c) && AlikePair(alike, p) && AllAfter(p, c)
    ensures IsChain(alike, [p] + c)
  {
    var d := [p] + c;
    forall x, y | 0 <= x < y < |d| ensures Before(d[x], d[y]) {
      if x == 0 { assert d[y] in c; } else { assert d[x] == c[x - 1] && d[y] == c[y - 1]; }
    }
  }

  /** `pair`, with its sorted keys, is the map form of chain c. */
  ghost predicate MapOf(pair: map<nat, nat>, paired: seq<nat>, c: seq<Pair>) {
    && pair.Keys == (set i | i in paired)
    && |paired| == |c|
    && forall k :: 0 <= k < |c| ==> paired[k] == c[k].i && c[k].i in pair && pair[c[k].i] == c[k].j
  }

  lemma {:induction false} MapPrepend(pair: map<nat, nat>, paired: seq<nat>, c: seq<Pair>, p: Pair)
    requires MapOf(pair, paired, c) && AllAfter(p, c)
    ensures MapOf(pair[p.i := p.j], [p.i] + paired, [p] + c)
  {
    var d := [p] + c;
    forall k | 0 <= k < |d| ensures d[k].i in pair[p.i := p.j] && pair[p.i := p.j][d[k].i] == d[k].j {
      if k > 0 { assert d[k] in c; }
    }
  }

  /** Midway through the walk: what is left to collect at `at`, plus the chain so far, is worth `total`. */
  ghost predicate Walking(
    rows: seq<Row>, reference: seq<Row>, alike: seq<seq<Cand>>, best: map<Pair, Score>,
    pair: map<nat, nat>, paired: seq<nat>, c: seq<Pair>, at: Option<Pair>, total: Score)
  {
    && MapOf(pair, paired, c)
    && IsChain(alike, c)
    && (at.Some? ==> at.value in best && AllAfter(at.value, c))
    && Add(PrevScore(best, at), Value(rows, reference, c)) == total
  }

  lemma {:induction false} WalkOn(
    rows: seq<Row>, reference: seq<Row>, alike: seq<seq<Cand>>, best: map<Pair, Score>,
    back: map<Pair, Option<Pair>>, pair: map<nat, nat>, paired: seq<nat>, c: seq<Pair>, p: Pair, total: Score)
    requires Realised(rows, reference, best, back) && p in best && AlikePair(alike, p)
    requires Walking(rows, reference, alike, best, pair, paired, c, Some(p), total)
    ensures Walking(rows, reference, alike, best, pair[p.i := p.j], [p.i] + paired, [p] + c, back[p], total)
    ensures back[p].Some? ==> back[p].value.i < p.i
  {
    WalkScore(rows, reference, best, back, c, p);
    ChainPrepend(alike, p, c);
    MapPrepend(pair, paired, c, p);
    if back[p].Some? { AllAfterPrepend(back[p].value, p, c); }
  }

  /** The score still to collect passes from p to its weight, in front of the chain, and its predecessor. */
  lemma {:induction false} WalkScore(
    rows: seq<Row>, reference: seq<Row>, best: map<Pair, Score>, back: map<Pair, Option<Pair>>, c: seq<Pair>, p: Pair)
    requires Realised(rows, reference, best, back) && p in best
    ensures p in back
    ensures Add(PrevScore(best, back[p]), Value(rows, reference, [p] + c)) == Add(best[p], Value(rows, reference, c))
    ensures back[p].Some? ==> back[p].value in best && Before(back[p].value, p)
  {
    assert RealisedAt(rows, reference, best, back, p);
    ValuePrepend(rows, reference, p, c);
  }

  lemma {:induction false} WalkStarts(
    rows: seq<Row>, reference: seq<Row>, alike: seq<seq<Cand>>, best: map<Pair, Score>, end: Node,
    pair: map<nat, nat>, paired: seq<nat>, c: seq<Pair>)
    requires Ends(end, best) && pair.Keys == {} && |paired| == |c| == 0
    ensures Walking(rows, reference, alike, best, pair, paired, c, end.at, end.score)
  {
    NothingListed(alike, pair, paired, c);
    NothingCollected(rows, reference, best, end, c);
  }

  lemma {:induction false} NothingListed(alike: seq<seq<Cand>>, pair: map<nat, nat>, paired: seq<nat>, c: seq<Pair>)
    requires pair.Keys == {} && |paired| == |c| == 0
    ensures MapOf(pair, paired, c) && IsChain(alike, c) && forall p :: AllAfter(p, c)
  {
    assert (set i | i in paired) == {};
  }

  lemma {:induction false} NothingCollected(
    rows: seq<Row>, reference: seq<Row>, best: map<Pair, Score>, end: Node, c: seq<Pair>)
    requires Ends(end, best) && |c| == 0
    ensures Add(PrevScore(best, end.at), Value(rows, reference, c)) == end.score
  {
    EmptyWorth(rows, reference, c);
    assert PrevScore(best, end.at) == end.score;
  }

  lemma {:induction false} EmptyWorth(rows: seq<Row>, reference: seq<Row>, c: seq<Pair>)
    requires |c| == 0
    ensures Value(rows, reference, c) == Score(0, 0)
  {}

  lemma {:induction false} WalkEnds(
    rows: seq<Row>, reference: seq<Row>, alike: seq<seq<Cand>>, best: map<Pair, Score>,
    pair: map<nat, nat>, paired: seq<nat>, c: seq<Pair>, total: Score)
    requires Walking(rows, reference, alike, best, pair, paired, c, None, total)
    ensures pair.Keys == (set i | i in paired)
    ensures IsChain(alike, Listed(pair, paired))
    ensures Value(rows, reference, Listed(pair, paired)) == total
  {
    assert Listed(pair, paired) == c;
  }

  /** Walking the back pointers from `end` collects a chain worth exactly `end`'s score. */
  method TraceBack(
    rows: seq<Row>, reference: seq<Row>, alike: seq<seq<Cand>>, back: map<Pair, Option<Pair>>, end: Node,
    ghost best: map<Pair, Score>)
    returns (pair: map<nat, nat>, paired: seq<nat>)
    requires Realised(rows, reference, best, back) && Ends(end, best)
    requires forall p :: p in best <==> AlikePair(alike, p)
    ensures pair.Keys == (set i | i in paired)
    ensures IsChain(alike, Listed(pair, paired))
    ensures Value(rows, reference, Listed(pair, paired)) == end.score
  {
    pair, paired := map[], [];
    ghost var c: seq<Pair> := [];
    var at := end.at;
    WalkStarts(rows, reference, alike, best, end, pair, paired, c);
    while at.Some?
      invariant Walking(rows, reference, alike, best, pair, paired, c, at, end.score)
      decreases at.Some?, if at.Some? then at.value.i else 0
    {
      var p := at.value;
      WalkOn(rows, reference, alike, best, back, pair, paired, c, p, end.score);
      pair, paired, c := pair[p.i := p.j], [p.i] + paired, [p] + c;
      at := back[p];
    }
    WalkEnds(rows, reference, alike, best, pair, paired, c, end.score);
  }

  /** The first phase of `compare`: no in-order pairing outscores the one it returns. */
  method BestInOrder(rows: seq<Row>, reference: seq<Row>, alike: seq<seq<Cand>>)
    returns (pair: map<nat, nat>, paired: seq<nat>)
    requires WellFormed(rows, reference, alike)
    ensures BestPairing(rows, reference, alike, pair, paired)
  {
    var back, end;
    ghost var best;
    back, end, best := Forward(rows, reference, alike);
    pair, paired := TraceBack(rows, reference, alike, back, end, best);
    forall c | IsChain(alike, c)
      ensures Le(Value(rows, reference, c), Value(rows, reference, Listed(pair, paired)))
    {
      if c != [] { ChainBound(rows, reference, alike, best, c); }
    }
  }

  /** The pairs of a pairing whose two rows have the same speaker, by their places in it. */
  function KeptSpeakers(rows: seq<Row>, reference: seq<Row>, c: seq<Pair>): set<nat> {
    set k | 0 <= k < |c| && c[k].i < |reference| && c[k].j < |rows|
            && rows[c[k].j].speaker == reference[c[k].i].speaker
  }

  lemma {:induction false} KeptLast(rows: seq<Row>, reference: seq<Row>, c: seq<Pair>, front: seq<Pair>, last: Pair)
    requires c == front + [last]
    ensures |KeptSpeakers(rows, reference, c)| ==
              |KeptSpeakers(rows, reference, front)| + (if SameSpeaker(rows, reference, last) then 1 else 0)
  {
    var kept, n := KeptSpeakers(rows, reference, front), |front|;
    assert c[n] == last && forall k :: 0 <= k < n ==> c[k] == front[k];
    if SameSpeaker(rows, reference, last) {
      assert KeptSpeakers(rows, reference, c) == kept + {n};
    } else {
      assert KeptSpeakers(rows, reference, c) == kept;
    }
  }

  lemma {:induction false} ValueCounts(rows: seq<Row>, reference: seq<Row>, c: seq<Pair>)
    ensures Value(rows, reference, c).pairs == |c|
    ensures Value(rows, reference, c).same == |KeptSpeakers(rows, reference, c)|
  {
    if |c| > 0 {
      var front := c[..|c| - 1];
      ValueCounts(rows, reference, front);
      KeptLast(rows, reference, c, front, c[|c| - 1]);
    } else {
      assert KeptSpeakers(rows, reference, c) == {};
    }
  }

  /**
   * The first phase pairs as many rows as any in-order pairing of alike rows does, and of those with
   * as many pairs none keeps more speakers.
   */
  lemma BestMeans(
    rows: seq<Row>, reference: seq<Row>, alike: seq<seq<Cand>>, pair: map<nat, nat>, paired: seq<nat>, c: seq<Pair>)
    requires BestPairing(rows, reference, alike, pair, paired) && IsChain(alike, c)
    ensures |c| <= |paired|
    ensures |c| == |paired| ==>
              |KeptSpeakers(rows, reference, c)| <= |KeptSpeakers(rows, reference, Listed(pair, paired))|
  {
    ValueCounts(rows, reference, c);
    ValueCounts(rows, reference, Listed(pair, paired));
  }
}
