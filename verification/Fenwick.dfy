/** The Fenwick tree of prefix maxima behind `compare` (scripts/caption_ocr/caption_replay.py). */
module Fenwick {
  import opened Prelude

  /** One reference row paired with one stored row. */
  datatype Pair = Pair(i: nat, j: nat)

  /** A chain's value: how many pairs, then how many of them kept their speaker. */
  datatype Score = Score(pairs: nat, same: nat)

  /** A tree entry: a chain's value and its last pair, as the tuples `compare` stores. */
  datatype Node = Node(score: Score, at: Option<Pair>)

  const ZERO := Node(Score(0, 0), None)

  predicate Le(a: Score, b: Score) {
    a.pairs < b.pairs || (a.pairs == b.pairs && a.same <= b.same)
  }

  function Add(a: Score, b: Score): Score {
    Score(a.pairs + b.pairs, a.same + b.same)
  }

  /** Python's two-argument `max` by score: the first wins a tie. */
  function Better(a: Node, b: Node): Node {
    if Le(b.score, a.score) then a else b
  }

  /** `k & -k`: the largest power of two dividing k. */
  function LowBit(k: nat): (b: nat)
    requires k > 0
    ensures 0 < b <= k
  {
    if k % 2 == 1 then 1 else 2 * LowBit(k / 2)
  }

  /** Stepping up by the low bit at least doubles it, so the next range swallows this one. */
  lemma {:induction false} LowBitClimbs(k: nat)
    requires k > 0
    ensures LowBit(k + LowBit(k)) >= 2 * LowBit(k)
  {
    if k % 2 == 0 {
      LowBitClimbs(k / 2);
      assert k + LowBit(k) == 2 * (k / 2 + LowBit(k / 2));
    }
  }

  /** An index strictly between k and the next step up covers nothing at or below k. */
  lemma {:induction false} LowBitBetween(k: nat, r: nat)
    requires k > 0 && 0 < r < LowBit(k)
    ensures LowBit(k + r) <= r
  {
    if r % 2 == 0 {
      LowBitBetween(k / 2, r / 2);
      assert k + r == 2 * (k / 2 + r / 2);
    }
  }

  /** `out` is the naive maximum of the nodes put at rows [lo, hi), or ZERO if there is none. */
  ghost predicate IsMaxOver(out: Node, puts: set<Node>, lo: int, hi: int) {
    && (out == ZERO || (out in puts && out.at.Some? && lo <= out.at.value.j < hi))
    && (forall nd :: nd in puts && nd.at.Some? && lo <= nd.at.value.j < hi ==> Le(nd.score, out.score))
  }

  /** Entry k is the maximum of `puts` over its own range. */
  ghost predicate EntryOk(t: seq<Node>, puts: set<Node>, k: nat)
    requires 1 <= k < |t|
  {
    IsMaxOver(t[k], puts, k - LowBit(k), k)
  }

  /** Entry k of the tree is the maximum over rows [k - LowBit(k), k). */
  ghost predicate Covers(tree: seq<Node>, puts: set<Node>) {
    forall k :: 1 <= k < |tree| ==> EntryOk(tree, puts, k)
  }

  lemma MaxGains(out: Node, puts: set<Node>, value: Node, lo: int, hi: int)
    requires IsMaxOver(out, puts, lo, hi)
    requires value.at.Some? && lo <= value.at.value.j < hi
    ensures IsMaxOver(Better(out, value), puts + {value}, lo, hi)
  {}

  lemma MaxKeeps(out: Node, puts: set<Node>, value: Node, lo: int, hi: int)
    requires IsMaxOver(out, puts, lo, hi)
    requires value.at.Some? && !(lo <= value.at.value.j < hi)
    ensures IsMaxOver(out, puts + {value}, lo, hi)
  {}

  /** The best node put at a row below j, as a scan over every put would find it. */
  method BestBelow(tree: array<Node>, ghost puts: set<Node>, below: nat) returns (out: Node)
    requires below < tree.Length
    requires Covers(tree[..], puts)
    ensures IsMaxOver(out, puts, 0, below)
  {
    out := ZERO;
    var j := below;
    while j > 0
      invariant j <= below
      invariant IsMaxOver(out, puts, j, below)
    {
      assert EntryOk(tree[..], puts, j);
      out := Better(out, tree[j]);
      j := j - LowBit(j);
    }
  }

  /** Midway through a put: entries below j have the value, entries from j on do not yet. */
  ghost predicate PartlyPut(t: seq<Node>, puts: set<Node>, value: Node, j: nat)
    requires value.at.Some?
  {
    && 0 < j && j - LowBit(j) <= value.at.value.j < j
    && (forall k :: 1 <= k < |t| && k < j ==> EntryOk(t, puts + {value}, k))
    && (forall k :: j <= k < |t| ==> EntryOk(t, puts, k))
  }

  /** The entries a put steps over do not range over the put row. */
  lemma StepsOver(t: seq<Node>, puts: set<Node>, value: Node, j: nat, k: nat)
    requires value.at.Some? && 0 < j < k < j + LowBit(j) && k < |t|
    requires value.at.value.j < j && EntryOk(t, puts, k)
    ensures EntryOk(t, puts + {value}, k)
  {
    LowBitBetween(j, k - j);
    MaxKeeps(t[k], puts, value, k - LowBit(k), k);
  }

  /** The entry a put changes has the value from then on. */
  lemma PutHere(t: seq<Node>, puts: set<Node>, value: Node, j: nat)
    requires value.at.Some? && 1 <= j < |t| && j - LowBit(j) <= value.at.value.j < j && EntryOk(t, puts, j)
    ensures EntryOk(t[j := Better(t[j], value)], puts + {value}, j)
  {
    MaxGains(t[j], puts, value, j - LowBit(j), j);
  }

  lemma SameEntry(t: seq<Node>, u: seq<Node>, puts: set<Node>, k: nat)
    requires 1 <= k < |t| && |u| == |t| && u[k] == t[k] && EntryOk(t, puts, k)
    ensures EntryOk(u, puts, k)
  {}

  /** What a put makes of each entry: those below the next one to change have the value. */
  lemma PutEntry(t: seq<Node>, puts: set<Node>, value: Node, j: nat, k: nat)
    requires value.at.Some? && 1 <= j < |t| && 1 <= k < |t| && PartlyPut(t, puts, value, j)
    ensures k < j + LowBit(j) ==> EntryOk(t[j := Better(t[j], value)], puts + {value}, k)
    ensures k >= j + LowBit(j) ==> EntryOk(t[j := Better(t[j], value)], puts, k)
  {
    if k == j {
      assert EntryOk(t, puts, j);
      PutHere(t, puts, value, j);
    } else {
      if k < j { assert EntryOk(t, puts + {value}, k); } else { assert EntryOk(t, puts, k); }
      if j < k < j + LowBit(j) { StepsOver(t, puts, value, j, k); }
      SameEntry(t, t[j := Better(t[j], value)], if k < j + LowBit(j) then puts + {value} else puts, k);
    }
  }

  lemma PutStep(t: seq<Node>, puts: set<Node>, value: Node, j: nat)
    requires value.at.Some? && 1 <= j < |t|
    requires PartlyPut(t, puts, value, j)
    ensures PartlyPut(t[j := Better(t[j], value)], puts, value, j + LowBit(j))
  {
    var u, next := t[j := Better(t[j], value)], j + LowBit(j);
    LowBitClimbs(j);
    forall k | 1 <= k < |t| && k < next ensures EntryOk(u, puts + {value}, k) { PutEntry(t, puts, value, j, k); }
    forall k | next <= k < |t| ensures EntryOk(u, puts, k) { PutEntry(t, puts, value, j, k); }
  }

  /** Records `value` at its row: afterwards the tree covers the puts with it added. */
  method Put(tree: array<Node>, ghost puts: set<Node>, value: Node)
    requires value.at.Some? && value.at.value.j + 1 < tree.Length
    requires Covers(tree[..], puts)
    modifies tree
    ensures Covers(tree[..], puts + {value})
  {
    var j := value.at.value.j + 1;
    forall k | 1 <= k < j ensures EntryOk(tree[..], puts + {value}, k) {
      assert EntryOk(tree[..], puts, k);
      MaxKeeps(tree[k], puts, value, k - LowBit(k), k);
    }
    while j < tree.Length
      invariant j > 0 && PartlyPut(tree[..], puts, value, j)
      decreases tree.Length - j
    {
      PutStep(tree[..], puts, value, j);
      ghost var was := tree[..];
      tree[j] := Better(tree[j], value);
      assert tree[..] == was[j := Better(was[j], value)];
      j := j + LowBit(j);
    }
  }
}
