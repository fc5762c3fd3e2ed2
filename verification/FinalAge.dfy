/**
 * How old the audio behind a final is (api/src/api/session.py): the arrivals are searched from the
 * front and what lies before the final is thrown away as the search goes.
 */
module FinalAge {
  import opened Prelude

  const ARRIVALS_MAX: nat := 6000

  /** Where on the timeline a push of audio ended, and when it arrived. */
  datatype Arrival = Arrival(pos: int, at: int)

  ghost predicate InOrder(all: seq<Arrival>) {
    forall j, k :: 0 <= j < k < |all| ==> all[j].pos <= all[k].pos && all[j].at <= all[k].at
  }

  predicate Covered(all: seq<Arrival>, end: int) { |all| > 0 && end <= all[|all| - 1].pos }

  /** The first push at or past `end`, of those from the k-th on. */
  function First(all: seq<Arrival>, end: int, k: nat := 0): (r: nat)
    requires Covered(all, end) && k < |all|
    ensures k <= r < |all| && end <= all[r].pos && forall j :: k <= j < r ==> all[j].pos < end
    decreases |all| - k
  {
    if end <= all[k].pos then k else First(all, end, k + 1)
  }

  /** The age by the whole history: nothing dates a final past all audio. */
  function Age(all: seq<Arrival>, end: int, now: int): int {
    if Covered(all, end) then now - all[First(all, end)].at else 0
  }

  /** The age by what is left of the history once its first `lost` pushes are gone. */
  function LeftAge(all: seq<Arrival>, lost: nat, end: int, now: int): int
    requires lost < |all| || |all| == 0
  {
    if Covered(all, end) then now - all[Max(lost, First(all, end))].at else 0
  }

  /**
   * What is left never makes the final look older than it is, and gives its age exactly when the push
   * searched for is left, or arrived no earlier than the oldest that is.
   */
  lemma {:induction false} LeftAgeIff(all: seq<Arrival>, lost: nat, end: int, now: int)
    requires InOrder(all) && lost < |all| && Covered(all, end)
    ensures LeftAge(all, lost, end, now) <= Age(all, end, now)
    ensures LeftAge(all, lost, end, now) == Age(all, end, now) <==>
              lost <= First(all, end) || all[First(all, end)].at == all[lost].at
  {
    var r := First(all, end);
    if r < lost { assert all[r].at <= all[lost].at; }
  }

  /** The first `lost` pushes all end before `end`. */
  ghost predicate Passed(all: seq<Arrival>, lost: nat, end: int) {
    lost <= |all| && forall k :: 0 <= k < lost ==> all[k].pos < end
  }

  /** The age found at the push the search stops at, and what it has passed by then. */
  lemma AgeFound(all: seq<Arrival>, lost: nat, end: int, now: int, latest: int)
    requires Covered(all, end) && lost < |all|
    ensures LeftAge(all, lost, end, now) == now - all[Max(lost, First(all, end))].at
    ensures Passed(all, lost, latest) ==> Passed(all, Max(lost, First(all, end)), Max(latest, end))
    ensures Passed(all, lost, latest) && latest <= end ==> LeftAge(all, lost, end, now) == Age(all, end, now)
  {
    var r := First(all, end);
    assert r < lost && Passed(all, lost, latest) ==> all[r].pos < latest;
  }

  /** What is left covers a final exactly when the history does. */
  lemma SameCover(all: seq<Arrival>, left: seq<Arrival>, lost: nat, end: int)
    requires lost < |all| && left == all[lost..]
    ensures Covered(left, end) == Covered(all, end)
  {}

  class Arrivals {
    var samples: seq<Arrival>
    ghost var all: seq<Arrival>
    ghost var lost: nat
    /** The greatest end any final had so far, and whether the cap has pushed a sample out. */
    ghost var latestEnd: int
    ghost var capped: bool

    ghost predicate Valid()
      reads this
    {
      && InOrder(all) && lost <= |all| && samples == all[lost..] && (|all| > 0 ==> |samples| > 0)
      && (!capped ==> Passed(all, lost, latestEnd))
    }

    constructor ()
      ensures Valid() && all == [] && !capped
    {
      samples, all, lost, latestEnd, capped := [], [], 0, 0, false;
    }

    /** `on_audio`'s part: a bounded deque of arrivals. */
    method OnAudio(pos: int, at: int)
      requires Valid() && (|all| > 0 ==> all[|all| - 1].pos <= pos && all[|all| - 1].at <= at)
      modifies this
      ensures Valid() && all == old(all) + [Arrival(pos, at)] && latestEnd == old(latestEnd)
      ensures |old(samples)| < ARRIVALS_MAX ==> capped == old(capped)
    {
      samples := samples + [Arrival(pos, at)];
      all := all + [Arrival(pos, at)];
      if |samples| > ARRIVALS_MAX {
        samples := samples[1..];
        lost, capped := lost + 1, true;
      }
    }

    /** The search: what lies before `end` is thrown away, down to the push that covers it. */
    method DropBefore(end: int)
      requires InOrder(all) && lost <= |all| && samples == all[lost..] && |samples| > 0 && Covered(all, end)
      modifies this`samples, this`lost
      ensures lost < |all| && samples == all[lost..] && lost == Max(old(lost), First(all, end))
      ensures |samples| > 0 && samples[0] == all[lost]
    {
      while |samples| > 1 && samples[0].pos < end
        invariant old(lost) <= lost <= Max(old(lost), First(all, end)) && |samples| > 0 && samples == all[lost..]
      {
        assert samples[0] == all[lost];
        samples := samples[1..];
        lost := lost + 1;
      }
      assert samples[0] == all[lost];
    }

    /** The age of a final that dated audio covers. */
    method CoveredAge(end: int, now: int) returns (age: int)
      requires Valid() && Covered(all, end)
      modifies this
      ensures Valid() && all == old(all) && latestEnd == Max(old(latestEnd), end) && capped == old(capped)
      ensures lost == Max(old(lost), First(all, end)) && age == LeftAge(all, old(lost), end, now)
      ensures !capped && old(latestEnd) <= end ==> age == Age(all, end, now)
    {
      AgeFound(all, lost, end, now, latestEnd);
      latestEnd := Max(latestEnd, end);
      DropBefore(end);
      return now - samples[0].at;
    }

    /**
     * `_final_age_s`: the age by what is left, found while throwing away what the final has passed.
     * For finals in timeline order, below the cap, it is the age by the whole history.
     */
    method FinalAge(end: int, now: int) returns (age: int)
      requires Valid()
      modifies this
      ensures Valid() && all == old(all) && latestEnd == Max(old(latestEnd), end) && capped == old(capped)
      ensures lost == if Covered(all, end) then Max(old(lost), First(all, end)) else old(lost)
      ensures age == LeftAge(all, old(lost), end, now)
      ensures !capped && old(latestEnd) <= end ==> age == Age(all, end, now)
    {
      if |samples| == 0 || end > samples[|samples| - 1].pos {
        latestEnd := Max(latestEnd, end);
        return 0;
      }
      SameCover(all, samples, lost, end);
      age := CoveredAge(end, now);
    }
  }
}
