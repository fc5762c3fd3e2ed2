/** The steps of Sittings as the code takes them (api/src/api/session.py): loops over the module's lists. */
module RecordingLife {
  import opened Prelude
  import opened Sittings
  import opened SittingsHandOff

  class Recording {
    var row: Option<Row>
    var nextToken: nat
    var sittings: seq<Sitting>
    var closing: Option<nat>
    var unfinalized: seq<nat>

    ghost function View(): World
      reads this
    {
      World(row, nextToken, sittings, closing, unfinalized)
    }

    constructor ()
      ensures View() == EMPTY
    {
      row, nextToken, sittings, closing, unfinalized := None, 0, [], None, [];
    }

    /** `_resume_offset_ms`, up to its first await: each sitting still finishing learns its successor. */
    method BeginSitting()
      requires forall d :: d in unfinalized ==> d < |sittings|
      requires closing.Some? ==> closing.value < |sittings|
      modifies this
      ensures View() == BeginStep(old(View()))
    {
      var n := |sittings|;
      for k := 0 to |unfinalized|
        invariant row == old(row) && nextToken == old(nextToken)
        invariant closing == old(closing) && unfinalized == old(unfinalized)
        invariant sittings == Link(old(sittings), unfinalized[..k], n)
      {
        var d := unfinalized[k];
        assert d in unfinalized;
        sittings := sittings[d := sittings[d].(successor := Some(n))];
        assert unfinalized[..k + 1] == unfinalized[..k] + [d];
      }
      if closing.Some? {
        var prior := closing.value;
        sittings := sittings[prior := sittings[prior].(successor := Some(n))];
      }
      assert sittings == Link(old(sittings), old(unfinalized) + (if closing.Some? then [closing.value] else []), n);
      sittings := sittings + [NEWCOMER];
    }

    /** `_resumed_live`: follows the successors. */
    method ResumedLiveNow(i: nat) returns (live: bool)
      requires LinksForward(sittings) && i < |sittings|
      ensures live == ResumedLive(sittings, sittings[i].successor)
      ensures live <==> LaterRecords(sittings, i)
    {
      WalkIff(sittings, sittings[i].successor);
      var later := sittings[i].successor;
      while later.Some?
        invariant later.Some? ==> later.value < |sittings|
        invariant ResumedLive(sittings, later) == ResumedLive(sittings, sittings[i].successor)
        decreases if later.Some? then |sittings| - later.value else 0
      {
        var s := sittings[later.value];
        if s.rowOpened && !s.Closed() {
          return true;
        }
        later := s.successor;
      }
      return false;
    }

    /** The create() or reopen() call of sitting i, as the store answers it. */
    method RunCreate(i: nat, outcome: Outcome)
      requires i < |sittings|
      modifies this
      ensures View() == CreateStep(old(View()), i, outcome)
    {
      var s := sittings[i];
      var writes := (i == 0 || row.Some?) && (outcome.Ok? || outcome.applied);
      var token := nextToken;
      if outcome.Ok? {
        sittings := sittings[i := s.(create := if writes then Opened(token) else Gone)];
      } else {
        sittings := sittings[i := s.(create := Raised)];
      }
      if writes {
        row, nextToken := Some(Row(true, token)), token + 1;
      }
    }

    /** The end of `_persist` and the start of `_finalize`, up to the finish() call. */
    method FinalizeSitting(i: nat, writesStored: bool)
      requires i < |sittings| && LinksForward(sittings)
      modifies this
      ensures View() == FinalizeStep(old(View()), i, writesStored)
    {
      var s := sittings[i];
      if s.startFailed && !s.rowOpened {
        sittings := sittings[i := s.(phase := Torn)];
        return;
      }
      if !writesStored {
        sittings := sittings[i := s.(phase := Torn)];
        unfinalized := unfinalized + [i];
        return;
      }
      var live := ResumedLiveNow(i);
      if live {
        sittings := sittings[i := s.(phase := Torn, handedOff := true)];
        return;
      }
      sittings := sittings[i := s.(phase := Finishing(s.Token()))];
    }

    /** One turn of `_finalize_deferred` for sitting i, up to the finish() call. */
    method RetryDeferred(i: nat, writesStored: bool)
      requires i < |sittings| && LinksForward(sittings)
      modifies this
      ensures View() == RetryStep(old(View()), i, writesStored)
    {
      if !writesStored {
        return;
      }
      var s := sittings[i];
      var live := ResumedLiveNow(i);
      if live {
        sittings := sittings[i := s.(handedOff := true)];
        unfinalized := Without(unfinalized, i);
        return;
      }
      sittings := sittings[i := s.(phase := Retrying(s.Token()))];
    }

    /** The store's finish(): readies the row the token still matches. */
    method StoreFinish(i: nat)
      requires i < |sittings| && (sittings[i].phase.Finishing? || sittings[i].phase.Retrying?)
      modifies this
      ensures View() == FinishCall(old(View()), i, true)
    {
      var s := sittings[i];
      var token := s.phase.token;
      if row.Some? && (token.None? || token.value == row.value.openedAt) {
        sittings := sittings[i := s.(readied := Some(row.value.openedAt))];
        row := Some(row.value.(live := false));
      }
    }

    /** The finish() call, and what `_finalize` makes of its answer. */
    method RunFinish(i: nat, outcome: Outcome)
      requires i < |sittings| && (sittings[i].phase.Finishing? || sittings[i].phase.Retrying?)
      modifies this
      ensures View() == FinishStep(old(View()), i, outcome)
    {
      if outcome.Ok? || outcome.applied {
        StoreFinish(i);
      }
      var s := sittings[i];
      match outcome {
        case Ok =>
          if s.phase.token.Some? && row.Some? && row.value.live {
            sittings := sittings[i := s.(phase := Torn, handedOff := true)];
          } else {
            sittings := sittings[i := s.(phase := Torn, finished := true)];
          }
          unfinalized := Without(unfinalized, i);
        case Retryable(_) =>
          if s.phase.Finishing? {
            unfinalized := unfinalized + [i];
          }
          sittings := sittings[i := s.(phase := Torn)];
        case Hard(applied) =>
          sittings := sittings[i := s.(phase := Torn, failed := !applied)];
          unfinalized := Without(unfinalized, i);
      }
    }
  }
}
