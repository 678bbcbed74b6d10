/**
 * Draining a listing stream into one result, as the `listObjectsAsync`
 * helper does: each `data` event appends its item, `end` resolves with the
 * items gathered so far, `error` rejects. A promise settles once, so the
 * first `end` or `error` decides the result and later events change nothing.
 */
module StreamDrain {
  import opened Wrappers

  /** One event a listing stream emits. */
  datatype Event<T, E> = Data(item: T) | End | Error(err: E)

  /** The state of the returned promise once the finite event sequence is consumed. */
  datatype Settled<T, E> = Resolved(items: seq<T>) | Rejected(err: E) | Pending

  /** An event that settles the promise. */
  predicate Settles<T, E>(e: Event<T, E>)
  {
    e.End? || e.Error?
  }

  /** No event of `events` settles the promise: all of them are data. */
  predicate Quiet<T, E>(events: seq<Event<T, E>>)
  {
    forall i :: 0 <= i < |events| ==> events[i].Data?
  }

  /** The items of the data events of `events`, in emission order. */
  function Items<T, E>(events: seq<Event<T, E>>): seq<T>
  {
    if events == [] then []
    else (if events[0].Data? then [events[0].item] else []) + Items(events[1..])
  }

  /** The promise's fate when `gathered` items have already been pushed. */
  function SettleFrom<T, E>(gathered: seq<T>, events: seq<Event<T, E>>): Settled<T, E>
    decreases |events|
  {
    if events == [] then Pending
    else match events[0]
      case Data(x) => SettleFrom(gathered + [x], events[1..])
      case End => Resolved(gathered)
      case Error(e) => Rejected(e)
  }

  /** The promise's fate for a fresh drain of `events`. */
  function Settle<T, E>(events: seq<Event<T, E>>): Settled<T, E>
  {
    SettleFrom([], events)
  }

  /** The drain loop: consume events until one settles the promise. */
  method Drain<T, E>(events: seq<Event<T, E>>) returns (r: Settled<T, E>)
    ensures r == Settle(events)
  {
    var data: seq<T> := [];
    var i := 0;
    while i < |events|
      invariant 0 <= i <= |events|
      invariant SettleFrom(data, events[i..]) == Settle(events)
    {
      assert events[i..][1..] == events[i + 1..];
      match events[i] {
        case Data(x) =>
          data := data + [x];
        case End =>
          return Resolved(data);
        case Error(e) =>
          return Rejected(e);
      }
      i := i + 1;
    }
    return Pending;
  }

  /** Data events only: the items are exactly their payloads, in order. */
  lemma {:induction false} QuietItems<T, E>(events: seq<Event<T, E>>)
    requires Quiet(events)
    ensures |Items(events)| == |events|
    ensures forall i :: 0 <= i < |events| ==> Items(events)[i] == events[i].item
  {
    if events != [] {
      QuietItems(events[1..]);
    }
  }

  /**
   * With `k` data events before the first settling event at position `k`,
   * a drain that has gathered `gathered` ends as that event says, with
   * the `k` items appended.
   */
  lemma {:induction false} SettleFromAt<T, E>(gathered: seq<T>, events: seq<Event<T, E>>, k: nat)
    requires k < |events| && Quiet(events[..k]) && Settles(events[k])
    decreases k
    ensures SettleFrom(gathered, events)
         == if events[k].End? then Resolved(gathered + Items(events[..k])) else Rejected(events[k].err)
  {
    if k > 0 {
      assert events[..k][1..] == events[1..][..k - 1];
      SettleFromAt(gathered + [events[0].item], events[1..], k - 1);
      assert gathered + [events[0].item] + Items(events[1..][..k - 1])
          == gathered + Items(events[..k]);
    } else {
      assert events[..k] == [];
    }
  }

  /** End after data: the drain resolves with exactly the data items, possibly none. */
  lemma SettleResolves<T, E>(events: seq<Event<T, E>>, k: nat)
    requires k < |events| && Quiet(events[..k]) && events[k].End?
    ensures Settle(events) == Resolved(Items(events[..k]))
    ensures |Settle(events).items| == k
  {
    SettleFromAt([], events, k);
    QuietItems(events[..k]);
  }

  /** An error before any end rejects with that error; the gathered items are dropped. */
  lemma SettleRejects<T, E>(events: seq<Event<T, E>>, k: nat)
    requires k < |events| && Quiet(events[..k]) && events[k].Error?
    ensures Settle(events) == Rejected(events[k].err)
  {
    SettleFromAt([], events, k);
  }

  /** A stream that neither ends nor fails leaves the promise pending. */
  lemma {:induction false} SettlePending<T, E>(gathered: seq<T>, events: seq<Event<T, E>>)
    requires Quiet(events)
    ensures SettleFrom(gathered, events) == Pending
    decreases |events|
  {
    if events != [] {
      assert Quiet(events[1..]) by {
        forall i | 0 <= i < |events| - 1 ensures events[1..][i].Data? {
          assert events[1..][i] == events[i + 1];
        }
      }
      SettlePending(gathered + [events[0].item], events[1..]);
    }
  }

  /** The first settling event wins: whatever follows it is ignored. */
  lemma FirstSettlingEventWins<T, E>(before: seq<Event<T, E>>, s: Event<T, E>, after: seq<Event<T, E>>)
    requires Quiet(before) && Settles(s)
    ensures Settle(before + [s] + after) == Settle(before + [s])
  {
    var k := |before|;
    assert (before + [s] + after)[..k] == before;
    assert (before + [s])[..k] == before;
    SettleFromAt([], before + [s] + after, k);
    SettleFromAt([], before + [s], k);
  }

  /**
   * Collecting by hand with only `data` and `end` listeners, as a caller
   * without the helper would: the items before the first end, if there is one.
   * With no error listener an error event throws, so that collection never resolves.
   */
  function ManualCollect<T, E>(events: seq<Event<T, E>>): Option<seq<T>>
  {
    if events == [] then None
    else match events[0]
      case Data(x) => (match ManualCollect(events[1..])
                        case Some(xs) => Some([x] + xs)
                        case None => None)
      case End => Some([])
      case Error(_) => None
  }

  /** A stream that reports no error resolves the helper iff it ends, with the hand-collected items. */
  lemma {:induction false} DrainMatchesManualCollect<T, E>(events: seq<Event<T, E>>, gathered: seq<T>)
    requires forall i :: 0 <= i < |events| ==> !events[i].Error?
    ensures SettleFrom(gathered, events).Resolved? <==> ManualCollect(events).Some?
    ensures ManualCollect(events).Some? ==>
      SettleFrom(gathered, events) == Resolved(gathered + ManualCollect(events).value)
    ensures ManualCollect(events).None? ==> SettleFrom(gathered, events) == Pending
  {
    if events != [] {
      if events[0].Data? {
        DrainMatchesManualCollect(events[1..], gathered + [events[0].item]);
      } else {
        assert events[0].End?;
      }
    }
  }

}
