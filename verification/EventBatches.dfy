/**
  Sending analytics events: the order-preserving split into requests, the filter by
  kind of authentication in front of it, and the bounded memory of keys already sent.
 */
module EventBatches {
  import opened Prelude

  // ---- Batching ------------------------------------------------------------------

  function Flatten<T>(batches: seq<seq<T>>): seq<T> {
    if |batches| == 0 then [] else Flatten(batches[..|batches| - 1]) + batches[|batches| - 1]
  }

  /** A batch that may be sent: not empty, and an isolated event travels alone. */
  predicate IsSendable<T>(isolated: T -> bool, batch: seq<T>) {
    batch != [] && (|batch| > 1 ==> forall i | 0 <= i < |batch| :: !isolated(batch[i]))
  }

  predicate AreSendable<T>(isolated: T -> bool, batches: seq<seq<T>>) {
    forall i | 0 <= i < |batches| :: IsSendable(isolated, batches[i])
  }

  /** How many requests the events need: one per isolated event, one per run of others. */
  function RequestsNeeded<T>(isolated: T -> bool, events: seq<T>): nat {
    if |events| == 0 then 0
    else
      var n := RequestsNeeded(isolated, events[..|events| - 1]);
      if isolated(events[|events| - 1]) || !EndsOpen(isolated, events[..|events| - 1]) then n + 1 else n
  }

  /** Whether the last event can be joined by another in the same request. */
  predicate EndsOpen<T>(isolated: T -> bool, events: seq<T>) {
    |events| > 0 && !isolated(events[|events| - 1])
  }

  /** Where the batching loop stands after reading `events`. */
  ghost predicate Batching<T>(isolated: T -> bool, events: seq<T>, batches: seq<seq<T>>, current: seq<T>) {
    && Flatten(batches) + current == events
    && AreSendable(isolated, batches)
    && (forall i | 0 <= i < |current| :: !isolated(current[i]))
    && (current != [] <==> EndsOpen(isolated, events))
    && |batches| + (if current == [] then 0 else 1) == RequestsNeeded(isolated, events)
  }

  /** The batching loop: the batches concatenate back to the input and are sendable. */
  method TrackEventRequestBatches<T>(isolated: T -> bool, events: seq<T>) returns (batches: seq<seq<T>>)
    ensures Flatten(batches) == events
    ensures AreSendable(isolated, batches)
    ensures |batches| == RequestsNeeded(isolated, events)
  {
    batches := [];
    var current: seq<T> := [];
    for k := 0 to |events|
      invariant Batching(isolated, events[..k], batches, current)
    {
      var event := events[k];
      assert events[..k + 1] == events[..k] + [event];
      ReadEvent(isolated, events[..k], batches, current, event);
      if isolated(event) {
        if current != [] {
          batches, current := batches + [current], [];
        }
        batches := batches + [[event]];
      } else {
        current := current + [event];
      }
    }
    assert events[..|events|] == events;
    if current != [] {
      AppendBatch(isolated, batches, current);
      batches := batches + [current];
    }
  }

  lemma AppendBatch<T>(isolated: T -> bool, batches: seq<seq<T>>, batch: seq<T>)
    requires AreSendable(isolated, batches) && IsSendable(isolated, batch)
    ensures Flatten(batches + [batch]) == Flatten(batches) + batch
    ensures AreSendable(isolated, batches + [batch])
  {
    assert (batches + [batch])[..|batches|] == batches;
  }

  /** The three ways in which the loop places one more event. */
  lemma ReadEvent<T>(isolated: T -> bool, events: seq<T>, batches: seq<seq<T>>, current: seq<T>, event: T)
    requires Batching(isolated, events, batches, current)
    ensures !isolated(event) ==> Batching(isolated, events + [event], batches, current + [event])
    ensures isolated(event) && current == [] ==> Batching(isolated, events + [event], batches + [[event]], [])
    ensures isolated(event) && current != [] ==>
              Batching(isolated, events + [event], batches + [current] + [[event]], [])
  {
    assert (events + [event])[..|events|] == events;
    if !isolated(event) {
      assert Flatten(batches) + (current + [event]) == Flatten(batches) + current + [event];
    } else if current == [] {
      AppendBatch(isolated, batches, [event]);
    } else {
      AppendBatch(isolated, batches, current);
      AppendBatch(isolated, batches + [current], [event]);
    }
  }

  lemma {:induction false} OneMoreBatch<T>(isolated: T -> bool, events: seq<T>, batch: seq<T>)
    requires IsSendable(isolated, batch)
    ensures RequestsNeeded(isolated, events + batch) <= RequestsNeeded(isolated, events) + 1
    ensures |batch| > 1 ==> EndsOpen(isolated, events + batch)
  {
    var init, last := batch[..|batch| - 1], batch[|batch| - 1];
    assert (events + batch)[..|events + batch| - 1] == events + init;
    if |batch| == 1 {
      assert events + init == events;
    } else {
      assert !isolated(last);
      OneMoreBatch(isolated, events, init);
      assert EndsOpen(isolated, events + init) by {
        assert (events + init)[|events + init| - 1] == init[|init| - 1];
        assert !isolated(batch[|batch| - 2]);
      }
    }
  }

  /** No order-preserving split into sendable batches uses fewer requests. */
  lemma {:induction false} FewestBatches<T>(isolated: T -> bool, batches: seq<seq<T>>)
    requires AreSendable(isolated, batches)
    ensures RequestsNeeded(isolated, Flatten(batches)) <= |batches|
  {
    if |batches| > 0 {
      FewestBatches(isolated, batches[..|batches| - 1]);
      OneMoreBatch(isolated, Flatten(batches[..|batches| - 1]), batches[|batches| - 1]);
    }
  }

  // ---- Authentication filter -----------------------------------------------------

  datatype Auth = NoAuth | ApiKey | CodexBackend | OtherAuth

  /** The events that may leave the process under the current authentication. */
  function Permitted<T>(auth: Auth, allowed: T -> bool, events: seq<T>): seq<T> {
    match auth
    case NoAuth => []
    case ApiKey => Filter(allowed, events)
    case CodexBackend => events
    case OtherAuth => []
  }

  /** Everything permitted is posted, in order, in the fewest sendable requests. */
  method SendTrackEvents<T>(auth: Auth, allowed: T -> bool, isolated: T -> bool, events: seq<T>)
    returns (posted: seq<seq<T>>)
    ensures Flatten(posted) == Permitted(auth, allowed, events)
    ensures AreSendable(isolated, posted)
    ensures forall other: seq<seq<T>> | AreSendable(isolated, other) && Flatten(other) == Flatten(posted) ::
              |posted| <= |other|
  {
    posted := [];
    var kept := events;
    if events == [] || auth.NoAuth? {
      kept := [];
    } else if auth.ApiKey? {
      kept := Filter(allowed, events);
    } else if !auth.CodexBackend? {
      kept := [];
    }
    posted := TrackEventRequestBatches(isolated, kept);
    forall other: seq<seq<T>> | AreSendable(isolated, other) && Flatten(other) == Flatten(posted)
      ensures |posted| <= |other|
    {
      FewestBatches(isolated, other);
    }
  }

  // ---- The memory of keys already sent ---------------------------------------------

  const DEDUPE_MAX_KEYS := 4096

  /** Whether this offer empties a full memory; the plugin variant does so even for an event without a key. */
  predicate Empties<K>(eager: bool, emitted: set<K>, offer: Option<K>) {
    |emitted| >= DEDUPE_MAX_KEYS && (eager || offer.Some?)
  }

  function Remember<K>(eager: bool, emitted: set<K>, offer: Option<K>): set<K> {
    var kept := if Empties(eager, emitted, offer) then {} else emitted;
    if offer.Some? then kept + {offer.value} else kept
  }

  /** The memory after a run of offers. */
  function Emitted<K>(eager: bool, offers: seq<Option<K>>): set<K> {
    if |offers| == 0 then {}
    else Remember(eager, Emitted(eager, offers[..|offers| - 1]), offers[|offers| - 1])
  }

  /** Whether an offer is let through: always without a key, otherwise if the key is not remembered. */
  predicate IsSent<K(==)>(eager: bool, emitted: set<K>, offer: Option<K>) {
    offer.None? || Empties(eager, emitted, offer) || offer.value !in emitted
  }

  /** How often the event for `key` was let through. */
  function TimesSent<K(==)>(eager: bool, offers: seq<Option<K>>, key: K): nat {
    if |offers| == 0 then 0
    else
      var init, last := offers[..|offers| - 1], offers[|offers| - 1];
      TimesSent(eager, init, key) + if last == Some(key) && IsSent(eager, Emitted(eager, init), last) then 1 else 0
  }

  function Clears<K(==)>(eager: bool, offers: seq<Option<K>>): nat {
    if |offers| == 0 then 0
    else
      var init := offers[..|offers| - 1];
      Clears(eager, init) + if Empties(eager, Emitted(eager, init), offers[|offers| - 1]) then 1 else 0
  }

  lemma {:induction false} EmittedBounded<K>(eager: bool, offers: seq<Option<K>>)
    ensures |Emitted(eager, offers)| <= DEDUPE_MAX_KEYS
    ensures Clears(eager, offers) * DEDUPE_MAX_KEYS + |Emitted(eager, offers)| <= |offers|
  {
    if |offers| > 0 {
      var init := offers[..|offers| - 1];
      EmittedBounded(eager, init);
    }
  }

  lemma {:induction false} SentOncePerEpoch<K>(eager: bool, offers: seq<Option<K>>, key: K)
    ensures TimesSent(eager, offers, key)
            <= Clears(eager, offers) + (if key in Emitted(eager, offers) then 1 else 0)
    ensures Some(key) in offers ==> TimesSent(eager, offers, key) >= 1
  {
    if |offers| > 0 {
      var init := offers[..|offers| - 1];
      SentOncePerEpoch(eager, init, key);
      EmittedWasSent(eager, init, key);
    }
  }

  lemma {:induction false} EmittedWasSent<K>(eager: bool, offers: seq<Option<K>>, key: K)
    ensures key in Emitted(eager, offers) ==> TimesSent(eager, offers, key) >= 1
  {
    if |offers| > 0 {
      EmittedWasSent(eager, offers[..|offers| - 1], key);
    }
  }

  /**
    Every distinct key gets through at least once, and a repeat gets through only
    because the memory was emptied: at most once per 4096 offers, and never within
    the first 4096.
   */
  lemma DuplicatesAreRare<K>(eager: bool, offers: seq<Option<K>>, key: K)
    ensures Some(key) in offers ==> TimesSent(eager, offers, key) >= 1
    ensures TimesSent(eager, offers, key) <= 1 + |offers| / DEDUPE_MAX_KEYS
    ensures |offers| <= DEDUPE_MAX_KEYS ==> TimesSent(eager, offers, key) <= 1
  {
    SentOncePerEpoch(eager, offers, key);
    EmittedBounded(eager, offers);
  }

  /** One memory of emitted keys: `eager` for plugins, not for apps. */
  class EmittedKeys<K(==)> {
    const eager: bool
    var emitted: set<K>
    ghost var offers: seq<Option<K>>

    ghost predicate Valid()
      reads this
    {
      emitted == Emitted(eager, offers)
    }

    constructor (eager: bool)
      ensures Valid() && this.eager == eager && offers == []
    {
      this.eager, emitted, offers := eager, {}, [];
    }

    method ShouldEnqueue(offer: Option<K>) returns (send: bool)
      requires Valid()
      modifies this
      ensures Valid() && offers == old(offers) + [offer]
      ensures send == IsSent(eager, Emitted(eager, old(offers)), offer)
    {
      offers := offers + [offer];
      assert offers[..|offers| - 1] == old(offers);
      if eager && |emitted| >= DEDUPE_MAX_KEYS {
        emitted := {};
      }
      if offer.None? {
        return true;
      }
      if |emitted| >= DEDUPE_MAX_KEYS {
        emitted := {};
      }
      send := offer.value !in emitted;
      emitted := emitted + {offer.value};
    }
  }
}
