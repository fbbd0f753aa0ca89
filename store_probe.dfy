/**
 * `_canAccessChromeWebStore`: a promise that a 3000 ms timer resolves with
 * `false` and the settling of a `fetch` of the Chrome Web Store page
 * resolves with `true` (success and failure alike). A promise settles once;
 * the later `resolve` call is ignored. Time is replaced by the order in which
 * the callbacks run, which is an input.
 */
module StoreProbe {

  import opened Wrappers

  /** The delay of the timer that gives up on the store. */
  const StoreProbeTimeoutMs: nat := 3000

  /** A callback that calls `resolve`. */
  datatype ProbeEvent =
    | TimerFired       // the 3000 ms timer's callback; resolves false
    | FetchFulfilled   // the fetch's fulfilment handler; resolves true
    | FetchRejected    // the fetch's rejection handler; resolves true

  predicate IsFetchSettled(e: ProbeEvent)
  {
    e.FetchFulfilled? || e.FetchRejected?
  }

  /** The value the callback passes to `resolve`. */
  function ResolvedValue(e: ProbeEvent): bool
  {
    match e
    case TimerFired => false
    case FetchFulfilled => true
    case FetchRejected => true
  }

  /** One `resolve(v)` on a promise whose state is `cell`: the first call wins. */
  function Settle(cell: Option<bool>, v: bool): Option<bool>
  {
    if cell.Some? then cell else Some(v)
  }

  /**
   * The promise state after the callbacks in `events` have run, in order,
   * from state `cell`. A settled promise ignores every later callback.
   */
  function Deliver(cell: Option<bool>, events: seq<ProbeEvent>): (r: Option<bool>)
    ensures cell.Some? ==> r == cell
    decreases |events|
  {
    if events == [] then cell else Deliver(Settle(cell, ResolvedValue(events[0])), events[1..])
  }

  /**
   * What the probe's promise has settled to once `events` have run: pending
   * (None) until a callback has run, and then the value of the first one.
   */
  function RaceOutcome(events: seq<ProbeEvent>): (r: Option<bool>)
    ensures events == [] ==> r == None
    ensures events != [] ==> r == Some(ResolvedValue(events[0]))
  {
    Deliver(None, events)
  }

  /** A promise that can be resolved once. */
  class SettleOnceCell {
    var settled: Option<bool>

    constructor ()
      ensures settled == None
    {
      settled := None;
    }

    /** `resolve(v)`: settles a pending promise with `v`; a settled one keeps its value. */
    method Resolve(v: bool)
      modifies this
      ensures settled == Settle(old(settled), v)
    {
      if settled.None? {
        settled := Some(v);
      }
    }
  }

  /**
   * `_canAccessChromeWebStore`, with the callbacks run in the order `events`
   * gives: the result is the promise's state after they have run.
   */
  method CanAccessChromeWebStore(events: seq<ProbeEvent>) returns (reachable: Option<bool>)
    ensures reachable == RaceOutcome(events)
  {
    var cell := new SettleOnceCell();
    for i := 0 to |events|
      invariant cell.settled == Deliver(None, events[..i])
    {
      DeliverSnoc(None, events[..i], events[i]);
      assert events[..i + 1] == events[..i] + [events[i]];
      cell.Resolve(ResolvedValue(events[i]));
    }
    assert events[..|events|] == events;
    reachable := cell.settled;
  }

  /** Running one more callback after `events` is one more `Settle`. */
  lemma {:induction false} DeliverSnoc(cell: Option<bool>, events: seq<ProbeEvent>, e: ProbeEvent)
    ensures Deliver(cell, events + [e]) == Settle(Deliver(cell, events), ResolvedValue(e))
    decreases |events|
  {
    if events == [] {
      assert events + [e] == [e];
      assert [e][1..] == [];
    } else {
      assert (events + [e])[0] == events[0];
      assert (events + [e])[1..] == events[1..] + [e];
      DeliverSnoc(Settle(cell, ResolvedValue(events[0])), events[1..], e);
    }
  }

  /** The fetch (fulfilled or rejected) settles at some point before the timer has fired. */
  ghost predicate FetchSettlesBeforeTimer(events: seq<ProbeEvent>)
  {
    exists i :: 0 <= i < |events| && IsFetchSettled(events[i]) &&
      forall j :: 0 <= j < i ==> !events[j].TimerFired?
  }

  /** The timer fires at some point before the fetch has settled. */
  ghost predicate TimerFiresBeforeFetch(events: seq<ProbeEvent>)
  {
    exists i :: 0 <= i < |events| && events[i].TimerFired? &&
      forall j :: 0 <= j < i ==> !IsFetchSettled(events[j])
  }

  /** The store is reported reachable exactly when the fetch settles, successfully or not, before the timer. */
  lemma ReachableIffFetchFirst(events: seq<ProbeEvent>)
    ensures RaceOutcome(events) == Some(true) <==> FetchSettlesBeforeTimer(events)
  {
    if FetchSettlesBeforeTimer(events) {
      var i :| 0 <= i < |events| && IsFetchSettled(events[i]) &&
        forall j :: 0 <= j < i ==> !events[j].TimerFired?;
      if i > 0 {
        assert !events[0].TimerFired?;
      }
    }
    if RaceOutcome(events) == Some(true) {
      assert IsFetchSettled(events[0]);
    }
  }

  /** The store is reported unreachable exactly when the timer fires before the fetch settles. */
  lemma UnreachableIffTimerFirst(events: seq<ProbeEvent>)
    ensures RaceOutcome(events) == Some(false) <==> TimerFiresBeforeFetch(events)
  {
    if TimerFiresBeforeFetch(events) {
      var i :| 0 <= i < |events| && events[i].TimerFired? &&
        forall j :: 0 <= j < i ==> !IsFetchSettled(events[j]);
      if i > 0 {
        assert !IsFetchSettled(events[0]);
      }
    }
    if RaceOutcome(events) == Some(false) {
      assert events[0].TimerFired?;
    }
  }

  /** Once the probe has settled, callbacks that run later do not change its outcome. */
  lemma LaterCallbacksIgnored(events: seq<ProbeEvent>, later: seq<ProbeEvent>)
    requires events != []
    ensures RaceOutcome(events + later) == RaceOutcome(events)
  {
    assert (events + later)[0] == events[0];
  }

  /**
   * The callback order produced by real time: the fetch settles after
   * `fetchSettlesAtMs` milliseconds (None: never), and fails when `fetchFails`.
   * The timer fires once; the fetch settles at most once, fulfilled or
   * rejected but not both, and comes first exactly when it settles before
   * the timeout. A fetch that settles exactly at the timeout is put after the
   * timer.
   */
  function Schedule(fetchSettlesAtMs: Option<nat>, fetchFails: bool): (r: seq<ProbeEvent>)
    ensures multiset(r)[TimerFired] == 1
    ensures multiset(r)[FetchRejected] == if fetchSettlesAtMs.Some? && fetchFails then 1 else 0
    ensures multiset(r)[FetchFulfilled] == if fetchSettlesAtMs.Some? && !fetchFails then 1 else 0
    ensures IsFetchSettled(r[0]) <==> fetchSettlesAtMs.Some? && fetchSettlesAtMs.value < StoreProbeTimeoutMs
  {
    var fetch := if fetchFails then FetchRejected else FetchFulfilled;
    if fetchSettlesAtMs.Some? && fetchSettlesAtMs.value < StoreProbeTimeoutMs then [fetch, TimerFired]
    else if fetchSettlesAtMs.Some? then [TimerFired, fetch]
    else [TimerFired]
  }

  /** The store is reachable exactly when the fetch settles within 3000 ms, whether it succeeds or fails. */
  lemma ReachableIffFetchWithinTimeout(fetchSettlesAtMs: Option<nat>, fetchFails: bool)
    ensures RaceOutcome(Schedule(fetchSettlesAtMs, fetchFails))
            == Some(fetchSettlesAtMs.Some? && fetchSettlesAtMs.value < StoreProbeTimeoutMs)
  {
  }
}
