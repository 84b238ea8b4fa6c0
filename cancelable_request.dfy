/**
 * Cancelable requests: a provider hands out a fresh handle for each request
 * it accepts and keeps the pending ones in a map from handle to request; a
 * request leaves the map when it completes or is canceled. Consumers hear of
 * each addition and removal, recorded here as a log of notifications. The
 * lock around the map is left out: the operations are taken one at a time.
 */
module CancelableRequest {

  /** Whoever asked for a request and is told when it is added or removed. */
  class Consumer {
    constructor () {}
  }

  /** A notification sent to a consumer (OnRequestAdded / OnRequestRemoved). */
  datatype Notification =
    | Added(to: Consumer?, handle: int)
    | Removed(to: Consumer?, handle: int)

  /** A request: which provider holds it under which handle, for which consumer, and whether it was canceled. */
  class Request {
    var provider: Provider?
    var consumer: Consumer?
    var handle: int
    var canceled: bool

    /** A request not yet handed to any provider. */
    predicate Fresh()
      reads this
    {
      handle == 0 && provider == null && consumer == null
    }

    constructor ()
      ensures Fresh() && !canceled
    {
      provider := null;
      consumer := null;
      handle := 0;
      canceled := false;
    }

    /** Records the provider, handle and consumer; only a fresh request may be set up. */
    method Init(p: Provider, h: int, c: Consumer)
      requires Fresh()
      modifies this
      ensures provider == p && handle == h && consumer == c
      ensures canceled == old(canceled)
    {
      provider := p;
      consumer := c;
      handle := h;
    }
  }

  /** Hands out handles and tracks the requests still pending. */
  class Provider {
    var nextHandle: int
    var pending: map<int, Request>
    var log: seq<Notification>

    /**
     * Every pending handle was handed out (it lies in [1, nextHandle)), and
     * its request knows that handle and has not been canceled.
     */
    predicate Valid()
      reads this, pending.Values
    {
      && nextHandle >= 1
      && forall h :: h in pending ==>
           1 <= h < nextHandle && pending[h].handle == h && !pending[h].canceled
    }

    /** The request that `handle` names, as a frame: empty for an unknown handle. */
    function Named(handle: int): set<Request>
      reads this
    {
      if handle in pending then {pending[handle]} else {}
    }

    constructor ()
      ensures Valid() && nextHandle == 1 && pending == map[] && log == []
    {
      nextHandle := 1;
      pending := map[];
      log := [];
    }

    /**
     * Accepts `request` for `consumer` and returns its handle: the next one,
     * never 0 and never in use. The consumer hears of it, then the request
     * is set up with this provider and that handle.
     */
    method AddRequest(request: Request, consumer: Consumer) returns (handle: int)
      requires Valid() && request.Fresh() && !request.canceled
      modifies this, request
      ensures Valid()
      ensures handle == old(nextHandle) && handle >= 1 && handle !in old(pending)
      ensures nextHandle == old(nextHandle) + 1
      ensures pending == old(pending)[handle := request]
      ensures log == old(log) + [Added(consumer, handle)]
      ensures request.provider == this && request.handle == handle && request.consumer == consumer
      ensures request.canceled == old(request.canceled)
    {
      handle := nextHandle;
      pending := pending[nextHandle := request];
      nextHandle := nextHandle + 1;
      log := log + [Added(consumer, handle)];
      request.Init(this, handle, consumer);
    }

    /** Cancels the request under `handle`; an unknown handle is ignored. */
    method CancelRequest(handle: int)
      requires Valid()
      modifies this, Named(handle)
      ensures Valid()
      ensures nextHandle == old(nextHandle)
      ensures handle in old(pending) ==>
                && pending == old(pending) - {handle}
                && old(pending)[handle].canceled
                && log == old(log) + [Removed(old(pending[handle].consumer), handle)]
      ensures handle !in old(pending) ==> pending == old(pending) && log == old(log)
    {
      CancelRequestLocked(handle);
    }

    /**
     * Cancels the pending request under `handle`: its consumer is told, the
     * request is marked canceled and leaves the map. An unknown handle is
     * ignored.
     */
    method CancelRequestLocked(handle: int)
      requires Valid()
      modifies this, Named(handle)
      ensures Valid()
      ensures nextHandle == old(nextHandle)
      ensures handle in old(pending) ==>
                && pending == old(pending) - {handle}
                && pending.Keys == old(pending).Keys - {handle}
                && |pending| == |old(pending)| - 1
                && old(pending)[handle].canceled
                && old(pending)[handle].consumer == old(pending[handle].consumer)
                && log == old(log) + [Removed(old(pending[handle].consumer), handle)]
      ensures handle !in old(pending) ==> pending == old(pending) && log == old(log)
    {
      if handle !in pending {
        return;
      }
      var request := pending[handle];
      log := log + [Removed(request.consumer, handle)];
      request.canceled := true;
      pending := pending - {handle};
      assert pending.Keys == old(pending).Keys - {handle};
      assert forall h :: h in pending ==> pending[h] != request by {
        forall h | h in pending
          ensures pending[h] != request
        {
          assert pending[h].handle == h != handle == request.handle;
        }
      }
    }

    /**
     * The request under `handle` has finished: it leaves the map without
     * being canceled and its consumer is told. An unknown handle is ignored.
     * A pending request is never canceled, so completing one never reports a
     * canceled request.
     */
    method RequestCompleted(handle: int)
      requires Valid()
      modifies this
      ensures Valid()
      ensures nextHandle == old(nextHandle)
      ensures handle in old(pending) ==>
                && !old(pending)[handle].canceled
                && pending == old(pending) - {handle}
                && log == old(log) + [Removed(old(pending[handle].consumer), handle)]
      ensures handle !in old(pending) ==> pending == old(pending) && log == old(log)
    {
      if handle !in pending {
        return;
      }
      var consumer := pending[handle].consumer;
      assert !pending[handle].canceled;
      pending := pending - {handle};
      log := log + [Removed(consumer, handle)];
    }

    /** The consumer of each pending request, by handle. */
    ghost function Consumers(): map<int, Consumer?>
      reads this, pending.Values
    {
      map h | h in pending :: pending[h].consumer
    }

    /**
     * Part way through cancelling everything that was pending at `start`:
     * the requests still pending are the same ones with the same consumers,
     * the others are canceled, and the log holds the reports for the handles
     * walked so far, so that the reports still due for what is pending
     * complete it.
     */
    ghost predicate CancelingAll(start: map<int, Request>, startLog: seq<Notification>, consumers: map<int, Consumer?>)
      reads this, pending.Values, start.Values
    {
      && Valid()
      && pending.Keys <= start.Keys && start.Keys == consumers.Keys
      && (forall h :: h in pending ==> pending[h] == start[h])
      && (forall h :: h in start ==> start[h].consumer == consumers[h])
      && (forall h :: h in start && h !in pending ==> start[h].canceled)
      && startLog + Reports(Ascending(start.Keys), consumers) == log + Reports(Ascending(pending.Keys), consumers)
    }

    /** One step of cancelling everything: the request with the lowest pending handle is canceled. */
    method CancelLowest(ghost start: map<int, Request>, ghost startLog: seq<Notification>,
                        ghost consumers: map<int, Consumer?>)
      requires CancelingAll(start, startLog, consumers) && pending != map[]
      modifies this, start.Values
      ensures CancelingAll(start, startLog, consumers)
      ensures nextHandle == old(nextHandle) && |pending| < old(|pending|)
    {
      HasLowest(pending.Keys);
      var first :| first in pending && forall k :: k in pending ==> first <= k;
      ghost var before, beforeLog := pending, log;
      ghost var target := pending[first];
      CancelRequestLocked(first);
      forall h | h in start
        ensures start[h].consumer == consumers[h]
        ensures h !in pending ==> start[h].canceled
      {
        if start[h] != target {
          assert start[h].consumer == old(start[h].consumer);
          assert start[h].canceled == old(start[h].canceled);
        }
      }
      ReportsStep(startLog, Reports(Ascending(start.Keys), consumers), beforeLog, before.Keys, first, consumers);
    }

    /**
     * Shutting the provider down cancels every request still pending, lowest
     * handle first, and leaves the map empty; each request's consumer hears
     * of its removal exactly once, in that order.
     */
    method CancelAllPending()
      requires Valid()
      modifies this, pending.Values
      ensures Valid() && pending == map[]
      ensures nextHandle == old(nextHandle)
      ensures forall h :: h in old(pending) ==> old(pending)[h].canceled
      ensures |log| == |old(log)| + |old(pending)|
      ensures log == old(log) + Reports(Ascending(old(pending).Keys), old(Consumers()))
    {
      ghost var start := pending;
      ghost var startLog := log;
      ghost var consumers := Consumers();
      while pending != map[]
        invariant CancelingAll(start, startLog, consumers)
        invariant nextHandle == old(nextHandle)
        decreases |pending|
      {
        CancelLowest(start, startLog, consumers);
      }
      assert pending.Keys == {};
    }
  }

  /** The handles of `keys` in increasing order (the order a std::map is walked in). */
  ghost function Ascending(keys: set<int>): (hs: seq<int>)
    decreases |keys|
    ensures |hs| == |keys|
    ensures forall i :: 0 <= i < |hs| ==> hs[i] in keys
  {
    if keys == {} then []
    else
      HasLowest(keys);
      var first :| first in keys && forall k :: k in keys ==> first <= k;
      [first] + Ascending(keys - {first})
  }

  /** Walking a set in order starts at its lowest element. */
  lemma AscendingFromLowest(keys: set<int>, first: int)
    requires first in keys && forall k :: k in keys ==> first <= k
    ensures Ascending(keys) == [first] + Ascending(keys - {first})
  {
    var hs := Ascending(keys);
    assert hs[0] in keys;
    assert hs[0] == first;
  }

  /** The walk is strictly increasing. */
  lemma {:induction false} AscendingSorted(keys: set<int>)
    decreases |keys|
    ensures forall i, j :: 0 <= i < j < |Ascending(keys)| ==> Ascending(keys)[i] < Ascending(keys)[j]
  {
    if keys != {} {
      HasLowest(keys);
      var first :| first in keys && forall k :: k in keys ==> first <= k;
      AscendingFromLowest(keys, first);
      var rest := keys - {first};
      var tail := Ascending(rest);
      AscendingSorted(rest);
      forall i, j | 0 <= i < j < |[first] + tail|
        ensures ([first] + tail)[i] < ([first] + tail)[j]
      {
        assert ([first] + tail)[j] == tail[j - 1] && tail[j - 1] in rest;
        if i > 0 {
          assert ([first] + tail)[i] == tail[i - 1];
        }
      }
    }
  }

  /** The walk visits every element of the set. */
  lemma {:induction false} AscendingCovers(keys: set<int>)
    decreases |keys|
    ensures forall h :: h in keys ==> h in Ascending(keys)
  {
    if keys != {} {
      HasLowest(keys);
      var first :| first in keys && forall k :: k in keys ==> first <= k;
      AscendingFromLowest(keys, first);
      AscendingCovers(keys - {first});
    }
  }

  /**
   * The reports for walking `keys` in order: one removal per key and no
   * other entry, handles strictly increasing, each sent to that handle's
   * consumer.
   */
  lemma WalkReportsEachOnce(keys: set<int>, consumers: map<int, Consumer?>)
    requires keys <= consumers.Keys
    ensures var r := Reports(Ascending(keys), consumers);
            && |r| == |keys|
            && (forall i :: 0 <= i < |r| ==>
                  r[i].Removed? && r[i].handle in keys && r[i].to == consumers[r[i].handle])
            && (forall i, j :: 0 <= i < j < |r| ==> r[i].handle < r[j].handle)
            && (forall h :: h in keys ==> exists i :: 0 <= i < |r| && r[i].handle == h)
  {
    var hs := Ascending(keys);
    var r := Reports(hs, consumers);
    AscendingSorted(keys);
    AscendingCovers(keys);
    forall h | h in keys
      ensures exists i :: 0 <= i < |r| && r[i].handle == h
    {
      var i :| 0 <= i < |hs| && hs[i] == h;
      assert r[i].handle == h;
    }
  }

  /** Reporting the walk of a set is reporting its lowest element, then the walk of the rest. */
  lemma ReportsFromLowest(keys: set<int>, first: int, consumers: map<int, Consumer?>)
    requires keys <= consumers.Keys
    requires first in keys && forall k :: k in keys ==> first <= k
    ensures Reports(Ascending(keys), consumers)
         == [Removed(consumers[first], first)] + Reports(Ascending(keys - {first}), consumers)
  {
    AscendingFromLowest(keys, first);
    assert Ascending(keys)[1..] == Ascending(keys - {first});
  }

  /** The removal reports for `handles`, in that order, each to the consumer recorded for its handle. */
  ghost function Reports(handles: seq<int>, consumers: map<int, Consumer?>): (r: seq<Notification>)
    requires forall i :: 0 <= i < |handles| ==> handles[i] in consumers
    ensures |r| == |handles|
    ensures forall i :: 0 <= i < |r| ==> r[i] == Removed(consumers[handles[i]], handles[i])
  {
    if handles == [] then [] else [Removed(consumers[handles[0]], handles[0])] + Reports(handles[1..], consumers)
  }

  /**
   * Reporting the lowest of the keys still due keeps the log plus the
   * reports still due the same.
   */
  lemma ReportsStep(startLog: seq<Notification>, all: seq<Notification>, log: seq<Notification>, keys: set<int>,
                    first: int, consumers: map<int, Consumer?>)
    requires keys <= consumers.Keys
    requires first in keys && forall k :: k in keys ==> first <= k
    requires startLog + all == log + Reports(Ascending(keys), consumers)
    ensures startLog + all == (log + [Removed(consumers[first], first)]) + Reports(Ascending(keys - {first}), consumers)
  {
    ReportsFromLowest(keys, first, consumers);
    var tail := Reports(Ascending(keys - {first}), consumers);
    assert (log + [Removed(consumers[first], first)]) + tail == log + ([Removed(consumers[first], first)] + tail);
  }

  /** A non-empty finite set of handles has a lowest one. */
  lemma {:induction false} HasLowest(keys: set<int>)
    requires keys != {}
    decreases |keys|
    ensures exists h :: h in keys && forall k :: k in keys ==> h <= k
  {
    if forall y :: y !in keys {
      assert false;
    }
    var x :| x in keys;
    var rest := keys - {x};
    var low := x;
    if rest != {} {
      HasLowest(rest);
      var m :| m in rest && forall k :: k in rest ==> m <= k;
      low := if x < m then x else m;
    }
    forall k | k in keys
      ensures low <= k
    {
      if k != x {
        assert k in rest;
      }
    }
    assert low in keys;
  }
}
