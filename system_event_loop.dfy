/**
 * The system event loop's bookkeeping: it collects one outcome per tracked
 * device and gives up, with the unsupported-operation exception, when every
 * device has reported and none of them was set; and it forwards each system
 * event to its listeners in the order they registered. Listeners are
 * identified by number, and a forwarded event is recorded as the
 * (listener, event) call it makes.
 */
module SystemEvents {
  import opened Wrappers

  /** The exception `submitOutcome` raises: no device was set. */
  datatype LoopError = NoDevicesSet

  /** All the devices have reported and none was set. */
  predicate NoneSet(results: seq<bool>, nDevices: nat)
  {
    |results| == nDevices && forall i :: 0 <= i < |results| ==> !results[i]
  }

  /** The calls `notify` makes: one per listener, in registration order. */
  function Deliveries<T>(listeners: seq<nat>, event: T): (r: seq<(nat, T)>)
  {
    seq(|listeners|, i requires 0 <= i < |listeners| => (listeners[i], event))
  }

  /**
   * Over a run of submissions, some submission raises exactly when there is
   * at least one device and the first `nDevices` outcomes are all false; in
   * particular one true outcome among them rules the exception out.
   */
  lemma SomeSubmissionRaises(outcomes: seq<bool>, nDevices: nat)
    ensures (exists k :: 1 <= k <= |outcomes| && NoneSet(outcomes[..k], nDevices))
      <==> (1 <= nDevices <= |outcomes| && forall i :: 0 <= i < nDevices ==> !outcomes[i])
  {
    if 1 <= nDevices <= |outcomes| && forall i :: 0 <= i < nDevices ==> !outcomes[i] {
      assert NoneSet(outcomes[..nDevices], nDevices);
    }
    if exists k :: 1 <= k <= |outcomes| && NoneSet(outcomes[..k], nDevices) {
      var k :| 1 <= k <= |outcomes| && NoneSet(outcomes[..k], nDevices);
      assert k == nDevices;
      forall i | 0 <= i < nDevices
        ensures !outcomes[i]
      {
        assert outcomes[..k][i] == outcomes[i];
      }
    }
  }

  class SystemEventLoop<T> {
    const nDevices: nat
    var results: seq<bool>
    var listeners: seq<nat>

    constructor(nDevices: nat)
      ensures this.nDevices == nDevices && results == [] && listeners == []
    {
      this.nDevices := nDevices;
      results := [];
      listeners := [];
    }

    /**
     * `submitOutcome`: the outcome is kept, then the loop gives up if every
     * device has now reported and none was set.
     */
    method SubmitOutcome(result: bool) returns (r: Result<(), LoopError>)
      modifies this`results
      ensures results == old(results) + [result]
      ensures r.Err? <==> NoneSet(results, nDevices)
    {
      results := results + [result];
      var anySet := false;
      for i := 0 to |results|
        invariant anySet <==> exists j :: 0 <= j < i && results[j]
      {
        anySet := anySet || results[i];
      }
      if |results| == nDevices && !anySet {
        return Err(NoDevicesSet);
      }
      return Ok(());
    }

    /** `registerSystemEventListener`: the listener goes last. */
    method RegisterSystemEventListener(listener: nat)
      modifies this`listeners
      ensures listeners == old(listeners) + [listener]
    {
      listeners := listeners + [listener];
    }

    /** `notify`: the event goes to every listener, in registration order. */
    method Notify(event: T) returns (calls: seq<(nat, T)>)
      ensures calls == Deliveries(listeners, event)
    {
      calls := [];
      for i := 0 to |listeners|
        invariant calls == Deliveries(listeners[..i], event)
      {
        calls := calls + [(listeners[i], event)];
      }
      assert listeners[..|listeners|] == listeners;
    }
  }

  /** The listeners receive the event in the order they registered, each once. */
  lemma DeliveriesInOrder<T>(listeners: seq<nat>, event: T, more: nat)
    ensures Deliveries(listeners + [more], event) == Deliveries(listeners, event) + [(more, event)]
    ensures |Deliveries(listeners, event)| == |listeners|
  {
  }
}
