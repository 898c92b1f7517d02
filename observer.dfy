/**
 * The observer side of alerting: the `VehicleEvent` enum and the
 * `VehicleEventNotifier` listener registry. Listeners are opaque; a call of
 * `onAlert` is recorded as a `Notification`, and whether a listener throws is
 * an input, the set of `failing` listeners.
 */
module Observer {
  import opened JavaLang
  import opened TransferObjects

  datatype VehicleEvent = ROUTE_END | ROUTE_START | MAINTENANCE | ACCIDENT | REFUEL

  /** `VehicleEvent.name()`. */
  function EventName(e: VehicleEvent): string
  {
    match e
    case ROUTE_END => "ROUTE_END"
    case ROUTE_START => "ROUTE_START"
    case MAINTENANCE => "MAINTENANCE"
    case ACCIDENT => "ACCIDENT"
    case REFUEL => "REFUEL"
  }

  /**
   * `VehicleEvent.valueOf`: the constant with exactly that name. `None` stands
   * for the exception `valueOf` throws on a null or unknown name.
   */
  function ParseEvent(name: Str): (e: Option<VehicleEvent>)
    ensures e.Some? ==> name == Some(EventName(e.value))
  {
    if name == Some("ROUTE_END") then Some(ROUTE_END)
    else if name == Some("ROUTE_START") then Some(ROUTE_START)
    else if name == Some("MAINTENANCE") then Some(MAINTENANCE)
    else if name == Some("ACCIDENT") then Some(ACCIDENT)
    else if name == Some("REFUEL") then Some(REFUEL)
    else None
  }

  /** `valueOf` and `name` are inverse: every event's name parses back to it, and only its name does. */
  lemma EventNameRoundTrip(e: VehicleEvent, name: Str)
    ensures ParseEvent(Some(EventName(e))) == Some(e)
    ensures ParseEvent(name) == Some(e) <==> name == Some(EventName(e))
  {
  }

  /** A registered `Listener` object, compared by identity. */
  datatype Listener = Listener(handle: nat)

  /** One `onAlert(event, alert)` call on `listener`, with the alert's value at the time. */
  datatype Notification = Notification(listener: Listener, event: VehicleEvent, alert: Alert)

  /** The calls made when every listener of `ls` is notified and none throws. */
  function Notes(ls: seq<Listener>, e: VehicleEvent, a: Alert): (ns: seq<Notification>)
    ensures |ns| == |ls|
    ensures forall i :: 0 <= i < |ls| ==> ns[i] == Notification(ls[i], e, a)
  {
    seq(|ls|, i requires 0 <= i < |ls| => Notification(ls[i], e, a))
  }

  /**
   * The calls `notifyListeners` makes: in order, up to and including the first
   * listener that throws, since the loop has no catch.
   */
  function Deliveries(ls: seq<Listener>, e: VehicleEvent, a: Alert, failing: set<Listener>)
    : seq<Notification>
  {
    if ls == [] then []
    else [Notification(ls[0], e, a)]
         + (if ls[0] in failing then [] else Deliveries(ls[1..], e, a, failing))
  }

  /** One step of the notification loop. */
  lemma DeliveriesStep(ls: seq<Listener>, e: VehicleEvent, a: Alert, failing: set<Listener>)
    requires ls != []
    ensures ls[0] in failing ==> Deliveries(ls, e, a, failing) == [Notification(ls[0], e, a)]
    ensures ls[0] !in failing ==> Deliveries(ls, e, a, failing)
                                  == [Notification(ls[0], e, a)] + Deliveries(ls[1..], e, a, failing)
  {
  }

  /** The loop of `notifyListeners` passing a listener that does not throw. */
  lemma DeliveriesAdvance(calls: seq<Notification>, ls: seq<Listener>, i: nat, e: VehicleEvent,
                          a: Alert, failing: set<Listener>)
    requires i < |ls| && ls[i] !in failing
    requires calls + Deliveries(ls[i..], e, a, failing) == Deliveries(ls, e, a, failing)
    ensures (calls + [Notification(ls[i], e, a)]) + Deliveries(ls[i + 1..], e, a, failing)
            == Deliveries(ls, e, a, failing)
  {
    DeliveriesStep(ls[i..], e, a, failing);
    assert ls[i..][1..] == ls[i + 1..];
  }

  /** The loop of `notifyListeners` reaching a listener that throws. */
  lemma DeliveriesStopHere(calls: seq<Notification>, ls: seq<Listener>, i: nat, e: VehicleEvent,
                           a: Alert, failing: set<Listener>)
    requires i < |ls| && ls[i] in failing
    requires calls + Deliveries(ls[i..], e, a, failing) == Deliveries(ls, e, a, failing)
    ensures calls + [Notification(ls[i], e, a)] == Deliveries(ls, e, a, failing)
  {
    DeliveriesStep(ls[i..], e, a, failing);
  }

  /** With no throwing listener, every listener is called once, in registration order. */
  lemma {:induction false} DeliveriesWhenNoneFails(ls: seq<Listener>, e: VehicleEvent, a: Alert,
                                                   failing: set<Listener>)
    requires forall i :: 0 <= i < |ls| ==> ls[i] !in failing
    ensures Deliveries(ls, e, a, failing) == Notes(ls, e, a)
  {
    if ls != [] {
      DeliveriesWhenNoneFails(ls[1..], e, a, failing);
    }
  }

  /** When listener `k` is the first to throw, exactly listeners 0..k are called. */
  lemma {:induction false} DeliveriesStopAtFirstFailure(ls: seq<Listener>, e: VehicleEvent,
                                                        a: Alert, failing: set<Listener>, k: nat)
    requires k < |ls| && ls[k] in failing
    requires forall i :: 0 <= i < k ==> ls[i] !in failing
    ensures Deliveries(ls, e, a, failing) == Notes(ls[..k + 1], e, a)
  {
    if k > 0 {
      DeliveriesStopAtFirstFailure(ls[1..], e, a, failing, k - 1);
      assert ls[1..][..k] == ls[1..k + 1];
    }
  }

  /** Position of the first occurrence of `l` in `ls`. */
  function FirstIndex(ls: seq<Listener>, l: Listener): (i: nat)
    requires l in ls
    ensures i < |ls| && ls[i] == l
    ensures forall j :: 0 <= j < i ==> ls[j] != l
  {
    if ls[0] == l then 0 else 1 + FirstIndex(ls[1..], l)
  }

  /** `List.remove(Object)`: drops the first occurrence of `l`, if any. */
  function RemoveFirst(ls: seq<Listener>, l: Listener): seq<Listener>
  {
    if ls == [] then []
    else if ls[0] == l then ls[1..]
    else [ls[0]] + RemoveFirst(ls[1..], l)
  }

  /**
   * Removing cuts out exactly the first occurrence and keeps the order of the
   * rest; removing an absent listener changes nothing.
   */
  lemma {:induction false} RemoveFirstSpec(ls: seq<Listener>, l: Listener)
    ensures l !in ls ==> RemoveFirst(ls, l) == ls
    ensures l in ls ==> RemoveFirst(ls, l) == ls[..FirstIndex(ls, l)] + ls[FirstIndex(ls, l) + 1..]
  {
    if ls != [] {
      RemoveFirstSpec(ls[1..], l);
      if ls[0] != l && l in ls {
        assert l in ls[1..];
        var j := FirstIndex(ls[1..], l);
        assert ls[..j + 1] == [ls[0]] + ls[1..][..j];
        assert ls[j + 2..] == ls[1..][j + 1..];
      }
    }
  }

  /** Removing a listener just added to a list that did not hold it restores the list. */
  lemma {:induction false} AddThenRemove(ls: seq<Listener>, l: Listener)
    requires l !in ls
    ensures RemoveFirst(ls + [l], l) == ls
  {
    RemoveFirstSpec(ls + [l], l);
    var i := FirstIndex(ls + [l], l);
    assert i == |ls|;
    assert (ls + [l])[..|ls|] == ls;
  }

  /** With a duplicate registration, one removal leaves the other registration in place. */
  lemma {:induction false} RemoveKeepsDuplicate(ls: seq<Listener>, l: Listener)
    ensures l in RemoveFirst(ls + [l, l], l)
  {
    var xs := ls + [l, l];
    RemoveFirstSpec(xs, l);
    var i := FirstIndex(xs, l);
    assert xs[|ls|] == l;
    assert i <= |ls|;
    assert xs[i + 1..][|ls| - i] == l;
  }

  class VehicleEventNotifier {
    var listeners: seq<Listener>
    /** Every `onAlert` call made so far. */
    var delivered: seq<Notification>

    constructor ()
      ensures listeners == [] && delivered == []
    {
      listeners, delivered := [], [];
    }

    /** Appends, duplicates allowed. */
    method AddListener(listener: Listener)
      modifies this
      ensures listeners == old(listeners) + [listener]
      ensures delivered == old(delivered)
    {
      listeners := listeners + [listener];
    }

    method RemoveListener(listener: Listener)
      modifies this
      ensures listeners == RemoveFirst(old(listeners), listener)
      ensures delivered == old(delivered)
    {
      listeners := RemoveFirst(listeners, listener);
    }

    /**
     * Calls `onAlert` on each listener in order and stops at the first that
     * throws; `ok` is false exactly when one threw. The list is not changed.
     */
    method NotifyListeners(event: VehicleEvent, alert: Alert, failing: set<Listener>)
      returns (ok: bool)
      modifies this
      ensures listeners == old(listeners)
      ensures delivered == old(delivered) + Deliveries(listeners, event, alert, failing)
      ensures ok <==> forall i :: 0 <= i < |listeners| ==> listeners[i] !in failing
    {
      var ls := listeners;
      ghost var calls: seq<Notification> := [];
      var i := 0;
      while i < |ls|
        invariant i <= |ls| && listeners == ls
        invariant delivered == old(delivered) + calls
        invariant forall j :: 0 <= j < i ==> ls[j] !in failing
        invariant calls + Deliveries(ls[i..], event, alert, failing)
                  == Deliveries(ls, event, alert, failing)
      {
        var note := Notification(ls[i], event, alert);
        delivered := delivered + [note];
        if ls[i] in failing {
          DeliveriesStopHere(calls, ls, i, event, alert, failing);
          calls := calls + [note];
          return false;
        }
        DeliveriesAdvance(calls, ls, i, event, alert, failing);
        calls := calls + [note];
        i := i + 1;
      }
      assert ls[i..] == [];
      ok := true;
    }
  }
}
