/**
 * What `VehicleAlertBusinessLogic.monitorVehicle` decides and what raising
 * its alerts does to the alert table and the listeners, as functions on
 * values. The class in `AlertLogic` is proved to follow them.
 */
module AlertRules {
  import opened JavaLang
  import opened TransferObjects
  import opened Observer

  // The thresholds are `int` constants compared with `double` values.
  const BRAKES_THRESHOLD: real := 100.0
  const WHEELS_THRESHOLD: real := 100.0
  const AXLE_BEARINGS_THRESHOLD: real := 100.0
  const ELECTRICAL_COMPONENTS_THRESHOLD: real := 100.0
  const OIL_CHANGE_THRESHOLD: real := 100.0
  const EMISSION_CHECK_THRESHOLD: real := 100.0
  const FUEL_LEVEL_THRESHOLD: real := 100.0

  /** The status every new alert gets. */
  const ACTIVE_ALERT: string := "ACTIVE"

  /** The checks of the monitor, in the order they run. */
  datatype Check = CommonCheck | FuelCheck | VariantCheck | RouteCheck
  {
    function Rank(): nat
    {
      match this
      case CommonCheck => 0
      case FuelCheck => 1
      case VariantCheck => 2
      case RouteCheck => 3
    }
  }

  /** An alert a check asks `createAndNotifyAlert` to raise. */
  datatype PlannedAlert = PlannedAlert(check: Check, event: VehicleEvent, reason: Reason)

  function Rank(c: Component): nat
  {
    match c
    case Brakes => 0
    case Wheels => 1
    case AxleBearings => 2
    case Catenary => 3
    case Pantograph => 4
    case CircuitBreaker => 5
  }

  predicate StrictlyOrdered(ts: seq<Tripped>)
  {
    forall i, j :: 0 <= i < j < |ts| ==> Rank(ts[i].component) < Rank(ts[j].component)
  }

  /**
   * The parts `checkCommonComponents` reports: brakes, wheels and axle
   * bearings that reached their service interval, in that order, each with
   * its own hours.
   */
  function CommonTripped(brakes: real, wheels: real, axleBearings: real): (ts: seq<Tripped>)
    ensures StrictlyOrdered(ts)
    ensures Tripped(Brakes, brakes) in ts <==> brakes >= BRAKES_THRESHOLD
    ensures Tripped(Wheels, wheels) in ts <==> wheels >= WHEELS_THRESHOLD
    ensures Tripped(AxleBearings, axleBearings) in ts <==> axleBearings >= AXLE_BEARINGS_THRESHOLD
    ensures forall t :: t in ts ==> t in [Tripped(Brakes, brakes), Tripped(Wheels, wheels),
                                         Tripped(AxleBearings, axleBearings)]
  {
    (if brakes >= BRAKES_THRESHOLD then [Tripped(Brakes, brakes)] else [])
    + (if wheels >= WHEELS_THRESHOLD then [Tripped(Wheels, wheels)] else [])
    + (if axleBearings >= AXLE_BEARINGS_THRESHOLD then [Tripped(AxleBearings, axleBearings)] else [])
  }

  /**
   * The parts `checkElectricLightRailComponents` reports, in the order
   * catenary, pantograph, circuit breaker. Every entry prints the catenary's
   * hours, also for the pantograph and the circuit breaker.
   */
  function ElectricalTripped(catenary: real, pantograph: real, breaker: real): (ts: seq<Tripped>)
    ensures StrictlyOrdered(ts)
    ensures Tripped(Catenary, catenary) in ts <==> catenary >= ELECTRICAL_COMPONENTS_THRESHOLD
    ensures Tripped(Pantograph, catenary) in ts <==> pantograph >= ELECTRICAL_COMPONENTS_THRESHOLD
    ensures Tripped(CircuitBreaker, catenary) in ts <==> breaker >= ELECTRICAL_COMPONENTS_THRESHOLD
    ensures forall t :: t in ts ==> t in [Tripped(Catenary, catenary), Tripped(Pantograph, catenary),
                                         Tripped(CircuitBreaker, catenary)]
    ensures forall t :: t in ts ==> t.reportedHours == catenary
  {
    (if catenary >= ELECTRICAL_COMPONENTS_THRESHOLD then [Tripped(Catenary, catenary)] else [])
    + (if pantograph >= ELECTRICAL_COMPONENTS_THRESHOLD then [Tripped(Pantograph, catenary)] else [])
    + (if breaker >= ELECTRICAL_COMPONENTS_THRESHOLD then [Tripped(CircuitBreaker, catenary)] else [])
  }

  /** `checkCommonComponents`: one MAINTENANCE alert listing every tripped part, or none. */
  function CheckCommon(v: Vehicle): (r: Option<PlannedAlert>)
    ensures r.Some? <==> v.brakesCondition >= BRAKES_THRESHOLD || v.wheelsCondition >= WHEELS_THRESHOLD
                         || v.axleBearingsCondition >= AXLE_BEARINGS_THRESHOLD
    ensures r.Some? ==> r.value.check == CommonCheck && r.value.event == MAINTENANCE
  {
    var ts := CommonTripped(v.brakesCondition, v.wheelsCondition, v.axleBearingsCondition);
    assert v.brakesCondition >= BRAKES_THRESHOLD ==> Tripped(Brakes, v.brakesCondition) in ts;
    assert v.wheelsCondition >= WHEELS_THRESHOLD ==> Tripped(Wheels, v.wheelsCondition) in ts;
    assert v.axleBearingsCondition >= AXLE_BEARINGS_THRESHOLD
           ==> Tripped(AxleBearings, v.axleBearingsCondition) in ts;
    if ts == [] then None else Some(PlannedAlert(CommonCheck, MAINTENANCE, ServiceInterval(ts)))
  }

  /** `checkFuelLevel`: one REFUEL alert when the level is at most the threshold. */
  function CheckFuel(v: Vehicle): (r: Option<PlannedAlert>)
    ensures r.Some? <==> v.fuelLevel <= FUEL_LEVEL_THRESHOLD
    ensures r.Some? ==> r.value.check == FuelCheck && r.value.event == REFUEL
  {
    if v.fuelLevel <= FUEL_LEVEL_THRESHOLD
    then Some(PlannedAlert(FuelCheck, REFUEL, RefuelNeeded(v.fuelLevel)))
    else None
  }

  /** The end of a variant check: at most one alert, or an exception that escapes it. */
  datatype VariantOutcome = Checked(alert: Option<PlannedAlert>) | Thrown(error: Exception)

  /** Whether the subclass's own components call for maintenance, read from the vehicle alone. */
  predicate VariantDue(v: Vehicle)
  {
    match v.variant
    case PlainFields => false
    case BusFields(e) => e.Some? && e.value >= 100.0
    case DieselTrainFields(oil) => oil >= 100.0
    case ElectricLightRailFields(c, p, b) => c >= 100.0 || p >= 100.0 || b >= 100.0
  }

  /**
   * The subclass check `monitorVehicle` picks by the object's class. The bus
   * check unboxes the emission rate, so a null one throws.
   */
  function CheckVariant(v: Vehicle): (r: VariantOutcome)
    ensures r.Thrown? <==> v.variant == BusFields(None)
    ensures r.Thrown? ==> r.error == NullPointerException
    ensures r.Checked? ==> (r.alert.Some? <==> VariantDue(v))
    ensures r.Checked? && r.alert.Some? ==>
              r.alert.value.check == VariantCheck && r.alert.value.event == MAINTENANCE
  {
    match v.variant
    case PlainFields => Checked(None)
    case BusFields(None) => Thrown(NullPointerException)
    case BusFields(Some(e)) =>
      Checked(if e >= EMISSION_CHECK_THRESHOLD
              then Some(PlannedAlert(VariantCheck, MAINTENANCE, EmissionCheck(e))) else None)
    case DieselTrainFields(oil) =>
      Checked(if oil >= OIL_CHANGE_THRESHOLD
              then Some(PlannedAlert(VariantCheck, MAINTENANCE, OilChange(oil))) else None)
    case ElectricLightRailFields(c, p, b) =>
      var ts := ElectricalTripped(c, p, b);
      assert c >= ELECTRICAL_COMPONENTS_THRESHOLD ==> Tripped(Catenary, c) in ts;
      assert p >= ELECTRICAL_COMPONENTS_THRESHOLD ==> Tripped(Pantograph, c) in ts;
      assert b >= ELECTRICAL_COMPONENTS_THRESHOLD ==> Tripped(CircuitBreaker, c) in ts;
      Checked(if ts == [] then None
              else Some(PlannedAlert(VariantCheck, MAINTENANCE, ElectricalSystem(ts))))
  }

  /** `checkRouteCompletion`: one ROUTE_END alert when the status is "COMPLETED", ignoring case. */
  function CheckRoute(v: Vehicle): (r: Option<PlannedAlert>)
    ensures r.Some? <==> EqualsIgnoreCase("COMPLETED", v.status)
    ensures r.Some? ==> r.value.check == RouteCheck && r.value.event == ROUTE_END
  {
    if EqualsIgnoreCase("COMPLETED", v.status)
    then Some(PlannedAlert(RouteCheck, ROUTE_END, RouteCompleted(v.currentRouteId)))
    else None
  }

  function OptSeq(o: Option<PlannedAlert>): (s: seq<PlannedAlert>)
    ensures |s| <= 1
    ensures forall x :: x in s <==> o == Some(x)
  {
    if o.Some? then [o.value] else []
  }

  /** The variant check and, unless it threw, the route check. */
  function VariantThenRoute(v: Vehicle): seq<PlannedAlert>
  {
    match CheckVariant(v)
    case Thrown(_) => []
    case Checked(a) => OptSeq(a) + OptSeq(CheckRoute(v))
  }

  /**
   * The alerts one `monitorVehicle` call asks for, in order: common, fuel,
   * variant, route. An exception in the variant check skips the route check.
   */
  function MonitorPlan(v: Vehicle): seq<PlannedAlert>
  {
    OptSeq(CheckCommon(v)) + OptSeq(CheckFuel(v)) + VariantThenRoute(v)
  }

  predicate Raises(plan: seq<PlannedAlert>, c: Check)
  {
    exists p :: p in plan && p.check == c
  }

  /** The event each check raises. */
  function EventOf(c: Check): VehicleEvent
  {
    match c
    case FuelCheck => REFUEL
    case RouteCheck => ROUTE_END
    case _ => MAINTENANCE
  }

  /** Each check raises at most once and the checks come in their fixed order. */
  predicate InCheckOrder(plan: seq<PlannedAlert>)
  {
    forall i, j :: 0 <= i < j < |plan| ==> plan[i].check.Rank() < plan[j].check.Rank()
  }

  lemma InCheckOrderConcat(a: seq<PlannedAlert>, b: seq<PlannedAlert>)
    requires InCheckOrder(a) && InCheckOrder(b)
    requires forall p, q :: p in a && q in b ==> p.check.Rank() < q.check.Rank()
    ensures InCheckOrder(a + b)
  {
    forall i, j | 0 <= i < j < |a + b|
      ensures (a + b)[i].check.Rank() < (a + b)[j].check.Rank()
    {
      if j < |a| {
        assert (a + b)[i] == a[i] && (a + b)[j] == a[j];
      } else if i < |a| {
        assert (a + b)[i] in a && (a + b)[j] in b;
      } else {
        assert (a + b)[i] == b[i - |a|] && (a + b)[j] == b[j - |a|];
      }
    }
  }

  lemma RaisesConcat(a: seq<PlannedAlert>, b: seq<PlannedAlert>, c: Check)
    ensures Raises(a + b, c) <==> Raises(a, c) || Raises(b, c)
  {
    if Raises(a + b, c) {
      var p :| p in a + b && p.check == c;
      assert p in a || p in b;
    }
    if Raises(a, c) {
      var p :| p in a && p.check == c;
      assert p in a + b;
    }
    if Raises(b, c) {
      var p :| p in b && p.check == c;
      assert p in a + b;
    }
  }

  lemma RaisesOpt(o: Option<PlannedAlert>, c: Check)
    ensures Raises(OptSeq(o), c) <==> o.Some? && o.value.check == c
  {
    if o.Some? {
      assert o.value in OptSeq(o);
    }
  }

  /**
   * Which alerts the monitor asks for: each check exactly when its threshold
   * is met; a bus with a null emission rate gets no route alert, since its
   * check throws first.
   */
  lemma MonitorPlanRaises(v: Vehicle, c: Check)
    ensures c == CommonCheck ==>
              (Raises(MonitorPlan(v), c)
               <==> v.brakesCondition >= 100.0 || v.wheelsCondition >= 100.0
                    || v.axleBearingsCondition >= 100.0)
    ensures c == FuelCheck ==> (Raises(MonitorPlan(v), c) <==> v.fuelLevel <= 100.0)
    ensures c == VariantCheck ==> (Raises(MonitorPlan(v), c) <==> VariantDue(v))
    ensures c == RouteCheck ==>
              (Raises(MonitorPlan(v), c)
               <==> EqualsIgnoreCase("COMPLETED", v.status) && v.variant != BusFields(None))
  {
    var a := OptSeq(CheckCommon(v));
    var b := OptSeq(CheckFuel(v));
    RaisesConcat(a + b, VariantThenRoute(v), c);
    RaisesConcat(a, b, c);
    RaisesOpt(CheckCommon(v), c);
    RaisesOpt(CheckFuel(v), c);
    var r := CheckVariant(v);
    if r.Checked? {
      RaisesConcat(OptSeq(r.alert), OptSeq(CheckRoute(v)), c);
      RaisesOpt(r.alert, c);
      RaisesOpt(CheckRoute(v), c);
    }
  }

  lemma VariantThenRouteShape(v: Vehicle)
    ensures InCheckOrder(VariantThenRoute(v)) && |VariantThenRoute(v)| <= 2
    ensures forall p :: p in VariantThenRoute(v) ==>
              p.check.Rank() >= 2 && p.event == EventOf(p.check)
  {
    var r := CheckVariant(v);
    if r.Checked? {
      var x, y := OptSeq(r.alert), OptSeq(CheckRoute(v));
      assert forall p :: p in x ==> p.check == VariantCheck && p.event == MAINTENANCE;
      assert forall p :: p in y ==> p.check == RouteCheck && p.event == ROUTE_END;
      InCheckOrderConcat(x, y);
    }
  }

  /**
   * The shape of one call's alerts: at most one per check, in the order
   * common, fuel, variant, route, so at most four, each with its check's event.
   */
  lemma MonitorPlanShape(v: Vehicle)
    ensures InCheckOrder(MonitorPlan(v))
    ensures forall p :: p in MonitorPlan(v) ==> p.event == EventOf(p.check)
    ensures |MonitorPlan(v)| <= 4
  {
    var a := OptSeq(CheckCommon(v));
    var b := OptSeq(CheckFuel(v));
    var tail := VariantThenRoute(v);
    assert forall p :: p in a ==> p.check == CommonCheck && p.event == MAINTENANCE;
    assert forall p :: p in b ==> p.check == FuelCheck && p.event == REFUEL;
    VariantThenRouteShape(v);
    InCheckOrderConcat(a, b);
    assert forall p :: p in a + b ==> p.check.Rank() <= 1;
    InCheckOrderConcat(a + b, tail);
  }

  /** The reasons: the common alert lists the tripped parts, the light-rail one the electrical ones. */
  lemma MonitorReasons(v: Vehicle, p: PlannedAlert)
    requires p in MonitorPlan(v)
    ensures p.check == CommonCheck ==>
              p.reason == ServiceInterval(CommonTripped(v.brakesCondition, v.wheelsCondition,
                                                        v.axleBearingsCondition))
    ensures p.check == FuelCheck ==> p.reason == RefuelNeeded(v.fuelLevel)
    ensures p.check == RouteCheck ==> p.reason == RouteCompleted(v.currentRouteId)
    ensures p.check == VariantCheck ==>
              match v.variant
              case ElectricLightRailFields(c, pg, b) =>
                p.reason == ElectricalSystem(ElectricalTripped(c, pg, b))
              case DieselTrainFields(oil) => p.reason == OilChange(oil)
              case BusFields(e) => e.Some? && p.reason == EmissionCheck(e.value)
              case PlainFields => false
  {
    var a := OptSeq(CheckCommon(v));
    var b := OptSeq(CheckFuel(v));
    assert p in a || p in b || p in VariantThenRoute(v);
    if p in VariantThenRoute(v) {
      var r := CheckVariant(v);
      assert r.Checked? && (p in OptSeq(r.alert) || p in OptSeq(CheckRoute(v)));
    }
  }

  /** The pantograph quirk: a light rail with only the pantograph worn reports the catenary's hours. */
  lemma PantographReportsCatenaryHours(v: Vehicle)
    requires v.variant == ElectricLightRailFields(10.0, 150.0, 20.0)
    requires v.brakesCondition < 100.0 && v.wheelsCondition < 100.0
    requires v.axleBearingsCondition < 100.0 && v.fuelLevel > 100.0 && v.status.None?
    ensures MonitorPlan(v)
            == [PlannedAlert(VariantCheck, MAINTENANCE, ElectricalSystem([Tripped(Pantograph, 10.0)]))]
  {
    assert CommonTripped(v.brakesCondition, v.wheelsCondition, v.axleBearingsCondition) == [];
    assert ElectricalTripped(10.0, 150.0, 20.0) == [Tripped(Pantograph, 10.0)];
  }

  // ---- Raising alerts ----

  /** The alert table and the listeners' record, as far as the monitor touches them. */
  datatype AlertWorld = AlertWorld(alerts: map<int, Alert>, nextId: int,
                                   delivered: seq<Notification>)

  /** What may go wrong while raising: failed inserts (by check) and throwing listeners. */
  datatype Faults = Faults(failedAdds: set<Check>, failingListeners: set<Listener>)

  /** The alert `createAndNotifyAlert` stores under `id`: ACTIVE, typed by the event's name. */
  function NewAlert(id: int, vehicleId: int, event: VehicleEvent, reason: Reason, now: int): Alert
  {
    Alert(id, vehicleId, Some(ACTIVE_ALERT), Some(EventName(event)), Some(reason), Some(now))
  }

  /**
   * `createAndNotifyAlert`: when the insert succeeds the alert is stored under
   * the next id and the listeners are notified; a failed insert or a
   * throwing listener is swallowed.
   */
  function Raise(w: AlertWorld, vehicleId: int, event: VehicleEvent, reason: Reason, now: int,
                 listeners: seq<Listener>, addOk: bool, failing: set<Listener>): AlertWorld
  {
    if !addOk then w
    else
      var a := NewAlert(w.nextId, vehicleId, event, reason, now);
      AlertWorld(w.alerts[w.nextId := a], w.nextId + 1,
                 w.delivered + Deliveries(listeners, event, a, failing))
  }

  /** Raising the planned alerts one after the other. */
  function RaiseAll(w: AlertWorld, plan: seq<PlannedAlert>, vehicleId: int, now: int,
                    listeners: seq<Listener>, faults: Faults): AlertWorld
    decreases plan
  {
    if plan == [] then w
    else
      var p := plan[0];
      var w1 := Raise(w, vehicleId, p.event, p.reason, now, listeners,
                      p.check !in faults.failedAdds, faults.failingListeners);
      RaiseAll(w1, plan[1..], vehicleId, now, listeners, faults)
  }

  /** Raising at most one planned alert is one `Raise`, or nothing. */
  lemma {:induction false} RaiseAllOptional(w: AlertWorld, o: Option<PlannedAlert>, vehicleId: int, now: int,
                                           listeners: seq<Listener>, faults: Faults)
    ensures o.None? ==> RaiseAll(w, OptSeq(o), vehicleId, now, listeners, faults) == w
    ensures o.Some? ==>
              RaiseAll(w, OptSeq(o), vehicleId, now, listeners, faults)
              == Raise(w, vehicleId, o.value.event, o.value.reason, now, listeners,
                       o.value.check !in faults.failedAdds, faults.failingListeners)
  {
  }

  /** The planned alerts whose insert succeeds. */
  function Stored(plan: seq<PlannedAlert>, failedAdds: set<Check>): (s: seq<PlannedAlert>)
    ensures |s| <= |plan|
    ensures forall p :: p in s <==> p in plan && p.check !in failedAdds
  {
    if plan == [] then []
    else (if plan[0].check in failedAdds then [] else [plan[0]]) + Stored(plan[1..], failedAdds)
  }

  /** Raising two plans in turn is raising their concatenation. */
  lemma {:induction false} RaiseAllAppend(w: AlertWorld, a: seq<PlannedAlert>,
                                          b: seq<PlannedAlert>, vehicleId: int, now: int,
                                          listeners: seq<Listener>, faults: Faults)
    decreases a
    ensures RaiseAll(w, a + b, vehicleId, now, listeners, faults)
            == RaiseAll(RaiseAll(w, a, vehicleId, now, listeners, faults), b, vehicleId, now,
                        listeners, faults)
  {
    if a != [] {
      var p := a[0];
      var w1 := Raise(w, vehicleId, p.event, p.reason, now, listeners,
                      p.check !in faults.failedAdds, faults.failingListeners);
      assert (a + b)[1..] == a[1..] + b;
      RaiseAllAppend(w1, a[1..], b, vehicleId, now, listeners, faults);
    } else {
      assert a + b == b;
    }
  }

  predicate IdsBelowNext(w: AlertWorld)
  {
    forall id :: id in w.alerts ==> id < w.nextId
  }

  /**
   * Raising a plan takes one new id per stored alert, keeps every alert
   * already in the table, and adds nothing outside the new ids.
   */
  lemma {:induction false} RaiseAllIds(w: AlertWorld, plan: seq<PlannedAlert>, vehicleId: int,
                                       now: int, listeners: seq<Listener>, faults: Faults)
    requires IdsBelowNext(w)
    decreases plan
    ensures var r := RaiseAll(w, plan, vehicleId, now, listeners, faults);
      && IdsBelowNext(r)
      && r.nextId == w.nextId + |Stored(plan, faults.failedAdds)|
      && (forall id :: id in r.alerts <==> id in w.alerts || w.nextId <= id < r.nextId)
      && (forall id :: id in w.alerts ==> r.alerts[id] == w.alerts[id])
  {
    if plan != [] {
      var p := plan[0];
      var w1 := Raise(w, vehicleId, p.event, p.reason, now, listeners,
                      p.check !in faults.failedAdds, faults.failingListeners);
      RaiseAllIds(w1, plan[1..], vehicleId, now, listeners, faults);
      if p.check !in faults.failedAdds {
        assert Stored(plan, faults.failedAdds) == [p] + Stored(plan[1..], faults.failedAdds);
      } else {
        assert Stored(plan, faults.failedAdds) == Stored(plan[1..], faults.failedAdds);
      }
    }
  }

  /** A planned alert whose insert fails leaves the world as it was. */
  lemma RaiseAllSkip(w: AlertWorld, plan: seq<PlannedAlert>, vehicleId: int, now: int,
                     listeners: seq<Listener>, faults: Faults)
    requires plan != [] && plan[0].check in faults.failedAdds
    ensures RaiseAll(w, plan, vehicleId, now, listeners, faults)
            == RaiseAll(w, plan[1..], vehicleId, now, listeners, faults)
    ensures Stored(plan, faults.failedAdds) == Stored(plan[1..], faults.failedAdds)
  {
  }

  /** A planned alert whose insert succeeds is stored under the next id before the rest are raised. */
  lemma RaiseAllTake(w: AlertWorld, plan: seq<PlannedAlert>, vehicleId: int, now: int,
                     listeners: seq<Listener>, faults: Faults)
    requires plan != [] && plan[0].check !in faults.failedAdds
    ensures var p := plan[0];
      var w1 := Raise(w, vehicleId, p.event, p.reason, now, listeners, true,
                      faults.failingListeners);
      && RaiseAll(w, plan, vehicleId, now, listeners, faults)
         == RaiseAll(w1, plan[1..], vehicleId, now, listeners, faults)
      && Stored(plan, faults.failedAdds) == [p] + Stored(plan[1..], faults.failedAdds)
      && w1.nextId == w.nextId + 1
      && w1.alerts == w.alerts[w.nextId := NewAlert(w.nextId, vehicleId, p.event, p.reason, now)]
  {
  }

  /** The `k`-th stored alert of a plan sits under the `k`-th new id. */
  lemma {:induction false} RaiseAllStoresAt(w: AlertWorld, plan: seq<PlannedAlert>, vehicleId: int,
                                            now: int, listeners: seq<Listener>, faults: Faults,
                                            k: nat)
    requires IdsBelowNext(w)
    requires k < |Stored(plan, faults.failedAdds)|
    decreases plan
    ensures var r := RaiseAll(w, plan, vehicleId, now, listeners, faults);
      var p := Stored(plan, faults.failedAdds)[k];
      w.nextId + k in r.alerts
      && r.alerts[w.nextId + k] == NewAlert(w.nextId + k, vehicleId, p.event, p.reason, now)
  {
    var p := plan[0];
    if p.check in faults.failedAdds {
      RaiseAllSkip(w, plan, vehicleId, now, listeners, faults);
      RaiseAllStoresAt(w, plan[1..], vehicleId, now, listeners, faults, k);
    } else {
      RaiseAllTake(w, plan, vehicleId, now, listeners, faults);
      var w1 := Raise(w, vehicleId, p.event, p.reason, now, listeners, true,
                      faults.failingListeners);
      if k == 0 {
        RaiseAllIds(w1, plan[1..], vehicleId, now, listeners, faults);
      } else {
        RaiseAllStoresAt(w1, plan[1..], vehicleId, now, listeners, faults, k - 1);
      }
    }
  }

  /** Raising only appends to the listeners' record. */
  lemma {:induction false} RaiseAllOnlyAppends(w: AlertWorld, plan: seq<PlannedAlert>,
                                               vehicleId: int, now: int,
                                               listeners: seq<Listener>, faults: Faults)
    decreases plan
    ensures w.delivered <= RaiseAll(w, plan, vehicleId, now, listeners, faults).delivered
  {
    if plan != [] {
      var p := plan[0];
      var w1 := Raise(w, vehicleId, p.event, p.reason, now, listeners,
                      p.check !in faults.failedAdds, faults.failingListeners);
      RaiseAllOnlyAppends(w1, plan[1..], vehicleId, now, listeners, faults);
    }
  }

  /**
   * The effect of raising a plan: each alert whose insert succeeds is stored,
   * in plan order, under consecutive new ids as an ACTIVE alert of the
   * vehicle; a failed insert does not stop the later ones; alerts already
   * stored are untouched, and listener calls are only appended.
   */
  lemma RaiseAllEffect(w: AlertWorld, plan: seq<PlannedAlert>, vehicleId: int,
                       now: int, listeners: seq<Listener>, faults: Faults)
    requires IdsBelowNext(w)
    ensures var r := RaiseAll(w, plan, vehicleId, now, listeners, faults);
      var s := Stored(plan, faults.failedAdds);
      && IdsBelowNext(r)
      && r.nextId == w.nextId + |s|
      && (forall id :: id in r.alerts <==> id in w.alerts || w.nextId <= id < r.nextId)
      && (forall id :: id in w.alerts ==> r.alerts[id] == w.alerts[id])
      && (forall k :: 0 <= k < |s| ==>
            r.alerts[w.nextId + k] == NewAlert(w.nextId + k, vehicleId, s[k].event, s[k].reason, now))
      && w.delivered <= r.delivered
  {
    RaiseAllIds(w, plan, vehicleId, now, listeners, faults);
    forall k | 0 <= k < |Stored(plan, faults.failedAdds)| {
      RaiseAllStoresAt(w, plan, vehicleId, now, listeners, faults, k);
    }
    RaiseAllOnlyAppends(w, plan, vehicleId, now, listeners, faults);
  }

  /** Every alert a raise creates is ACTIVE, belongs to the vehicle, and is typed by an event name. */
  lemma RaisedAlertsAreActive(w: AlertWorld, plan: seq<PlannedAlert>, vehicleId: int, now: int,
                              listeners: seq<Listener>, faults: Faults)
    requires IdsBelowNext(w)
    ensures var r := RaiseAll(w, plan, vehicleId, now, listeners, faults);
      forall id :: id in r.alerts && id !in w.alerts ==>
        && r.alerts[id].status == Some(ACTIVE_ALERT)
        && r.alerts[id].vehicleId == vehicleId
        && r.alerts[id].alertId == id
        && ParseEvent(r.alerts[id].alertType).Some?
  {
    RaiseAllEffect(w, plan, vehicleId, now, listeners, faults);
    var r := RaiseAll(w, plan, vehicleId, now, listeners, faults);
    var s := Stored(plan, faults.failedAdds);
    forall id | id in r.alerts && id !in w.alerts
      ensures r.alerts[id].status == Some(ACTIVE_ALERT)
      ensures r.alerts[id].vehicleId == vehicleId && r.alerts[id].alertId == id
      ensures ParseEvent(r.alerts[id].alertType).Some?
    {
      var k := id - w.nextId;
      assert r.alerts[w.nextId + k] == NewAlert(w.nextId + k, vehicleId, s[k].event,
                                                s[k].reason, now);
      EventNameRoundTrip(s[k].event, None);
    }
  }

  /** With no failures, one call stores exactly as many alerts as it plans, at most four. */
  lemma MonitorStoresPlanWhenNothingFails(w: AlertWorld, v: Vehicle, now: int,
                                          listeners: seq<Listener>, failing: set<Listener>)
    requires IdsBelowNext(w)
    ensures var r := RaiseAll(w, MonitorPlan(v), v.vehicleNumber, now, listeners,
                              Faults({}, failing));
      r.nextId == w.nextId + |MonitorPlan(v)| && r.nextId <= w.nextId + 4
  {
    MonitorPlanShape(v);
    StoredNoFailures(MonitorPlan(v));
    RaiseAllEffect(w, MonitorPlan(v), v.vehicleNumber, now, listeners, Faults({}, failing));
  }

  lemma {:induction false} StoredNoFailures(plan: seq<PlannedAlert>)
    decreases plan
    ensures Stored(plan, {}) == plan
  {
    if plan != [] {
      StoredNoFailures(plan[1..]);
    }
  }

  /** A single alert raised with no faults reaches every listener, in order. */
  lemma RaiseNotifiesAll(w: AlertWorld, vehicleId: int, event: VehicleEvent, reason: Reason,
                         now: int, listeners: seq<Listener>)
    ensures Raise(w, vehicleId, event, reason, now, listeners, true, {}).delivered
            == w.delivered + Notes(listeners, event, NewAlert(w.nextId, vehicleId, event, reason, now))
  {
    DeliveriesWhenNoneFails(listeners, event, NewAlert(w.nextId, vehicleId, event, reason, now), {});
  }

  // ---- Processing an alert ----

  /** The three action names are already upper case. */
  lemma UpperCaseNames()
    ensures ToUpperCase("ACKNOWLEDGE") == "ACKNOWLEDGE"
    ensures ToUpperCase("RESOLVE") == "RESOLVE"
    ensures ToUpperCase("ESCALATE") == "ESCALATE"
  {
  }

  /** The status an action sets: `toUpperCase` without `trim`, then one of three names. */
  function ActionStatus(action: string): (status: Option<string>)
    ensures status.Some? ==> status.value in {"ACKNOWLEDGED", "RESOLVED", "ESCALATED"}
    ensures status == Some("ACKNOWLEDGED") <==> EqualsIgnoreCase("ACKNOWLEDGE", Some(action))
    ensures status == Some("RESOLVED") <==> EqualsIgnoreCase("RESOLVE", Some(action))
    ensures status == Some("ESCALATED") <==> EqualsIgnoreCase("ESCALATE", Some(action))
    ensures status.None? <==> !EqualsIgnoreCase("ACKNOWLEDGE", Some(action))
                              && !EqualsIgnoreCase("RESOLVE", Some(action))
                              && !EqualsIgnoreCase("ESCALATE", Some(action))
  {
    UpperCaseNames();
    var u := ToUpperCase(action);
    if u == "ACKNOWLEDGE" then Some("ACKNOWLEDGED")
    else if u == "RESOLVE" then Some("RESOLVED")
    else if u == "ESCALATE" then Some("ESCALATED")
    else None
  }

  /** Actions are matched ignoring case, but surrounding blanks make an action invalid. */
  lemma ActionStatusExamples()
    ensures ActionStatus("acknowledge") == Some("ACKNOWLEDGED")
    ensures ActionStatus("Resolve") == Some("RESOLVED")
    ensures ActionStatus("ESCALATE") == Some("ESCALATED")
    ensures ActionStatus(" resolve") == None
    ensures ActionStatus("close") == None
  {
    assert ToUpperCase("acknowledge") == "ACKNOWLEDGE";
    assert ToUpperCase("Resolve") == "RESOLVE";
    assert ToUpperCase("ESCALATE") == "ESCALATE";
    assert ToUpperCase(" resolve")[0] == ' ';
    assert |ToUpperCase("close")| == 5;
  }

  /** Upper-casing an action first does not change the status it sets. */
  lemma ActionStatusIgnoresCase(a: string)
    ensures ActionStatus(ToUpperCase(a)) == ActionStatus(a)
  {
    var u := ToUpperCase(a);
    forall i | 0 <= i < |u|
      ensures ToUpperCase(u)[i] == u[i]
    {
      assert UpperAscii(u[i]) == u[i];
    }
    assert ToUpperCase(u) == u;
  }

  /** What `processAlert` leaves behind and how it ends. */
  datatype Processed = Processed(world: AlertWorld, outcome: Outcome)

  const PROCESS_FAILED: Outcome := Fail(RuntimeException("Failed to process alert"))

  /**
   * `processAlert`: argument checks throw `IllegalArgumentException`;
   * everything after them is wrapped into "Failed to process alert". The
   * status is written before the event type is parsed and the listeners are
   * called, so those failures come after the update has persisted. A
   * resolved alert notifies nobody.
   */
  function ProcessAlertSpec(w: AlertWorld, alertID: int, action: Str, updateOk: bool,
                            listeners: seq<Listener>, failing: set<Listener>): Processed
  {
    if alertID <= 0 then Processed(w, Fail(IllegalArgumentException("Invalid alert ID")))
    else if action.None? || IsBlank(action.value)
    then Processed(w, Fail(IllegalArgumentException("Action cannot be null or empty")))
    else if alertID !in w.alerts then Processed(w, PROCESS_FAILED)
    else
      var status := ActionStatus(action.value);
      if status.None? || !updateOk then Processed(w, PROCESS_FAILED)
      else
        var a := w.alerts[alertID].(status := Some(status.value));
        var w1 := w.(alerts := w.alerts[alertID := a]);
        if status.value == "RESOLVED" then Processed(w1, Pass)
        else
          match ParseEvent(a.alertType)
          case None => Processed(w1, PROCESS_FAILED)
          case Some(e) =>
            Processed(w1.(delivered := w.delivered + Deliveries(listeners, e, a, failing)),
                      if forall i :: 0 <= i < |listeners| ==> listeners[i] !in failing
                      then Pass else PROCESS_FAILED)
  }

  /**
   * The argument checks: `IllegalArgumentException` exactly for a non-positive
   * id or a null or blank action, and then nothing changes; every other
   * failure is the wrapped `RuntimeException`.
   */
  lemma ProcessAlertArgumentErrors(w: AlertWorld, alertID: int, action: Str, updateOk: bool,
                                   listeners: seq<Listener>, failing: set<Listener>)
    ensures var r := ProcessAlertSpec(w, alertID, action, updateOk, listeners, failing);
      && ((r.outcome.Fail? && r.outcome.error.IllegalArgumentException?)
          <==> alertID <= 0 || action.None? || IsBlank(action.value))
      && (r.outcome.Fail? && r.outcome.error.IllegalArgumentException? ==> r.world == w)
      && (r.outcome.Fail? && !r.outcome.error.IllegalArgumentException? ==>
            r.outcome == PROCESS_FAILED)
  {
  }

  /**
   * Processing changes at most the status of the one alert: no alert is
   * added or removed, the id counter is kept, and any new status is the
   * action's, whatever the status was before.
   */
  lemma ProcessAlertOnlyTouchesStatus(w: AlertWorld, alertID: int, action: Str, updateOk: bool,
                                      listeners: seq<Listener>, failing: set<Listener>)
    ensures var r := ProcessAlertSpec(w, alertID, action, updateOk, listeners, failing);
      && r.world.nextId == w.nextId
      && r.world.alerts.Keys == w.alerts.Keys
      && (forall id :: id in w.alerts && id != alertID ==> r.world.alerts[id] == w.alerts[id])
      && (alertID in w.alerts ==>
            r.world.alerts[alertID].(status := w.alerts[alertID].status) == w.alerts[alertID])
      && (alertID in w.alerts && r.world.alerts[alertID] != w.alerts[alertID] ==>
            action.Some? && r.world.alerts[alertID].status == ActionStatus(action.value))
      && w.delivered <= r.world.delivered
  {
  }

  /**
   * The status is written exactly when the id is valid and stored, the action
   * is one of the three and the update succeeds; this holds even when the
   * call then fails on the event type or a listener.
   */
  lemma ProcessAlertWritesStatus(w: AlertWorld, alertID: int, action: Str, updateOk: bool,
                                 listeners: seq<Listener>, failing: set<Listener>)
    requires alertID in w.alerts
    ensures var r := ProcessAlertSpec(w, alertID, action, updateOk, listeners, failing);
      var writes := alertID > 0 && action.Some? && !IsBlank(action.value)
                    && ActionStatus(action.value).Some? && updateOk;
      && (writes ==> r.world.alerts[alertID].status == Some(ActionStatus(action.value).value))
      && (!writes ==> r.world == w && r.outcome.Fail?)
  {
  }

  /**
   * Notification: resolving notifies nobody; acknowledging or escalating an
   * alert whose type names an event calls the listeners with the updated
   * alert, every one of them when none throws.
   */
  lemma ProcessAlertNotifies(w: AlertWorld, alertID: int, action: string, updateOk: bool,
                             listeners: seq<Listener>, failing: set<Listener>)
    requires alertID > 0 && alertID in w.alerts && !IsBlank(action) && updateOk
    requires ActionStatus(action).Some?
    ensures var r := ProcessAlertSpec(w, alertID, Some(action), updateOk, listeners, failing);
      var a := w.alerts[alertID].(status := ActionStatus(action));
      && (ActionStatus(action) == Some("RESOLVED") ==>
            r.world.delivered == w.delivered && r.outcome == Pass)
      && (ActionStatus(action) != Some("RESOLVED") && ParseEvent(a.alertType).None? ==>
            r.world.delivered == w.delivered && r.outcome == PROCESS_FAILED)
      && (ActionStatus(action) != Some("RESOLVED") && ParseEvent(a.alertType).Some?
          && (forall i :: 0 <= i < |listeners| ==> listeners[i] !in failing) ==>
            r.world.delivered == w.delivered + Notes(listeners, ParseEvent(a.alertType).value, a)
            && r.outcome == Pass)
  {
    var a := w.alerts[alertID].(status := ActionStatus(action));
    if ParseEvent(a.alertType).Some? && (forall i :: 0 <= i < |listeners| ==> listeners[i] !in failing) {
      DeliveriesWhenNoneFails(listeners, ParseEvent(a.alertType).value, a, failing);
    }
  }

  /** Processing an alert twice with the same action leaves the same table as doing it once. */
  lemma ProcessAlertIdempotentOnTable(w: AlertWorld, alertID: int, action: Str,
                                      listeners: seq<Listener>, failing: set<Listener>)
    ensures var once := ProcessAlertSpec(w, alertID, action, true, listeners, failing).world;
      ProcessAlertSpec(once, alertID, action, true, listeners, failing).world.alerts == once.alerts
  {
  }
}
