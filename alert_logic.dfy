/**
 * `VehicleAlertBusinessLogic`: watches a vehicle's wear, fuel and route
 * state, stores alerts through the alert DAO, tells the listeners, and lets
 * an operator acknowledge, resolve or escalate an alert. Each method is
 * proved to follow the value-level rules of `AlertRules`.
 *
 * The clock is the parameter `now`; whether an insert or an update hits a
 * database error, and which listeners throw, are parameters too.
 */
module AlertLogic {
  import opened JavaLang
  import opened TransferObjects
  import opened Observer
  import opened Dao
  import opened AlertRules

  class VehicleAlertBusinessLogic {
    const alertDAO: AlertDao
    const notifier: VehicleEventNotifier

    /** The constructor after its null checks; `Create` makes them. */
    constructor (alertDAO: AlertDao, notifier: VehicleEventNotifier)
      ensures this.alertDAO == alertDAO && this.notifier == notifier
    {
      this.alertDAO := alertDAO;
      this.notifier := notifier;
    }

    /** `new VehicleAlertBusinessLogic(alertDAO, notifier)`, which refuses null dependencies. */
    static method Create(alertDAO: AlertDao?, notifier: VehicleEventNotifier?)
      returns (r: Result<VehicleAlertBusinessLogic>)
      ensures r.Failure? <==> alertDAO == null || notifier == null
      ensures r.Failure? ==> r.error == IllegalArgumentException("Dependencies cannot be null")
      ensures r.Success? ==>
                fresh(r.value) && r.value.alertDAO == alertDAO && r.value.notifier == notifier
    {
      if alertDAO == null || notifier == null {
        return Failure(IllegalArgumentException("Dependencies cannot be null"));
      }
      var logic := new VehicleAlertBusinessLogic(alertDAO, notifier);
      r := Success(logic);
    }

    predicate Valid()
      reads this, alertDAO
    {
      alertDAO.Valid()
    }

    /** The alert table and the listeners' record this object works on. */
    function World(): (w: AlertWorld)
      reads this, alertDAO, notifier
      ensures Valid() ==> IdsBelowNext(w)
    {
      AlertWorld(alertDAO.alerts, alertDAO.nextAlertId, notifier.delivered)
    }

    /**
     * `createAndNotifyAlert`: builds an ACTIVE alert stamped `now`, inserts
     * it and, if the insert succeeded, notifies the listeners with it. Both
     * failures are swallowed.
     */
    method CreateAndNotifyAlert(vehicleID: int, eventType: VehicleEvent, reason: Reason,
                                now: int, addOk: bool, failing: set<Listener>)
      requires Valid()
      modifies alertDAO, notifier
      ensures Valid() && notifier.listeners == old(notifier.listeners)
      ensures World() == Raise(old(World()), vehicleID, eventType, reason, now,
                               notifier.listeners, addOk, failing)
    {
      var alert := new AlertDTO.Default();
      alert.SetVehicleID(vehicleID);
      alert.SetAlertType(Some(EventName(eventType)));
      alert.SetAlertReason(Some(reason));
      alert.SetAlertTime(Some(now));
      alert.SetStatus(Some(ACTIVE_ALERT));
      var added := alertDAO.AddAlert(alert, addOk);
      if added.Pass? {
        var _ := notifier.NotifyListeners(eventType, alert.Snapshot(), failing);
      }
    }

    /** `checkCommonComponents`: gathers the worn common parts, then raises one alert for them. */
    method CheckCommonComponents(vehicle: VehicleDTO, now: int, faults: Faults)
      requires Valid()
      modifies alertDAO, notifier
      ensures Valid() && notifier.listeners == old(notifier.listeners)
      ensures World() == RaiseAll(old(World()), OptSeq(CheckCommon(vehicle.Snapshot())),
                                  vehicle.vehicleNumber, now, notifier.listeners, faults)
    {
      ghost var planned := CheckCommon(vehicle.Snapshot());
      RaiseAllOptional(World(), planned, vehicle.vehicleNumber, now, notifier.listeners, faults);
      var tripped: seq<Tripped> := [];
      var needsMaintenance := false;
      if vehicle.brakesCondition >= BRAKES_THRESHOLD {
        tripped := tripped + [Tripped(Brakes, vehicle.brakesCondition)];
        needsMaintenance := true;
      }
      if vehicle.wheelsCondition >= WHEELS_THRESHOLD {
        tripped := tripped + [Tripped(Wheels, vehicle.wheelsCondition)];
        needsMaintenance := true;
      }
      if vehicle.axleBearingsCondition >= AXLE_BEARINGS_THRESHOLD {
        tripped := tripped + [Tripped(AxleBearings, vehicle.axleBearingsCondition)];
        needsMaintenance := true;
      }
      assert tripped == CommonTripped(vehicle.brakesCondition, vehicle.wheelsCondition,
                                      vehicle.axleBearingsCondition);
      assert planned == if needsMaintenance
                        then Some(PlannedAlert(CommonCheck, MAINTENANCE, ServiceInterval(tripped)))
                        else None;
      if needsMaintenance {
        CreateAndNotifyAlert(vehicle.vehicleNumber, MAINTENANCE, ServiceInterval(tripped), now,
                             CommonCheck !in faults.failedAdds, faults.failingListeners);
      }
    }

    /** `checkFuelLevel`. */
    method CheckFuelLevel(vehicle: VehicleDTO, now: int, faults: Faults)
      requires Valid()
      modifies alertDAO, notifier
      ensures Valid() && notifier.listeners == old(notifier.listeners)
      ensures World() == RaiseAll(old(World()), OptSeq(CheckFuel(vehicle.Snapshot())),
                                  vehicle.vehicleNumber, now, notifier.listeners, faults)
    {
      if vehicle.fuelLevel <= FUEL_LEVEL_THRESHOLD {
        CreateAndNotifyAlert(vehicle.vehicleNumber, REFUEL, RefuelNeeded(vehicle.fuelLevel), now,
                             FuelCheck !in faults.failedAdds, faults.failingListeners);
      }
    }

    /** `checkElectricLightRailComponents`. */
    method CheckElectricLightRailComponents(elr: VehicleDTO, now: int, faults: Faults)
      requires Valid() && elr.kind == ElectricLightRail
      modifies alertDAO, notifier
      ensures Valid() && notifier.listeners == old(notifier.listeners)
      ensures World() == RaiseAll(old(World()), OptSeq(CheckVariant(elr.Snapshot()).alert),
                                  elr.vehicleNumber, now, notifier.listeners, faults)
    {
      ghost var planned := CheckVariant(elr.Snapshot()).alert;
      RaiseAllOptional(World(), planned, elr.vehicleNumber, now, notifier.listeners, faults);
      var tripped: seq<Tripped> := [];
      var needsMaintenance := false;
      if elr.catenaryCondition >= ELECTRICAL_COMPONENTS_THRESHOLD {
        tripped := tripped + [Tripped(Catenary, elr.catenaryCondition)];
        needsMaintenance := true;
      }
      if elr.pantographCondition >= ELECTRICAL_COMPONENTS_THRESHOLD {
        tripped := tripped + [Tripped(Pantograph, elr.catenaryCondition)];
        needsMaintenance := true;
      }
      if elr.circuitBreakerCondition >= ELECTRICAL_COMPONENTS_THRESHOLD {
        tripped := tripped + [Tripped(CircuitBreaker, elr.catenaryCondition)];
        needsMaintenance := true;
      }
      assert tripped == ElectricalTripped(elr.catenaryCondition, elr.pantographCondition,
                                          elr.circuitBreakerCondition);
      assert planned == if needsMaintenance
                        then Some(PlannedAlert(VariantCheck, MAINTENANCE, ElectricalSystem(tripped)))
                        else None;
      if needsMaintenance {
        CreateAndNotifyAlert(elr.vehicleNumber, MAINTENANCE, ElectricalSystem(tripped), now,
                             VariantCheck !in faults.failedAdds, faults.failingListeners);
      }
    }

    /** `checkDieselTrainComponents`. */
    method CheckDieselTrainComponents(train: VehicleDTO, now: int, faults: Faults)
      requires Valid() && train.kind == DieselTrain
      modifies alertDAO, notifier
      ensures Valid() && notifier.listeners == old(notifier.listeners)
      ensures World() == RaiseAll(old(World()), OptSeq(CheckVariant(train.Snapshot()).alert),
                                  train.vehicleNumber, now, notifier.listeners, faults)
    {
      if train.oilStatus >= OIL_CHANGE_THRESHOLD {
        CreateAndNotifyAlert(train.vehicleNumber, MAINTENANCE, OilChange(train.oilStatus), now,
                             VariantCheck !in faults.failedAdds, faults.failingListeners);
      }
    }

    /** `checkBusComponents`: unboxing a null emission rate throws before anything is raised. */
    method CheckBusComponents(bus: VehicleDTO, now: int, faults: Faults) returns (o: Outcome)
      requires Valid() && bus.kind == Bus
      modifies alertDAO, notifier
      ensures Valid() && notifier.listeners == old(notifier.listeners)
      ensures o.Fail? <==> CheckVariant(bus.Snapshot()).Thrown?
      ensures o.Fail? ==> o.error == NullPointerException && World() == old(World())
      ensures o.Pass? ==>
                World() == RaiseAll(old(World()), OptSeq(CheckVariant(bus.Snapshot()).alert),
                                    bus.vehicleNumber, now, notifier.listeners, faults)
    {
      if bus.emissionRate.None? {
        return Fail(NullPointerException);
      }
      if bus.emissionRate.value >= EMISSION_CHECK_THRESHOLD {
        CreateAndNotifyAlert(bus.vehicleNumber, MAINTENANCE, EmissionCheck(bus.emissionRate.value),
                             now, VariantCheck !in faults.failedAdds, faults.failingListeners);
      }
      o := Pass;
    }

    /** `checkRouteCompletion`. */
    method CheckRouteCompletion(vehicle: VehicleDTO, now: int, faults: Faults)
      requires Valid()
      modifies alertDAO, notifier
      ensures Valid() && notifier.listeners == old(notifier.listeners)
      ensures World() == RaiseAll(old(World()), OptSeq(CheckRoute(vehicle.Snapshot())),
                                  vehicle.vehicleNumber, now, notifier.listeners, faults)
    {
      if EqualsIgnoreCase("COMPLETED", vehicle.status) {
        CreateAndNotifyAlert(vehicle.vehicleNumber, ROUTE_END,
                             RouteCompleted(vehicle.currentRouteId), now,
                             RouteCheck !in faults.failedAdds, faults.failingListeners);
      }
    }

    /**
     * `monitorVehicle`: a null vehicle is refused; otherwise every check runs
     * in turn and raises what `MonitorPlan` says, an exception in the bus
     * check skipping the route check and being swallowed.
     */
    method MonitorVehicle(vehicle: VehicleDTO?, now: int, faults: Faults) returns (o: Outcome)
      requires Valid()
      modifies alertDAO, notifier
      ensures Valid() && notifier.listeners == old(notifier.listeners)
      ensures vehicle == null ==>
                o == Fail(IllegalArgumentException("Vehicle cannot be null"))
                && World() == old(World())
      ensures vehicle != null ==>
                o == Pass
                && World() == RaiseAll(old(World()), MonitorPlan(vehicle.Snapshot()),
                                       vehicle.vehicleNumber, now, notifier.listeners, faults)
    {
      if vehicle == null {
        return Fail(IllegalArgumentException("Vehicle cannot be null"));
      }
      ghost var v := vehicle.Snapshot();
      ghost var id := vehicle.vehicleNumber;
      ghost var ls := notifier.listeners;
      ghost var w0 := World();
      CheckCommonComponents(vehicle, now, faults);
      ghost var w1 := World();
      CheckFuelLevel(vehicle, now, faults);
      ghost var w2 := World();
      RaiseAllAppend(w0, OptSeq(CheckCommon(v)), OptSeq(CheckFuel(v)), id, now, ls, faults);
      var variant := Pass;
      if vehicle.kind == ElectricLightRail {
        CheckElectricLightRailComponents(vehicle, now, faults);
      } else if vehicle.kind == DieselTrain {
        CheckDieselTrainComponents(vehicle, now, faults);
      } else if vehicle.kind == Bus {
        variant := CheckBusComponents(vehicle, now, faults);
      }
      ghost var w3 := World();
      if variant.Pass? {
        assert CheckVariant(v).Checked?;
        assert w3 == RaiseAll(w2, OptSeq(CheckVariant(v).alert), id, now, ls, faults);
        CheckRouteCompletion(vehicle, now, faults);
        RaiseAllAppend(w2, OptSeq(CheckVariant(v).alert), OptSeq(CheckRoute(v)), id, now, ls,
                       faults);
      } else {
        assert w3 == w2 == RaiseAll(w2, [], id, now, ls, faults);
      }
      RaiseAllAppend(w0, OptSeq(CheckCommon(v)) + OptSeq(CheckFuel(v)), VariantThenRoute(v), id,
                     now, ls, faults);
      o := Pass;
    }

    /**
     * `processAlert`: sets the alert's status from the action, persists it,
     * and unless the alert was resolved notifies the listeners with the
     * event its type names.
     */
    method ProcessAlert(alertID: int, action: Str, updateOk: bool, failing: set<Listener>)
      returns (o: Outcome)
      requires Valid()
      modifies alertDAO, notifier
      ensures Valid() && notifier.listeners == old(notifier.listeners)
      ensures Processed(World(), o)
              == ProcessAlertSpec(old(World()), alertID, action, updateOk, notifier.listeners,
                                  failing)
    {
      if alertID <= 0 {
        return Fail(IllegalArgumentException("Invalid alert ID"));
      }
      if action.None? || IsBlank(action.value) {
        return Fail(IllegalArgumentException("Action cannot be null or empty"));
      }
      var alert := alertDAO.GetAlertById(alertID);
      if alert == null {
        return PROCESS_FAILED;
      }
      var newStatus := ActionStatus(action.value);
      if newStatus.None? {
        return PROCESS_FAILED;
      }
      alert.SetStatus(Some(newStatus.value));
      var updated := alertDAO.UpdateAlert(alert, updateOk);
      if updated.Fail? {
        return PROCESS_FAILED;
      }
      if newStatus.value != "RESOLVED" {
        var eventType := ParseEvent(alert.alertType);
        if eventType.None? {
          return PROCESS_FAILED;
        }
        var notified := notifier.NotifyListeners(eventType.value, alert.Snapshot(), failing);
        if !notified {
          return PROCESS_FAILED;
        }
      }
      o := Pass;
    }
  }
}
