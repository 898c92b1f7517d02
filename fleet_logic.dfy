/**
 * `FleetManagementBusinessLogic`: the operations that change the fleet —
 * adding a vehicle, completing a trip, refuelling, and ending maintenance —
 * over the vehicle DAO, with the alert logic watching each completed trip.
 *
 * The clock is the parameter `now`; whether each DAO statement reaches the
 * database without an `SQLException` is a parameter too.
 */
module FleetLogic {
  import opened JavaLang
  import Constants
  import opened TransferObjects
  import opened Builder
  import opened Factory
  import opened Fuel
  import opened Command
  import opened Observer
  import opened Dao
  import opened AlertRules
  import opened AlertLogic
  import opened FleetRules

  /** What may go wrong in `completeTrip`: each DAO statement, and the alerts raised afterwards. */
  datatype TripFaults = TripFaults(updateOk: bool, componentsOk: bool, insertOk: bool,
                                   monitor: Faults)

  /**
   * The vehicle row after `completeTrip`: the common columns of the worn
   * vehicle when `updateVehicle` succeeds, and its component columns when
   * the component update succeeds.
   */
  function TripStoredRow(row: Vehicle, worn: Vehicle, updateOk: bool, componentsStored: bool)
    : Vehicle
  {
    var common := if updateOk then WithCommonColumns(row, worn) else row;
    if componentsStored then common.(variant := worn.variant) else common
  }

  /** Whether the vehicle table holds a row `getVehicleById` turns into an object. */
  predicate Loadable(vehicles: map<int, Vehicle>, vehicleId: int)
  {
    vehicleId in vehicles && vehicles[vehicleId].KindOf() != PlainVehicle
  }

  class FleetManagementBusinessLogic {
    const vehicleDao: VehicleDao
    const alertLogic: VehicleAlertBusinessLogic

    /** The no-argument constructor: new DAOs, a new notifier, and the alert logic over them. */
    constructor (routes: map<int, Route>)
      ensures fresh(vehicleDao) && fresh(alertLogic)
      ensures fresh(alertLogic.alertDAO) && fresh(alertLogic.notifier)
      ensures Valid()
      ensures vehicleDao.vehicles == map[] && vehicleDao.routes == routes
      ensures vehicleDao.trips == [] && vehicleDao.maintenance == []
      ensures alertLogic.alertDAO.alerts == map[] && alertLogic.notifier.listeners == []
    {
      vehicleDao := new VehicleDao(routes);
      var alertDao := new AlertDao();
      var notifier := new VehicleEventNotifier();
      alertLogic := new VehicleAlertBusinessLogic(alertDao, notifier);
    }

    predicate Valid()
      reads this, vehicleDao, alertLogic, alertLogic.alertDAO
    {
      vehicleDao.Valid() && alertLogic.Valid()
    }

    /** The bus branch of `addVehicle`'s builder chains. */
    static method BuildBus(form: VehicleForm) returns (bus: VehicleDTO)
      ensures fresh(bus) && bus.kind == Bus
      ensures bus.Snapshot() == Built(Bus, FormFields(Bus, form))
    {
      var created := CreateBuilder(Some(Constants.BUS));
      var b := created.value;
      b := b.AddVehicleName(form.vehicleName);
      b := b.AddVehicleType(Some(Constants.BUS));
      b := b.AddVehicleName(form.vehicleName);
      b := b.AddFuelType(form.fuelType);
      b := b.AddConsumptionRate(form.consumptionRate);
      b := b.AddMaxCapacity(form.maxCapacity);
      b := b.AddCurrentRouteId(form.currentRouteId);
      b := b.AddAxleBearingsCondition(form.axleBearingsCondition);
      b := b.AddBrakesCondition(form.brakesCondition);
      b := b.AddWheelsCondition(form.wheelsCondition);
      b := b.AddEmissionRate(form.emissionRate);
      b := b.AddStatus(Some(Constants.ACTIVE));
      bus := b.Build();
    }

    /** The diesel-train branch of `addVehicle`'s builder chains. */
    static method BuildDieselTrain(form: VehicleForm) returns (train: VehicleDTO)
      ensures fresh(train) && train.kind == DieselTrain
      ensures train.Snapshot() == Built(DieselTrain, FormFields(DieselTrain, form))
    {
      var created := CreateBuilder(Some(Constants.DIESELTRAIN));
      var b := created.value;
      b := b.AddVehicleName(form.vehicleName);
      b := b.AddVehicleType(Some(Constants.DIESELTRAIN));
      b := b.AddFuelType(form.fuelType);
      b := b.AddVehicleName(form.vehicleName);
      b := b.AddConsumptionRate(form.consumptionRate);
      b := b.AddMaxCapacity(form.maxCapacity);
      b := b.AddCurrentRouteId(form.currentRouteId);
      b := b.AddAxleBearingsCondition(form.axleBearingsCondition);
      b := b.AddBrakesCondition(form.brakesCondition);
      b := b.AddWheelsCondition(form.wheelsCondition);
      b := b.AddOilStatus(form.oilLife);
      b := b.AddStatus(Some(Constants.ACTIVE));
      train := b.Build();
    }

    /** The light-rail branch of `addVehicle`'s builder chains. */
    static method BuildElectricLightRail(form: VehicleForm) returns (rail: VehicleDTO)
      ensures fresh(rail) && rail.kind == ElectricLightRail
      ensures rail.Snapshot() == Built(ElectricLightRail, FormFields(ElectricLightRail, form))
    {
      var created := CreateBuilder(Some(Constants.ELECTRICLIGHTRAIL));
      var b := created.value;
      b := b.AddVehicleName(form.vehicleName);
      b := b.AddVehicleType(Some(Constants.ELECTRICLIGHTRAIL));
      b := b.AddFuelType(form.fuelType);
      b := b.AddVehicleName(form.vehicleName);
      b := b.AddConsumptionRate(form.consumptionRate);
      b := b.AddMaxCapacity(form.maxCapacity);
      b := b.AddCurrentRouteId(form.currentRouteId);
      b := b.AddAxleBearingsCondition(form.axleBearingsCondition);
      b := b.AddBrakesCondition(form.brakesCondition);
      b := b.AddWheelsCondition(form.wheelsCondition);
      b := b.AddCatenaryCondition(form.catenaryCondition);
      b := b.AddPantographCondition(form.pantographCondition);
      b := b.AddCircuitBreakerCondition(form.circuitBreakersCondition);
      b := b.AddStatus(Some(Constants.ACTIVE));
      rail := b.Build();
    }

    /**
     * `addVehicle`: a null tag throws on `equals`; otherwise the vehicle of
     * `AddedKind(tag)` is built and stored, and the result is the insert's.
     */
    method AddVehicle(vehicleType: Str, form: VehicleForm, rowOk: bool, variantOk: bool)
      returns (r: Result<bool>)
      requires Valid()
      modifies vehicleDao
      ensures Valid()
      ensures vehicleType.None? ==> r == Failure(NullPointerException)
      ensures vehicleType.Some? ==> r == Success(rowOk && variantOk)
      ensures r == Success(true) ==>
                vehicleDao.vehicles
                == old(vehicleDao.vehicles)[old(vehicleDao.nextVehicleId) :=
                     AddedRow(AddedKind(vehicleType.value), form, old(vehicleDao.nextVehicleId))]
                && vehicleDao.nextVehicleId == old(vehicleDao.nextVehicleId) + 1
      ensures r != Success(true) ==>
                vehicleDao.vehicles == old(vehicleDao.vehicles)
                && vehicleDao.nextVehicleId == old(vehicleDao.nextVehicleId)
      ensures vehicleDao.routes == old(vehicleDao.routes)
      ensures vehicleDao.trips == old(vehicleDao.trips)
      ensures vehicleDao.maintenance == old(vehicleDao.maintenance)
    {
      if vehicleType.None? {
        return Failure(NullPointerException);
      }
      var vehicle: VehicleDTO;
      if vehicleType.value == Constants.BUS {
        vehicle := BuildBus(form);
      } else if vehicleType.value == Constants.DIESELTRAIN {
        vehicle := BuildDieselTrain(form);
      } else {
        vehicle := BuildElectricLightRail(form);
      }
      r := vehicleDao.AddVehicle(vehicle, rowOk, variantOk);
    }

    /**
     * `endMaintenance`: the DAO closes the maintenance (or, on a database
     * error, reports success anyway), then the train's own components are
     * refreshed; a bus needs nothing more, and an unknown vehicle fails.
     */
    method EndMaintenance(vehicleId: int, now: int, endOk: bool, refreshOk: bool)
      returns (success: bool)
      requires Valid()
      modifies vehicleDao
      ensures Valid()
      ensures var ended := !endOk || (vehicleId in old(vehicleDao.vehicles)
                                      && HasOpenMaintenance(old(vehicleDao.maintenance), vehicleId));
        && success == (ended && Loadable(old(vehicleDao.vehicles), vehicleId)
                       && (old(vehicleDao.vehicles)[vehicleId].KindOf() == Bus || refreshOk))
        && (endOk && ended ==>
              vehicleDao.maintenance == CloseOpen(old(vehicleDao.maintenance), vehicleId, now))
        && (!(endOk && ended) ==> vehicleDao.maintenance == old(vehicleDao.maintenance))
      ensures var ended := !endOk || (vehicleId in old(vehicleDao.vehicles)
                                      && HasOpenMaintenance(old(vehicleDao.maintenance), vehicleId));
        var serviced := if endOk && ended
                        then old(vehicleDao.vehicles)[vehicleId :=
                               ServicedRow(old(vehicleDao.vehicles)[vehicleId])]
                        else old(vehicleDao.vehicles);
        && (ended && refreshOk && Loadable(old(vehicleDao.vehicles), vehicleId)
            && old(vehicleDao.vehicles)[vehicleId].KindOf() == DieselTrain ==>
              vehicleDao.vehicles
              == serviced[vehicleId := serviced[vehicleId].(variant := DieselTrainFields(100.0))])
        && (ended && refreshOk && Loadable(old(vehicleDao.vehicles), vehicleId)
            && old(vehicleDao.vehicles)[vehicleId].KindOf() == ElectricLightRail ==>
              vehicleDao.vehicles
              == serviced[vehicleId := serviced[vehicleId].(variant :=
                            ElectricLightRailFields(0.0, 0.0, 0.0))])
        && (!(ended && refreshOk && Loadable(old(vehicleDao.vehicles), vehicleId)
              && old(vehicleDao.vehicles)[vehicleId].KindOf() != Bus) ==>
              vehicleDao.vehicles == serviced)
      ensures vehicleDao.routes == old(vehicleDao.routes)
      ensures vehicleDao.trips == old(vehicleDao.trips)
      ensures vehicleDao.nextVehicleId == old(vehicleDao.nextVehicleId)
    {
      var vehicle := vehicleDao.GetVehicleById(vehicleId);
      success := false;
      var ended := vehicleDao.EndMaintenance(vehicleId, endOk, now);
      if ended {
        if vehicle != null && vehicle.kind == DieselTrain {
          success := vehicleDao.RefreshOilLife(vehicleId, refreshOk);
        } else if vehicle != null && vehicle.kind == ElectricLightRail {
          success := vehicleDao.RefreshELRComponents(vehicleId, refreshOk);
        } else if vehicle != null && vehicle.kind == Bus {
          success := true;
        }
      }
    }

    /**
     * `refuel`: the fuel station tops the loaded vehicle up with its kind's
     * command, and the DAO stores the new level together with a ten-minute
     * REFUEL record. An unknown vehicle reaches the DAO as null and throws.
     */
    method Refuel(vehicleId: int, cost: real, now: int, ok: bool) returns (r: Result<bool>)
      requires Valid()
      modifies vehicleDao
      ensures Valid()
      ensures !Loadable(old(vehicleDao.vehicles), vehicleId) ==>
                r == Failure(NullPointerException)
      ensures Loadable(old(vehicleDao.vehicles), vehicleId) ==> r == Success(ok)
      ensures r == Success(true) ==>
                vehicleDao.vehicles
                == old(vehicleDao.vehicles)[vehicleId := old(vehicleDao.vehicles)[vehicleId].(
                     fuelLevel := Command.Refuel(CommandFor(old(vehicleDao.vehicles)[vehicleId].KindOf())))]
                && vehicleDao.maintenance
                   == old(vehicleDao.maintenance) + [RefuelRecord(vehicleId, cost, now)]
      ensures r != Success(true) ==>
                vehicleDao.vehicles == old(vehicleDao.vehicles)
                && vehicleDao.maintenance == old(vehicleDao.maintenance)
      ensures vehicleDao.routes == old(vehicleDao.routes)
      ensures vehicleDao.trips == old(vehicleDao.trips)
      ensures vehicleDao.nextVehicleId == old(vehicleDao.nextVehicleId)
    {
      var vehicle := vehicleDao.GetVehicleById(vehicleId);
      var station := new FuelStation(vehicle);
      if vehicle != null {
        if vehicle.kind == Bus {
          station.TopUp(RefuelBusCommand);
        } else if vehicle.kind == DieselTrain {
          station.TopUp(RefuelDieselTrainCommand);
        } else if vehicle.kind == ElectricLightRail {
          station.TopUp(RefuelElectricLightRailCommand);
        }
      }
      var record := RefuelRecord(vehicleId, cost, now);
      r := vehicleDao.Refuel(vehicle, record, ok);
    }

    /** The first half of `completeTrip`: the common wear and fuel, persisted by `updateVehicle`. */
    method WearCommon(vehicle: VehicleDTO, hours: real, fuelUsed: real, updateOk: bool)
      modifies vehicle, vehicleDao
      ensures vehicle.Snapshot()
              == old(vehicle.Snapshot()).(
                   axleBearingsCondition := old(vehicle.axleBearingsCondition) + hours,
                   brakesCondition := old(vehicle.brakesCondition) + hours,
                   wheelsCondition := old(vehicle.wheelsCondition) + hours,
                   fuelLevel := old(vehicle.fuelLevel) - fuelUsed)
      ensures vehicleDao.vehicles
              == if updateOk && vehicle.vehicleNumber in old(vehicleDao.vehicles)
                 then old(vehicleDao.vehicles)[vehicle.vehicleNumber :=
                        WithCommonColumns(old(vehicleDao.vehicles)[vehicle.vehicleNumber],
                                          vehicle.Snapshot())]
                 else old(vehicleDao.vehicles)
      ensures vehicleDao.routes == old(vehicleDao.routes)
      ensures vehicleDao.trips == old(vehicleDao.trips)
      ensures vehicleDao.maintenance == old(vehicleDao.maintenance)
      ensures vehicleDao.nextVehicleId == old(vehicleDao.nextVehicleId)
    {
      var axleBearings := vehicle.axleBearingsCondition + hours;
      var brakes := vehicle.brakesCondition + hours;
      var wheels := vehicle.wheelsCondition + hours;
      var fuelLevel := vehicle.fuelLevel - fuelUsed;
      vehicle.SetAxleBearingsCondition(axleBearings);
      vehicle.SetBrakesCondition(brakes);
      vehicle.SetWheelsCondition(wheels);
      vehicle.SetFuelLevel(fuelLevel);
      var _ := vehicleDao.UpdateVehicle(vehicle, updateOk);
    }

    /**
     * The second half: a diesel train's oil or a light rail's electrical
     * counters, persisted by their own update; a bus has none and reports
     * failure.
     */
    method WearComponents(vehicle: VehicleDTO, hours: real, componentsOk: bool)
      returns (success: bool)
      requires vehicle.kind != PlainVehicle
      modifies vehicle, vehicleDao
      ensures vehicle.Snapshot()
              == TripWorn(old(vehicle.Snapshot()), hours, 0.0).(
                   axleBearingsCondition := old(vehicle.axleBearingsCondition),
                   brakesCondition := old(vehicle.brakesCondition),
                   wheelsCondition := old(vehicle.wheelsCondition),
                   fuelLevel := old(vehicle.fuelLevel))
      ensures success == (vehicle.kind != Bus && componentsOk
                          && vehicle.vehicleNumber in old(vehicleDao.vehicles)
                          && old(vehicleDao.vehicles)[vehicle.vehicleNumber].KindOf()
                             == vehicle.kind)
      ensures vehicleDao.vehicles
              == if success
                 then old(vehicleDao.vehicles)[vehicle.vehicleNumber :=
                        old(vehicleDao.vehicles)[vehicle.vehicleNumber].(
                          variant := vehicle.Snapshot().variant)]
                 else old(vehicleDao.vehicles)
      ensures vehicleDao.routes == old(vehicleDao.routes)
      ensures vehicleDao.trips == old(vehicleDao.trips)
      ensures vehicleDao.maintenance == old(vehicleDao.maintenance)
      ensures vehicleDao.nextVehicleId == old(vehicleDao.nextVehicleId)
    {
      success := false;
      if vehicle.kind == DieselTrain {
        var oilLife := vehicle.oilStatus - 5.0;
        vehicle.SetOilStatus(oilLife);
        success := vehicleDao.UpdateOilLife(vehicle, componentsOk);
      } else if vehicle.kind == ElectricLightRail {
        var pantograph := vehicle.pantographCondition + hours;
        var catenary := vehicle.catenaryCondition + hours;
        var circuitBreaker := vehicle.circuitBreakerCondition + hours;
        vehicle.SetPantographCondition(pantograph);
        vehicle.SetCatenaryCondition(catenary);
        vehicle.SetCircuitBreakerCondition(circuitBreaker);
        success := vehicleDao.UpdateELRComponents(vehicle, componentsOk);
      }
    }

    /** The fuel figure of `completeTrip`: a `FuelContext` with the strategy of the vehicle's class. */
    static method TripEfficiency(vehicle: VehicleDTO, distance: real, fuelUsed: real, hours: real)
      returns (e: Efficiency)
      requires vehicle.kind != PlainVehicle
      ensures e == GetConsumption(StrategyFor(vehicle.kind), distance, fuelUsed, hours)
    {
      var context := new FuelContext();
      if vehicle.kind == Bus {
        context.SetConsumptionStrategy(BusConsumption);
      } else if vehicle.kind == DieselTrain {
        context.SetConsumptionStrategy(DieselTrainConsumption);
      } else if vehicle.kind == ElectricLightRail {
        context.SetConsumptionStrategy(ElectricLightRailConsumption);
      }
      var r := context.CalculateConsumption(distance, fuelUsed, hours);
      e := r.value;
    }

    /** The end of a stored trip: the trip row is inserted, then the vehicle is monitored either way. */
    method RecordAndMonitor(vehicle: VehicleDTO, trip: Trip, now: int, faults: TripFaults)
      returns (inserted: bool)
      requires Valid()
      modifies vehicleDao, alertLogic.alertDAO, alertLogic.notifier
      ensures Valid()
      ensures alertLogic.notifier.listeners == old(alertLogic.notifier.listeners)
      ensures inserted == faults.insertOk
      ensures vehicleDao.trips == if faults.insertOk then old(vehicleDao.trips) + [trip]
                                  else old(vehicleDao.trips)
      ensures vehicleDao.vehicles == old(vehicleDao.vehicles)
      ensures vehicleDao.routes == old(vehicleDao.routes)
      ensures vehicleDao.maintenance == old(vehicleDao.maintenance)
      ensures vehicleDao.nextVehicleId == old(vehicleDao.nextVehicleId)
      ensures alertLogic.World()
              == RaiseAll(old(alertLogic.World()), MonitorPlan(vehicle.Snapshot()),
                          vehicle.vehicleNumber, now, alertLogic.notifier.listeners, faults.monitor)
    {
      inserted := vehicleDao.CompleteTrip(trip, faults.insertOk);
      var _ := alertLogic.MonitorVehicle(vehicle, now, faults.monitor);
    }

    /**
     * `completeTrip`: loads the vehicle and route, computes the fuel figure,
     * wears the vehicle and persists it, then, only when the train's
     * components were stored, inserts the trip and monitors the worn vehicle.
     * A bus never gets that far, so its trips are never recorded. An unknown
     * vehicle throws `NullPointerException` before anything changes.
     */
    method CompleteTrip(userId: int, vehicleId: int, routeId: int, startTime: int,
                        endTime: int, fuelUsed: real, now: int, faults: TripFaults)
      returns (r: Result<bool>)
      requires Valid()
      modifies vehicleDao, alertLogic.alertDAO, alertLogic.notifier
      ensures Valid()
      ensures alertLogic.notifier.listeners == old(alertLogic.notifier.listeners)
      ensures vehicleDao.routes == old(vehicleDao.routes)
      ensures vehicleDao.maintenance == old(vehicleDao.maintenance)
      ensures vehicleDao.nextVehicleId == old(vehicleDao.nextVehicleId)
      ensures !Loadable(old(vehicleDao.vehicles), vehicleId) ==>
                r == Failure(NullPointerException)
                && vehicleDao.vehicles == old(vehicleDao.vehicles)
                && vehicleDao.trips == old(vehicleDao.trips)
                && alertLogic.World() == old(alertLogic.World())
      ensures Loadable(old(vehicleDao.vehicles), vehicleId) ==>
                var row := old(vehicleDao.vehicles)[vehicleId];
                var kind: BuilderKind := row.KindOf();
                var worn := TripWorn(Loaded(vehicleId, row),
                                     TripHours(TripMinutes(startTime, endTime)), fuelUsed);
                var route := if routeId in old(vehicleDao.routes) then old(vehicleDao.routes)[routeId]
                             else Route(0, 0.0, 0);
                var stored := kind != Bus && faults.componentsOk;
                && r == Success(stored && faults.insertOk)
                && vehicleDao.vehicles
                   == old(vehicleDao.vehicles)[vehicleId :=
                        TripStoredRow(row, worn, faults.updateOk, stored)]
                && vehicleDao.trips
                   == (if stored && faults.insertOk
                       then old(vehicleDao.trips) + [TripRecord(userId, vehicleId, routeId,
                              startTime, endTime, fuelUsed, kind, route)]
                       else old(vehicleDao.trips))
                && alertLogic.World()
                   == (if stored
                       then RaiseAll(old(alertLogic.World()), MonitorPlan(worn), vehicleId, now,
                                     alertLogic.notifier.listeners, faults.monitor)
                       else old(alertLogic.World()))
    {
      ghost var rows := vehicleDao.vehicles;
      var vehicle := vehicleDao.GetVehicleById(vehicleId);
      var route := vehicleDao.GetRouteById(routeId);
      var durationInMinutes := TripMinutes(startTime, endTime);
      var durationInHours := TripHours(durationInMinutes);
      if vehicle == null {
        return Failure(NullPointerException);
      }
      var efficiency := TripEfficiency(vehicle, route.distance, fuelUsed, durationInHours);
      ghost var loaded := vehicle.Snapshot();
      ghost var worn := TripWorn(loaded, durationInHours, fuelUsed);
      WearCommon(vehicle, durationInHours, fuelUsed, faults.updateOk);
      ghost var afterCommon := vehicleDao.vehicles;
      assert afterCommon == rows[vehicleId := TripStoredRow(rows[vehicleId], worn, faults.updateOk,
                                                           false)];
      var success := WearComponents(vehicle, durationInHours, faults.componentsOk);
      assert vehicle.Snapshot() == worn;
      assert success == (vehicle.kind != Bus && faults.componentsOk);
      assert vehicleDao.vehicles
             == rows[vehicleId := TripStoredRow(rows[vehicleId], worn, faults.updateOk, success)];
      if success {
        var trip := Trip(userId, vehicleId, routeId, startTime, endTime, fuelUsed,
                         efficiency, OnTime(durationInMinutes, route.expectedDuration));
        success := RecordAndMonitor(vehicle, trip, now, faults);
      } else {
        return Success(false);
      }
      r := Success(success);
    }
  }
}
