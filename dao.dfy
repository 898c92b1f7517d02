/**
 * The persistence layer the fleet and alert logic call, as in-memory tables.
 * Rows are values keyed by their generated id. Whether a statement reaches
 * the database without an `SQLException` is an input (`ok`); an `UPDATE`
 * whose `WHERE` matches no row changes nothing and reports failure.
 */
module Dao {
  import opened JavaLang
  import opened Constants
  import opened TransferObjects

  /** The fuel level an `INSERT` gives a new vehicle of each kind. */
  function InitialFuel(kind: Kind): real
  {
    match kind
    case Bus => 300.0
    case DieselTrain => 15000.0
    case _ => 0.0
  }

  /**
   * The object `getVehicleById` builds from a row: the id column becomes the
   * vehicle number, the location is not loaded, and a missing bus emission
   * rate is read as 0.0 by `getDouble`.
   */
  function Loaded(id: int, row: Vehicle): (v: Vehicle)
    ensures v.KindOf() == row.KindOf() && v.vehicleNumber == id
  {
    row.(vehicleNumber := id, latitude := 0.0, longitude := 0.0,
         variant := if row.variant == BusFields(None) then BusFields(Some(0.0)) else row.variant)
  }

  /** The columns `updateVehicle` writes; status, location and the subclass columns keep their row values. */
  function WithCommonColumns(row: Vehicle, v: Vehicle): Vehicle
  {
    row.(vehicleName := v.vehicleName, vehicleType := v.vehicleType, maxCapacity := v.maxCapacity,
         currentRouteId := v.currentRouteId, axleBearingsCondition := v.axleBearingsCondition,
         fuelType := v.fuelType, consumptionRate := v.consumptionRate,
         wheelsCondition := v.wheelsCondition, brakesCondition := v.brakesCondition,
         fuelLevel := v.fuelLevel)
  }

  /** The row `endMaintenance` leaves: active again, with the three wear counters at 0. */
  function ServicedRow(row: Vehicle): Vehicle
  {
    row.(status := Some(ACTIVE), axleBearingsCondition := 0.0, wheelsCondition := 0.0,
         brakesCondition := 0.0)
  }

  predicate IsOpenFor(m: MaintenanceRecord, vehicleId: int)
  {
    m.vehicleId == vehicleId && m.endTime.None?
  }

  predicate HasOpenMaintenance(ms: seq<MaintenanceRecord>, vehicleId: int)
  {
    exists i :: 0 <= i < |ms| && IsOpenFor(ms[i], vehicleId)
  }

  /** Every open maintenance record of the vehicle gets end time `now`; the rest are kept. */
  function CloseOpen(ms: seq<MaintenanceRecord>, vehicleId: int, now: int)
    : (r: seq<MaintenanceRecord>)
    ensures |r| == |ms|
    ensures forall i :: 0 <= i < |ms| ==>
              r[i] == if IsOpenFor(ms[i], vehicleId) then ms[i].(endTime := Some(now)) else ms[i]
  {
    seq(|ms|, i requires 0 <= i < |ms| =>
      if IsOpenFor(ms[i], vehicleId) then ms[i].(endTime := Some(now)) else ms[i])
  }

  /** After closing, the vehicle has no open maintenance left. */
  lemma CloseOpenClosesAll(ms: seq<MaintenanceRecord>, vehicleId: int, now: int)
    ensures !HasOpenMaintenance(CloseOpen(ms, vehicleId, now), vehicleId)
  {
  }

  /** `VehicleDAOImpl` over the vehicle, route, trip and maintenance tables. */
  class VehicleDao {
    var vehicles: map<int, Vehicle>
    var routes: map<int, Route>
    var trips: seq<Trip>
    var maintenance: seq<MaintenanceRecord>
    /** The next generated vehicle id. */
    var nextVehicleId: int

    predicate Valid()
      reads this
    {
      nextVehicleId > 0 && forall id :: id in vehicles ==> 0 < id < nextVehicleId
    }

    constructor (routes: map<int, Route>)
      ensures Valid()
      ensures vehicles == map[] && this.routes == routes && trips == [] && maintenance == []
    {
      vehicles, this.routes, trips, maintenance, nextVehicleId := map[], routes, [], [], 1;
    }

    /**
     * `getVehicleById`: a new object of the row's kind, or null when there is
     * no row (or the row is of no known kind).
     */
    method GetVehicleById(vehicleId: int) returns (v: VehicleDTO?)
      ensures vehicleId !in vehicles || vehicles[vehicleId].KindOf() == PlainVehicle ==> v == null
      ensures vehicleId in vehicles && vehicles[vehicleId].KindOf() != PlainVehicle ==>
                v != null && fresh(v) && v.kind == vehicles[vehicleId].KindOf()
                && v.Snapshot() == Loaded(vehicleId, vehicles[vehicleId])
    {
      if vehicleId !in vehicles {
        return null;
      }
      var row := Loaded(vehicleId, vehicles[vehicleId]);
      var variant := row.variant;
      if variant.PlainFields? {
        return null;
      } else if variant.BusFields? {
        v := new VehicleDTO.Bus(vehicleId, row.vehicleName, row.vehicleType, row.fuelType,
                                row.consumptionRate, row.maxCapacity, row.currentRouteId,
                                row.axleBearingsCondition, row.brakesCondition,
                                row.wheelsCondition, row.status, 0.0, 0.0,
                                variant.emissionRate.value);
      } else if variant.DieselTrainFields? {
        v := new VehicleDTO.DieselTrain(vehicleId, row.vehicleName, row.vehicleType, row.fuelType,
                                        row.consumptionRate, row.maxCapacity, row.currentRouteId,
                                        row.axleBearingsCondition, row.brakesCondition,
                                        row.wheelsCondition, row.status, 0.0, 0.0,
                                        variant.oilStatus);
      } else {
        v := new VehicleDTO.ElectricLightRail(vehicleId, row.vehicleName, row.vehicleType,
                                              row.fuelType, row.consumptionRate, row.maxCapacity,
                                              row.currentRouteId, row.axleBearingsCondition,
                                              row.brakesCondition, row.wheelsCondition,
                                              row.status, 0.0, 0.0, variant.catenaryCondition,
                                              variant.pantographCondition,
                                              variant.circuitBreakerCondition);
      }
      v.SetFuelLevel(row.fuelLevel);
    }

    /** `getRouteById`: the route, or an empty route (id 0, distance 0, duration 0) when there is none. */
    method GetRouteById(routeId: int) returns (r: Route)
      ensures r == if routeId in routes then routes[routeId] else Route(0, 0.0, 0)
    {
      r := if routeId in routes then routes[routeId] else Route(0, 0.0, 0);
    }

    /** `updateVehicle`: writes the common columns of the vehicle's row. */
    method UpdateVehicle(vehicle: VehicleDTO, ok: bool) returns (updated: bool)
      modifies this
      ensures updated == (ok && vehicle.vehicleNumber in old(vehicles))
      ensures vehicles == if updated
                          then old(vehicles)[vehicle.vehicleNumber :=
                                 WithCommonColumns(old(vehicles)[vehicle.vehicleNumber],
                                                   vehicle.Snapshot())]
                          else old(vehicles)
      ensures routes == old(routes) && trips == old(trips) && maintenance == old(maintenance)
      ensures nextVehicleId == old(nextVehicleId)
    {
      var id := vehicle.vehicleNumber;
      updated := ok && id in vehicles;
      if updated {
        vehicles := vehicles[id := WithCommonColumns(vehicles[id], vehicle.Snapshot())];
      }
    }

    /** `updateOilLife`: writes the oil column of the train's diesel-train row. */
    method UpdateOilLife(train: VehicleDTO, ok: bool) returns (updated: bool)
      requires train.kind == DieselTrain
      modifies this
      ensures updated == (ok && train.vehicleNumber in old(vehicles)
                          && old(vehicles)[train.vehicleNumber].variant.DieselTrainFields?)
      ensures vehicles == if updated
                          then old(vehicles)[train.vehicleNumber :=
                                 old(vehicles)[train.vehicleNumber].(variant :=
                                   DieselTrainFields(train.oilStatus))]
                          else old(vehicles)
      ensures routes == old(routes) && trips == old(trips) && maintenance == old(maintenance)
      ensures nextVehicleId == old(nextVehicleId)
    {
      var id := train.vehicleNumber;
      updated := ok && id in vehicles && vehicles[id].variant.DieselTrainFields?;
      if updated {
        vehicles := vehicles[id := vehicles[id].(variant := DieselTrainFields(train.oilStatus))];
      }
    }

    /** `updateELRComponents`: writes the three component columns of the light-rail row. */
    method UpdateELRComponents(rail: VehicleDTO, ok: bool) returns (updated: bool)
      requires rail.kind == ElectricLightRail
      modifies this
      ensures updated == (ok && rail.vehicleNumber in old(vehicles)
                          && old(vehicles)[rail.vehicleNumber].variant.ElectricLightRailFields?)
      ensures vehicles == if updated
                          then old(vehicles)[rail.vehicleNumber :=
                                 old(vehicles)[rail.vehicleNumber].(variant :=
                                   ElectricLightRailFields(rail.catenaryCondition,
                                     rail.pantographCondition, rail.circuitBreakerCondition))]
                          else old(vehicles)
      ensures routes == old(routes) && trips == old(trips) && maintenance == old(maintenance)
      ensures nextVehicleId == old(nextVehicleId)
    {
      var id := rail.vehicleNumber;
      updated := ok && id in vehicles && vehicles[id].variant.ElectricLightRailFields?;
      if updated {
        vehicles := vehicles[id := vehicles[id].(variant := ElectricLightRailFields(
                      rail.catenaryCondition, rail.pantographCondition,
                      rail.circuitBreakerCondition))];
      }
    }

    /** `completeTrip` of the DAO: inserts the trip row. */
    method CompleteTrip(trip: Trip, ok: bool) returns (inserted: bool)
      modifies this
      ensures inserted == ok
      ensures trips == if ok then old(trips) + [trip] else old(trips)
      ensures vehicles == old(vehicles) && routes == old(routes)
      ensures maintenance == old(maintenance) && nextVehicleId == old(nextVehicleId)
    {
      inserted := ok;
      if ok {
        trips := trips + [trip];
      }
    }

    /**
     * `refuel` of the DAO, one transaction: the vehicle's fuel level is
     * written and the maintenance record inserted under the vehicle's id, or
     * neither. A null vehicle throws `NullPointerException`.
     */
    method Refuel(vehicle: VehicleDTO?, record: MaintenanceRecord, ok: bool)
      returns (r: Result<bool>)
      modifies this
      ensures vehicle == null ==> r == Failure(NullPointerException)
      ensures vehicle != null ==>
                r == Success(ok && vehicle.vehicleNumber in old(vehicles))
      ensures r == Success(true) ==>
                vehicles == old(vehicles)[vehicle.vehicleNumber :=
                              old(vehicles)[vehicle.vehicleNumber].(fuelLevel := vehicle.fuelLevel)]
                && maintenance == old(maintenance) + [record.(vehicleId := vehicle.vehicleNumber)]
      ensures r != Success(true) ==> vehicles == old(vehicles) && maintenance == old(maintenance)
      ensures routes == old(routes) && trips == old(trips) && nextVehicleId == old(nextVehicleId)
    {
      if vehicle == null {
        return Failure(NullPointerException);
      }
      var id := vehicle.vehicleNumber;
      if !ok || id !in vehicles {
        return Success(false);
      }
      vehicles := vehicles[id := vehicles[id].(fuelLevel := vehicle.fuelLevel)];
      maintenance := maintenance + [record.(vehicleId := id)];
      r := Success(true);
    }

    /**
     * `endMaintenance` of the DAO, one transaction: the vehicle row is
     * serviced and its open maintenance records closed at `now`. It fails when
     * there is no such vehicle or no open record. When the database throws,
     * nothing is committed but the catch block falls through to `return true`.
     */
    method EndMaintenance(vehicleId: int, ok: bool, now: int) returns (ended: bool)
      modifies this
      ensures ended == (!ok || (vehicleId in old(vehicles)
                                && HasOpenMaintenance(old(maintenance), vehicleId)))
      ensures ok && ended ==>
                vehicles == old(vehicles)[vehicleId := ServicedRow(old(vehicles)[vehicleId])]
                && maintenance == CloseOpen(old(maintenance), vehicleId, now)
      ensures !(ok && ended) ==> vehicles == old(vehicles) && maintenance == old(maintenance)
      ensures routes == old(routes) && trips == old(trips) && nextVehicleId == old(nextVehicleId)
    {
      if !ok {
        return true;
      }
      if vehicleId !in vehicles || !HasOpenMaintenance(maintenance, vehicleId) {
        return false;
      }
      vehicles := vehicles[vehicleId := ServicedRow(vehicles[vehicleId])];
      maintenance := CloseOpen(maintenance, vehicleId, now);
      ended := true;
    }

    /** `refreshOilLife`: the diesel train's oil status becomes 100.0. */
    method RefreshOilLife(vehicleId: int, ok: bool) returns (updated: bool)
      modifies this
      ensures updated == (ok && vehicleId in old(vehicles)
                          && old(vehicles)[vehicleId].variant.DieselTrainFields?)
      ensures vehicles == if updated
                          then old(vehicles)[vehicleId :=
                                 old(vehicles)[vehicleId].(variant := DieselTrainFields(100.0))]
                          else old(vehicles)
      ensures routes == old(routes) && trips == old(trips) && maintenance == old(maintenance)
      ensures nextVehicleId == old(nextVehicleId)
    {
      updated := ok && vehicleId in vehicles && vehicles[vehicleId].variant.DieselTrainFields?;
      if updated {
        vehicles := vehicles[vehicleId := vehicles[vehicleId].(variant := DieselTrainFields(100.0))];
      }
    }

    /** `refreshELRComponents`: the three component counters become 0. */
    method RefreshELRComponents(vehicleId: int, ok: bool) returns (updated: bool)
      modifies this
      ensures updated == (ok && vehicleId in old(vehicles)
                          && old(vehicles)[vehicleId].variant.ElectricLightRailFields?)
      ensures vehicles == if updated
                          then old(vehicles)[vehicleId := old(vehicles)[vehicleId].(variant :=
                                 ElectricLightRailFields(0.0, 0.0, 0.0))]
                          else old(vehicles)
      ensures routes == old(routes) && trips == old(trips) && maintenance == old(maintenance)
      ensures nextVehicleId == old(nextVehicleId)
    {
      updated := ok && vehicleId in vehicles
                 && vehicles[vehicleId].variant.ElectricLightRailFields?;
      if updated {
        vehicles := vehicles[vehicleId := vehicles[vehicleId].(variant :=
                      ElectricLightRailFields(0.0, 0.0, 0.0))];
      }
    }

    /**
     * `addBus`, `addDieselTrain` and `addElectricLightRail`: inserts a row
     * under a new id with the kind's initial fuel level; the vehicle number
     * and location of the object are not stored. `rowOk` says whether the
     * VEHICLE insert affects a row and `variantOk` whether the insert into the
     * class's own table does. A failed VEHICLE insert returns false first;
     * after it, unboxing a null bus emission rate throws
     * `NullPointerException`, and nothing is committed.
     */
    method AddVehicle(vehicle: VehicleDTO, rowOk: bool, variantOk: bool) returns (r: Result<bool>)
      requires Valid() && vehicle.kind != PlainVehicle
      modifies this
      ensures Valid()
      ensures r == Failure(NullPointerException)
              <==> rowOk && vehicle.Snapshot().variant == BusFields(None)
      ensures r != Failure(NullPointerException) ==> r == Success(rowOk && variantOk)
      ensures r == Success(true) ==>
                vehicles == old(vehicles)[old(nextVehicleId) :=
                              vehicle.Snapshot().(vehicleNumber := old(nextVehicleId),
                                                  latitude := 0.0, longitude := 0.0,
                                                  fuelLevel := InitialFuel(vehicle.kind))]
                && nextVehicleId == old(nextVehicleId) + 1
      ensures r != Success(true) ==>
                vehicles == old(vehicles) && nextVehicleId == old(nextVehicleId)
      ensures routes == old(routes) && trips == old(trips) && maintenance == old(maintenance)
    {
      if !rowOk {
        return Success(false);
      }
      if vehicle.kind == Bus && vehicle.emissionRate.None? {
        return Failure(NullPointerException);
      }
      if !variantOk {
        return Success(false);
      }
      var id := nextVehicleId;
      vehicles := vehicles[id := vehicle.Snapshot().(vehicleNumber := id, latitude := 0.0,
                                                     longitude := 0.0,
                                                     fuelLevel := InitialFuel(vehicle.kind))];
      nextVehicleId := id + 1;
      r := Success(true);
    }
  }

  /** `AlertDAOImpl` over the alert table. */
  class AlertDao {
    var alerts: map<int, Alert>
    /** The next generated alert id. */
    var nextAlertId: int

    /** Ids are positive, generated in increasing order, and stored in their rows. */
    predicate Valid()
      reads this
    {
      nextAlertId > 0
      && forall id :: id in alerts ==> 0 < id < nextAlertId && alerts[id].alertId == id
    }

    constructor ()
      ensures Valid() && alerts == map[]
    {
      alerts, nextAlertId := map[], 1;
    }

    /**
     * `addAlert`: inserts the alert under a new id and writes that id back
     * into the object. A database error becomes
     * `RuntimeException("Failed to add alert")` and nothing is stored.
     */
    method AddAlert(alert: AlertDTO, ok: bool) returns (o: Outcome)
      requires Valid()
      modifies this, alert
      ensures Valid()
      ensures o == (if ok then Pass else Fail(RuntimeException("Failed to add alert")))
      ensures ok ==>
                alert.Snapshot() == old(alert.Snapshot()).(alertId := old(nextAlertId))
                && alerts == old(alerts)[old(nextAlertId) := alert.Snapshot()]
                && nextAlertId == old(nextAlertId) + 1
      ensures !ok ==>
                alert.Snapshot() == old(alert.Snapshot())
                && alerts == old(alerts) && nextAlertId == old(nextAlertId)
    {
      if !ok {
        return Fail(RuntimeException("Failed to add alert"));
      }
      var id := nextAlertId;
      alert.SetAlertID(id);
      alerts := alerts[id := alert.Snapshot()];
      nextAlertId := id + 1;
      o := Pass;
    }

    /** `getAlertById`: a new object holding the row, or null when there is none. */
    method GetAlertById(alertId: int) returns (a: AlertDTO?)
      ensures alertId !in alerts ==> a == null
      ensures alertId in alerts ==> a != null && fresh(a) && a.Snapshot() == alerts[alertId]
    {
      if alertId !in alerts {
        return null;
      }
      var row := alerts[alertId];
      a := new AlertDTO(row.alertId, row.vehicleId, row.status, row.alertType, row.alertReason,
                        row.alertTime);
    }

    /**
     * `updateAlert`: writes only the status column of the alert's row. A
     * database error becomes `RuntimeException("Failed to update alert")`.
     */
    method UpdateAlert(alert: AlertDTO, ok: bool) returns (o: Outcome)
      requires Valid()
      modifies this
      ensures Valid()
      ensures o == (if ok then Pass else Fail(RuntimeException("Failed to update alert")))
      ensures alerts == if ok && alert.alertID in old(alerts)
                        then old(alerts)[alert.alertID :=
                               old(alerts)[alert.alertID].(status := alert.status)]
                        else old(alerts)
      ensures nextAlertId == old(nextAlertId)
    {
      if !ok {
        return Fail(RuntimeException("Failed to update alert"));
      }
      if alert.alertID in alerts {
        alerts := alerts[alert.alertID := alerts[alert.alertID].(status := alert.status)];
      }
      o := Pass;
    }
  }
}
