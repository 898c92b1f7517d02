/**
 * The value-level rules `FleetManagementBusinessLogic` applies: which
 * vehicle `addVehicle` builds from its arguments, how a trip's duration is
 * measured and wears the vehicle, how the trip's on-time flag and fuel
 * figure are computed, and which command refuels which kind.
 */
module FleetRules {
  import opened JavaLang
  import Constants
  import opened TransferObjects
  import opened Builder
  import opened Factory
  import opened Fuel
  import opened Command
  import opened Dao
  import opened TripDao

  // ---- addVehicle ----

  /** The arguments of `addVehicle` after the type tag. */
  datatype VehicleForm = VehicleForm(
    vehicleName: Str, fuelType: Str, consumptionRate: real, maxCapacity: int,
    currentRouteId: int, axleBearingsCondition: real, brakesCondition: real,
    wheelsCondition: real, emissionRate: real, oilLife: real, catenaryCondition: real,
    pantographCondition: real, circuitBreakersCondition: real)

  /**
   * The kind `addVehicle` builds: the bus and diesel-train tags select their
   * kinds, and every other tag falls through to the light-rail branch.
   */
  function AddedKind(tag: string): (k: BuilderKind)
    ensures k == Bus <==> tag == Constants.BUS
    ensures k == DieselTrain <==> tag == Constants.DIESELTRAIN
  {
    if tag == Constants.BUS then Bus
    else if tag == Constants.DIESELTRAIN then DieselTrain
    else ElectricLightRail
  }

  /**
   * What the builder chain of the `kind` branch has collected: the form's
   * common values, the kind's own tag as vehicle type, status ACTIVE, and
   * the form's values for that kind's own components only.
   */
  function FormFields(kind: BuilderKind, form: VehicleForm): BuilderFields
  {
    EmptyFields.(
      vehicleName := form.vehicleName, vehicleType := Some(TypeTag(kind)),
      fuelType := form.fuelType, consumptionRate := form.consumptionRate,
      maxCapacity := form.maxCapacity, currentRouteId := form.currentRouteId,
      axleBearingsCondition := form.axleBearingsCondition,
      brakesCondition := form.brakesCondition, wheelsCondition := form.wheelsCondition,
      status := Some(Constants.ACTIVE),
      emissionRate := if kind == Bus then form.emissionRate else 0.0,
      oilStatus := if kind == DieselTrain then form.oilLife else 0.0,
      catenaryCondition := if kind == ElectricLightRail then form.catenaryCondition else 0.0,
      pantographCondition := if kind == ElectricLightRail then form.pantographCondition else 0.0,
      circuitBreakerCondition :=
        if kind == ElectricLightRail then form.circuitBreakersCondition else 0.0)
  }

  /** The row the DAO stores for the built vehicle under the generated `id`. */
  function AddedRow(kind: BuilderKind, form: VehicleForm, id: int): Vehicle
  {
    Built(kind, FormFields(kind, form)).(vehicleNumber := id, latitude := 0.0,
                                         longitude := 0.0, fuelLevel := InitialFuel(kind))
  }

  /**
   * The stored row: of the selected kind, typed by that kind's tag whatever
   * tag was passed, ACTIVE, with the form's common values, the kind's own
   * components, and the kind's initial fuel. A bus always has an emission
   * rate, so the DAO's null check never fires on this path.
   */
  lemma AddedRowSpec(tag: string, form: VehicleForm, id: int)
    ensures var kind := AddedKind(tag);
      var r := AddedRow(kind, form, id);
      && r.KindOf() == kind
      && r.vehicleNumber == id
      && r.vehicleType == Some(TypeTag(kind))
      && r.status == Some(Constants.ACTIVE)
      && r.vehicleName == form.vehicleName && r.fuelType == form.fuelType
      && r.consumptionRate == form.consumptionRate && r.maxCapacity == form.maxCapacity
      && r.currentRouteId == form.currentRouteId
      && r.axleBearingsCondition == form.axleBearingsCondition
      && r.brakesCondition == form.brakesCondition && r.wheelsCondition == form.wheelsCondition
      && r.fuelLevel == InitialFuel(kind)
      && (kind == Bus ==> r.variant == BusFields(Some(form.emissionRate)))
      && (kind == DieselTrain ==> r.variant == DieselTrainFields(form.oilLife))
      && (kind == ElectricLightRail ==>
            r.variant == ElectricLightRailFields(form.catenaryCondition, form.pantographCondition,
                                                 form.circuitBreakersCondition))
  {
    BuiltKindAndFuel(AddedKind(tag), FormFields(AddedKind(tag), form));
  }

  /** A tag in the wrong case is stored as a light rail, typed "ELECTRIC LIGHT RAIL". */
  lemma LowerCaseTagAddsLightRail(form: VehicleForm, id: int)
    ensures AddedKind("bus") == ElectricLightRail
    ensures AddedRow(AddedKind("bus"), form, id).vehicleType == Some(Constants.ELECTRICLIGHTRAIL)
  {
    assert "bus" != Constants.BUS && "bus" != Constants.DIESELTRAIN;
  }

  // ---- completeTrip ----

  /** The longest trip, in milliseconds either way, whose whole minutes fit in an `int`. */
  const MAX_TRIP_MILLIS: int := INT_MAX * MILLIS_PER_MINUTE

  /**
   * `(int) ChronoUnit.MINUTES.between(start, end)`: whole minutes, truncated
   * toward zero, then narrowed to `int`.
   */
  function TripMinutes(startTime: int, endTime: int): (m: int)
    ensures IsInt(m)
  {
    ToInt(QuotTowardZero(endTime - startTime, MILLIS_PER_MINUTE))
  }

  /**
   * The minutes are the duration's whole minutes: the remainder of a
   * forward trip is under a minute and is dropped; a trip that ends before
   * it starts counts negative minutes, rounded toward zero.
   */
  lemma TripMinutesBounds(startTime: int, endTime: int)
    requires -MAX_TRIP_MILLIS <= endTime - startTime <= MAX_TRIP_MILLIS
    ensures var d, m := endTime - startTime, TripMinutes(startTime, endTime);
      && (0 <= d ==> 0 <= m && m * MILLIS_PER_MINUTE <= d < (m + 1) * MILLIS_PER_MINUTE)
      && (d < 0 ==> m <= 0 && (m - 1) * MILLIS_PER_MINUTE < d <= m * MILLIS_PER_MINUTE)
  {
    var d := endTime - startTime;
    if 0 <= d {
      var q := d / MILLIS_PER_MINUTE;
      assert q * MILLIS_PER_MINUTE + d % MILLIS_PER_MINUTE == d;
      assert q <= INT_MAX;
      assert TripMinutes(startTime, endTime) == q;
    } else {
      var q := (-d) / MILLIS_PER_MINUTE;
      assert q * MILLIS_PER_MINUTE + (-d) % MILLIS_PER_MINUTE == -d;
      assert q <= INT_MAX;
      assert TripMinutes(startTime, endTime) == -q;
    }
  }

  /** `durationInMinutes / 60.0`. */
  function TripHours(minutes: int): (h: real)
    ensures h * 60.0 == minutes as real
  {
    minutes as real / 60.0
  }

  /** The consumption strategy `completeTrip` sets for each kind. */
  function StrategyFor(kind: BuilderKind): Strategy
  {
    match kind
    case Bus => BusConsumption
    case DieselTrain => DieselTrainConsumption
    case ElectricLightRail => ElectricLightRailConsumption
  }

  /**
   * The vehicle after a trip of `hours`: the three common wear counters grow
   * by the hours and the fuel level drops by the fuel used; a diesel train's
   * oil status drops by 5.0 whatever the duration, and a light rail's three
   * electrical counters grow by the hours.
   */
  function TripWorn(v: Vehicle, hours: real, fuelUsed: real): Vehicle
  {
    v.(axleBearingsCondition := v.axleBearingsCondition + hours,
       brakesCondition := v.brakesCondition + hours,
       wheelsCondition := v.wheelsCondition + hours,
       fuelLevel := v.fuelLevel - fuelUsed,
       variant := match v.variant
                  case DieselTrainFields(oil) => DieselTrainFields(oil - 5.0)
                  case ElectricLightRailFields(c, p, b) =>
                    ElectricLightRailFields(c + hours, p + hours, b + hours)
                  case other => other)
  }

  /**
   * Two trips wear a vehicle as one trip of their combined hours and fuel,
   * except that a diesel train loses 5.0 of oil status per trip, so ten for
   * two.
   */
  lemma {:induction false} TripWearAccumulates(v: Vehicle, h1: real, f1: real, h2: real, f2: real)
    ensures !v.variant.DieselTrainFields? ==>
              TripWorn(TripWorn(v, h1, f1), h2, f2) == TripWorn(v, h1 + h2, f1 + f2)
    ensures v.variant.DieselTrainFields? ==>
              TripWorn(TripWorn(v, h1, f1), h2, f2)
              == TripWorn(v, h1 + h2, f1 + f2).(variant :=
                   DieselTrainFields(v.variant.oilStatus - 10.0))
  {
    var once := TripWorn(v, h1 + h2, f1 + f2);
    var twice := TripWorn(TripWorn(v, h1, f1), h2, f2);
    assert twice.axleBearingsCondition == once.axleBearingsCondition;
    assert twice.fuelLevel == once.fuelLevel;
    match v.variant {
      case ElectricLightRailFields(c, p, b) =>
        assert twice.variant == ElectricLightRailFields(c + h1 + h2, p + h1 + h2, b + h1 + h2);
      case _ =>
    }
  }

  /** A trip keeps the kind and identity, and changes nothing but wear, fuel and the kind's own components. */
  lemma TripWornKeeps(v: Vehicle, hours: real, fuelUsed: real)
    ensures var w := TripWorn(v, hours, fuelUsed);
      && w.KindOf() == v.KindOf()
      && w.(axleBearingsCondition := v.axleBearingsCondition,
            brakesCondition := v.brakesCondition, wheelsCondition := v.wheelsCondition,
            fuelLevel := v.fuelLevel, variant := v.variant) == v
      && (v.variant.BusFields? ==> w.variant == v.variant)
  {
  }

  /**
   * The on-time flag `completeTrip` stores: the `int` difference between the
   * whole minutes taken and the expected minutes is at most 30.
   */
  function OnTime(minutes: int, expectedDuration: int): bool
  {
    ToInt(minutes - expectedDuration) <= 30
  }

  /** Without overflow the flag grants 30 minutes of grace, the boundary included. */
  lemma OnTimeGrace(minutes: int, expectedDuration: int)
    requires IsInt(minutes - expectedDuration)
    ensures OnTime(minutes, expectedDuration) <==> minutes <= expectedDuration + 30
    ensures OnTime(expectedDuration + 30, expectedDuration)
  {
  }

  /**
   * The two on-time rules disagree: a 40-minute trip on a 30-minute route is
   * stored as on time by `completeTrip` but is late for `isTripOnTime`,
   * which allows no grace.
   */
  lemma OnTimeRulesDisagree(trip: Trip, route: Route)
    requires trip.startTime == 0 && trip.endTime == 40 * MILLIS_PER_MINUTE
    requires route.expectedDuration == 30
    ensures TripMinutes(trip.startTime, trip.endTime) == 40
    ensures OnTime(TripMinutes(trip.startTime, trip.endTime), route.expectedDuration)
    ensures !IsTripOnTime(trip, route)
  {
    assert QuotTowardZero(40 * MILLIS_PER_MINUTE, MILLIS_PER_MINUTE) == 40;
  }

  /** The trip row `completeTrip` inserts. */
  function TripRecord(userId: int, vehicleId: int, routeId: int, startTime: int, endTime: int,
                      fuelUsed: real, kind: BuilderKind, route: Route): Trip
  {
    var minutes := TripMinutes(startTime, endTime);
    Trip(userId, vehicleId, routeId, startTime, endTime, fuelUsed,
         GetConsumption(StrategyFor(kind), route.distance, fuelUsed, TripHours(minutes)),
         OnTime(minutes, route.expectedDuration))
  }

  /**
   * The stored fuel figure: per 100 km for a bus, per km for a diesel train,
   * fuel times hours per km for a light rail; not finite on a route of
   * distance zero, which is also what a missing route gives.
   */
  lemma TripRecordEfficiency(userId: int, vehicleId: int, routeId: int, startTime: int,
                             endTime: int, fuelUsed: real, kind: BuilderKind, route: Route)
    ensures var t := TripRecord(userId, vehicleId, routeId, startTime, endTime, fuelUsed, kind,
                                route);
      var hours := TripHours(TripMinutes(startTime, endTime));
      && (t.fuelEfficiency.NonFinite? <==> route.distance == 0.0)
      && (t.fuelEfficiency.Finite? && kind == Bus ==>
            t.fuelEfficiency.value * route.distance == fuelUsed * 100.0)
      && (t.fuelEfficiency.Finite? && kind == DieselTrain ==>
            t.fuelEfficiency.value * route.distance == fuelUsed)
      && (t.fuelEfficiency.Finite? && kind == ElectricLightRail ==>
            t.fuelEfficiency.value * route.distance == fuelUsed * hours)
  {
  }

  // ---- refuel ----

  /** The command `refuel` gives the fuel station for each kind. */
  function CommandFor(kind: BuilderKind): RefuelCommand
  {
    match kind
    case Bus => RefuelBusCommand
    case DieselTrain => RefuelDieselTrainCommand
    case ElectricLightRail => RefuelElectricLightRailCommand
  }

  /** The ten minutes a refuel record spans. */
  const REFUEL_MILLIS: int := 10 * MILLIS_PER_MINUTE

  /** The maintenance record `refuel` writes. */
  function RefuelRecord(vehicleId: int, cost: real, now: int): (m: MaintenanceRecord)
    ensures m.endTime.Some? && m.endTime.value - m.startTime == 600000
  {
    MaintenanceRecord(vehicleId, Constants.REFUEL, cost, now, Some(now + REFUEL_MILLIS))
  }

  /**
   * Refuelling fills each kind to its full tank: more than a new bus or the
   * same as a new diesel train or light rail holds, so refuelling right after
   * adding changes a bus only.
   */
  lemma RefuelFillsToFullTank(kind: BuilderKind)
    ensures kind == Bus ==> Refuel(CommandFor(kind)) == 950.0 > InitialFuel(kind)
    ensures kind == DieselTrain ==> Refuel(CommandFor(kind)) == 15000.0 == InitialFuel(kind)
    ensures kind == ElectricLightRail ==> Refuel(CommandFor(kind)) == 0.0 == InitialFuel(kind)
  {
  }
}
