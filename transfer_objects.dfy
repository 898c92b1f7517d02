/**
 * The transfer objects of the fleet core.
 *
 * `VehicleDTO` and its subclasses `BusDTO`, `DieselTrainDTO` and
 * `ElectricLightRailDTO` are mutable records; here they are one class whose
 * immutable `kind` is the runtime class of the object and which carries the
 * variant fields of every subclass (only the ones of its own kind mean
 * anything). `Snapshot()` is the value the object holds. `AlertDTO` is the
 * same for alerts. Trips, routes and maintenance records are written once, so
 * they are plain datatypes.
 *
 * Java getters are the field reads themselves; every setter is a method that
 * changes its own field and nothing else.
 */
module TransferObjects {
  import opened JavaLang

  /** The runtime class of a vehicle object. */
  datatype Kind = PlainVehicle | Bus | DieselTrain | ElectricLightRail

  /** The fields a subclass adds to `VehicleDTO`. */
  datatype Variant =
    | PlainFields
      /** `BusDTO.emissionRate` is a boxed `Double`, so it may be null. */
    | BusFields(emissionRate: Option<real>)
    | DieselTrainFields(oilStatus: real)
    | ElectricLightRailFields(catenaryCondition: real, pantographCondition: real,
                              circuitBreakerCondition: real)
  {
    function KindOf(): Kind
    {
      match this
      case PlainFields => PlainVehicle
      case BusFields(_) => Bus
      case DieselTrainFields(_) => DieselTrain
      case ElectricLightRailFields(_, _, _) => ElectricLightRail
    }
  }

  /** The value held by a vehicle object. */
  datatype Vehicle = Vehicle(
    vehicleNumber: int, vehicleName: Str, vehicleType: Str, fuelType: Str,
    consumptionRate: real, maxCapacity: int, currentRouteId: int,
    axleBearingsCondition: real, brakesCondition: real, wheelsCondition: real,
    status: Str, latitude: real, longitude: real, fuelLevel: real,
    variant: Variant)
  {
    function KindOf(): Kind { variant.KindOf() }
  }

  /** The variant fields right after a subclass's no-argument constructor. */
  function DefaultVariant(kind: Kind): (d: Variant)
    ensures d.KindOf() == kind
  {
    match kind
    case PlainVehicle => PlainFields
    case Bus => BusFields(None)
    case DieselTrain => DieselTrainFields(0.0)
    case ElectricLightRail => ElectricLightRailFields(0.0, 0.0, 0.0)
  }

  /** A vehicle right after a no-argument constructor: numbers 0, strings null. */
  function DefaultVehicle(kind: Kind): (v: Vehicle)
    ensures v.KindOf() == kind
  {
    Vehicle(0, None, None, None, 0.0, 0, 0, 0.0, 0.0, 0.0, None, 0.0, 0.0, 0.0,
            DefaultVariant(kind))
  }

  /** The value the 13-argument `VehicleDTO` constructor produces, with a subclass's fields. */
  function Constructed(vehicleNumber: int, vehicleName: Str, vehicleType: Str, fuelType: Str,
                       consumptionRate: real, maxCapacity: int, currentRouteId: int,
                       axleBearingsCondition: real, brakesCondition: real,
                       wheelsCondition: real, status: Str, latitude: real, longitude: real,
                       variant: Variant): (v: Vehicle)
    ensures v.fuelLevel == 0.0 && v.variant == variant
  {
    Vehicle(vehicleNumber, vehicleName, vehicleType, fuelType, consumptionRate, maxCapacity,
            currentRouteId, axleBearingsCondition, brakesCondition, wheelsCondition, status,
            latitude, longitude, 0.0, variant)
  }

  class VehicleDTO {
    const kind: Kind
    var vehicleNumber: int
    var vehicleName: Str
    var vehicleType: Str
    var fuelType: Str
    var consumptionRate: real
    var maxCapacity: int
    var currentRouteId: int
    var axleBearingsCondition: real
    var brakesCondition: real
    var wheelsCondition: real
    var status: Str
    var latitude: real
    var longitude: real
    var fuelLevel: real
    // BusDTO
    var emissionRate: Option<real>
    // DieselTrainDTO
    var oilStatus: real
    // ElectricLightRailDTO
    var catenaryCondition: real
    var pantographCondition: real
    var circuitBreakerCondition: real

    function Snapshot(): (v: Vehicle)
      reads this
      ensures v.KindOf() == kind
    {
      Vehicle(vehicleNumber, vehicleName, vehicleType, fuelType, consumptionRate, maxCapacity,
              currentRouteId, axleBearingsCondition, brakesCondition, wheelsCondition, status,
              latitude, longitude, fuelLevel,
              match kind
              case PlainVehicle => PlainFields
              case Bus => BusFields(emissionRate)
              case DieselTrain => DieselTrainFields(oilStatus)
              case ElectricLightRail =>
                ElectricLightRailFields(catenaryCondition, pantographCondition, circuitBreakerCondition))
    }

    /** The no-argument constructor of `VehicleDTO` or of the subclass `kind`. */
    constructor Default(kind: Kind)
      ensures this.kind == kind && Snapshot() == DefaultVehicle(kind)
    {
      this.kind := kind;
      vehicleNumber, vehicleName, vehicleType, fuelType := 0, None, None, None;
      consumptionRate, maxCapacity, currentRouteId := 0.0, 0, 0;
      axleBearingsCondition, brakesCondition, wheelsCondition := 0.0, 0.0, 0.0;
      status, latitude, longitude, fuelLevel := None, 0.0, 0.0, 0.0;
      emissionRate, oilStatus := None, 0.0;
      catenaryCondition, pantographCondition, circuitBreakerCondition := 0.0, 0.0, 0.0;
    }

    /** The 13-argument `VehicleDTO` constructor; it never sets `fuelLevel`. */
    constructor (vehicleNumber: int, vehicleName: Str, vehicleType: Str, fuelType: Str,
                 consumptionRate: real, maxCapacity: int, currentRouteId: int,
                 axleBearingsCondition: real, brakesCondition: real, wheelsCondition: real,
                 status: Str, latitude: real, longitude: real)
      ensures kind == PlainVehicle
      ensures Snapshot() == Constructed(vehicleNumber, vehicleName, vehicleType, fuelType,
                                        consumptionRate, maxCapacity, currentRouteId,
                                        axleBearingsCondition, brakesCondition, wheelsCondition,
                                        status, latitude, longitude, PlainFields)
    {
      kind := PlainVehicle;
      this.vehicleNumber, this.vehicleName, this.vehicleType := vehicleNumber, vehicleName, vehicleType;
      this.fuelType, this.consumptionRate, this.maxCapacity := fuelType, consumptionRate, maxCapacity;
      this.currentRouteId, this.axleBearingsCondition := currentRouteId, axleBearingsCondition;
      this.brakesCondition, this.wheelsCondition, this.status := brakesCondition, wheelsCondition, status;
      this.latitude, this.longitude, fuelLevel := latitude, longitude, 0.0;
      emissionRate, oilStatus := None, 0.0;
      catenaryCondition, pantographCondition, circuitBreakerCondition := 0.0, 0.0, 0.0;
    }

    /** The 14-argument `BusDTO` constructor: the common fields and a non-null emission rate. */
    constructor Bus(vehicleNumber: int, vehicleName: Str, vehicleType: Str, fuelType: Str,
                    consumptionRate: real, maxCapacity: int, currentRouteId: int,
                    axleBearingsCondition: real, brakesCondition: real, wheelsCondition: real,
                    status: Str, latitude: real, longitude: real, emissionRate: real)
      ensures kind == Kind.Bus
      ensures Snapshot() == Constructed(vehicleNumber, vehicleName, vehicleType, fuelType,
                                        consumptionRate, maxCapacity, currentRouteId,
                                        axleBearingsCondition, brakesCondition, wheelsCondition,
                                        status, latitude, longitude, BusFields(Some(emissionRate)))
    {
      kind := Kind.Bus;
      this.vehicleNumber, this.vehicleName, this.vehicleType := vehicleNumber, vehicleName, vehicleType;
      this.fuelType, this.consumptionRate, this.maxCapacity := fuelType, consumptionRate, maxCapacity;
      this.currentRouteId, this.axleBearingsCondition := currentRouteId, axleBearingsCondition;
      this.brakesCondition, this.wheelsCondition, this.status := brakesCondition, wheelsCondition, status;
      this.latitude, this.longitude, fuelLevel := latitude, longitude, 0.0;
      this.emissionRate, oilStatus := Some(emissionRate), 0.0;
      catenaryCondition, pantographCondition, circuitBreakerCondition := 0.0, 0.0, 0.0;
    }

    /** The 14-argument `DieselTrainDTO` constructor. */
    constructor DieselTrain(vehicleNumber: int, vehicleName: Str, vehicleType: Str, fuelType: Str,
                            consumptionRate: real, maxCapacity: int, currentRouteId: int,
                            axleBearingsCondition: real, brakesCondition: real,
                            wheelsCondition: real, status: Str, latitude: real, longitude: real,
                            oilStatus: real)
      ensures kind == Kind.DieselTrain
      ensures Snapshot() == Constructed(vehicleNumber, vehicleName, vehicleType, fuelType,
                                        consumptionRate, maxCapacity, currentRouteId,
                                        axleBearingsCondition, brakesCondition, wheelsCondition,
                                        status, latitude, longitude, DieselTrainFields(oilStatus))
    {
      kind := Kind.DieselTrain;
      this.vehicleNumber, this.vehicleName, this.vehicleType := vehicleNumber, vehicleName, vehicleType;
      this.fuelType, this.consumptionRate, this.maxCapacity := fuelType, consumptionRate, maxCapacity;
      this.currentRouteId, this.axleBearingsCondition := currentRouteId, axleBearingsCondition;
      this.brakesCondition, this.wheelsCondition, this.status := brakesCondition, wheelsCondition, status;
      this.latitude, this.longitude, fuelLevel := latitude, longitude, 0.0;
      emissionRate, this.oilStatus := None, oilStatus;
      catenaryCondition, pantographCondition, circuitBreakerCondition := 0.0, 0.0, 0.0;
    }

    /** The 16-argument `ElectricLightRailDTO` constructor. */
    constructor ElectricLightRail(vehicleNumber: int, vehicleName: Str, vehicleType: Str,
                                  fuelType: Str, consumptionRate: real, maxCapacity: int,
                                  currentRouteId: int, axleBearingsCondition: real,
                                  brakesCondition: real, wheelsCondition: real, status: Str,
                                  latitude: real, longitude: real, catenaryCondition: real,
                                  pantographCondition: real, circuitBreakerCondition: real)
      ensures kind == Kind.ElectricLightRail
      ensures Snapshot() == Constructed(vehicleNumber, vehicleName, vehicleType, fuelType,
                                        consumptionRate, maxCapacity, currentRouteId,
                                        axleBearingsCondition, brakesCondition, wheelsCondition,
                                        status, latitude, longitude,
                                        ElectricLightRailFields(catenaryCondition,
                                          pantographCondition, circuitBreakerCondition))
    {
      kind := Kind.ElectricLightRail;
      this.vehicleNumber, this.vehicleName, this.vehicleType := vehicleNumber, vehicleName, vehicleType;
      this.fuelType, this.consumptionRate, this.maxCapacity := fuelType, consumptionRate, maxCapacity;
      this.currentRouteId, this.axleBearingsCondition := currentRouteId, axleBearingsCondition;
      this.brakesCondition, this.wheelsCondition, this.status := brakesCondition, wheelsCondition, status;
      this.latitude, this.longitude, fuelLevel := latitude, longitude, 0.0;
      emissionRate, oilStatus := None, 0.0;
      this.catenaryCondition, this.pantographCondition := catenaryCondition, pantographCondition;
      this.circuitBreakerCondition := circuitBreakerCondition;
    }

    /** `setVehicleID` writes the `vehicleNumber` field. */
    method SetVehicleID(vehicleNumber: int)
      modifies this
      ensures Snapshot() == old(Snapshot()).(vehicleNumber := vehicleNumber)
    {
      this.vehicleNumber := vehicleNumber;
    }

    method SetVehicleName(vehicleName: Str)
      modifies this
      ensures Snapshot() == old(Snapshot()).(vehicleName := vehicleName)
    {
      this.vehicleName := vehicleName;
    }

    method SetVehicleType(vehicleType: Str)
      modifies this
      ensures Snapshot() == old(Snapshot()).(vehicleType := vehicleType)
    {
      this.vehicleType := vehicleType;
    }

    method SetFuelType(fuelType: Str)
      modifies this
      ensures Snapshot() == old(Snapshot()).(fuelType := fuelType)
    {
      this.fuelType := fuelType;
    }

    method SetConsumptionRate(consumptionRate: real)
      modifies this
      ensures Snapshot() == old(Snapshot()).(consumptionRate := consumptionRate)
    {
      this.consumptionRate := consumptionRate;
    }

    method SetMaxCapacity(maxCapacity: int)
      modifies this
      ensures Snapshot() == old(Snapshot()).(maxCapacity := maxCapacity)
    {
      this.maxCapacity := maxCapacity;
    }

    method SetCurrentRouteID(currentRouteId: int)
      modifies this
      ensures Snapshot() == old(Snapshot()).(currentRouteId := currentRouteId)
    {
      this.currentRouteId := currentRouteId;
    }

    method SetAxleBearingsCondition(axleBearingsCondition: real)
      modifies this
      ensures Snapshot() == old(Snapshot()).(axleBearingsCondition := axleBearingsCondition)
    {
      this.axleBearingsCondition := axleBearingsCondition;
    }

    method SetBrakesCondition(brakesCondition: real)
      modifies this
      ensures Snapshot() == old(Snapshot()).(brakesCondition := brakesCondition)
    {
      this.brakesCondition := brakesCondition;
    }

    method SetWheelsCondition(wheelsCondition: real)
      modifies this
      ensures Snapshot() == old(Snapshot()).(wheelsCondition := wheelsCondition)
    {
      this.wheelsCondition := wheelsCondition;
    }

    method SetStatus(status: Str)
      modifies this
      ensures Snapshot() == old(Snapshot()).(status := status)
    {
      this.status := status;
    }

    method SetLatitude(latitude: real)
      modifies this
      ensures Snapshot() == old(Snapshot()).(latitude := latitude)
    {
      this.latitude := latitude;
    }

    method SetLongitude(longitude: real)
      modifies this
      ensures Snapshot() == old(Snapshot()).(longitude := longitude)
    {
      this.longitude := longitude;
    }

    method SetFuelLevel(fuelLevel: real)
      modifies this
      ensures Snapshot() == old(Snapshot()).(fuelLevel := fuelLevel)
    {
      this.fuelLevel := fuelLevel;
    }

    /** `BusDTO.setEmissionRate(Double)`: null is accepted and stored. */
    method SetEmissionRate(emissionRate: Option<real>)
      requires kind == Kind.Bus
      modifies this
      ensures Snapshot() == old(Snapshot()).(variant := BusFields(emissionRate))
    {
      this.emissionRate := emissionRate;
    }

    /** `DieselTrainDTO.setOilStatus(Double)` unboxes its argument, so it must not be null. */
    method SetOilStatus(oilStatus: real)
      requires kind == Kind.DieselTrain
      modifies this
      ensures Snapshot() == old(Snapshot()).(variant := DieselTrainFields(oilStatus))
    {
      this.oilStatus := oilStatus;
    }

    method SetCatenaryCondition(catenaryCondition: real)
      requires kind == Kind.ElectricLightRail
      modifies this
      ensures old(Snapshot()).variant.ElectricLightRailFields?
      ensures Snapshot() == old(Snapshot()).(variant :=
                old(Snapshot()).variant.(catenaryCondition := catenaryCondition))
    {
      this.catenaryCondition := catenaryCondition;
    }

    method SetPantographCondition(pantographCondition: real)
      requires kind == Kind.ElectricLightRail
      modifies this
      ensures old(Snapshot()).variant.ElectricLightRailFields?
      ensures Snapshot() == old(Snapshot()).(variant :=
                old(Snapshot()).variant.(pantographCondition := pantographCondition))
    {
      this.pantographCondition := pantographCondition;
    }

    method SetCircuitBreakerCondition(circuitBreakerCondition: real)
      requires kind == Kind.ElectricLightRail
      modifies this
      ensures old(Snapshot()).variant.ElectricLightRailFields?
      ensures Snapshot() == old(Snapshot()).(variant :=
                old(Snapshot()).variant.(circuitBreakerCondition := circuitBreakerCondition))
    {
      this.circuitBreakerCondition := circuitBreakerCondition;
    }
  }

  /** A wear counter named in an alert reason. */
  datatype Component = Brakes | Wheels | AxleBearings | Catenary | Pantograph | CircuitBreaker

  /** One entry of a maintenance reason: a component and the hours figure its message prints. */
  datatype Tripped = Tripped(component: Component, reportedHours: real)

  /**
   * An alert reason. The monitor's messages are kept as the facts they print,
   * not as formatted text; any other reason text is `Text`.
   */
  datatype Reason =
    | ServiceInterval(tripped: seq<Tripped>)
    | ElectricalSystem(tripped: seq<Tripped>)
    | OilChange(oilStatus: real)
    | EmissionCheck(emissionRate: real)
    | RouteCompleted(routeId: int)
    | RefuelNeeded(fuelLevel: real)
    | Text(text: string)

  /** The value held by an alert object; times are milliseconds since the epoch. */
  datatype Alert = Alert(alertId: int, vehicleId: int, status: Str, alertType: Str,
                         alertReason: Option<Reason>, alertTime: Option<int>)

  class AlertDTO {
    var alertID: int
    var vehicleID: int
    var status: Str
    var alertType: Str
    var alertReason: Option<Reason>
    var alertTime: Option<int>

    function Snapshot(): Alert
      reads this
    {
      Alert(alertID, vehicleID, status, alertType, alertReason, alertTime)
    }

    /** The no-argument constructor: ids 0, strings and time null. */
    constructor Default()
      ensures Snapshot() == Alert(0, 0, None, None, None, None)
    {
      alertID, vehicleID, status, alertType, alertReason, alertTime := 0, 0, None, None, None, None;
    }

    /** The 6-argument constructor stores each argument in its field. */
    constructor (alertID: int, vehicleID: int, status: Str, alertType: Str,
                 alertReason: Option<Reason>, alertTime: Option<int>)
      ensures Snapshot() == Alert(alertID, vehicleID, status, alertType, alertReason, alertTime)
    {
      this.alertID, this.vehicleID, this.status := alertID, vehicleID, status;
      this.alertType, this.alertReason, this.alertTime := alertType, alertReason, alertTime;
    }

    method SetAlertID(alertID: int)
      modifies this
      ensures Snapshot() == old(Snapshot()).(alertId := alertID)
    {
      this.alertID := alertID;
    }

    method SetVehicleID(vehicleID: int)
      modifies this
      ensures Snapshot() == old(Snapshot()).(vehicleId := vehicleID)
    {
      this.vehicleID := vehicleID;
    }

    /** Any status string is accepted, without validation. */
    method SetStatus(status: Str)
      modifies this
      ensures Snapshot() == old(Snapshot()).(status := status)
    {
      this.status := status;
    }

    method SetAlertType(alertType: Str)
      modifies this
      ensures Snapshot() == old(Snapshot()).(alertType := alertType)
    {
      this.alertType := alertType;
    }

    method SetAlertReason(alertReason: Option<Reason>)
      modifies this
      ensures Snapshot() == old(Snapshot()).(alertReason := alertReason)
    {
      this.alertReason := alertReason;
    }

    method SetAlertTime(alertTime: Option<int>)
      modifies this
      ensures Snapshot() == old(Snapshot()).(alertTime := alertTime)
    {
      this.alertTime := alertTime;
    }
  }

  /** `RouteDTO` as loaded by id: the station list is not loaded there. */
  datatype Route = Route(routeId: int, distance: real, expectedDuration: int)

  /** The consumption figure of a trip. Java `double` division by zero gives an infinity or NaN. */
  datatype Efficiency = Finite(value: real) | NonFinite

  /** `TripDTO`; start and end are milliseconds since the epoch. */
  datatype Trip = Trip(userId: int, vehicleId: int, routeId: int, startTime: int, endTime: int,
                       fuelUsed: real, fuelEfficiency: Efficiency, onTime: bool)

  /** `MaintenanceDTO`; `endTime` is null while the maintenance is ongoing. */
  datatype MaintenanceRecord = MaintenanceRecord(vehicleId: int, purpose: string, cost: real,
                                                 startTime: int, endTime: Option<int>)
}
