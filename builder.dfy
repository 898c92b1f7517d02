/**
 * The fluent vehicle builders: `BusBuilder`, `DieselTrainBuilder` and
 * `ElectricLightRailBuilder`, which share the abstract `VehicleBuilder`.
 * One class stands for the three; its immutable `target` is the subclass.
 * A builder collects field values and `Build` turns them into a new transfer
 * object of its target kind. A variant setter of another subclass is a no-op.
 */
module Builder {
  import opened JavaLang
  import opened TransferObjects

  /** The vehicle kinds a builder exists for. */
  type BuilderKind = k: Kind | k != PlainVehicle witness Bus

  /** Everything a builder has collected; unset fields keep Java's defaults. */
  datatype BuilderFields = BuilderFields(
    vehicleNumber: int, vehicleName: Str, vehicleType: Str, fuelType: Str,
    consumptionRate: real, maxCapacity: int, currentRouteId: int,
    axleBearingsCondition: real, brakesCondition: real, wheelsCondition: real,
    status: Str, longitude: real, latitude: real, fuelLevel: real,
    emissionRate: real, oilStatus: real,
    catenaryCondition: real, pantographCondition: real, circuitBreakerCondition: real)

  /** The fields of a new builder: numbers 0, strings null. */
  const EmptyFields: BuilderFields :=
    BuilderFields(0, None, None, None, 0.0, 0, 0, 0.0, 0.0, 0.0, None, 0.0, 0.0, 0.0,
                  0.0, 0.0, 0.0, 0.0, 0.0)

  /** The subclass fields `build` passes to the target's constructor. */
  function VariantFor(target: BuilderKind, f: BuilderFields): (d: Variant)
    ensures d.KindOf() == target
  {
    match target
    case Bus => BusFields(Some(f.emissionRate))
    case DieselTrain => DieselTrainFields(f.oilStatus)
    case ElectricLightRail =>
      ElectricLightRailFields(f.catenaryCondition, f.pantographCondition, f.circuitBreakerCondition)
  }

  /**
   * The vehicle `build` produces: the subclass's full constructor applied to
   * the collected fields. That constructor has no fuel-level parameter.
   */
  function Built(target: BuilderKind, f: BuilderFields): Vehicle
  {
    Constructed(f.vehicleNumber, f.vehicleName, f.vehicleType, f.fuelType, f.consumptionRate,
                f.maxCapacity, f.currentRouteId, f.axleBearingsCondition, f.brakesCondition,
                f.wheelsCondition, f.status, f.latitude, f.longitude, VariantFor(target, f))
  }

  /** The builder fields a chain of `add*` calls sets from the values held by `v`. */
  function FieldsOf(v: Vehicle): BuilderFields
  {
    var emission := if v.variant.BusFields? && v.variant.emissionRate.Some?
                    then v.variant.emissionRate.value else 0.0;
    var oil := if v.variant.DieselTrainFields? then v.variant.oilStatus else 0.0;
    var (catenary, pantograph, breaker) :=
      if v.variant.ElectricLightRailFields?
      then (v.variant.catenaryCondition, v.variant.pantographCondition,
            v.variant.circuitBreakerCondition)
      else (0.0, 0.0, 0.0);
    BuilderFields(v.vehicleNumber, v.vehicleName, v.vehicleType, v.fuelType, v.consumptionRate,
                  v.maxCapacity, v.currentRouteId, v.axleBearingsCondition, v.brakesCondition,
                  v.wheelsCondition, v.status, v.longitude, v.latitude, v.fuelLevel,
                  emission, oil, catenary, pantograph, breaker)
  }

  /** The built vehicle is of the builder's kind, and has fuel level 0 whatever was added. */
  lemma BuiltKindAndFuel(target: BuilderKind, f: BuilderFields)
    ensures Built(target, f).KindOf() == target
    ensures Built(target, f).fuelLevel == 0.0
    ensures forall x: real :: Built(target, f.(fuelLevel := x)) == Built(target, f)
  {
  }

  /** A bus built by a builder never has a null emission rate. */
  lemma BuiltBusHasEmissionRate(f: BuilderFields)
    ensures Built(Bus, f).variant == BusFields(Some(f.emissionRate))
  {
  }

  /** Setting another subclass's field does not change what is built. */
  lemma ForeignVariantFieldsIgnored(target: BuilderKind, f: BuilderFields, x: real)
    ensures target != Bus ==> Built(target, f.(emissionRate := x)) == Built(target, f)
    ensures target != DieselTrain ==> Built(target, f.(oilStatus := x)) == Built(target, f)
    ensures target != ElectricLightRail ==>
              Built(target, f.(catenaryCondition := x)) == Built(target, f)
              && Built(target, f.(pantographCondition := x)) == Built(target, f)
              && Built(target, f.(circuitBreakerCondition := x)) == Built(target, f)
  {
  }

  /**
   * Round trip: setting every field of a vehicle of the builder's kind and
   * building gives that vehicle back, exactly when its fuel level is 0 and
   * (for a bus) its emission rate is not null.
   */
  lemma BuildFieldsOfRoundTrip(target: BuilderKind, v: Vehicle)
    requires v.KindOf() == target
    ensures Built(target, FieldsOf(v)) == v <==>
              v.fuelLevel == 0.0 && !(v.variant.BusFields? && v.variant.emissionRate.None?)
  {
  }

  /** A new builder with no field set builds the subclass's defaults, with a 0.0 bus emission rate. */
  lemma BuiltFromEmpty(target: BuilderKind)
    ensures Built(target, EmptyFields)
            == DefaultVehicle(target).(variant := if target == Bus then BusFields(Some(0.0))
                                                  else DefaultVehicle(target).variant)
  {
  }

  class VehicleBuilder {
    const target: BuilderKind
    var vehicleNumber: int
    var vehicleName: Str
    var vehicleType: Str
    var fuelType: Str
    var consumptionRate: real
    var maxCapacity: int
    var currentRouteId: int
    var axleBearingsCondition: real
    var brakesCondition: real
    var wheelsCondition: real
    var status: Str
    var longitude: real
    var latitude: real
    var fuelLevel: real
    // BusBuilder
    var emissionRate: real
    // DieselTrainBuilder
    var oilStatus: real
    // ElectricLightRailBuilder
    var catenaryCondition: real
    var pantographCondition: real
    var circuitBreakerCondition: real

    function Fields(): BuilderFields
      reads this
    {
      BuilderFields(vehicleNumber, vehicleName, vehicleType, fuelType, consumptionRate,
                    maxCapacity, currentRouteId, axleBearingsCondition, brakesCondition,
                    wheelsCondition, status, longitude, latitude, fuelLevel,
                    emissionRate, oilStatus, catenaryCondition, pantographCondition,
                    circuitBreakerCondition)
    }

    /** `new BusBuilder()`, `new DieselTrainBuilder()` or `new ElectricLightRailBuilder()`. */
    constructor (target: BuilderKind)
      ensures this.target == target && Fields() == EmptyFields
    {
      this.target := target;
      vehicleNumber, vehicleName, vehicleType, fuelType := 0, None, None, None;
      consumptionRate, maxCapacity, currentRouteId := 0.0, 0, 0;
      axleBearingsCondition, brakesCondition, wheelsCondition := 0.0, 0.0, 0.0;
      status, longitude, latitude, fuelLevel := None, 0.0, 0.0, 0.0;
      emissionRate, oilStatus := 0.0, 0.0;
      catenaryCondition, pantographCondition, circuitBreakerCondition := 0.0, 0.0, 0.0;
    }

    method AddVehicleNumber(vehicleNumber: int) returns (b: VehicleBuilder)
      modifies this
      ensures b == this && Fields() == old(Fields()).(vehicleNumber := vehicleNumber)
    {
      this.vehicleNumber := vehicleNumber;
      b := this;
    }

    method AddVehicleName(vehicleName: Str) returns (b: VehicleBuilder)
      modifies this
      ensures b == this && Fields() == old(Fields()).(vehicleName := vehicleName)
    {
      this.vehicleName := vehicleName;
      b := this;
    }

    method AddVehicleType(vehicleType: Str) returns (b: VehicleBuilder)
      modifies this
      ensures b == this && Fields() == old(Fields()).(vehicleType := vehicleType)
    {
      this.vehicleType := vehicleType;
      b := this;
    }

    method AddFuelType(fuelType: Str) returns (b: VehicleBuilder)
      modifies this
      ensures b == this && Fields() == old(Fields()).(fuelType := fuelType)
    {
      this.fuelType := fuelType;
      b := this;
    }

    method AddConsumptionRate(consumptionRate: real) returns (b: VehicleBuilder)
      modifies this
      ensures b == this && Fields() == old(Fields()).(consumptionRate := consumptionRate)
    {
      this.consumptionRate := consumptionRate;
      b := this;
    }

    method AddMaxCapacity(maxCapacity: int) returns (b: VehicleBuilder)
      modifies this
      ensures b == this && Fields() == old(Fields()).(maxCapacity := maxCapacity)
    {
      this.maxCapacity := maxCapacity;
      b := this;
    }

    method AddCurrentRouteId(currentRouteId: int) returns (b: VehicleBuilder)
      modifies this
      ensures b == this && Fields() == old(Fields()).(currentRouteId := currentRouteId)
    {
      this.currentRouteId := currentRouteId;
      b := this;
    }

    method AddAxleBearingsCondition(axleBearingsCondition: real) returns (b: VehicleBuilder)
      modifies this
      ensures b == this
      ensures Fields() == old(Fields()).(axleBearingsCondition := axleBearingsCondition)
    {
      this.axleBearingsCondition := axleBearingsCondition;
      b := this;
    }

    method AddBrakesCondition(brakesCondition: real) returns (b: VehicleBuilder)
      modifies this
      ensures b == this && Fields() == old(Fields()).(brakesCondition := brakesCondition)
    {
      this.brakesCondition := brakesCondition;
      b := this;
    }

    method AddWheelsCondition(wheelsCondition: real) returns (b: VehicleBuilder)
      modifies this
      ensures b == this && Fields() == old(Fields()).(wheelsCondition := wheelsCondition)
    {
      this.wheelsCondition := wheelsCondition;
      b := this;
    }

    method AddStatus(status: Str) returns (b: VehicleBuilder)
      modifies this
      ensures b == this && Fields() == old(Fields()).(status := status)
    {
      this.status := status;
      b := this;
    }

    method AddLongitude(longitude: real) returns (b: VehicleBuilder)
      modifies this
      ensures b == this && Fields() == old(Fields()).(longitude := longitude)
    {
      this.longitude := longitude;
      b := this;
    }

    method AddLatitude(latitude: real) returns (b: VehicleBuilder)
      modifies this
      ensures b == this && Fields() == old(Fields()).(latitude := latitude)
    {
      this.latitude := latitude;
      b := this;
    }

    /** Stored, but no `build` passes it on: see `BuiltKindAndFuel`. */
    method AddFuelLevel(fuelLevel: real) returns (b: VehicleBuilder)
      modifies this
      ensures b == this && Fields() == old(Fields()).(fuelLevel := fuelLevel)
    {
      this.fuelLevel := fuelLevel;
      b := this;
    }

    /** Stored by a bus builder; a no-op for the other two. */
    method AddEmissionRate(emissionRate: real) returns (b: VehicleBuilder)
      modifies this
      ensures b == this
      ensures Fields() == if target == Bus then old(Fields()).(emissionRate := emissionRate)
                          else old(Fields())
    {
      if target == Bus {
        this.emissionRate := emissionRate;
      }
      b := this;
    }

    /** Stored by a diesel-train builder; a no-op for the other two. */
    method AddOilStatus(oilStatus: real) returns (b: VehicleBuilder)
      modifies this
      ensures b == this
      ensures Fields() == if target == DieselTrain then old(Fields()).(oilStatus := oilStatus)
                          else old(Fields())
    {
      if target == DieselTrain {
        this.oilStatus := oilStatus;
      }
      b := this;
    }

    /** Stored by an electric-light-rail builder; a no-op for the other two. */
    method AddCatenaryCondition(catenaryCondition: real) returns (b: VehicleBuilder)
      modifies this
      ensures b == this
      ensures Fields() == if target == ElectricLightRail
                          then old(Fields()).(catenaryCondition := catenaryCondition)
                          else old(Fields())
    {
      if target == ElectricLightRail {
        this.catenaryCondition := catenaryCondition;
      }
      b := this;
    }

    /** Stored by an electric-light-rail builder; a no-op for the other two. */
    method AddPantographCondition(pantographCondition: real) returns (b: VehicleBuilder)
      modifies this
      ensures b == this
      ensures Fields() == if target == ElectricLightRail
                          then old(Fields()).(pantographCondition := pantographCondition)
                          else old(Fields())
    {
      if target == ElectricLightRail {
        this.pantographCondition := pantographCondition;
      }
      b := this;
    }

    /** Stored by an electric-light-rail builder; a no-op for the other two. */
    method AddCircuitBreakerCondition(circuitBreakerCondition: real) returns (b: VehicleBuilder)
      modifies this
      ensures b == this
      ensures Fields() == if target == ElectricLightRail
                          then old(Fields()).(circuitBreakerCondition := circuitBreakerCondition)
                          else old(Fields())
    {
      if target == ElectricLightRail {
        this.circuitBreakerCondition := circuitBreakerCondition;
      }
      b := this;
    }

    /** A new transfer object of the target kind holding the collected fields. */
    method Build() returns (v: VehicleDTO)
      ensures fresh(v) && v.kind == target
      ensures v.Snapshot() == Built(target, Fields())
    {
      if target == Bus {
        v := new VehicleDTO.Bus(vehicleNumber, vehicleName, vehicleType, fuelType,
                                consumptionRate, maxCapacity, currentRouteId,
                                axleBearingsCondition, brakesCondition, wheelsCondition,
                                status, latitude, longitude, emissionRate);
      } else if target == DieselTrain {
        v := new VehicleDTO.DieselTrain(vehicleNumber, vehicleName, vehicleType, fuelType,
                                        consumptionRate, maxCapacity, currentRouteId,
                                        axleBearingsCondition, brakesCondition, wheelsCondition,
                                        status, latitude, longitude, oilStatus);
      } else {
        v := new VehicleDTO.ElectricLightRail(vehicleNumber, vehicleName, vehicleType, fuelType,
                                              consumptionRate, maxCapacity, currentRouteId,
                                              axleBearingsCondition, brakesCondition,
                                              wheelsCondition, status, latitude, longitude,
                                              catenaryCondition, pantographCondition,
                                              circuitBreakerCondition);
      }
    }
  }

  /** The custom bus of the builder test: every field set, then built. */
  method BuildCustomBus() returns (bus: VehicleDTO)
    ensures bus.kind == Bus
    ensures bus.Snapshot()
            == Vehicle(3, Some("BUS"), Some("City Bus"), Some("Diesel"), 40.5, 50, 3,
                       10.0, 20.5, 40.0, Some("Active"), 45.4215, -75.6972, 0.0,
                       BusFields(Some(5.5)))
  {
    var b := new VehicleBuilder(Bus);
    b := b.AddVehicleNumber(3);
    b := b.AddVehicleName(Some("BUS"));
    b := b.AddVehicleType(Some("City Bus"));
    b := b.AddFuelType(Some("Diesel"));
    b := b.AddConsumptionRate(40.5);
    b := b.AddMaxCapacity(50);
    b := b.AddCurrentRouteId(3);
    b := b.AddAxleBearingsCondition(10.0);
    b := b.AddBrakesCondition(20.5);
    b := b.AddWheelsCondition(40.0);
    b := b.AddStatus(Some("Active"));
    b := b.AddLatitude(45.4215);
    b := b.AddLongitude(-75.6972);
    b := b.AddEmissionRate(5.5);
    bus := b.Build();
  }

  /** The second bus of the builder test: four fields set, the rest left at their defaults. */
  method BuildTestBus() returns (bus: VehicleDTO)
    ensures bus.kind == Bus
    ensures bus.Snapshot()
            == DefaultVehicle(Bus).(vehicleNumber := 4, vehicleName := Some("Test Bus"),
                                    vehicleType := Some("Shuttle"), fuelType := Some("Electric"),
                                    variant := BusFields(Some(0.0)))
  {
    var b := new VehicleBuilder(Bus);
    b := b.AddVehicleNumber(4);
    b := b.AddVehicleName(Some("Test Bus"));
    b := b.AddVehicleType(Some("Shuttle"));
    b := b.AddFuelType(Some("Electric"));
    bus := b.Build();
  }
}
