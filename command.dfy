/**
 * The refuel command pattern: a `FuelStation` holds a vehicle and `topUp`
 * sets its fuel level to whatever the command it is given returns.
 */
module Command {
  import opened Constants
  import opened TransferObjects

  /**
   * The `Command` implementations. Each has no state and no input.
   * `RefuelDieselTrainCommand` is referenced by the fleet logic but its source
   * is not part of this model; it is taken to return the diesel full tank.
   */
  datatype RefuelCommand =
    | RefuelBusCommand
    | RefuelDieselTrainCommand
    | RefuelElectricLightRailCommand

  /** `refuel()`: the level the command fills the tank to. */
  function Refuel(c: RefuelCommand): (level: real)
    ensures c == RefuelBusCommand ==> level == 950.0
    ensures c == RefuelElectricLightRailCommand ==> level == 0.0
    ensures c == RefuelDieselTrainCommand ==> level == 15000.0
  {
    match c
    case RefuelBusCommand => BUS_FULL_TANK
    case RefuelDieselTrainCommand => DIESEL_TRAIN_FULL_TANK
    case RefuelElectricLightRailCommand => ELECTRIC_LIGHT_RAIL_TANK
  }

  /** The vehicle value after a top-up with `c`. */
  function ToppedUp(v: Vehicle, c: RefuelCommand): (w: Vehicle)
    ensures w.fuelLevel == Refuel(c)
  {
    v.(fuelLevel := Refuel(c))
  }

  /**
   * A top-up sets the level rather than adding to it: the prior level has no
   * influence, every other field is kept, and a second top-up with the same
   * command changes nothing.
   */
  lemma ToppedUpProperties(v: Vehicle, c: RefuelCommand, x: real)
    ensures ToppedUp(v.(fuelLevel := x), c) == ToppedUp(v, c)
    ensures ToppedUp(ToppedUp(v, c), c) == ToppedUp(v, c)
    ensures ToppedUp(v, c).(fuelLevel := v.fuelLevel) == v
  {
  }

  class FuelStation {
    /** The vehicle reference given to the constructor; it may be null. */
    var vehicle: VehicleDTO?

    constructor (vehicle: VehicleDTO?)
      ensures this.vehicle == vehicle
    {
      this.vehicle := vehicle;
    }

    /** `topUp`: writes the command's level into the held vehicle, visible to every holder of it. */
    method TopUp(command: RefuelCommand)
      requires vehicle != null
      modifies vehicle
      ensures vehicle.Snapshot() == ToppedUp(old(vehicle.Snapshot()), command)
    {
      vehicle.SetFuelLevel(Refuel(command));
    }
  }
}
