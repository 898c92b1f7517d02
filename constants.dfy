/** The string and numeric constants of the `constants` package. */
module Constants {

  // VehicleType: the type tags the factory and the business logic dispatch on.
  const BUS: string := "BUS"
  const DIESELTRAIN: string := "DIESEL TRAIN"
  const ELECTRICLIGHTRAIL: string := "ELECTRIC LIGHT RAIL"

  // VehicleStatus
  const ACTIVE: string := "ACTIVE"
  const IN_MAINTENANCE: string := "IN MAINTENANCE"
  const OUT_OF_SERVICE: string := "OUT OF SERVICE"

  // MaintenancePurpose
  const REFUEL: string := "REFUEL"

  // FuelTank: the level a refuel command sets, per vehicle kind.
  const BUS_FULL_TANK: real := 950.0
  const DIESEL_TRAIN_FULL_TANK: real := 15000.0
  const ELECTRIC_LIGHT_RAIL_TANK: real := 0.0
}
