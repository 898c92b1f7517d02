/**
 * The fuel-consumption strategies of `fuelpkg` and the `FuelContext` that
 * applies the one it was given. Java doubles are modelled as reals; a
 * division by a zero distance, which Java evaluates to an infinity or NaN
 * without throwing, gives `NonFinite`.
 */
module Fuel {
  import opened JavaLang
  import opened TransferObjects

  /** The `IConsumptionStrategy` implementations. */
  datatype Strategy =
    | BusConsumption
    | DieselTrainConsumption
    | ElectricLightRailConsumption

  /** What a strategy divides by the distance: litres per 100 km, litres per km, or energy over time. */
  function Numerator(s: Strategy, fuelAmount: real, hours: real): real
  {
    match s
    case BusConsumption => fuelAmount * 100.0
    case DieselTrainConsumption => fuelAmount
    case ElectricLightRailConsumption => fuelAmount * hours
  }

  /**
   * `getConsumption(distance, fuelAmount, hours)` of strategy `s`. A finite
   * result is the one number that, multiplied by the distance, gives back the
   * strategy's numerator.
   */
  function GetConsumption(s: Strategy, distance: real, fuelAmount: real, hours: real)
    : (r: Efficiency)
    ensures r.NonFinite? <==> distance == 0.0
    ensures r.Finite? ==> r.value * distance == Numerator(s, fuelAmount, hours)
  {
    if distance == 0.0 then NonFinite
    else match s
      case BusConsumption => Finite((fuelAmount / distance) * 100.0)
      case DieselTrainConsumption => Finite(fuelAmount / distance)
      case ElectricLightRailConsumption => Finite(fuelAmount * hours / distance)
  }

  /** The result is the quotient of the numerator by the distance and nothing else. */
  lemma ConsumptionDeterminedByProduct(s: Strategy, distance: real, fuelAmount: real,
                                       hours: real, e: real)
    requires distance != 0.0
    ensures GetConsumption(s, distance, fuelAmount, hours) == Finite(e)
            <==> e * distance == Numerator(s, fuelAmount, hours)
  {
    var r := GetConsumption(s, distance, fuelAmount, hours);
    if e * distance == Numerator(s, fuelAmount, hours) {
      assert (e - r.value) * distance == 0.0;
    }
  }

  /** The bus and diesel-train figures ignore the hours; the two differ by the factor 100. */
  lemma BusIsHundredTimesDiesel(distance: real, fuelAmount: real, h1: real, h2: real)
    requires distance != 0.0
    ensures GetConsumption(BusConsumption, distance, fuelAmount, h1)
            == GetConsumption(BusConsumption, distance, fuelAmount, h2)
    ensures GetConsumption(DieselTrainConsumption, distance, fuelAmount, h1)
            == GetConsumption(DieselTrainConsumption, distance, fuelAmount, h2)
    ensures GetConsumption(BusConsumption, distance, fuelAmount, h1).value
            == 100.0 * GetConsumption(DieselTrainConsumption, distance, fuelAmount, h1).value
  {
  }

  /** Scaling the distance and the fuel by the same factor leaves a bus or diesel figure unchanged. */
  lemma ConsumptionScaleInvariant(s: Strategy, distance: real, fuelAmount: real, hours: real,
                                  k: real)
    requires s != ElectricLightRailConsumption && distance != 0.0 && k != 0.0
    ensures GetConsumption(s, k * distance, k * fuelAmount, hours)
            == GetConsumption(s, distance, fuelAmount, hours)
  {
    var a := GetConsumption(s, k * distance, k * fuelAmount, hours).value;
    var b := GetConsumption(s, distance, fuelAmount, hours).value;
    assert a * k * distance == b * k * distance;
    assert (a - b) * (k * distance) == 0.0;
  }

  /** With a positive distance, non-negative inputs give a non-negative figure. */
  lemma ConsumptionNonNegative(s: Strategy, distance: real, fuelAmount: real, hours: real)
    requires distance > 0.0 && fuelAmount >= 0.0 && hours >= 0.0
    ensures GetConsumption(s, distance, fuelAmount, hours).value >= 0.0
  {
    var r := GetConsumption(s, distance, fuelAmount, hours).value;
    if r < 0.0 {
      assert r * distance < 0.0;
    }
  }

  /** An electric-light-rail trip of zero hours has consumption 0. */
  lemma ZeroHoursZeroEnergy(distance: real, energy: real)
    requires distance != 0.0
    ensures GetConsumption(ElectricLightRailConsumption, distance, energy, 0.0) == Finite(0.0)
  {
  }

  /**
   * Worked figures: 10 l over 100 km is 10 l/100 km for a bus, 25 l over
   * 50 km is 0.5 l/km for a diesel train, 2 units for 3 hours over 10 km is
   * 0.6 for a light-rail vehicle, and a zero distance is not finite.
   */
  lemma ConsumptionExamples()
    ensures GetConsumption(BusConsumption, 100.0, 10.0, 3.0) == Finite(10.0)
    ensures GetConsumption(DieselTrainConsumption, 50.0, 25.0, 3.0) == Finite(0.5)
    ensures GetConsumption(ElectricLightRailConsumption, 10.0, 2.0, 3.0) == Finite(0.6)
    ensures GetConsumption(BusConsumption, 0.0, 50.0, 3.0) == NonFinite
  {
  }

  /** `FuelContext`: holds the strategy last set, initially null. */
  class FuelContext {
    var strategy: Option<Strategy>

    constructor ()
      ensures strategy == None
    {
      strategy := None;
    }

    method SetConsumptionStrategy(strategy: Strategy)
      modifies this
      ensures this.strategy == Some(strategy)
    {
      this.strategy := Some(strategy);
    }

    /**
     * Delegates to the strategy set; with none set the call on a null
     * reference throws `NullPointerException`.
     */
    method CalculateConsumption(distance: real, fuelAmount: real, hours: real)
      returns (r: Result<Efficiency>)
      ensures strategy.None? <==> r == Failure(NullPointerException)
      ensures strategy.Some? ==>
                r == Success(GetConsumption(strategy.value, distance, fuelAmount, hours))
      ensures r.Success? ==> r.value.NonFinite? == (distance == 0.0)
      ensures r.Success? && r.value.Finite? ==>
                r.value.value * distance == Numerator(strategy.value, fuelAmount, hours)
    {
      if strategy.None? {
        return Failure(NullPointerException);
      }
      r := Success(GetConsumption(strategy.value, distance, fuelAmount, hours));
    }
  }
}
