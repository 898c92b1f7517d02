/** `VehicleBuilderFactory`: picks the builder for a vehicle type tag. */
module Factory {
  import opened JavaLang
  import opened Constants
  import opened TransferObjects
  import opened Builder

  /** The `VehicleType` tag naming each builder kind. */
  function TypeTag(k: BuilderKind): string
  {
    match k
    case Bus => BUS
    case DieselTrain => DIESELTRAIN
    case ElectricLightRail => ELECTRICLIGHTRAIL
  }

  /** The builder kind a `switch` on the tag selects; tags are compared exactly. */
  function BuilderKindFor(tag: string): (k: Option<BuilderKind>)
    ensures k.Some? ==> TypeTag(k.value) == tag
  {
    if tag == BUS then Some(Bus)
    else if tag == DIESELTRAIN then Some(DieselTrain)
    else if tag == ELECTRICLIGHTRAIL then Some(ElectricLightRail)
    else None
  }

  /** The three tags are told apart, so each kind is selected by its own tag and no other. */
  lemma TypeTagRoundTrip(k: BuilderKind, tag: string)
    ensures BuilderKindFor(TypeTag(k)) == Some(k)
    ensures BuilderKindFor(tag) == Some(k) <==> tag == TypeTag(k)
  {
  }

  /** Case matters: the lower-case tag is not recognised. */
  lemma TagsAreCaseSensitive()
    ensures BuilderKindFor("bus").None?
    ensures BuilderKindFor("FACTORY_CAR").None?
  {
  }

  /**
   * `createBuilder`: a fresh, empty builder of the tag's kind. A null tag
   * makes the `switch` throw `NullPointerException`; any other unknown tag
   * gives `IllegalArgumentException("Invalid vehicle type")`.
   */
  method CreateBuilder(vehicleType: Str) returns (r: Result<VehicleBuilder>)
    ensures vehicleType.None? ==> r == Failure(NullPointerException)
    ensures vehicleType.Some? && BuilderKindFor(vehicleType.value).None? ==>
              r == Failure(IllegalArgumentException("Invalid vehicle type"))
    ensures vehicleType.Some? && BuilderKindFor(vehicleType.value).Some? ==>
              r.Success? && fresh(r.value)
              && r.value.target == BuilderKindFor(vehicleType.value).value
              && r.value.Fields() == EmptyFields
  {
    if vehicleType.None? {
      return Failure(NullPointerException);
    }
    var kind := BuilderKindFor(vehicleType.value);
    if kind.None? {
      return Failure(IllegalArgumentException("Invalid vehicle type"));
    }
    var builder := new VehicleBuilder(kind.value);
    r := Success(builder);
  }

  /** The factory test: each tag gives its builder, and "FACTORY_CAR" is refused. */
  method FactoryScenario() returns (busKind: BuilderKind, dieselKind: BuilderKind,
                                    railKind: BuilderKind, invalid: Result<VehicleBuilder>)
    ensures busKind == Bus && dieselKind == DieselTrain && railKind == ElectricLightRail
    ensures invalid == Failure(IllegalArgumentException("Invalid vehicle type"))
  {
    var b := CreateBuilder(Some(BUS));
    busKind := b.value.target;
    var d := CreateBuilder(Some(DIESELTRAIN));
    dieselKind := d.value.target;
    var e := CreateBuilder(Some(ELECTRICLIGHTRAIL));
    railKind := e.value.target;
    invalid := CreateBuilder(Some("FACTORY_CAR"));
  }
}
