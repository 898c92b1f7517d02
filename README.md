# Public transit fleet core, modelled in Dafny

This project models the business core of a public transit fleet management
system. The system runs three vehicle classes: buses, diesel trains and
electric light rail (ELR) trains. Their state lives in a relational database
behind DAO objects. The core does four things:

- **Builds vehicles.** A builder factory picks one of three builders by type
  tag, and a chain of `add…` calls fills a `BusDTO`, `DieselTrainDTO` or
  `ElectricLightRailDTO`. `addVehicle` uses this chain and then inserts the row.
- **Completes trips.** `completeTrip` loads the vehicle and its route, and
  computes the trip length in whole minutes. It computes fuel efficiency with a
  per-class consumption strategy. It then adds the trip's hours of wear to the
  brakes, wheels and axle bearings (and to the oil or the electrical
  components), subtracts the fuel used, writes the rows back, inserts the trip
  with its on-time flag, and runs the vehicle monitor.
- **Refuels and services vehicles.** `refuel` applies a per-class refuel
  command through a fuel station and records a 10-minute maintenance entry.
  `endMaintenance` closes open maintenance records and resets the oil or
  electrical counters.
- **Raises and processes alerts.** `monitorVehicle` runs the common-components
  check, the fuel check, one class-specific check and the route-completion
  check, in that order. Each check that fires stores an `ACTIVE` alert and
  notifies the registered listeners. `processAlert` validates its arguments,
  maps an action (acknowledge, resolve, escalate) to a new status, writes the
  status, and notifies the listeners unless the alert is resolved.

`TripDAOImpl.isTripOnTime` is the reporting layer's on-time rule. It is
modelled too, together with an integer overflow it has (see "## Findings").

How Java is modelled:

- Java `String` is `Option<string>`, where `None` is null.
- An exception is a `Result`/`Outcome` failure that carries the exception's
  class and message.
- `int` and `long` arithmetic wraps explicitly (`ToInt`, `ToLong`), and
  `MINUTES.between` truncates toward zero.
- `double` is `real`. A division by a zero distance gives `NonFinite`, because
  IEEE arithmetic produces an infinity or NaN instead of throwing.
- Times are milliseconds since the epoch, and the clock is a parameter `now`.
- Whether an SQL statement, an alert insert or a listener throws is an input to
  the operation: `ok` flags, a set of failing checks, and a set of failing
  listeners.
- Mutable transfer objects, builders, the fuel context, the fuel station, the
  notifier, the DAOs and the two business-logic classes are Dafny classes.
  Setters and methods are proved against `Snapshot()`/`Fields()`/`World()`
  values and the pure specification functions beside them.

Modules, one per source package: `JavaLang` (language semantics), `Constants`,
`TransferObjects`, `Builder`, `Factory`, `Fuel`, `Command`, `Observer`, `Dao`,
`TripDao`, `AlertRules` and `AlertLogic` (the alert monitor as specification
and as class), and `FleetRules` and `FleetLogic` (fleet management as
specification and as class).

## Model

| member | source | states |
|---|---|---|
| JavaLang.ToInt | src/main/java/businesslayer/FleetManagementBusinessLogic.java:379 | the `(int)` cast: the result is a 32-bit value congruent to the input modulo 2^32, and the input itself when it already fits |
| JavaLang.ToLong | src/main/java/dataaccesslayer/TripDAOImpl.java:189-190 | `long` arithmetic: a 64-bit value congruent modulo 2^64, the input itself when it fits |
| JavaLang.UpperAscii | src/main/java/businesslayer/VehicleAlertBusinessLogic.java:245 | each lower-case ASCII letter maps to its own capital (the same offset from 'A' as from 'a'); every other character is unchanged |
| JavaLang.ToUpperCase | src/main/java/businesslayer/VehicleAlertBusinessLogic.java:245 | `toUpperCase` keeps the length and maps every character position by position |
| TransferObjects.DefaultVariant | src/main/java/transferobjects/BusDTO.java:13-15 | the no-argument constructor of each subclass gives variant fields of that subclass |
| TransferObjects.DefaultVehicle | src/main/java/transferobjects/VehicleDTO.java:28 | a default-constructed vehicle has the requested runtime class |
| TransferObjects.Constructed | src/main/java/transferobjects/VehicleDTO.java:47-65 | the full constructors leave the fuel level at 0.0 and carry the subclass fields given |
| TransferObjects.VehicleDTO.Snapshot | src/main/java/transferobjects/VehicleDTO.java:70-205 | the value of an object has the object's runtime class |
| TransferObjects.VehicleDTO.Default | src/main/java/transferobjects/ElectricLightRailDTO.java:17-19 | the no-argument constructors give the default vehicle of their class |
| TransferObjects.VehicleDTO.constructor | src/main/java/transferobjects/VehicleDTO.java:47-65 | the base constructor sets every argument field, with fuel level 0.0 and no subclass fields |
| TransferObjects.VehicleDTO.Bus | src/main/java/transferobjects/BusDTO.java:35-49 | the bus constructor sets every field and a non-null emission rate |
| TransferObjects.VehicleDTO.DieselTrain | src/main/java/transferobjects/DieselTrainDTO.java:38-52 | the diesel-train constructor sets every field and the oil status |
| TransferObjects.VehicleDTO.ElectricLightRail | src/main/java/transferobjects/ElectricLightRailDTO.java:41-58 | the ELR constructor sets every field and the three electrical counters |
| TransferObjects.VehicleDTO.SetVehicleID | src/main/java/transferobjects/VehicleDTO.java:75 | changes the vehicle number and nothing else |
| TransferObjects.VehicleDTO.SetVehicleName | src/main/java/transferobjects/VehicleDTO.java:85 | changes the name and nothing else |
| TransferObjects.VehicleDTO.SetVehicleType | src/main/java/transferobjects/VehicleDTO.java:95 | changes the type string and nothing else |
| TransferObjects.VehicleDTO.SetFuelType | src/main/java/transferobjects/VehicleDTO.java:105 | changes the fuel type and nothing else |
| TransferObjects.VehicleDTO.SetConsumptionRate | src/main/java/transferobjects/VehicleDTO.java:115 | changes the consumption rate and nothing else |
| TransferObjects.VehicleDTO.SetMaxCapacity | src/main/java/transferobjects/VehicleDTO.java:125 | changes the capacity and nothing else |
| TransferObjects.VehicleDTO.SetCurrentRouteID | src/main/java/transferobjects/VehicleDTO.java:135 | changes the route id and nothing else |
| TransferObjects.VehicleDTO.SetAxleBearingsCondition | src/main/java/transferobjects/VehicleDTO.java:145 | changes the axle-bearing hours and nothing else |
| TransferObjects.VehicleDTO.SetBrakesCondition | src/main/java/transferobjects/VehicleDTO.java:155 | changes the brake hours and nothing else |
| TransferObjects.VehicleDTO.SetWheelsCondition | src/main/java/transferobjects/VehicleDTO.java:165 | changes the wheel hours and nothing else |
| TransferObjects.VehicleDTO.SetStatus | src/main/java/transferobjects/VehicleDTO.java:175 | changes the status and nothing else |
| TransferObjects.VehicleDTO.SetLatitude | src/main/java/transferobjects/VehicleDTO.java:185 | changes the latitude and nothing else |
| TransferObjects.VehicleDTO.SetLongitude | src/main/java/transferobjects/VehicleDTO.java:195 | changes the longitude and nothing else |
| TransferObjects.VehicleDTO.SetFuelLevel | src/main/java/transferobjects/VehicleDTO.java:205 | changes the fuel level and nothing else |
| TransferObjects.VehicleDTO.SetEmissionRate | src/main/java/transferobjects/BusDTO.java:63-65 | on a bus, changes the (nullable) emission rate and nothing else |
| TransferObjects.VehicleDTO.SetOilStatus | src/main/java/transferobjects/DieselTrainDTO.java:64-66 | on a diesel train, changes the oil status and nothing else |
| TransferObjects.VehicleDTO.SetCatenaryCondition | src/main/java/transferobjects/ElectricLightRailDTO.java:70-72 | on an ELR, changes the catenary hours and nothing else |
| TransferObjects.VehicleDTO.SetPantographCondition | src/main/java/transferobjects/ElectricLightRailDTO.java:84-86 | on an ELR, changes the pantograph hours and nothing else |
| TransferObjects.VehicleDTO.SetCircuitBreakerCondition | src/main/java/transferobjects/ElectricLightRailDTO.java:98-100 | on an ELR, changes the circuit-breaker hours and nothing else |
| TransferObjects.AlertDTO.Default | src/main/java/transferobjects/AlertDTO.java:22 | a new alert has every field unset |
| TransferObjects.AlertDTO.constructor | src/main/java/transferobjects/AlertDTO.java:34-42 | the full constructor sets every field |
| TransferObjects.AlertDTO.SetAlertID | src/main/java/transferobjects/AlertDTO.java:52 | changes the alert id and nothing else |
| TransferObjects.AlertDTO.SetVehicleID | src/main/java/transferobjects/AlertDTO.java:62 | changes the vehicle id and nothing else |
| TransferObjects.AlertDTO.SetStatus | src/main/java/transferobjects/AlertDTO.java:72 | changes the status and nothing else |
| TransferObjects.AlertDTO.SetAlertType | src/main/java/transferobjects/AlertDTO.java:82 | changes the type and nothing else |
| TransferObjects.AlertDTO.SetAlertReason | src/main/java/transferobjects/AlertDTO.java:92 | changes the reason and nothing else |
| TransferObjects.AlertDTO.SetAlertTime | src/main/java/transferobjects/AlertDTO.java:102 | changes the time and nothing else |
| Builder.VariantFor | src/main/java/builder/BusBuilder.java:90-96 | each concrete builder produces the subclass of its own kind |
| Builder.BuiltKindAndFuel | src/main/java/builder/VehicleBuilder.java:242-245 | a built vehicle has the builder's class and fuel level 0.0 whatever `addFuelLevel` set, because no `build()` copies it |
| Builder.BuiltBusHasEmissionRate | src/main/java/builder/BusBuilder.java:90-96 | a built bus always has a non-null emission rate: the one last added |
| Builder.ForeignVariantFieldsIgnored | src/main/java/builder/DieselTrainBuilder.java:35-82 | the `add…` calls for another class's fields do not affect what a builder builds |
| Builder.BuildFieldsOfRoundTrip | src/main/java/builder/ElectricLightRailBuilder.java:103-109 | feeding a vehicle's fields back through its builder rebuilds it exactly when its fuel level is 0.0 and it is not a bus with a null emission rate |
| Builder.BuiltFromEmpty | src/main/java/builder/VehicleBuilder.java:99-245 | building with no `add…` call gives the default object of the class, except that a bus gets emission rate 0.0 |
| Builder.VehicleBuilder.constructor | src/main/java/factory/VehicleBuilderFactory.java:31-52 | a new builder holds empty fields and its target class |
| Builder.VehicleBuilder.AddVehicleNumber | src/main/java/builder/VehicleBuilder.java:99-102 | sets one field, returns the same builder |
| Builder.VehicleBuilder.AddVehicleName | src/main/java/builder/VehicleBuilder.java:110-113 | sets one field, returns the same builder |
| Builder.VehicleBuilder.AddVehicleType | src/main/java/builder/VehicleBuilder.java:121-124 | sets one field, returns the same builder |
| Builder.VehicleBuilder.AddFuelType | src/main/java/builder/VehicleBuilder.java:132-135 | sets one field, returns the same builder |
| Builder.VehicleBuilder.AddConsumptionRate | src/main/java/builder/VehicleBuilder.java:143-146 | sets one field, returns the same builder |
| Builder.VehicleBuilder.AddMaxCapacity | src/main/java/builder/VehicleBuilder.java:154-157 | sets one field, returns the same builder |
| Builder.VehicleBuilder.AddCurrentRouteId | src/main/java/builder/VehicleBuilder.java:165-168 | sets one field, returns the same builder |
| Builder.VehicleBuilder.AddAxleBearingsCondition | src/main/java/builder/VehicleBuilder.java:176-179 | sets one field, returns the same builder |
| Builder.VehicleBuilder.AddBrakesCondition | src/main/java/builder/VehicleBuilder.java:187-190 | sets one field, returns the same builder |
| Builder.VehicleBuilder.AddWheelsCondition | src/main/java/builder/VehicleBuilder.java:198-201 | sets one field, returns the same builder |
| Builder.VehicleBuilder.AddStatus | src/main/java/builder/VehicleBuilder.java:209-212 | sets one field, returns the same builder |
| Builder.VehicleBuilder.AddLongitude | src/main/java/builder/VehicleBuilder.java:220-223 | sets one field, returns the same builder |
| Builder.VehicleBuilder.AddLatitude | src/main/java/builder/VehicleBuilder.java:231-234 | sets one field, returns the same builder |
| Builder.VehicleBuilder.AddFuelLevel | src/main/java/builder/VehicleBuilder.java:242-245 | sets one field, returns the same builder |
| Builder.VehicleBuilder.AddEmissionRate | src/main/java/builder/BusBuilder.java:35-38 | only a bus builder records the emission rate; the others ignore it |
| Builder.VehicleBuilder.AddOilStatus | src/main/java/builder/DieselTrainBuilder.java:46-49 | only a diesel-train builder records the oil status |
| Builder.VehicleBuilder.AddCatenaryCondition | src/main/java/builder/ElectricLightRailBuilder.java:68-71 | only an ELR builder records the catenary hours |
| Builder.VehicleBuilder.AddPantographCondition | src/main/java/builder/ElectricLightRailBuilder.java:80-83 | only an ELR builder records the pantograph hours |
| Builder.VehicleBuilder.AddCircuitBreakerCondition | src/main/java/builder/ElectricLightRailBuilder.java:92-95 | only an ELR builder records the circuit-breaker hours |
| Builder.VehicleBuilder.Build | src/main/java/builder/BusBuilder.java:90-96 | `build()` returns a fresh object of the builder's class holding `Built(target, fields)` |
| Builder.BuildCustomBus | src/test/java/BuilderPatternTest/BuilderPatternTest.java:14-49 | the custom bus of the builder test has exactly the values its assertions expect |
| Builder.BuildTestBus | src/test/java/BuilderPatternTest/BuilderPatternTest.java:52-63 | the default-built test bus has the four given fields and defaults elsewhere |
| Factory.BuilderKindFor | src/main/java/factory/VehicleBuilderFactory.java:31-52 | a recognised tag is the type tag of the builder chosen |
| Factory.TypeTagRoundTrip | src/main/java/factory/VehicleBuilderFactory.java:31-52 | tag and builder kind are inverse: each kind's tag selects it, and only that tag does |
| Factory.TagsAreCaseSensitive | src/main/java/factory/VehicleBuilderFactory.java:31-52 | `"bus"` and `"FACTORY_CAR"` select no builder |
| Factory.CreateBuilder | src/main/java/factory/VehicleBuilderFactory.java:31-52 | null tag throws a null-pointer exception; an unknown tag throws "Invalid vehicle type"; a known tag gives a fresh empty builder of its kind |
| Factory.FactoryScenario | src/test/java/FactoryPatternTest/FactoryPatternTest.java:22-43 | the three constants select the three builders and `"FACTORY_CAR"` is rejected with "Invalid vehicle type" |
| Fuel.GetConsumption | src/main/java/fuelpkg/BusConsumptionStrategy.java:31-33 | the result is non-finite exactly when the distance is zero; otherwise efficiency times distance is the strategy's numerator |
| Fuel.ConsumptionDeterminedByProduct | src/main/java/fuelpkg/DieselTrainConsumptionStrategy.java:31-33 | on a non-zero distance, `e` is the efficiency exactly when `e * distance` equals the numerator |
| Fuel.BusIsHundredTimesDiesel | src/main/java/fuelpkg/BusConsumptionStrategy.java:31-33 | bus and diesel efficiency ignore the hours, and the bus figure is 100 times the diesel figure |
| Fuel.ConsumptionScaleInvariant | src/main/java/fuelpkg/DieselTrainConsumptionStrategy.java:31-33 | fuel per distance is unchanged when both are scaled by the same non-zero factor |
| Fuel.ConsumptionNonNegative | src/main/java/fuelpkg/ElectricLightRailConsumptionStrategy.java:30-32 | non-negative inputs over a positive distance give a non-negative efficiency |
| Fuel.ZeroHoursZeroEnergy | src/main/java/fuelpkg/ElectricLightRailConsumptionStrategy.java:30-32 | an ELR trip of zero hours has efficiency 0.0 whatever energy was used |
| Fuel.ConsumptionExamples | src/main/java/fuelpkg/ElectricLightRailConsumptionStrategy.java:30-32 | worked values of each strategy, including the non-finite result on zero distance |
| Fuel.FuelContext.constructor | src/main/java/fuelpkg/FuelContext.java:32-47 | a new context has no strategy |
| Fuel.FuelContext.SetConsumptionStrategy | src/main/java/fuelpkg/FuelContext.java:32-34 | the strategy is replaced |
| Fuel.FuelContext.CalculateConsumption | src/main/java/fuelpkg/FuelContext.java:45-47 | with no strategy it throws a null-pointer exception; otherwise it delegates to that strategy |
| Command.Refuel | src/main/java/command/RefuelBusCommand.java:30-32 | the bus command fills to 950.0, the ELR command to 0.0 and the diesel command to 15000.0 |
| Command.ToppedUp | src/main/java/command/FuelStation.java:44-46 | the vehicle's fuel level becomes what the command returns |
| Command.ToppedUpProperties | src/main/java/command/FuelStation.java:44-46 | a top-up ignores the old fuel level, is idempotent, and changes nothing but the fuel level |
| Command.FuelStation.constructor | src/main/java/command/FuelStation.java:35-37 | the station holds the vehicle given, which may be null |
| Command.FuelStation.TopUp | src/main/java/command/FuelStation.java:44-46 | the held vehicle is topped up by the command |
| Observer.ParseEvent | src/main/java/businesslayer/VehicleAlertBusinessLogic.java:263 | `valueOf` only succeeds on the exact name of a constant |
| Observer.EventNameRoundTrip | src/main/java/observer/VehicleEvent.java:10-23 | `name()` and `valueOf` are inverse: each event's name parses back to it, and only that name does |
| Observer.Notes | src/main/java/observer/VehicleEventNotifier.java:39-43 | one notification per listener, in registration order |
| Observer.DeliveriesStep | src/main/java/observer/VehicleEventNotifier.java:39-43 | the first listener is called first; if it throws, no later listener is called |
| Observer.DeliveriesAdvance | src/main/java/observer/VehicleEventNotifier.java:39-43 | after a listener that does not throw, the delivered prefix grows by its call and the rest are still to come |
| Observer.DeliveriesStopHere | src/main/java/observer/VehicleEventNotifier.java:39-43 | a throwing listener's call ends the deliveries |
| Observer.DeliveriesWhenNoneFails | src/main/java/observer/VehicleEventNotifier.java:39-43 | when no listener throws, every listener is notified in order |
| Observer.DeliveriesStopAtFirstFailure | src/main/java/observer/VehicleEventNotifier.java:39-43 | when listener `k` is the first to throw, exactly listeners `0..k` are called |
| Observer.FirstIndex | src/main/java/observer/VehicleEventNotifier.java:29-31 | the position of the first occurrence of a listener |
| Observer.RemoveFirstSpec | src/main/java/observer/VehicleEventNotifier.java:29-31 | `List.remove` deletes the first equal element and keeps the rest in order; an absent listener changes nothing |
| Observer.AddThenRemove | src/main/java/observer/VehicleEventNotifier.java:20-31 | removing a listener just added to a list without it restores the list |
| Observer.RemoveKeepsDuplicate | src/main/java/observer/VehicleEventNotifier.java:20-31 | a listener added twice is still registered after one removal |
| Observer.VehicleEventNotifier.constructor | src/main/java/observer/VehicleEventNotifier.java:13 | the registry starts empty |
| Observer.VehicleEventNotifier.AddListener | src/main/java/observer/VehicleEventNotifier.java:20-22 | appends the listener, duplicates allowed |
| Observer.VehicleEventNotifier.RemoveListener | src/main/java/observer/VehicleEventNotifier.java:29-31 | removes the first occurrence |
| Observer.VehicleEventNotifier.NotifyListeners | src/main/java/observer/VehicleEventNotifier.java:39-43 | calls the listeners in order up to the first that throws, and reports success exactly when none throws |
| Dao.Loaded | src/main/java/dataaccesslayer/VehicleDAOImpl.java:450-595 | the loaded object has the row's class and the requested id |
| Dao.CloseOpen | src/main/java/dataaccesslayer/VehicleDAOImpl.java:729-763 | every open maintenance record of the vehicle gets end time `now`; all other records are untouched |
| Dao.CloseOpenClosesAll | src/main/java/dataaccesslayer/VehicleDAOImpl.java:729-763 | after `endMaintenance` no open record of the vehicle remains |
| Dao.VehicleDao.constructor | src/main/java/dataaccesslayer/VehicleDAOImpl.java:337-385 | empty tables over the given routes |
| Dao.VehicleDao.GetVehicleById | src/main/java/dataaccesslayer/VehicleDAOImpl.java:450-595 | null for a missing row or one of no known class; otherwise a fresh object of the row's class holding `Loaded(id, row)` |
| Dao.VehicleDao.GetRouteById | src/main/java/dataaccesslayer/VehicleDAOImpl.java:394-414 | the stored route, or an empty route object when none matches |
| Dao.VehicleDao.UpdateVehicle | src/main/java/dataaccesslayer/VehicleDAOImpl.java:247-275 | writes the common columns of an existing row; reports whether a row was updated |
| Dao.VehicleDao.UpdateOilLife | src/main/java/dataaccesslayer/VehicleDAOImpl.java:284-300 | writes the oil status of an existing diesel row |
| Dao.VehicleDao.UpdateELRComponents | src/main/java/dataaccesslayer/VehicleDAOImpl.java:309-328 | writes the three electrical counters of an existing ELR row |
| Dao.VehicleDao.CompleteTrip | src/main/java/dataaccesslayer/VehicleDAOImpl.java:1063-1086 | appends the trip when the insert succeeds and changes nothing else |
| Dao.VehicleDao.Refuel | src/main/java/dataaccesslayer/VehicleDAOImpl.java:1096-1132 | a null vehicle throws; otherwise the fuel level is written and the maintenance entry appended, exactly when the update hits a row |
| Dao.VehicleDao.EndMaintenance | src/main/java/dataaccesslayer/VehicleDAOImpl.java:729-763 | with open maintenance, closes it and resets the common counters; reports true on an `SQLException` as written |
| Dao.VehicleDao.RefreshOilLife | src/main/java/dataaccesslayer/VehicleDAOImpl.java:804-818 | sets the oil status of a diesel row to 100.0 |
| Dao.VehicleDao.RefreshELRComponents | src/main/java/dataaccesslayer/VehicleDAOImpl.java:827-842 | resets the electrical counters of an ELR row to 0.0 |
| Dao.VehicleDao.AddVehicle | src/main/java/dataaccesslayer/VehicleDAOImpl.java:51-238 | a failed VEHICLE insert returns false before anything else; then a bus with a null emission rate throws; otherwise the result is whether the class's own insert succeeded, and on success the row is stored under the next id with the class's initial fuel (300, 15000, 0) |
| Dao.AlertDao.constructor | src/main/java/dataaccesslayer/AlertDAOImpl.java:35-58 | empty alert table |
| Dao.AlertDao.AddAlert | src/main/java/dataaccesslayer/AlertDAOImpl.java:35-58 | on success stores the alert under the next id and writes that id back; on failure throws "Failed to add alert" and changes nothing |
| Dao.AlertDao.GetAlertById | src/main/java/dataaccesslayer/AlertDAOImpl.java:109-132 | null when absent, else a fresh copy of the stored alert |
| Dao.AlertDao.UpdateAlert | src/main/java/dataaccesslayer/AlertDAOImpl.java:66-80 | writes only the status of an existing alert; throws "Failed to update alert" on failure |
| TripDao.MinutesToMillisExact | src/main/java/dataaccesslayer/TripDAOImpl.java:189-190 | the `int` product `expected * 60 * 1000` is exact for at most 35791 minutes |
| TripDao.OnTimeIffWithinExpected | src/main/java/dataaccesslayer/TripDAOImpl.java:187-195 | within range, a trip is on time exactly when it lasted no longer than the expected duration |
| TripDao.OnTimeLongIffWithinExpected | src/main/java/dataaccesslayer/TripDAOImpl.java:187-195 | the corrected rule is that same if-and-only-if for every `int` expected duration |
| TripDao.AsWrittenAgreesWithinRange | src/main/java/dataaccesslayer/TripDAOImpl.java:187-195 | the rule as written and the corrected rule agree up to 35791 minutes |
| TripDao.OverflowMakesInstantTripLate | src/main/java/dataaccesslayer/TripDAOImpl.java:189-190 | a zero-length trip on a 35792-minute route is reported late by the rule as written and on time by the corrected rule |
| TripDao.OnTimeMonotone | src/main/java/dataaccesslayer/TripDAOImpl.java:187-195 | ending earlier never makes an on-time trip late |
| TripDao.OnTimeTestCase | src/test/java/dataaccesslayer/TripDAOImplTest.java:189-200 | a 30-minute trip on a 30-minute route is on time and a 45-minute one is not |
| AlertRules.CommonTripped | src/main/java/businesslayer/VehicleAlertBusinessLogic.java:80-97 | brakes, wheels and axle bearings are listed in that order, each exactly when it is at or above 100 hours, with its own hours |
| AlertRules.ElectricalTripped | src/main/java/businesslayer/VehicleAlertBusinessLogic.java:113-128 | catenary, pantograph and breaker are listed each when at or above 100 hours, no other part is ever listed, and every entry prints the catenary hours |
| AlertRules.CheckCommon | src/main/java/businesslayer/VehicleAlertBusinessLogic.java:80-106 | a maintenance alert exactly when one of the three counters reaches its threshold |
| AlertRules.CheckFuel | src/main/java/businesslayer/VehicleAlertBusinessLogic.java:189-197 | a refuel alert exactly when the fuel level is at most 100 |
| AlertRules.CheckVariant | src/main/java/businesslayer/VehicleAlertBusinessLogic.java:61-67 | a bus with a null emission rate throws a null-pointer exception (unboxing); otherwise a maintenance alert exactly when the class-specific counter is due |
| AlertRules.CheckRoute | src/main/java/businesslayer/VehicleAlertBusinessLogic.java:174-182 | a route-end alert exactly when the status equals "COMPLETED" ignoring case |
| AlertRules.OptSeq | src/main/java/businesslayer/VehicleAlertBusinessLogic.java:53-73 | a check raises at most one alert |
| AlertRules.InCheckOrderConcat | src/main/java/businesslayer/VehicleAlertBusinessLogic.java:58-69 | running checks one after another keeps their order |
| AlertRules.RaisesConcat | src/main/java/businesslayer/VehicleAlertBusinessLogic.java:58-69 | a sequence of checks raises a kind of alert when one of its parts does |
| AlertRules.RaisesOpt | src/main/java/businesslayer/VehicleAlertBusinessLogic.java:58-69 | one check raises its own kind of alert exactly when it fires |
| AlertRules.MonitorPlanRaises | src/main/java/businesslayer/VehicleAlertBusinessLogic.java:53-73 | each of the four alerts is raised exactly when its condition holds; the route alert is also lost when the bus check throws first |
| AlertRules.VariantThenRouteShape | src/main/java/businesslayer/VehicleAlertBusinessLogic.java:61-69 | the class check comes before the route check and both carry their own events |
| AlertRules.MonitorPlanShape | src/main/java/businesslayer/VehicleAlertBusinessLogic.java:53-73 | the monitor raises at most four alerts, in check order, each with its check's event |
| AlertRules.MonitorReasons | src/main/java/businesslayer/VehicleAlertBusinessLogic.java:80-197 | each raised alert carries the facts its message prints |
| AlertRules.PantographReportsCatenaryHours | src/main/java/businesslayer/VehicleAlertBusinessLogic.java:121-122 | a worn pantograph on a fresh catenary raises one alert that reports the catenary's 10 hours |
| AlertRules.Stored | src/main/java/businesslayer/VehicleAlertBusinessLogic.java:214-219 | the stored alerts are the planned ones whose insert did not throw |
| AlertRules.RaiseAllAppend | src/main/java/businesslayer/VehicleAlertBusinessLogic.java:58-69 | raising two lists of alerts in turn equals raising their concatenation |
| AlertRules.RaiseAllIds | src/main/java/businesslayer/VehicleAlertBusinessLogic.java:206-220 | raising keeps every id below the counter, advances the counter by the number of successful inserts, adds exactly those ids and leaves older alerts as they were |
| AlertRules.RaiseAllStoresAt | src/main/java/businesslayer/VehicleAlertBusinessLogic.java:206-220 | the `k`-th successfully inserted alert is stored under the `k`-th new id, ACTIVE, with its planned event, reason and time |
| AlertRules.RaiseAllOnlyAppends | src/main/java/businesslayer/VehicleAlertBusinessLogic.java:206-220 | raising never removes a notification already delivered |
| AlertRules.RaiseAllEffect | src/main/java/businesslayer/VehicleAlertBusinessLogic.java:206-220 | the stored alerts get consecutive new ids with the planned events and reasons; old alerts are untouched; notifications only grow |
| AlertRules.RaisedAlertsAreActive | src/main/java/businesslayer/VehicleAlertBusinessLogic.java:206-212 | every new alert is `ACTIVE`, belongs to the vehicle, has its own id and a parseable type |
| AlertRules.MonitorStoresPlanWhenNothingFails | src/main/java/businesslayer/VehicleAlertBusinessLogic.java:53-73 | without insert failures, one monitor run adds one alert per planned check, at most four |
| AlertRules.StoredNoFailures | src/main/java/businesslayer/VehicleAlertBusinessLogic.java:214-216 | with no failing insert, every planned alert is stored |
| AlertRules.RaiseNotifiesAll | src/main/java/businesslayer/VehicleAlertBusinessLogic.java:214-216 | a stored alert is delivered to every listener when none throws |
| AlertRules.ActionStatus | src/main/java/businesslayer/VehicleAlertBusinessLogic.java:244-257 | ACKNOWLEDGED, RESOLVED or ESCALATED exactly when the action equals ACKNOWLEDGE, RESOLVE or ESCALATE ignoring case, and no status (the "Invalid action" path) exactly when it equals none of them |
| AlertRules.ActionStatusExamples | src/main/java/businesslayer/VehicleAlertBusinessLogic.java:244-257 | mixed-case actions are accepted; a padded or unknown action is not |
| AlertRules.ActionStatusIgnoresCase | src/main/java/businesslayer/VehicleAlertBusinessLogic.java:245 | upper-casing an action first does not change the status it sets |
| AlertRules.ProcessAlertArgumentErrors | src/main/java/businesslayer/VehicleAlertBusinessLogic.java:230-236 | the argument exceptions are thrown exactly for id ≤ 0 or a null or blank action and change nothing; every other failure is "Failed to process alert" |
| AlertRules.ProcessAlertOnlyTouchesStatus | src/main/java/businesslayer/VehicleAlertBusinessLogic.java:230-270 | processing changes at most the status of the addressed alert, to the mapped status; notifications only grow |
| AlertRules.ProcessAlertWritesStatus | src/main/java/businesslayer/VehicleAlertBusinessLogic.java:244-260 | the status is written exactly when the arguments are valid, the action is known and the update succeeds; otherwise nothing changes and the call fails |
| AlertRules.ProcessAlertNotifies | src/main/java/businesslayer/VehicleAlertBusinessLogic.java:259-268 | resolve notifies nobody; an unparseable type fails after the status write; otherwise every listener gets the updated alert |
| AlertRules.ProcessAlertIdempotentOnTable | src/main/java/businesslayer/VehicleAlertBusinessLogic.java:230-270 | repeating an action leaves the alert table as the first call left it |
| AlertLogic.VehicleAlertBusinessLogic.constructor | src/main/java/businesslayer/VehicleAlertBusinessLogic.java:39-45 | keeps the two dependencies |
| AlertLogic.VehicleAlertBusinessLogic.Create | src/main/java/businesslayer/VehicleAlertBusinessLogic.java:39-45 | a null dependency throws "Dependencies cannot be null", otherwise a new object over both |
| AlertLogic.VehicleAlertBusinessLogic.World | src/main/java/businesslayer/VehicleAlertBusinessLogic.java:206-220 | the ids of stored alerts stay below the next id |
| AlertLogic.VehicleAlertBusinessLogic.CreateAndNotifyAlert | src/main/java/businesslayer/VehicleAlertBusinessLogic.java:206-220 | an `ACTIVE` alert is stored and then delivered; an insert failure skips notification; a listener failure stops later listeners |
| AlertLogic.VehicleAlertBusinessLogic.CheckCommonComponents | src/main/java/businesslayer/VehicleAlertBusinessLogic.java:80-106 | raises exactly `CheckCommon` of the vehicle |
| AlertLogic.VehicleAlertBusinessLogic.CheckFuelLevel | src/main/java/businesslayer/VehicleAlertBusinessLogic.java:189-197 | raises exactly `CheckFuel` of the vehicle |
| AlertLogic.VehicleAlertBusinessLogic.CheckElectricLightRailComponents | src/main/java/businesslayer/VehicleAlertBusinessLogic.java:113-137 | raises exactly the electrical alert of `CheckVariant` |
| AlertLogic.VehicleAlertBusinessLogic.CheckDieselTrainComponents | src/main/java/businesslayer/VehicleAlertBusinessLogic.java:144-152 | raises the oil alert exactly when the oil status is at least 100 |
| AlertLogic.VehicleAlertBusinessLogic.CheckBusComponents | src/main/java/businesslayer/VehicleAlertBusinessLogic.java:159-167 | a null emission rate throws and changes nothing; otherwise raises exactly the emission alert |
| AlertLogic.VehicleAlertBusinessLogic.CheckRouteCompletion | src/main/java/businesslayer/VehicleAlertBusinessLogic.java:174-182 | raises exactly `CheckRoute` of the vehicle |
| AlertLogic.VehicleAlertBusinessLogic.MonitorVehicle | src/main/java/businesslayer/VehicleAlertBusinessLogic.java:53-73 | null throws "Vehicle cannot be null"; otherwise the alert world advances by `RaiseAll` of `MonitorPlan`, and an exception from a check is swallowed |
| AlertLogic.VehicleAlertBusinessLogic.ProcessAlert | src/main/java/businesslayer/VehicleAlertBusinessLogic.java:230-270 | outcome and new state are `ProcessAlertSpec` of the old state |
| FleetRules.AddedKind | src/main/java/businesslayer/FleetManagementBusinessLogic.java:134-189 | `"BUS"` adds a bus, `"DIESEL TRAIN"` a diesel train, anything else a light-rail vehicle |
| FleetRules.AddedRowSpec | src/main/java/businesslayer/FleetManagementBusinessLogic.java:127-191 | the inserted row has the chosen class, the next id, the class's type tag, status `ACTIVE`, the form's fields, the initial fuel and the class's own extra field |
| FleetRules.LowerCaseTagAddsLightRail | src/main/java/businesslayer/FleetManagementBusinessLogic.java:170-189 | a lower-case `"bus"` is stored as an electric light rail vehicle |
| FleetRules.TripMinutes | src/main/java/businesslayer/FleetManagementBusinessLogic.java:379 | the duration is a 32-bit value |
| FleetRules.TripMinutesBounds | src/main/java/businesslayer/FleetManagementBusinessLogic.java:379 | for trips within the `int` range, the minutes are the elapsed time truncated toward zero |
| FleetRules.TripHours | src/main/java/businesslayer/FleetManagementBusinessLogic.java:380 | hours times 60 is the minutes |
| FleetRules.TripWearAccumulates | src/main/java/businesslayer/FleetManagementBusinessLogic.java:398-427 | two trips wear a vehicle like one trip of their summed hours and fuel, except that a diesel train loses 5 oil hours per trip |
| FleetRules.TripWornKeeps | src/main/java/businesslayer/FleetManagementBusinessLogic.java:398-427 | a trip changes only the wear counters and the fuel level, and never a bus's variant fields |
| FleetRules.OnTimeGrace | src/main/java/businesslayer/FleetManagementBusinessLogic.java:441-442 | a trip is flagged on time exactly when it takes at most 30 minutes longer than expected |
| FleetRules.OnTimeRulesDisagree | src/main/java/businesslayer/FleetManagementBusinessLogic.java:441-442 | a 40-minute trip on a 30-minute route is stored as on time, yet `isTripOnTime` calls it late |
| FleetRules.TripRecordEfficiency | src/main/java/businesslayer/FleetManagementBusinessLogic.java:384-395 | the stored efficiency is non-finite exactly on a zero distance, and is otherwise fixed by each class's formula |
| FleetRules.RefuelRecord | src/main/java/businesslayer/FleetManagementBusinessLogic.java:473-477 | the refuel record lasts exactly 10 minutes |
| FleetRules.RefuelFillsToFullTank | src/main/java/businesslayer/FleetManagementBusinessLogic.java:460-479 | a refuel fills a bus to 950, above its initial 300; trains are set to their initial level |
| FleetLogic.FleetManagementBusinessLogic.constructor | src/main/java/businesslayer/FleetManagementBusinessLogic.java:60-66 | fresh DAOs and alert logic with empty tables |
| FleetLogic.FleetManagementBusinessLogic.BuildBus | src/main/java/businesslayer/FleetManagementBusinessLogic.java:135-149 | the builder chain gives `Built(Bus, FormFields(Bus, form))` |
| FleetLogic.FleetManagementBusinessLogic.BuildDieselTrain | src/main/java/businesslayer/FleetManagementBusinessLogic.java:153-167 | the builder chain gives the diesel train of the form |
| FleetLogic.FleetManagementBusinessLogic.BuildElectricLightRail | src/main/java/businesslayer/FleetManagementBusinessLogic.java:171-187 | the builder chain gives the ELR of the form |
| FleetLogic.FleetManagementBusinessLogic.AddVehicle | src/main/java/businesslayer/FleetManagementBusinessLogic.java:127-191 | a null type throws; otherwise the result is whether both inserts succeeded (the built bus always has an emission rate), and on success exactly `AddedRow` is inserted under the next id |
| FleetLogic.FleetManagementBusinessLogic.EndMaintenance | src/main/java/businesslayer/FleetManagementBusinessLogic.java:278-294 | success exactly when maintenance ended and the class's refresh succeeded (a bus needs none); the tables change as the DAO calls say |
| FleetLogic.FleetManagementBusinessLogic.Refuel | src/main/java/businesslayer/FleetManagementBusinessLogic.java:460-479 | an unloadable vehicle throws; otherwise the fuel level becomes the class's command level and the 10-minute record is appended, when the write succeeds |
| FleetLogic.FleetManagementBusinessLogic.WearCommon | src/main/java/businesslayer/FleetManagementBusinessLogic.java:398-409 | the common counters grow by the hours, the fuel drops by the fuel used, and the common columns are written |
| FleetLogic.FleetManagementBusinessLogic.WearComponents | src/main/java/businesslayer/FleetManagementBusinessLogic.java:412-428 | a diesel train loses 5 oil hours and an ELR's three counters grow; success only for those two when the write succeeds |
| FleetLogic.FleetManagementBusinessLogic.TripEfficiency | src/main/java/businesslayer/FleetManagementBusinessLogic.java:384-395 | the context with the class's strategy computes that strategy's efficiency |
| FleetLogic.FleetManagementBusinessLogic.RecordAndMonitor | src/main/java/businesslayer/FleetManagementBusinessLogic.java:443-444 | the trip is appended when the insert succeeds, and the vehicle is monitored either way |
| FleetLogic.FleetManagementBusinessLogic.CompleteTrip | src/main/java/businesslayer/FleetManagementBusinessLogic.java:373-451 | an unloadable vehicle throws and nothing changes; otherwise the row is worn as `TripWorn` says, and only a non-bus whose components were written gets its `TripRecord` inserted and its `MonitorPlan` raised |

## Left out

- Double rounding: `double` is `real`, so exact equalities such as the efficiency formulas hold in the model but only up to rounding in Java.
- Alert reason texts: the reasons are kept as the facts they print (`Reason`), not as formatted strings.
- Case mapping: `toUpperCase` and `equalsIgnoreCase` are modelled on ASCII only. Java also maps some non-ASCII letters (for example `'ſ'` upper-cases to `'S'`).
- Dates: `LocalDateTime`, `Timestamp` and time zones are integer milliseconds. The two clock reads in `refuel` and the one in `createAndNotifyAlert` are a single `now` parameter.
- Listener re-entrancy: a listener that changes the registry or the alert table while being notified is not modelled. Listeners are opaque, and only whether each one throws is an input.
- Database read errors: reads (`getVehicleById`, `getRouteById`, `getAlertById`) do not fail. Only writes take an `ok` input.
- The `Vehicle_Type` column is not checked against the subclass detail tables. A row's class is its variant.
- The station list, locations, users and login are not loaded or modelled.
- Other operations: `FleetManagementBusinessLogic` login, `addOperator`, `logStationVisit`, `startMaintenance`, `updateLocation`, `logBreak`, `setVehicleStatus`, the getters and the reports, the `get…` list queries of `VehicleAlertBusinessLogic`, and `TripDAOImpl`'s statistics. They are outside this model's scope.
- `RefuelDieselTrainCommand.java` is not part of this model. Its refuel level is taken as `FuelTank.DIESEL_TRAIN_FULL_TANK` (15000.0), the constant the other commands' pattern points to.
- Command.FuelStation.TopUp requires a non-null vehicle, where Java would throw a null-pointer exception. The one caller, `refuel`, calls it only after an `instanceof` test, which fails on null.
- TransferObjects.VehicleDTO.SetOilStatus takes a plain number. The Java parameter is a boxed `Double`, and passing null would throw when it is unboxed.
- TripDao.IsTripOnTime: null timestamps are not modelled, and the trip and route are assumed non-null.
- FleetRules.TripMinutes: the ensures states only the 32-bit range. The truncation toward zero is stated by `TripMinutesBounds`, for elapsed times that fit in the `int` range.

## Findings

| source | as written | input that shows it | evidently intended | confidence | as-written member | corrected member |
|---|---|---|---|---|---|---|
| src/main/java/dataaccesslayer/TripDAOImpl.java:189-190 | `route.getExpectedDuration() * 60 * 1000` is evaluated in 32-bit `int` before it is added to a `long` | expected duration 35792 minutes, start = end = 0: the product wraps to a negative number, so a trip of zero length is reported late | the expected duration converted to milliseconds in `long` arithmetic | not executed | TripDao.OverflowMakesInstantTripLate | TripDao.OnTimeLongIffWithinExpected |
