# Shipment dispatch core of trix-laravel, in Dafny

This project models the freight-dispatch core of the trix-laravel backend:

- **Pricing engine** (`PricingService`). It finds the city nearest to the origin by a linear arg-min scan, then the city's internal or external pricing zone, then the zone's first distance tier containing the trip distance, then the vehicle type. The price is the tier's base price times the vehicle type's multiplier, rounded to the cent.
- **Dispatch coordinator** (`DriverAssignmentService`). It holds the driver and shipment tables:
  - filters eligible drivers;
  - offers a new shipment to all of them, collecting the ids of those reached;
  - awards a pending shipment to the first driver whose accept passes the guards;
  - cancels an assignment, freeing a busy driver.
- **Shipment API** (`ShipmentController`). For quote, store, accept, update-status and cancel, it decides which role, ownership and status checks apply and which HTTP status code each path returns.
- **Model predicates**: the status, role, capacity and range predicates of the Eloquent models.

Layout:

- `wrappers.dfy`: `Option` and `Result`.
- `query.dfy`: `->where(...)->first()` as "first matching element in stored order".
- `models.dfy`: the records and their predicates, with partition, disjointness and interval lemmas.
- `pricing.dfy`: the pricing engine.
  - The haversine distance is a parameter of type `Metric`, about which nothing is assumed.
  - Money is integer fixed point: base prices in cents, multipliers in hundredths.
- `dispatch.dfy`: the coordinator.
  - Pure steps `AcceptStep` and `CancelStep` on the two tables carry the lemmas, including those over whole sequences of accept calls.
  - The class `DispatchCoordinator` holds the tables and a log `sent` of notification attempts. Its methods update them exactly as the steps say.
- `shipment_controller.dfy`: the controller.
  - The guards are pure functions returning either the profile to act with or the status code.
  - The class `ShipmentController` runs them and changes the coordinator's tables.

Statuses, roles and zone types are strings, compared as PHP's `===` compares them. A primary key is an integer `>= 1`, so `!$shipment->driver_id` means "no driver".

## Model

| member | source | states |
|---|---|---|
| Models.RolesExclusive | app/User.php:52-94 | At most one of isCustomer, isDriver and isAdmin holds. A role outside the three constants satisfies none of them. |
| Models.AvailabilityNeedsVerifiedAndAvailable | app/Driver.php:26-85 | isAvailable holds iff the driver is verified and its status is `available`. An unverified driver, or one that is `offline`, `busy` or `on_trip`, is never available. |
| Models.DriverVehicleCapacity | app/DriverVehicle.php:42-45 | The per-vehicle capacity bound is inclusive and closed downwards: every lighter weight is carried, even zero or less, since there is no lower bound. Anything above max_weight is refused. |
| Models.VehicleTypeRangeIsInterval | app/VehicleType.php:36-39 | The weights a vehicle type accepts form the closed interval [weight_min, weight_max]: both ends are accepted, the set is convex, and nothing is accepted when the bounds are inverted. |
| Models.ZoneKindsExclusive | app/PricingZone.php:21-54 | A zone is never both internal and external. A zone type other than `I` and `E` is neither. |
| Models.TierBoundsInclusive | app/PricingTier.php:36-39 | Two tiers sharing a boundary both include it. An inverted tier includes no distance. |
| Models.RatingClassesDisjoint | app/RatingReview.php:51-62 | No rating is both positive (>= 4) and negative (<= 2). A rating of 3 is neither, and every rating is positive, negative or 3. |
| Models.ShipmentStatusPartition | app/Shipment.php:40-97 | The six status constants are pairwise distinct. Each satisfies exactly one of isPending, inProgress and isCompleted, and any other status satisfies none. |
| Query.FirstIndex | app/Services/PricingService.php:33 | The result is None iff no element matches. Otherwise it is the index of a matching element with no matching element before it. |
| Pricing.NearestAmong | app/Services/PricingService.php:73-83 | After scanning n cities the scan holds none iff n = 0. Otherwise it holds a city at least as near as every scanned city and strictly nearer than every earlier one, so ties go to the earliest. |
| Pricing.NearestIsUnique | app/Services/PricingService.php:79 | Because the comparison is strict, at most one index is nearest with ties broken towards the earliest. |
| Pricing.NearestCity | app/Services/PricingService.php:66-86 | The city findNearestCity returns: none iff there are no cities, otherwise the city at the one index that is nearest with ties going to the earliest (NearestAmong, NearestIsUnique). |
| Pricing.NearestCityIs | app/Services/PricingService.php:73-83 | A city that is at least as near as every city and strictly nearer than every earlier one is the city returned. |
| Pricing.FindNearestCity | app/Services/PricingService.php:66-86 | The loop returns null iff there are no cities. Otherwise it returns a listed city whose distance is minimal among all cities, and it is the city the specification function picks. |
| Pricing.ResolveZone | app/Services/PricingService.php:32-37 | It finds a zone iff the city has a zone of the requested type, and the zone found belongs to the city and has that type. |
| Pricing.ResolveZoneIs | app/Services/PricingService.php:32-37 | When zone i is the city's first stored zone of the requested type, that zone is the one found. |
| Pricing.TierQueryAgreesWithIncludesDistance | app/Services/PricingService.php:40-43 | The tier query's condition is exactly PricingTier::includesDistance. |
| Pricing.SelectTier | app/Services/PricingService.php:40-47 | No tier is found iff no tier of the zone includes the distance, whatever other zones' tiers say. Otherwise the tier found is the first tier of the zone, in stored order, that includes it. |
| Pricing.SelectTierIs | app/Services/PricingService.php:40-47 | When tier i is the zone's first stored tier that includes the distance, that tier is the one selected. |
| Pricing.FindVehicleType | app/Services/PricingService.php:50 | It fails iff no vehicle type has the id. Otherwise it returns the one with that id. |
| Pricing.RoundCents | app/Services/PricingService.php:55 | The amount, given in ten-thousandths, is rounded to the nearest cent, halves away from zero. A non-negative amount gives a non-negative price. |
| Pricing.CalculatePrice | app/Services/PricingService.php:22-56 | "No city" is the error iff no city is configured. A price comes from the chain the source follows: the city nearest the origin, its first zone of the requested kind, that zone's first tier including the distance, and the vehicle type with the id. The price is that tier's base price times that type's multiplier, rounded to the cent. The destination is not an input. A price is returned iff the city, the zone, the tier and the vehicle type all resolve, and every error is one of the four the source raises, with the distance or the id it was given. |
| Pricing.PriceFailureOrder | app/Services/PricingService.php:27-50 | The failures come in source order. A missing zone is reported iff a city exists and lacks a zone of the kind. A missing tier is reported iff the zone exists and none of its tiers fits, whatever the vehicle type. An unknown vehicle type is reported only once city, zone and tier all resolve. |
| Pricing.IsInternalShipping | app/Services/PricingService.php:122-128 | A trip is internal iff the origin's nearest city and the destination's nearest city both exist and have the same id. Nearest is meant as above: minimal distance, ties to the earliest city. |
| Pricing.InternalShippingFacts | app/Services/PricingService.php:122-128 | With no cities no trip is internal. With any city a trip from a point to itself is internal. The relation is symmetric. |
| Pricing.SeededDubaiInternalZone | database/seeders/DatabaseSeeder.php:43-57 | With the seeded zones, an internal trip in Dubai is priced in Dubai's internal zone, the first zone created for it. |
| Pricing.SeededAbuDhabiInternalZone | database/seeders/DatabaseSeeder.php:43-57 | With the seeded zones, an internal trip in Abu Dhabi is priced in Abu Dhabi's internal zone. |
| Pricing.SeededSharjahInternalZone | database/seeders/DatabaseSeeder.php:43-57 | With the seeded zones, an internal trip in Sharjah is priced in Sharjah's internal zone. |
| Pricing.SeededDubaiFirstBand | database/seeders/DatabaseSeeder.php:60-69 | In Dubai's seeded internal zone, 5 km lies in both the 0-5 and the 5-15 band. The first stored band, at 25.00, is chosen. |
| Pricing.SeededAbuDhabiFirstBand | database/seeders/DatabaseSeeder.php:60-69 | The same holds in Abu Dhabi's seeded internal zone. |
| Pricing.SeededSharjahFirstBand | database/seeders/DatabaseSeeder.php:60-69 | The same holds in Sharjah's seeded internal zone. |
| Pricing.SeededSmallVanPrice | database/seeders/DatabaseSeeder.php:24-81 | With the seeded data (three cities, their zones and tiers, four vehicle types), an internal 5 km trip by small van costs 37.50 from any origin, whichever city is nearest. |
| Dispatch.EligibleDrivers | app/Services/DriverAssignmentService.php:65-89 | A driver is eligible iff it is listed, available (verified and `available`) and has a vehicle that can carry the weight. The result is no longer than the list. |
| Dispatch.EligibleIndices | app/Services/DriverAssignmentService.php:68-76 | The indices of the drivers passing the eligibility query, in strictly increasing order: every such index appears, and no other. |
| Dispatch.EligibleDriversInStoredOrder | app/Services/DriverAssignmentService.php:65-89 | From any starting row, the filter's result is, one for one and in stored order, the drivers at the eligible indices. So each eligible driver row appears once, in query order. |
| Dispatch.EligibleDriversKeepStoredOrder | app/Services/DriverAssignmentService.php:65-89 | The same for the whole driver list: the eligible drivers are exactly the passing rows, each once, in stored order. |
| Dispatch.EligibilityIgnoresLocation | app/Services/DriverAssignmentService.php:78-86 | Neither the origin nor the radius changes which drivers are eligible. |
| Dispatch.ReturnedIndices | app/Services/DriverAssignmentService.php:42-50 | The indices of the drivers whose notification call returned (true or false), in strictly increasing order: every such index appears, and no other. |
| Dispatch.NotifiedIds | app/Services/DriverAssignmentService.php:42-53 | Its own contract: the loop collects at most one id per eligible driver. Which ids, and in what order, is stated by NotifiedIdsAreReturnedInOrder. |
| Dispatch.NotifiedIdsAreReturnedInOrder | app/Services/DriverAssignmentService.php:42-53 | The collected ids are, in iteration order, the ids of the drivers whose call returned, so their number is the number of such calls. |
| Dispatch.NotifiedIdsMembership | app/Services/DriverAssignmentService.php:44-50 | An id is collected iff some eligible driver with that id had a call that returned, including one that returned false. A call that threw contributes nothing. |
| Dispatch.Offers | app/Services/DriverAssignmentService.php:43-45 | One offer is sent per eligible driver. |
| Dispatch.OffersOnePerDriver | app/Services/DriverAssignmentService.php:43-45 | The k-th offer goes to the k-th eligible driver, for this shipment. |
| Dispatch.FirstEscape | app/Services/DriverAssignmentService.php:43-51 | None iff no eligible driver's call throws an uncaught `\Error`. Otherwise it names the first such driver, and no earlier call escaped. |
| Dispatch.FirstEscapeAt | app/Services/DriverAssignmentService.php:43-51 | A driver whose call escapes, with no escape before it, is the first escape. |
| Dispatch.DriverIndex | app/Services/DriverAssignmentService.php:164 | A shipment's driver is found iff some driver row has that id, and the row found has it. |
| Dispatch.AcceptStep | app/Services/DriverAssignmentService.php:98-131 | assignDriverToShipment on the two tables. Its own contract says only that no row is added or removed. What it does is stated by AcceptOutcome, and over runs of calls by AtMostOneAcceptWins. |
| Dispatch.AcceptOutcome | app/Services/DriverAssignmentService.php:98-131 | Accept succeeds iff the shipment is pending, the driver is available, and the driver's vehicle, if any, carries the weight. On failure nothing changes and nothing is sent. On success the shipment gets the driver and `accepted`, the driver becomes `busy`, the two notices follow, and every other row is unchanged. |
| Dispatch.VehicleLessDriverMayAcceptButIsNeverOffered | app/Services/DriverAssignmentService.php:71-111 | A driver without a vehicle passes the accept guards but is never among the eligible drivers. |
| Dispatch.AcceptPreservesValid | app/Services/DriverAssignmentService.php:116-122 | Accepting keeps the ids unique and keeps "has a driver iff accepted, picked up, in transit or delivered". |
| Dispatch.AcceptRunAfterTaken | app/Services/DriverAssignmentService.php:101-103 | Once a shipment is not pending, every later accept call fails and changes nothing. |
| Dispatch.AtMostOneAcceptWins | app/Services/DriverAssignmentService.php:101-118 | In any sequence of accept calls on one shipment, at most one succeeds, and the shipment ends `accepted` with that winner's id. |
| Dispatch.SomeEligibleAcceptWins | app/Services/DriverAssignmentService.php:101-130 | A pending shipment with a caller eligible at the start has exactly one successful accept. |
| Dispatch.CancelStep | app/Services/DriverAssignmentService.php:158-183 | cancelDriverAssignment on the two tables. Its own contract says only that no row is added or removed. What it does is stated by CancelOutcome and CancelIsIdempotent. |
| Dispatch.CancelOutcome | app/Services/DriverAssignmentService.php:158-183 | Cancel fails, with no change and no notice, iff the shipment has no driver. Otherwise the shipment becomes driverless and `cancelled` whatever its status. Its driver returns to `available` only if it was `busy`, and is notified if found. No other row changes. |
| Dispatch.CancelIsIdempotent | app/Services/DriverAssignmentService.php:160-162 | A second cancel fails, changes nothing and sends no second notice. |
| Dispatch.CancelPreservesValid | app/Services/DriverAssignmentService.php:167-175 | Cancelling keeps ids unique and assignment consistency. |
| Dispatch.DispatchCoordinator.FindAndNotifyDrivers | app/Services/DriverAssignmentService.php:27-54 | With no eligible driver it fails and sends nothing. When some call lets an `\Error` escape, the offers up to and including that driver are sent and the error propagates. Otherwise every eligible driver gets the offer in order, and the ids of those whose call returned come back. |
| Dispatch.DispatchCoordinator.NotifyEach | app/Services/DriverAssignmentService.php:42-53 | The loop over the eligible drivers leaves the outcome just described: it stops at the first escaping call, and otherwise it returns the collected ids after offering to every driver. |
| Dispatch.DispatchCoordinator.AssignDriverToShipment | app/Services/DriverAssignmentService.php:98-131 | The tables, the notices and the result are those of the accept step, and the table invariant is kept. |
| Dispatch.DispatchCoordinator.CancelDriverAssignment | app/Services/DriverAssignmentService.php:158-183 | The tables, the notices and the result are those of the cancel step, and the table invariant is kept. |
| Dispatch.DispatchCoordinator.CreateShipment | app/Http/Controllers/Api/ShipmentController.php:152-164 | A new `pending`, driverless shipment with a fresh id is appended with the given fields, and the invariant is kept. |
| ShipmentApi.DriverSettableStatusesAreAssigned | app/Http/Controllers/Api/ShipmentController.php:277 | The statuses a driver may set are picked_up, in_transit and delivered. Each is a status with a driver assigned, and none is pending, accepted or cancelled. |
| ShipmentApi.RoundHundredths | app/Http/Controllers/Api/ShipmentController.php:81 | The result is the nearest integer to 100·x, halves away from zero. |
| ShipmentApi.RoundKm | app/Http/Controllers/Api/ShipmentController.php:81 | The quoted distance is a whole number of hundredths of a km, the nearest one to the computed distance. It is within 0.005 km of it and non-negative when it is. |
| ShipmentApi.CustomerProfile | app/User.php:59-62 | A user has a customer profile iff some customer row points to it, and the one returned does. If the user has several customer rows, it is the first in stored order. |
| ShipmentApi.DriverProfile | app/User.php:67-70 | A user has a driver profile iff some driver row points to it, and the one returned does. If the user has several driver rows, it is the first in stored order. |
| ShipmentApi.AcceptGuard | app/Http/Controllers/Api/ShipmentController.php:246-255 | A non-driver gets 403. A driver without a profile gets 500. Otherwise the request goes ahead with the user's own driver row. The row it passes on is the one DriverProfile finds. |
| ShipmentApi.UpdateStatusGuard | app/Http/Controllers/Api/ShipmentController.php:276-296 | 422 iff the status is not settable, checked before who asks. The request goes ahead iff the user is the driver assigned to the shipment. 500 iff a driver user has no profile. Otherwise 403. |
| ShipmentApi.CancelGuard | app/Http/Controllers/Api/ShipmentController.php:325-341 | The request goes ahead iff the user is the customer owning the shipment and it is not delivered. 403 iff the user is not a customer, or has a profile that does not own the shipment. 500 iff a customer user has no profile. 400 iff the owner asks about a delivered shipment. |
| ShipmentApi.DeliveredIsNeverCancelled | app/Http/Controllers/Api/ShipmentController.php:336-341 | A delivered shipment is never cancelled, and its owner gets 400. |
| ShipmentApi.StatusOrderIsNotEnforced | app/Http/Controllers/Api/ShipmentController.php:291-300 | The update guard does not depend on the current status, so the lifecycle order is not enforced: for example, `delivered` can go back to `picked_up`. |
| ShipmentApi.ShipmentController.PriceOf | app/Http/Controllers/Api/ShipmentController.php:53-75 | The distance, the internal flag and the price, computed as both the quote and the store actions compute them (lines 128-150 repeat the block). With no city the trip is external and pricing fails for want of a city. With any city pricing never fails for that reason, and a trip that starts where it ends is internal. What the quote and store actions then do with it is stated by GetPriceQuote and Store. |
| ShipmentApi.ShipmentController.GetPriceQuote | app/Http/Controllers/Api/ShipmentController.php:32-94 | 422 iff validation fails. 200 with the computed price, the distance rounded to 0.01 km and the matching Internal/External label when pricing succeeds. 400 when pricing fails. |
| ShipmentApi.ShipmentController.ValidatedQuoteHasVehicleType | app/Http/Controllers/Api/ShipmentController.php:40-92 | After validation, pricing never fails on the vehicle type, so a 400 comes from a missing city, zone or tier. |
| ShipmentApi.ShipmentController.Store | app/Http/Controllers/Api/ShipmentController.php:99-185 | 403 for a non-customer and 422 for an invalid request, with nothing created. A shipment is created iff the user is a customer with a profile, the request is valid and pricing succeeds. It is `pending`, driverless, has a fresh id and carries the computed distance and price. The answer is 500, with the shipment kept, when no driver is eligible or when a notification call lets an `\Error` escape (the offers up to that driver were sent). Otherwise every eligible driver gets the offer and the answer is 201 with the number of ids collected. |
| ShipmentApi.ShipmentController.Persist | app/Http/Controllers/Api/ShipmentController.php:152-167 | The shipment is appended `pending`, driverless, with a fresh id and the given fields, and then the driver search runs with its answer as in Announce. |
| ShipmentApi.ShipmentController.Announce | app/Http/Controllers/Api/ShipmentController.php:166-184 | 500 with nothing sent when no driver is eligible. 500 with the offers up to the escaping driver when a call lets an `\Error` escape. Otherwise 201 with the number of collected ids, every eligible driver having been offered the shipment. |
| ShipmentApi.ShipmentController.AcceptShipment | app/Http/Controllers/Api/ShipmentController.php:244-269 | The guard's code is returned with nothing changed. Otherwise the accept step runs with the user's own driver row, and the answer is 200 iff it succeeded and 400 iff it failed. |
| ShipmentApi.ShipmentController.UpdateStatus | app/Http/Controllers/Api/ShipmentController.php:274-318 | The guard's code is returned with nothing changed. Otherwise the new status is written whatever the current one, the customer is notified, and the answer is 200 iff the notification call returned. Any exception or `\Error` from it gives 500, and the write stays. |
| ShipmentApi.ShipmentController.Cancel | app/Http/Controllers/Api/ShipmentController.php:323-358 | The guard's code is returned with nothing changed. Otherwise the cancel step runs, and the answer is 200 even when the step failed. |
| ShipmentApi.CancelOfUnassignedShipmentChangesNothing | app/Http/Controllers/Api/ShipmentController.php:343-349 | When the owner cancels a shipment without a driver, the answer is 200 yet nothing changes. A pending shipment stays `pending`. |
| ShipmentApi.UpdateStatusPreservesValid | app/Http/Controllers/Api/ShipmentController.php:291-300 | A status written past the update guard keeps the tables valid. |

## Left out

- The haversine formula (app/Services/PricingService.php:97-111) is floating-point trigonometry. It is the parameter `Metric`, and nothing such as symmetry or `d(p, p) = 0` is assumed about it.
- Pricing.FindNearestCity: the source starts from PHP_FLOAT_MAX. A city whose distance is NaN or not below PHP_FLOAT_MAX would never be chosen there, while the model always takes the first city.
- Floating point in money:
  - Pricing.CalculatePrice returns integer cents: the base price in cents times the multiplier in hundredths, rounded once.
  - The two-decimal scale of the decimal(8,2) and decimal(4,2) columns is modelled, as cents and hundredths. The binary rounding of PHP floats is not modelled. Neither is the columns' precision, that is, their range. For example, `weight` has no validated maximum, so a weight of 1,000,000 or more does not fit decimal(8,2), and what happens then depends on the database engine.
  - Distances and weights are exact reals.
- ShipmentApi.ShipmentController.Store: the decimal columns round `distance_km`, `weight` and the coordinates. The model keeps the exact values. The `decimal:2` cast also rounds `weight` when the row is read back, and that rounded weight is what findEligibleDrivers and the accept check compare with `max_weight`. So for a weight with three or more decimals, the model's eligibility and accept decisions can differ from the source's.
- Notifications:
  - NotificationService is not part of this model; each call is recorded as a `Notice` in `sent`.
  - The outcome of offering a shipment to a driver is the parameter `notify`. The outcome of the status-update notice is the parameter `notified`.
  - A notification call has three outcomes (`Delivery`): it returns, it throws an `\Exception` the caller catches, or it throws an `\Error` no caller catches, such as the TypeError of a null FCM token. All three are modelled for the new-shipment offers and for the status-update notice.
  - ShipmentApi.ShipmentController.AcceptShipment and ShipmentApi.ShipmentController.Cancel: the notices sent after an accept or a cancel are taken to return. In the source, notifyCustomerDriverAssigned and notifyDriverShipmentCancelled pass the user's `fcm_token` to sendFCMNotification, whose parameter is a `string`. A null token, which is what the seeded users have, raises a TypeError after the rows were saved. Nothing catches it, so the caller gets 500 where the model answers 200, and the saved changes stay.
- Table shapes the schema allows but the model excludes:
  - Dispatch.EligibleDrivers and Dispatch.AcceptStep: a driver has at most one vehicle (`vehicle: Option<DriverVehicle>`). The schema allows several, because `driver_vehicles.driver_id` is not unique. With several vehicles, the eligibility query accepts a driver when any one of them can carry the weight, while the accept check reads a single `$driver->vehicle`. The model captures neither behaviour.
  - Dispatch.TablesValid: a shipment has a driver iff its status is accepted, picked_up, in_transit or delivered, and every method of DispatchCoordinator and ShipmentController requires this. In the source, deleting a driver sets `shipments.driver_id` to null (`onDelete('set null')`), which leaves an accepted, in-progress or delivered shipment without a driver. Deleting drivers is not modelled, and neither is that state.
- Concurrency: accepting is a check-then-act with two separate saves. Only sequences of calls are modelled, and no atomicity is claimed.
- Error classes:
  - A missing driver or customer profile is modelled as 500. That is Laravel's default handling of the TypeError or the null-property warning it raises, both inside and outside the controller's `try`.
  - The strict `!==` id comparisons are modelled on integers. A driver returning ids as strings is not modelled.
- Not part of this model:
  - the `index` and `show` actions (queries, eager loading, pagination);
  - `handleDriverRejection`, which only logs;
  - `getDriverMetrics`, which uses database aggregates and float averages.
- Validation and input:
  - Only the rules the decisions depend on are modelled. The type rules (`numeric`, `string`) and the input-trimming middleware are not.
  - Route-model binding is modelled by the precondition that the shipment exists; a missing shipment is a 404 before the controller runs.
- JSON bodies beyond the status code and the quoted or created values are not modelled. Neither are `fresh()` reloads, routes, views, the City and Customer relation declarations, or the migrations, which are used only for the status enum and the column precisions.
