/** The shipment API (app/Http/Controllers/Api/ShipmentController.php): the
    guard and decision logic of getPriceQuote, store, acceptShipment,
    updateStatus and cancel, and the HTTP status code each path returns.

    The authenticated user is a parameter. Route-model binding hands the
    controller an existing shipment, given here as its index into the
    coordinator's table. A JSON body is reduced to its status code and the
    few fields the decisions produce. */
module ShipmentApi {
  import opened Wrappers
  import opened Models
  import opened Query
  import opened Pricing
  import opened Dispatch

  // ---------------------------------------------------------------- requests and validation

  datatype QuoteRequest = QuoteRequest(origin: Coord, destination: Coord, weight: real, vehicleTypeId: int)

  datatype ShipmentRequest = ShipmentRequest(
    origin: Coord,
    originAddress: string,
    destination: Coord,
    destinationAddress: string,
    weight: real,
    vehicleTypeId: int)

  /** `required|exists:vehicle_types,id`. */
  predicate VehicleTypeExists(vehicleTypes: seq<VehicleType>, id: int) {
    exists k :: 0 <= k < |vehicleTypes| && vehicleTypes[k].id == id
  }

  /** `required|string|max:500`: present, not empty, at most 500 characters. */
  predicate ValidAddress(a: string) {
    0 < |a| <= 500
  }

  /** The weight rule shared by both forms: `min:0.1`. */
  const MinWeight: real := 0.1

  predicate ValidQuoteRequest(vehicleTypes: seq<VehicleType>, q: QuoteRequest) {
    q.weight >= MinWeight && VehicleTypeExists(vehicleTypes, q.vehicleTypeId)
  }

  predicate ValidShipmentRequest(vehicleTypes: seq<VehicleType>, q: ShipmentRequest) {
    && ValidAddress(q.originAddress)
    && ValidAddress(q.destinationAddress)
    && q.weight >= MinWeight
    && VehicleTypeExists(vehicleTypes, q.vehicleTypeId)
  }

  /** The statuses a driver may set: `in:picked_up,in_transit,delivered`. */
  const DriverSettableStatuses: seq<string> := [StatusPickedUp, StatusInTransit, StatusDelivered]

  /** Every status a driver may set keeps a driver assigned, and none of
      them is `pending`, `accepted` or `cancelled`. */
  lemma DriverSettableStatusesAreAssigned(status: string)
    ensures status in DriverSettableStatuses ==>
              status in [StatusAccepted, StatusPickedUp, StatusInTransit, StatusDelivered]
    ensures status in DriverSettableStatuses ==>
              status != StatusPending && status != StatusAccepted && status != StatusCancelled
  {
  }

  /** PHP's `round($x, 2)` on a real, in hundredths: the nearest integer to
      `100 * x`, halves away from zero. */
  function RoundHundredths(x: real): (n: int)
    ensures x >= 0.0 ==> n >= 0 && n as real - 0.5 <= 100.0 * x < n as real + 0.5
    ensures x < 0.0 ==> n <= 0 && n as real - 0.5 < 100.0 * x <= n as real + 0.5
  {
    if x >= 0.0 then (100.0 * x + 0.5).Floor else -((-100.0 * x + 0.5).Floor)
  }

  /** `round($distance, 2)` in km: a whole number of hundredths, within
      half a hundredth of the input. */
  function RoundKm(x: real): (r: real)
    ensures 100.0 * r == RoundHundredths(x) as real
    ensures x - 0.005 <= r <= x + 0.005
    ensures x >= 0.0 ==> r >= 0.0
  {
    RoundHundredths(x) as real / 100.0
  }

  // ---------------------------------------------------------------- profiles

  /** `$user->customer`: the first customer profile, in stored order, whose
      `user_id` is the user's (a `hasOne` relation reads the first row). */
  function CustomerProfile(customers: seq<Customer>, user: User): (r: Option<Customer>)
    ensures r.None? <==> forall c :: c in customers ==> c.userId != user.id
    ensures r.Some? ==> r.value in customers && r.value.userId == user.id
    ensures r.Some? ==> exists i :: 0 <= i < |customers| && customers[i] == r.value
                          && forall k :: 0 <= k < i ==> customers[k].userId != user.id
  {
    match FirstIndex(customers, (c: Customer) => c.userId == user.id)
    case None => None
    case Some(i) => Some(customers[i])
  }

  /** `$user->driver`, as the index of the first driver row, in stored
      order, whose `user_id` is the user's. */
  function DriverProfile(drivers: seq<Driver>, user: User): (r: Option<nat>)
    ensures r.None? <==> forall k :: 0 <= k < |drivers| ==> drivers[k].userId != user.id
    ensures r.Some? ==> r.value < |drivers| && drivers[r.value].userId == user.id
    ensures r.Some? ==> forall k :: 0 <= k < r.value ==> drivers[k].userId != user.id
  {
    FirstIndex(drivers, (d: Driver) => d.userId == user.id)
  }

  // ---------------------------------------------------------------- guards

  /** The guard of acceptShipment: 403 for a non-driver, 500 when the driver
      user has no driver profile (the service's `Driver` parameter rejects
      null with a TypeError), otherwise the profile to accept with. */
  function AcceptGuard(drivers: seq<Driver>, user: User): (r: Result<nat, int>)
    ensures r.Ok? <==> user.IsDriver() && DriverProfile(drivers, user).Some?
    ensures r.Ok? ==> r.value < |drivers| && drivers[r.value].userId == user.id
    ensures r.Ok? ==> r.value == DriverProfile(drivers, user).value
    ensures r == Err(403) <==> !user.IsDriver()
    ensures r.Err? ==> r.error in {403, 500}
  {
    if !user.IsDriver() then Err(403)
    else
      match DriverProfile(drivers, user)
      case None => Err(500)
      case Some(di) => Ok(di)
  }

  /** The guard of updateStatus: validation of the new status comes first,
      so a bad status gets 422 whoever asks; then anyone who is not the
      assigned driver gets 403 (500 when a driver user has no profile, since
      reading `->id` of null raises). */
  function UpdateStatusGuard(drivers: seq<Driver>, user: User, s: Shipment, status: string): (r: Result<nat, int>)
    ensures r == Err(422) <==> status !in DriverSettableStatuses
    ensures r.Ok? <==>
              && status in DriverSettableStatuses
              && user.IsDriver()
              && DriverProfile(drivers, user).Some?
              && s.driverId == Some(drivers[DriverProfile(drivers, user).value].id)
    ensures r.Ok? ==> r.value < |drivers| && drivers[r.value].userId == user.id && s.driverId == Some(drivers[r.value].id)
    ensures r == Err(500) <==>
              status in DriverSettableStatuses && user.IsDriver() && DriverProfile(drivers, user).None?
    ensures r.Err? ==> r.error in {422, 403, 500}
  {
    if status !in DriverSettableStatuses then Err(422)
    else if !user.IsDriver() then Err(403)
    else
      match DriverProfile(drivers, user)
      case None => Err(500)
      case Some(di) => if s.driverId != Some(drivers[di].id) then Err(403) else Ok(di)
  }

  /** The guard of cancel: 403 for anyone but the customer who owns the
      shipment (500 when a customer user has no profile), then 400 for a
      delivered shipment. */
  function CancelGuard(customers: seq<Customer>, user: User, s: Shipment): (r: Result<Customer, int>)
    ensures r.Ok? <==>
              && user.IsCustomer()
              && CustomerProfile(customers, user).Some?
              && s.customerId == CustomerProfile(customers, user).value.id
              && s.status != StatusDelivered
    ensures r.Ok? ==> r.value in customers && r.value.userId == user.id && r.value.id == s.customerId
    ensures r == Err(403) <==>
              || !user.IsCustomer()
              || (CustomerProfile(customers, user).Some? && s.customerId != CustomerProfile(customers, user).value.id)
    ensures r == Err(500) <==> user.IsCustomer() && CustomerProfile(customers, user).None?
    ensures r == Err(400) <==>
              && user.IsCustomer()
              && CustomerProfile(customers, user).Some?
              && s.customerId == CustomerProfile(customers, user).value.id
              && s.status == StatusDelivered
    ensures r.Err? ==> r.error in {403, 500, 400}
  {
    if !user.IsCustomer() then Err(403)
    else
      match CustomerProfile(customers, user)
      case None => Err(500)
      case Some(c) =>
        if s.customerId != c.id then Err(403)
        else if s.status == StatusDelivered then Err(400)
        else Ok(c)
  }

  /** A delivered shipment can never be cancelled, and only its owner gets
      past the ownership check. */
  lemma DeliveredIsNeverCancelled(customers: seq<Customer>, user: User, s: Shipment)
    requires s.status == StatusDelivered
    ensures CancelGuard(customers, user, s).Err?
    ensures user.IsCustomer() && CustomerProfile(customers, user) == Some(Customer(s.customerId, user.id))
            ==> CancelGuard(customers, user, s) == Err(400)
  {
  }

  /** updateStatus does not look at the current status: an assigned driver
      may move a shipment from any status, even `delivered`, to any settable
      status, so the lifecycle order is not enforced. */
  lemma StatusOrderIsNotEnforced(drivers: seq<Driver>, user: User, s: Shipment, current: string, status: string)
    requires status in DriverSettableStatuses
    ensures UpdateStatusGuard(drivers, user, s.(status := current), status) == UpdateStatusGuard(drivers, user, s, status)
  {
  }

  // ---------------------------------------------------------------- responses

  datatype Quote = Quote(estimatedPrice: int, distanceKm: real, isInternal: bool, shippingType: string)

  datatype QuoteResponse = QuoteResponse(code: int, quote: Option<Quote>)

  /** `'Internal'` or `'External'`. */
  function ShippingType(isInternal: bool): string {
    if isInternal then "Internal" else "External"
  }

  // ---------------------------------------------------------------- the controller

  class ShipmentController {
    const pricing: PricingConfig
    /** calculateDistanceBetweenCoordinates. */
    const distance: Metric
    const service: DispatchCoordinator

    constructor (pricing: PricingConfig, distance: Metric, service: DispatchCoordinator)
      ensures this.pricing == pricing && this.distance == distance && this.service == service
    {
      this.pricing := pricing;
      this.distance := distance;
      this.service := service;
    }

    /** The price of a trip: the distance, the internal/external flag and
        calculatePrice, in the order the controller computes them. With no
        city configured the trip is external and pricing fails for want of a
        city; with any city, a trip that starts where it ends is internal
        and never fails for want of a city. */
    function PriceOf(origin: Coord, destination: Coord, vehicleTypeId: Id): (r: (real, bool, Result<int, PricingError>))
      ensures |pricing.cities| == 0 ==> !r.1 && r.2 == Err(NoCityFound)
      ensures |pricing.cities| > 0 ==> r.2 != Err(NoCityFound)
      ensures |pricing.cities| > 0 && origin == destination ==> r.1
    {
      var d := distance(origin, destination);
      var internal := IsInternalShipping(pricing.cities, distance, origin, destination);
      (d, internal, CalculatePrice(pricing, distance, origin, d, vehicleTypeId, internal))
    }

    /** getPriceQuote: 422 on a validation failure, 400 when pricing fails,
        otherwise 200 with the price, the distance rounded to 0.01 km and the
        shipping type. */
    function GetPriceQuote(req: QuoteRequest): (r: QuoteResponse)
      ensures r.code in {200, 400, 422}
      ensures r.code == 422 <==> !ValidQuoteRequest(pricing.vehicleTypes, req)
      ensures r.quote.Some? <==> r.code == 200
      ensures r.code == 200 ==>
                && req.vehicleTypeId >= 1
                && var (d, internal, price) := PriceOf(req.origin, req.destination, req.vehicleTypeId);
                   && price.Ok?
                   && r.quote.value == Quote(price.value, RoundKm(d), internal, ShippingType(internal))
      ensures r.code == 400 ==>
                && req.vehicleTypeId >= 1
                && PriceOf(req.origin, req.destination, req.vehicleTypeId).2.Err?
    {
      if !ValidQuoteRequest(pricing.vehicleTypes, req) then QuoteResponse(422, None)
      else
        assert req.vehicleTypeId >= 1 by {
          var k :| 0 <= k < |pricing.vehicleTypes| && pricing.vehicleTypes[k].id == req.vehicleTypeId;
        }
        var (d, internal, price) := PriceOf(req.origin, req.destination, req.vehicleTypeId);
        match price
        case Err(_) => QuoteResponse(400, None)
        case Ok(p) => QuoteResponse(200, Some(Quote(p, RoundKm(d), internal, ShippingType(internal))))
    }

    /** A request that passed validation names an existing vehicle type, so
        its quote never fails on the vehicle type: a 400 comes from a missing
        city, zone or tier. */
    lemma ValidatedQuoteHasVehicleType(req: QuoteRequest)
      requires ValidQuoteRequest(pricing.vehicleTypes, req)
      ensures req.vehicleTypeId >= 1
      ensures PriceOf(req.origin, req.destination, req.vehicleTypeId).2 != Err(VehicleTypeNotFound(req.vehicleTypeId))
    {
    }

    /** store. A shipment is created only for a customer with a profile, a
        valid request and a price; it is created `pending` with no driver
        before the driver search, so it stays in the table when no driver
        is eligible, or when a notification call lets an `\Error` escape,
        and the response is 500. Otherwise the response is 201 with the
        number of drivers the offer reached. */
    method Store(user: User, req: ShipmentRequest, notify: Driver -> Delivery)
      returns (code: int, created: Option<Shipment>, notifiedCount: Option<nat>)
      requires service.Valid()
      modifies service`shipments, service`sent
      ensures service.Valid()
      ensures code in {201, 403, 422, 500}
      ensures !user.IsCustomer() ==> code == 403
      ensures user.IsCustomer() && !ValidShipmentRequest(pricing.vehicleTypes, req) ==> code == 422
      ensures created.Some? <==>
                && user.IsCustomer()
                && ValidShipmentRequest(pricing.vehicleTypes, req)
                && req.vehicleTypeId >= 1
                && PriceOf(req.origin, req.destination, req.vehicleTypeId).2.Ok?
                && CustomerProfile(service.customers, user).Some?
      ensures created.None? ==>
                && service.shipments == old(service.shipments)
                && service.sent == old(service.sent)
                && notifiedCount.None?
                && (user.IsCustomer() && ValidShipmentRequest(pricing.vehicleTypes, req) ==> code == 500)
      ensures created.Some? ==>
                var s := created.value;
                var (d, _, price) := PriceOf(req.origin, req.destination, req.vehicleTypeId);
                && s.status == StatusPending && s.driverId.None?
                && s.customerId == CustomerProfile(service.customers, user).value.id
                && s.origin == req.origin && s.destination == req.destination
                && s.originAddress == req.originAddress && s.destinationAddress == req.destinationAddress
                && s.weight == req.weight && s.distanceKm == d && s.finalPrice == price.value
                && (forall k :: 0 <= k < |old(service.shipments)| ==> old(service.shipments)[k].id != s.id)
                && service.shipments == old(service.shipments) + [s]
                && Announced(s, notify, code, notifiedCount, old(service.sent))
    {
      created, notifiedCount := None, None;
      if !user.IsCustomer() {
        return 403, created, notifiedCount;
      }
      if !ValidShipmentRequest(pricing.vehicleTypes, req) {
        return 422, created, notifiedCount;
      }
      assert req.vehicleTypeId >= 1 by {
        var k :| 0 <= k < |pricing.vehicleTypes| && pricing.vehicleTypes[k].id == req.vehicleTypeId;
      }
      var (d, _, price) := PriceOf(req.origin, req.destination, req.vehicleTypeId);
      if price.Err? {
        return 500, created, notifiedCount;
      }
      var customer := CustomerProfile(service.customers, user);
      if customer.None? {
        return 500, created, notifiedCount;
      }
      var s;
      s, code, notifiedCount := Persist(customer.value.id, req, d, price.value, notify);
      created := Some(s);
    }

    /** The success path of store: the shipment row is created `pending`
        with no driver and a fresh id, and then the drivers are searched. */
    method Persist(customerId: Id, req: ShipmentRequest, d: real, price: int, notify: Driver -> Delivery)
      returns (s: Shipment, code: int, notifiedCount: Option<nat>)
      requires service.Valid()
      modifies service`shipments, service`sent
      ensures service.Valid()
      ensures && s.status == StatusPending && s.driverId.None? && s.customerId == customerId
              && s.origin == req.origin && s.destination == req.destination
              && s.originAddress == req.originAddress && s.destinationAddress == req.destinationAddress
              && s.weight == req.weight && s.distanceKm == d && s.finalPrice == price
      ensures forall k :: 0 <= k < |old(service.shipments)| ==> old(service.shipments)[k].id != s.id
      ensures service.shipments == old(service.shipments) + [s]
      ensures Announced(s, notify, code, notifiedCount, old(service.sent))
    {
      s := service.CreateShipment(customerId, req.origin, req.originAddress, req.destination,
                                  req.destinationAddress, req.weight, d, price);
      code, notifiedCount := Announce(s, notify);
    }

    /** The answer store gives once the shipment exists, by what the driver
        search did: 500 when no driver is eligible (nothing sent) or when a
        notification call let an `\Error` escape (the offers up to that
        driver sent); otherwise 201 with the number of collected ids, every
        eligible driver having been offered the shipment. */
    ghost predicate Announced(s: Shipment, notify: Driver -> Delivery, code: int, notifiedCount: Option<nat>,
                              sentBefore: seq<Notice>)
      reads service
    {
      var eligible := EligibleDrivers(service.drivers, s.origin, s.weight, 50.0);
      && (eligible == [] ==> code == 500 && notifiedCount.None? && service.sent == sentBefore)
      && (eligible != [] && FirstEscape(eligible, notify).Some? ==>
            && code == 500 && notifiedCount.None?
            && service.sent == sentBefore + Offers(eligible[..FirstEscape(eligible, notify).value + 1], s.id))
      && (eligible != [] && FirstEscape(eligible, notify).None? ==>
            && code == 201
            && notifiedCount == Some(|NotifiedIds(eligible, notify)|)
            && service.sent == sentBefore + Offers(eligible, s.id))
    }

    /** The driver search of store, with the default radius of 50 km, and
        the answer it leads to. */
    method Announce(s: Shipment, notify: Driver -> Delivery) returns (code: int, notifiedCount: Option<nat>)
      modifies service`sent
      ensures Announced(s, notify, code, notifiedCount, old(service.sent))
    {
      var ids := service.FindAndNotifyDrivers(s, 50.0, notify);
      match ids {
        case Err(_) =>
          code, notifiedCount := 500, None;
        case Ok(notified) =>
          code, notifiedCount := 201, Some(|notified|);
      }
    }

    /** acceptShipment: 403 for a non-driver, 500 without a driver profile,
        otherwise assignDriverToShipment with the user's driver profile,
        answering 400 when it returns false and 200 when it returns true. */
    method AcceptShipment(user: User, si: nat) returns (code: int)
      requires service.Valid() && si < |service.shipments|
      modifies service`shipments, service`drivers, service`sent
      ensures service.Valid()
      ensures code in {200, 400, 403, 500}
      ensures var guard := AcceptGuard(old(service.drivers), user);
              && (guard.Err? ==>
                    && code == guard.error
                    && service.shipments == old(service.shipments)
                    && service.drivers == old(service.drivers)
                    && service.sent == old(service.sent))
              && (guard.Ok? ==>
                    var r := AcceptStep(Tables(old(service.shipments), old(service.drivers)), si, guard.value);
                    && Tables(service.shipments, service.drivers) == r.tables
                    && service.sent == old(service.sent) + r.notices
                    && (code == 200 <==> r.ok)
                    && (code == 400 <==> !r.ok))
    {
      var guard := AcceptGuard(service.drivers, user);
      if guard.Err? {
        return guard.error;
      }
      var ok := service.AssignDriverToShipment(si, guard.value);
      code := if ok then 200 else 400;
    }

    /** updateStatus: the guard decides 422, 403 or 500; past it the new
        status is written whatever the current one is, the customer is
        notified, and the answer is 200, or 500 when the notification call
        threw anything, an `\Exception` the action catches or an `\Error` the
        framework turns into 500 (the status is written by then). */
    method UpdateStatus(user: User, si: nat, status: string, notified: Delivery) returns (code: int)
      requires service.Valid() && si < |service.shipments|
      modifies service`shipments, service`sent
      ensures service.Valid()
      ensures code in {200, 403, 422, 500}
      ensures var guard := UpdateStatusGuard(service.drivers, user, old(service.shipments)[si], status);
              && (guard.Err? ==>
                    && code == guard.error
                    && service.shipments == old(service.shipments)
                    && service.sent == old(service.sent))
              && (guard.Ok? ==>
                    var s := old(service.shipments)[si];
                    && service.shipments == old(service.shipments)[si := s.(status := status)]
                    && service.sent == old(service.sent) + [StatusUpdate(s.id, status)]
                    && code == (if notified.Returned? then 200 else 500))
    {
      var s := service.shipments[si];
      var guard := UpdateStatusGuard(service.drivers, user, s, status);
      if guard.Err? {
        return guard.error;
      }
      service.shipments := service.shipments[si := s.(status := status)];
      assert forall i :: 0 <= i < |service.shipments| ==> service.shipments[i].id == old(service.shipments)[i].id;
      service.sent := service.sent + [StatusUpdate(s.id, status)];
      code := if notified.Returned? then 200 else 500;
    }

    /** cancel: the guard decides 403, 500 or 400; past it
        cancelDriverAssignment runs and the answer is 200 whatever it
        returned. */
    method Cancel(user: User, si: nat) returns (code: int)
      requires service.Valid() && si < |service.shipments|
      modifies service`shipments, service`drivers, service`sent
      ensures service.Valid()
      ensures code in {200, 400, 403, 500}
      ensures var guard := CancelGuard(service.customers, user, old(service.shipments)[si]);
              && (guard.Err? ==>
                    && code == guard.error
                    && service.shipments == old(service.shipments)
                    && service.drivers == old(service.drivers)
                    && service.sent == old(service.sent))
              && (guard.Ok? ==>
                    var r := CancelStep(Tables(old(service.shipments), old(service.drivers)), si);
                    && Tables(service.shipments, service.drivers) == r.tables
                    && service.sent == old(service.sent) + r.notices
                    && code == 200)
    {
      var guard := CancelGuard(service.customers, user, service.shipments[si]);
      if guard.Err? {
        return guard.error;
      }
      var _ := service.CancelDriverAssignment(si);
      code := 200;
    }
  }

  /** The owner cancelling a shipment that has no driver (a pending one,
      say) is answered 200, yet the cancel step fails and the shipment keeps
      its status, `pending` included. */
  lemma CancelOfUnassignedShipmentChangesNothing(customers: seq<Customer>, user: User, t: Tables, si: nat)
    requires si < |t.shipments| && t.shipments[si].driverId.None?
    requires CancelGuard(customers, user, t.shipments[si]).Ok?
    ensures !CancelStep(t, si).ok
    ensures CancelStep(t, si).tables == t
    ensures CancelStep(t, si).tables.shipments[si].status == t.shipments[si].status
  {
  }

  /** A status written by updateStatus keeps the tables valid: only the
      assigned driver gets past the guard, so the shipment has a driver, and
      every settable status is one where a driver is assigned. */
  lemma UpdateStatusPreservesValid(t: Tables, si: nat, drivers: seq<Driver>, user: User, status: string)
    requires TablesValid(t) && si < |t.shipments|
    requires UpdateStatusGuard(drivers, user, t.shipments[si], status).Ok?
    ensures TablesValid(Tables(t.shipments[si := t.shipments[si].(status := status)], t.drivers))
  {
  }
}
