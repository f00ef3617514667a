/** The records of the dispatch system (the Eloquent models under app/)
    as values, with the status, role and capacity predicates defined on them
    and the partition and range facts those predicates satisfy.

    Status, role and zone-type columns are strings compared with PHP's `===`,
    so they are `string` here and a value outside the declared constants is
    representable; the predicates are then all false for it. */
module Models {
  import opened Wrappers

  /** Primary keys: auto-increment columns start at 1, so an id is never the
      PHP-falsy 0 and `!$shipment->driver_id` means exactly "no driver". */
  type Id = n: int | n >= 1 witness 1

  /** A point in decimal degrees (decimal(10,8) / decimal(11,8) columns). */
  datatype Coord = Coord(lat: real, lng: real)

  // ---------------------------------------------------------------- User

  const RoleCustomer: string := "customer"
  const RoleDriver: string := "driver"
  const RoleAdmin: string := "admin"

  datatype User = User(id: Id, name: string, role: string)
  {
    predicate IsCustomer() { role == RoleCustomer }
    predicate IsDriver() { role == RoleDriver }
    predicate IsAdmin() { role == RoleAdmin }
  }

  /** The customer profile of a user (customers.user_id). */
  datatype Customer = Customer(id: Id, userId: Id)

  /** At most one role predicate holds, and a role outside the three constants
      satisfies none of them. */
  lemma RolesExclusive(u: User)
    ensures !(u.IsCustomer() && u.IsDriver())
    ensures !(u.IsCustomer() && u.IsAdmin())
    ensures !(u.IsDriver() && u.IsAdmin())
    ensures u.role !in {RoleCustomer, RoleDriver, RoleAdmin} ==>
              !u.IsCustomer() && !u.IsDriver() && !u.IsAdmin()
  {
  }

  // ---------------------------------------------------------------- Driver

  const DriverOffline: string := "offline"
  const DriverAvailable: string := "available"
  const DriverBusy: string := "busy"
  const DriverOnTrip: string := "on_trip"

  /** A vehicle of one driver; `maxWeight` (kg, decimal(8,2)) overrides the
      nominal range of its vehicle type. */
  datatype DriverVehicle = DriverVehicle(id: Id, vehicleTypeId: Id, plateNumber: string, maxWeight: real)
  {
    predicate CanCarryWeight(weight: real) { weight <= maxWeight }
  }

  /** A driver together with the vehicle it owns, if any (drivers hasOne
      driver_vehicles). */
  datatype Driver = Driver(id: Id, userId: Id, isVerified: bool, status: string, vehicle: Option<DriverVehicle>)
  {
    predicate IsAvailable() { status == DriverAvailable && isVerified }
    predicate IsVerified() { isVerified }
  }

  /** Availability needs both verification and the `available` status:
      an unverified driver, or one that is offline, busy or on a trip, is
      never available. */
  lemma AvailabilityNeedsVerifiedAndAvailable(d: Driver)
    ensures d.IsAvailable() <==> d.IsVerified() && d.status == DriverAvailable
    ensures !d.isVerified ==> !d.IsAvailable()
    ensures d.status in {DriverOffline, DriverBusy, DriverOnTrip} ==> !d.IsAvailable()
  {
  }

  /** The per-vehicle capacity check has an inclusive upper bound, is closed
      downwards and has no lower bound. */
  lemma DriverVehicleCapacity(v: DriverVehicle, w: real, lighter: real)
    ensures v.CanCarryWeight(v.maxWeight)
    ensures v.CanCarryWeight(w) && lighter <= w ==> v.CanCarryWeight(lighter)
    ensures w > v.maxWeight ==> !v.CanCarryWeight(w)
    ensures lighter <= 0.0 <= v.maxWeight ==> v.CanCarryWeight(lighter)
  {
  }

  // ---------------------------------------------------------------- VehicleType

  /** A vehicle type: nominal weight range (kg) and the price multiplier in
      hundredths (decimal(4,2): 150 stands for 1.50). */
  datatype VehicleType = VehicleType(id: Id, name: string, weightMin: real, weightMax: real, pricingMultiplier: int)
  {
    predicate CanCarryWeight(weight: real) { weight >= weightMin && weight <= weightMax }
  }

  /** The accepted weights form the closed interval [weightMin, weightMax]:
      both ends are in it when it is not empty, nothing is in it when it is
      inverted, and it is convex. */
  lemma VehicleTypeRangeIsInterval(t: VehicleType, w1: real, w: real, w2: real)
    ensures t.weightMin <= t.weightMax ==> t.CanCarryWeight(t.weightMin) && t.CanCarryWeight(t.weightMax)
    ensures t.weightMin > t.weightMax ==> !t.CanCarryWeight(w)
    ensures t.CanCarryWeight(w1) && t.CanCarryWeight(w2) && w1 <= w <= w2 ==> t.CanCarryWeight(w)
    ensures w < t.weightMin || w > t.weightMax ==> !t.CanCarryWeight(w)
  {
  }

  // ---------------------------------------------------------------- City, zones, tiers

  datatype City = City(id: Id, name: string, location: Coord)

  const ZoneInternal: string := "I"
  const ZoneExternal: string := "E"

  datatype PricingZone = PricingZone(id: Id, cityId: Id, zoneType: string, name: string)
  {
    predicate IsInternal() { zoneType == ZoneInternal }
    predicate IsExternal() { zoneType == ZoneExternal }
  }

  /** A zone is never both internal and external, and any other zone type is
      neither. */
  lemma ZoneKindsExclusive(z: PricingZone)
    ensures !(z.IsInternal() && z.IsExternal())
    ensures z.zoneType != ZoneInternal && z.zoneType != ZoneExternal ==> !z.IsInternal() && !z.IsExternal()
  {
  }

  /** A distance band of a zone: [minKm, maxKm] in km and the base price in
      cents (decimal(8,2): 2500 stands for 25.00). */
  datatype PricingTier = PricingTier(id: Id, zoneId: Id, minKm: real, maxKm: real, basePrice: int)
  {
    predicate IncludesDistance(distance: real) { distance >= minKm && distance <= maxKm }
  }

  /** Both bounds of a tier are inclusive: two tiers that share a boundary
      both include it, and an inverted tier includes nothing. */
  lemma TierBoundsInclusive(lower: PricingTier, upper: PricingTier, d: real)
    ensures lower.minKm <= lower.maxKm == upper.minKm <= upper.maxKm ==>
              lower.IncludesDistance(lower.maxKm) && upper.IncludesDistance(lower.maxKm)
    ensures lower.minKm > lower.maxKm ==> !lower.IncludesDistance(d)
  {
  }

  // ---------------------------------------------------------------- RatingReview

  datatype RatingReview = RatingReview(id: Id, shipmentId: Id, raterUserId: Id, rateeUserId: Id, rating: int, comment: string)
  {
    predicate IsPositive() { rating >= 4 }
    predicate IsNegative() { rating <= 2 }
  }

  /** A rating is never both positive and negative; 3 is neither. */
  lemma RatingClassesDisjoint(r: RatingReview)
    ensures !(r.IsPositive() && r.IsNegative())
    ensures r.rating == 3 ==> !r.IsPositive() && !r.IsNegative()
    ensures r.IsPositive() || r.IsNegative() || r.rating == 3
  {
  }

  // ---------------------------------------------------------------- Shipment

  const StatusPending: string := "pending"
  const StatusAccepted: string := "accepted"
  const StatusPickedUp: string := "picked_up"
  const StatusInTransit: string := "in_transit"
  const StatusDelivered: string := "delivered"
  const StatusCancelled: string := "cancelled"

  /** The six shipment statuses, in declaration order (the enum of the
      shipments.status column). */
  const ShipmentStatuses: seq<string> :=
    [StatusPending, StatusAccepted, StatusPickedUp, StatusInTransit, StatusDelivered, StatusCancelled]

  /** A shipment row. `finalPrice` is in cents; `driverId` is the nullable
      foreign key. */
  datatype Shipment = Shipment(
    id: Id,
    customerId: Id,
    driverId: Option<Id>,
    origin: Coord,
    originAddress: string,
    destination: Coord,
    destinationAddress: string,
    weight: real,
    distanceKm: real,
    finalPrice: int,
    status: string)
  {
    predicate IsPending() { status == StatusPending }
    predicate IsCompleted() { status in [StatusDelivered, StatusCancelled] }
    predicate InProgress() { status in [StatusAccepted, StatusPickedUp, StatusInTransit] }
  }

  predicate ExactlyOne(a: bool, b: bool, c: bool) {
    (a && !b && !c) || (!a && b && !c) || (!a && !b && c)
  }

  /** The six status constants are pairwise distinct, and each of them
      satisfies exactly one of pending / in progress / completed, while any
      other status satisfies none. */
  lemma ShipmentStatusPartition(s: Shipment)
    ensures forall i, j :: 0 <= i < j < |ShipmentStatuses| ==> ShipmentStatuses[i] != ShipmentStatuses[j]
    ensures s.status in ShipmentStatuses ==> ExactlyOne(s.IsPending(), s.InProgress(), s.IsCompleted())
    ensures s.status !in ShipmentStatuses ==> !s.IsPending() && !s.InProgress() && !s.IsCompleted()
  {
  }
}
