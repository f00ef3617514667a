/** The pricing engine (app/Services/PricingService.php): nearest-city
    resolution, zone and tier lookup, and the rounded price.

    The haversine distance is a parameter `dist` of type `Metric`; nothing
    is assumed about it. Money is integer fixed point: tier base prices in
    cents, vehicle multipliers in hundredths, so their product is in
    ten-thousandths and `RoundCents` brings it back to cents. */
module Pricing {
  import opened Wrappers
  import opened Models
  import opened Query

  /** Distance in km from the first point to the second. */
  type Metric = (Coord, Coord) -> real

  /** The reference data the engine reads: cities, their zones, the zones'
      tiers and the vehicle types, each in stored order. */
  datatype PricingConfig = PricingConfig(
    cities: seq<City>,
    zones: seq<PricingZone>,
    tiers: seq<PricingTier>,
    vehicleTypes: seq<VehicleType>)

  /** The four exceptions calculatePrice can end with. */
  datatype PricingError =
    | NoCityFound                 // 'No pricing zone found for this location'
    | NoZoneConfigured            // 'No pricing zone configured for this city and type'
    | NoTierFound(distance: real) // 'No pricing tier found for distance: ...'
    | VehicleTypeNotFound(id: Id) // findOrFail

  // ---------------------------------------------------------------- nearest city

  /** City `i` is nearest to `p` among the first `n` cities, and no earlier
      city is as near (ties go to the earliest). */
  ghost predicate IsNearestAmong(cities: seq<City>, p: Coord, dist: Metric, n: nat, i: nat)
    requires n <= |cities|
  {
    && i < n
    && (forall j :: 0 <= j < n ==> dist(p, cities[i].location) <= dist(p, cities[j].location))
    && (forall j :: 0 <= j < i ==> dist(p, cities[i].location) < dist(p, cities[j].location))
  }

  /** The index the scan of findNearestCity holds after the first `n`
      cities: a later city replaces the best only when strictly nearer. */
  function NearestAmong(cities: seq<City>, p: Coord, dist: Metric, n: nat): (r: Option<nat>)
    requires n <= |cities|
    ensures r.None? <==> n == 0
    ensures r.Some? ==> IsNearestAmong(cities, p, dist, n, r.value)
    decreases n
  {
    if n == 0 then None
    else
      var best := NearestAmong(cities, p, dist, n - 1);
      if best.None? || dist(p, cities[n - 1].location) < dist(p, cities[best.value].location)
      then Some(n - 1)
      else best
  }

  /** The nearest city is determined by `IsNearestAmong` alone: two indices
      that both satisfy it are equal. */
  lemma NearestIsUnique(cities: seq<City>, p: Coord, dist: Metric, i: nat, k: nat)
    requires IsNearestAmong(cities, p, dist, |cities|, i)
    requires IsNearestAmong(cities, p, dist, |cities|, k)
    ensures i == k
  {
    assert dist(p, cities[i].location) == dist(p, cities[k].location);
  }

  /** The city findNearestCity returns: none iff there are no cities,
      otherwise the one `IsNearestAmong` singles out. */
  function NearestCity(cities: seq<City>, p: Coord, dist: Metric): (r: Option<City>)
    ensures r.None? <==> |cities| == 0
    ensures r.Some? ==> exists i: nat :: IsNearestAmong(cities, p, dist, |cities|, i) && r.value == cities[i]
  {
    match NearestAmong(cities, p, dist, |cities|)
    case None => None
    case Some(i) => Some(cities[i])
  }

  /** The city `IsNearestAmong` singles out is the one NearestCity returns. */
  lemma NearestCityIs(cities: seq<City>, p: Coord, dist: Metric, i: nat)
    requires IsNearestAmong(cities, p, dist, |cities|, i)
    ensures NearestCity(cities, p, dist) == Some(cities[i])
  {
    NearestIsUnique(cities, p, dist, i, NearestAmong(cities, p, dist, |cities|).value);
  }

  /** findNearestCity: a linear scan keeping the nearest city seen so far.
      The source starts `$minDistance` at PHP_FLOAT_MAX; here "no city yet"
      plays that role, since a haversine distance never reaches it. */
  method FindNearestCity(cities: seq<City>, p: Coord, dist: Metric) returns (nearest: Option<City>)
    ensures nearest == NearestCity(cities, p, dist)
    ensures nearest.None? <==> |cities| == 0
    ensures nearest.Some? ==>
              && nearest.value in cities
              && forall c :: c in cities ==> dist(p, nearest.value.location) <= dist(p, c.location)
  {
    nearest := None;
    var minDistance: real := 0.0;
    ghost var best: Option<nat> := None;
    for i := 0 to |cities|
      invariant best == NearestAmong(cities, p, dist, i)
      invariant nearest == (if best.None? then None else Some(cities[best.value]))
      invariant best.Some? ==> minDistance == dist(p, cities[best.value].location)
    {
      var d := dist(p, cities[i].location);
      if nearest.None? || d < minDistance {
        minDistance := d;
        nearest := Some(cities[i]);
        best := Some(i);
      }
    }
    if nearest.Some? {
      forall c | c in cities
        ensures dist(p, nearest.value.location) <= dist(p, c.location)
      {
        var j :| 0 <= j < |cities| && cities[j] == c;
      }
    }
  }

  // ---------------------------------------------------------------- zone, tier, vehicle type

  function ZoneKind(isInternal: bool): string {
    if isInternal then ZoneInternal else ZoneExternal
  }

  /** `$city->pricingZones()->where('zone_type', $kind)->first()`. */
  function ResolveZone(zones: seq<PricingZone>, city: City, kind: string): (r: Option<PricingZone>)
    ensures r.None? <==> forall z :: z in zones ==> !(z.cityId == city.id && z.zoneType == kind)
    ensures r.Some? ==> r.value in zones && r.value.cityId == city.id && r.value.zoneType == kind
  {
    match FirstIndex(zones, (z: PricingZone) => z.cityId == city.id && z.zoneType == kind)
    case None => None
    case Some(i) => Some(zones[i])
  }

  /** The tier query's condition: `min_km <= d` and `max_km >= d`. */
  predicate MatchesTierQuery(t: PricingTier, distance: real) {
    t.minKm <= distance && t.maxKm >= distance
  }

  /** The zone found is the one at `i` whenever it is the first zone of the
      city, in stored order, of the requested kind. */
  lemma ResolveZoneIs(zones: seq<PricingZone>, city: City, kind: string, i: nat)
    requires i < |zones| && zones[i].cityId == city.id && zones[i].zoneType == kind
    requires forall j :: 0 <= j < i ==> zones[j].cityId != city.id || zones[j].zoneType != kind
    ensures ResolveZone(zones, city, kind) == Some(zones[i])
  {
    var k := FirstIndex(zones, (z: PricingZone) => z.cityId == city.id && z.zoneType == kind);
    if k.value < i {
      assert false;
    } else if k.value > i {
      assert false;
    }
  }

  /** The query condition is the same test as PricingTier::includesDistance. */
  lemma TierQueryAgreesWithIncludesDistance(t: PricingTier, distance: real)
    ensures MatchesTierQuery(t, distance) <==> t.IncludesDistance(distance)
  {
  }

  /** `$zone->pricingTiers()->where(...)->first()`: the first tier of the zone,
      in stored order, whose closed range contains the distance. */
  function SelectTier(tiers: seq<PricingTier>, zone: PricingZone, distance: real): (r: Option<PricingTier>)
    ensures r.None? <==> forall t :: t in tiers && t.zoneId == zone.id ==> !t.IncludesDistance(distance)
    ensures r.Some? ==> exists i :: (
              && 0 <= i < |tiers| && tiers[i] == r.value
              && r.value.zoneId == zone.id && r.value.IncludesDistance(distance)
              && forall j :: 0 <= j < i && tiers[j].zoneId == zone.id ==> !tiers[j].IncludesDistance(distance))
  {
    match FirstIndex(tiers, (t: PricingTier) => t.zoneId == zone.id && MatchesTierQuery(t, distance))
    case None =>
      assert forall t :: t in tiers && t.zoneId == zone.id ==> !t.IncludesDistance(distance) by {
        forall t | t in tiers && t.zoneId == zone.id ensures !t.IncludesDistance(distance) {
          var i :| 0 <= i < |tiers| && tiers[i] == t;
        }
      }
      None
    case Some(i) => Some(tiers[i])
  }

  /** The tier selected is the one at `i` whenever it is the first tier of
      the zone, in stored order, that includes the distance. */
  lemma SelectTierIs(tiers: seq<PricingTier>, zone: PricingZone, distance: real, i: nat)
    requires i < |tiers| && tiers[i].zoneId == zone.id && tiers[i].IncludesDistance(distance)
    requires forall j :: 0 <= j < i ==> tiers[j].zoneId != zone.id || !tiers[j].IncludesDistance(distance)
    ensures SelectTier(tiers, zone, distance) == Some(tiers[i])
  {
    var k :| (
      && 0 <= k < |tiers| && tiers[k] == SelectTier(tiers, zone, distance).value
      && tiers[k].zoneId == zone.id && tiers[k].IncludesDistance(distance)
      && forall j :: 0 <= j < k && tiers[j].zoneId == zone.id ==> !tiers[j].IncludesDistance(distance));
    if k < i {
      assert false;
    } else if k > i {
      assert false;
    }
  }

  /** `VehicleType::findOrFail($id)`. */
  function FindVehicleType(vehicleTypes: seq<VehicleType>, id: Id): (r: Option<VehicleType>)
    ensures r.None? <==> forall v :: v in vehicleTypes ==> v.id != id
    ensures r.Some? ==> r.value in vehicleTypes && r.value.id == id
  {
    match FirstIndex(vehicleTypes, (v: VehicleType) => v.id == id)
    case None => None
    case Some(i) => Some(vehicleTypes[i])
  }

  // ---------------------------------------------------------------- price

  /** PHP's `round($x, 2)` for an amount in ten-thousandths, giving cents:
      the nearest cent, halves rounded away from zero. */
  function RoundCents(x: int): (r: int)
    ensures x >= 0 ==> r >= 0 && 100 * r - 50 <= x < 100 * r + 50
    ensures x < 0 ==> r <= 0 && 100 * r - 50 < x <= 100 * r + 50
  {
    if x >= 0 then (x + 50) / 100 else -((-x + 50) / 100)
  }

  /** calculatePrice. The destination is not an argument: only the origin
      and the internal/external flag choose the city and the zone. */
  function CalculatePrice(cfg: PricingConfig, dist: Metric, origin: Coord, distance: real,
                          vehicleTypeId: Id, isInternal: bool): (r: Result<int, PricingError>)
    ensures r == Err(NoCityFound) <==> |cfg.cities| == 0
    ensures r.Ok? ==> exists city, zone, tier, vt :: (
              && NearestCity(cfg.cities, origin, dist) == Some(city)
              && ResolveZone(cfg.zones, city, ZoneKind(isInternal)) == Some(zone)
              && SelectTier(cfg.tiers, zone, distance) == Some(tier)
              && FindVehicleType(cfg.vehicleTypes, vehicleTypeId) == Some(vt)
              && r.value == RoundCents(tier.basePrice * vt.pricingMultiplier))
    ensures r.Ok? <==>
              && NearestCity(cfg.cities, origin, dist).Some?
              && var zone := ResolveZone(cfg.zones, NearestCity(cfg.cities, origin, dist).value, ZoneKind(isInternal));
                 && zone.Some?
                 && SelectTier(cfg.tiers, zone.value, distance).Some?
                 && FindVehicleType(cfg.vehicleTypes, vehicleTypeId).Some?
    ensures r.Err? ==> r.error in {NoCityFound, NoZoneConfigured, NoTierFound(distance), VehicleTypeNotFound(vehicleTypeId)}
  {
    match NearestCity(cfg.cities, origin, dist)
    case None => Err(NoCityFound)
    case Some(city) =>
      match ResolveZone(cfg.zones, city, ZoneKind(isInternal))
      case None => Err(NoZoneConfigured)
      case Some(zone) =>
        match SelectTier(cfg.tiers, zone, distance)
        case None => Err(NoTierFound(distance))
        case Some(tier) =>
          match FindVehicleType(cfg.vehicleTypes, vehicleTypeId)
          case None => Err(VehicleTypeNotFound(vehicleTypeId))
          case Some(vt) => Ok(RoundCents(tier.basePrice * vt.pricingMultiplier))
  }

  /** The failures come in a fixed order: a missing zone is reported only
      once a city is found; a missing tier is reported whatever the vehicle
      type, once city and zone are found; an unknown vehicle type only after
      city, zone and tier are all resolved. */
  lemma PriceFailureOrder(cfg: PricingConfig, dist: Metric, origin: Coord, distance: real,
                          vehicleTypeId: Id, isInternal: bool)
    ensures var r := CalculatePrice(cfg, dist, origin, distance, vehicleTypeId, isInternal);
            var city := NearestCity(cfg.cities, origin, dist);
            var zone := if city.Some? then ResolveZone(cfg.zones, city.value, ZoneKind(isInternal)) else None;
            && (r == Err(NoZoneConfigured) <==>
                  city.Some? && forall z :: z in cfg.zones ==> !(z.cityId == city.value.id && z.zoneType == ZoneKind(isInternal)))
            && (r == Err(NoTierFound(distance)) <==>
                  zone.Some? && forall t :: t in cfg.tiers && t.zoneId == zone.value.id ==> !t.IncludesDistance(distance))
            && (r == Err(VehicleTypeNotFound(vehicleTypeId)) <==>
                  zone.Some? && SelectTier(cfg.tiers, zone.value, distance).Some?
                  && forall v :: v in cfg.vehicleTypes ==> v.id != vehicleTypeId)
  {
  }

  // ---------------------------------------------------------------- internal shipping

  /** isInternalShipping: both points have a nearest city and it is the same
      city (compared by id). */
  function IsInternalShipping(cities: seq<City>, dist: Metric, origin: Coord, destination: Coord): (r: bool)
    ensures r <==> exists i: nat, k: nat ::
              && IsNearestAmong(cities, origin, dist, |cities|, i)
              && IsNearestAmong(cities, destination, dist, |cities|, k)
              && cities[i].id == cities[k].id
  {
    var from := NearestCity(cities, origin, dist);
    var to := NearestCity(cities, destination, dist);
    assert (exists i: nat, k: nat ::
              && IsNearestAmong(cities, origin, dist, |cities|, i)
              && IsNearestAmong(cities, destination, dist, |cities|, k)
              && cities[i].id == cities[k].id)
           ==> from.Some? && to.Some? && from.value.id == to.value.id by {
      forall i: nat, k: nat |
        && IsNearestAmong(cities, origin, dist, |cities|, i)
        && IsNearestAmong(cities, destination, dist, |cities|, k)
        && cities[i].id == cities[k].id
        ensures from.Some? && to.Some? && from.value.id == to.value.id
      {
        NearestCityIs(cities, origin, dist, i);
        NearestCityIs(cities, destination, dist, k);
      }
    }
    from.Some? && to.Some? && from.value.id == to.value.id
  }

  /** With no city configured no shipment is internal; with at least one,
      a shipment from a point to itself is internal; the relation is
      symmetric in origin and destination. */
  lemma InternalShippingFacts(cities: seq<City>, dist: Metric, p: Coord, q: Coord)
    ensures |cities| == 0 ==> !IsInternalShipping(cities, dist, p, q)
    ensures |cities| > 0 ==> IsInternalShipping(cities, dist, p, p)
    ensures IsInternalShipping(cities, dist, p, q) <==> IsInternalShipping(cities, dist, q, p)
  {
  }
  // ---------------------------------------------------------------- seeded reference data

  /** The reference data of the seeded installation: Dubai, Abu Dhabi and
      Sharjah, each with an internal and an external zone created in that
      order, three tiers per zone, and the four vehicle types. */
  const SeededConfig: PricingConfig := PricingConfig(
    [ City(1, "Dubai", Coord(25.2048, 55.2708))
    , City(2, "Abu Dhabi", Coord(24.4539, 54.3773))
    , City(3, "Sharjah", Coord(25.3463, 55.4209))],
    [ PricingZone(1, 1, ZoneInternal, "Dubai Internal"), PricingZone(2, 1, ZoneExternal, "Dubai External")
    , PricingZone(3, 2, ZoneInternal, "Abu Dhabi Internal"), PricingZone(4, 2, ZoneExternal, "Abu Dhabi External")
    , PricingZone(5, 3, ZoneInternal, "Sharjah Internal"), PricingZone(6, 3, ZoneExternal, "Sharjah External")],
    [ PricingTier(1, 1, 0.0, 5.0, 2500), PricingTier(2, 1, 5.0, 15.0, 3500), PricingTier(3, 1, 15.0, 30.0, 5000)
    , PricingTier(4, 2, 0.0, 50.0, 7500), PricingTier(5, 2, 50.0, 100.0, 12500), PricingTier(6, 2, 100.0, 200.0, 20000)
    , PricingTier(7, 3, 0.0, 5.0, 2500), PricingTier(8, 3, 5.0, 15.0, 3500), PricingTier(9, 3, 15.0, 30.0, 5000)
    , PricingTier(10, 4, 0.0, 50.0, 7500), PricingTier(11, 4, 50.0, 100.0, 12500), PricingTier(12, 4, 100.0, 200.0, 20000)
    , PricingTier(13, 5, 0.0, 5.0, 2500), PricingTier(14, 5, 5.0, 15.0, 3500), PricingTier(15, 5, 15.0, 30.0, 5000)
    , PricingTier(16, 6, 0.0, 50.0, 7500), PricingTier(17, 6, 50.0, 100.0, 12500), PricingTier(18, 6, 100.0, 200.0, 20000)],
    [ VehicleType(1, "Motorcycle", 0.1, 50.0, 100), VehicleType(2, "Small Van", 50.0, 500.0, 150)
    , VehicleType(3, "Medium Truck", 500.0, 2000.0, 200), VehicleType(4, "Large Truck", 2000.0, 10000.0, 300)])

  /** Dubai's internal zone is zone 1, the first zone stored for it. */
  lemma SeededDubaiInternalZone(cfg: PricingConfig)
    requires cfg == SeededConfig
    ensures ResolveZone(cfg.zones, cfg.cities[0], ZoneInternal) == Some(cfg.zones[0])
  {
    ResolveZoneIs(cfg.zones, cfg.cities[0], ZoneInternal, 0);
  }

  /** Abu Dhabi's internal zone is zone 3, the first zone stored for it. */
  lemma SeededAbuDhabiInternalZone(cfg: PricingConfig)
    requires cfg == SeededConfig
    ensures ResolveZone(cfg.zones, cfg.cities[1], ZoneInternal) == Some(cfg.zones[2])
  {
    ResolveZoneIs(cfg.zones, cfg.cities[1], ZoneInternal, 2);
  }

  /** Sharjah's internal zone is zone 5, the first zone stored for it. */
  lemma SeededSharjahInternalZone(cfg: PricingConfig)
    requires cfg == SeededConfig
    ensures ResolveZone(cfg.zones, cfg.cities[2], ZoneInternal) == Some(cfg.zones[4])
  {
    ResolveZoneIs(cfg.zones, cfg.cities[2], ZoneInternal, 4);
  }

  /** In Dubai's seeded internal zone a trip of exactly 5 km lies on the
      boundary of the 0-5 km and 5-15 km bands (tiers 1 and 2); the first
      stored band, at 25.00, is selected. */
  lemma SeededDubaiFirstBand(cfg: PricingConfig)
    requires cfg == SeededConfig
    ensures cfg.tiers[0].IncludesDistance(5.0) && cfg.tiers[1].IncludesDistance(5.0)
    ensures SelectTier(cfg.tiers, cfg.zones[0], 5.0) == Some(cfg.tiers[0])
    ensures cfg.tiers[0].basePrice == 2500
  {
    assert cfg.tiers[0].IncludesDistance(5.0) && cfg.tiers[0].basePrice == 2500;
    assert cfg.tiers[1].IncludesDistance(5.0);
    SelectTierIs(cfg.tiers, cfg.zones[0], 5.0, 0);
  }

  /** In Abu Dhabi's seeded internal zone a trip of exactly 5 km lies on the
      boundary of the 0-5 km and 5-15 km bands (tiers 7 and 8); the first
      stored band, at 25.00, is selected. */
  lemma SeededAbuDhabiFirstBand(cfg: PricingConfig)
    requires cfg == SeededConfig
    ensures cfg.tiers[6].IncludesDistance(5.0) && cfg.tiers[7].IncludesDistance(5.0)
    ensures SelectTier(cfg.tiers, cfg.zones[2], 5.0) == Some(cfg.tiers[6])
    ensures cfg.tiers[6].basePrice == 2500
  {
    assert cfg.tiers[6].IncludesDistance(5.0) && cfg.tiers[6].basePrice == 2500;
    assert cfg.tiers[7].IncludesDistance(5.0);
    SelectTierIs(cfg.tiers, cfg.zones[2], 5.0, 6);
  }

  /** In Sharjah's seeded internal zone a trip of exactly 5 km lies on the
      boundary of the 0-5 km and 5-15 km bands (tiers 13 and 14); the first
      stored band, at 25.00, is selected. */
  lemma SeededSharjahFirstBand(cfg: PricingConfig)
    requires cfg == SeededConfig
    ensures cfg.tiers[12].IncludesDistance(5.0) && cfg.tiers[13].IncludesDistance(5.0)
    ensures SelectTier(cfg.tiers, cfg.zones[4], 5.0) == Some(cfg.tiers[12])
    ensures cfg.tiers[12].basePrice == 2500
  {
    assert cfg.tiers[12].IncludesDistance(5.0) && cfg.tiers[12].basePrice == 2500;
    assert cfg.tiers[13].IncludesDistance(5.0);
    SelectTierIs(cfg.tiers, cfg.zones[4], 5.0, 12);
  }

  /** So with the seeded data a small van's internal 5 km trip costs
      25.00 * 1.50 = 37.50, whichever of the three cities is nearest to the
      origin. */
  lemma SeededSmallVanPrice(dist: Metric, origin: Coord)
    ensures CalculatePrice(SeededConfig, dist, origin, 5.0, 2, true) == Ok(3750)
  {
    var cfg := SeededConfig;
    assert FindVehicleType(cfg.vehicleTypes, 2) == Some(cfg.vehicleTypes[1]) by {
      assert cfg.vehicleTypes[0].id != 2 && cfg.vehicleTypes[1].id == 2;
    }
    assert RoundCents(2500 * 150) == 3750;
    var i := NearestAmong(cfg.cities, origin, dist, |cfg.cities|).value;
    assert NearestCity(cfg.cities, origin, dist) == Some(cfg.cities[i]);
    if i == 0 {
      SeededDubaiInternalZone(cfg);
      SeededDubaiFirstBand(cfg);
    } else if i == 1 {
      SeededAbuDhabiInternalZone(cfg);
      SeededAbuDhabiFirstBand(cfg);
    } else {
      SeededSharjahInternalZone(cfg);
      SeededSharjahFirstBand(cfg);
    }
  }
}
