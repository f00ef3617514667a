/** The dispatch coordinator (app/Services/DriverAssignmentService.php):
    eligibility filtering, the notification fan-out, first-to-accept
    assignment and cancellation, over in-memory tables of drivers and
    shipments.

    Assignment and cancellation are first given as pure steps on the two
    tables (`AcceptStep`, `CancelStep`), about which the lemmas below speak,
    including over whole sequences of calls; the class `DispatchCoordinator`
    holds the tables as fields and its methods update them exactly as those
    steps say. */
module Dispatch {
  import opened Wrappers
  import opened Models
  import opened Query

  // ---------------------------------------------------------------- eligibility

  /** The database query of findEligibleDrivers: verified, status
      `available`, and a vehicle with `max_weight >= weight`. */
  predicate MatchesEligibilityQuery(d: Driver, weight: real) {
    && d.isVerified
    && d.status == DriverAvailable
    && d.vehicle.Some?
    && d.vehicle.value.maxWeight >= weight
  }

  /** The proximity filter: a placeholder that keeps every driver, whatever
      the origin and radius. */
  predicate WithinRadius(d: Driver, origin: Coord, maxRadiusKm: real) {
    true
  }

  /** findEligibleDrivers: the drivers, in stored order, that pass the query
      and the proximity filter. Membership is stated through the model
      predicates Driver::isAvailable and DriverVehicle::canCarryWeight. */
  function EligibleDrivers(drivers: seq<Driver>, origin: Coord, weight: real, maxRadiusKm: real): (r: seq<Driver>)
    ensures forall d :: d in r <==>
              d in drivers && d.IsAvailable() && d.vehicle.Some? && d.vehicle.value.CanCarryWeight(weight)
    ensures |r| <= |drivers|
    decreases |drivers|
  {
    if |drivers| == 0 then []
    else
      var rest := EligibleDrivers(drivers[1..], origin, weight, maxRadiusKm);
      assert drivers == [drivers[0]] + drivers[1..];
      if MatchesEligibilityQuery(drivers[0], weight) && WithinRadius(drivers[0], origin, maxRadiusKm)
      then [drivers[0]] + rest
      else rest
  }

  /** The indices, from `from` on, of the drivers that pass the query, in
      increasing order: exactly those indices, each once. */
  function EligibleIndices(drivers: seq<Driver>, weight: real, from: nat): (ks: seq<nat>)
    requires from <= |drivers|
    ensures forall j :: 0 <= j < |ks| ==> from <= ks[j] < |drivers| && MatchesEligibilityQuery(drivers[ks[j]], weight)
    ensures forall j, j' :: 0 <= j < j' < |ks| ==> ks[j] < ks[j']
    ensures forall k :: from <= k < |drivers| && MatchesEligibilityQuery(drivers[k], weight) ==> k in ks
    decreases |drivers| - from
  {
    if from == |drivers| then []
    else
      var rest := EligibleIndices(drivers, weight, from + 1);
      if MatchesEligibilityQuery(drivers[from], weight) then [from] + rest else rest
  }

  /** `r` lists, one for one, the drivers at the indices `ks`. */
  predicate DriversAt(r: seq<Driver>, drivers: seq<Driver>, ks: seq<nat>) {
    && |r| == |ks|
    && forall j :: 0 <= j < |r| ==> ks[j] < |drivers| && r[j] == drivers[ks[j]]
  }

  lemma DriversAtCons(r: seq<Driver>, drivers: seq<Driver>, ks: seq<nat>, i: nat)
    requires DriversAt(r, drivers, ks) && i < |drivers|
    ensures DriversAt([drivers[i]] + r, drivers, [i] + ks)
  {
    var r', ks' := [drivers[i]] + r, [i] + ks;
    forall j | 0 < j < |r'|
      ensures ks'[j] < |drivers| && r'[j] == drivers[ks'[j]]
    {
      assert r'[j] == r[j - 1] && ks'[j] == ks[j - 1];
    }
  }

  /** The filter keeps the stored order and lists each passing row once:
      the eligible drivers from `from` on are, one for one, the drivers at
      the eligible indices. */
  lemma {:induction false} EligibleDriversInStoredOrder(drivers: seq<Driver>, origin: Coord, weight: real, maxRadiusKm: real, from: nat)
    requires from <= |drivers|
    ensures DriversAt(EligibleDrivers(drivers[from..], origin, weight, maxRadiusKm), drivers, EligibleIndices(drivers, weight, from))
    decreases |drivers| - from
  {
    if from < |drivers| {
      assert drivers[from..][1..] == drivers[from + 1..];
      assert drivers[from..][0] == drivers[from];
      EligibleDriversInStoredOrder(drivers, origin, weight, maxRadiusKm, from + 1);
      if MatchesEligibilityQuery(drivers[from], weight) {
        DriversAtCons(EligibleDrivers(drivers[from + 1..], origin, weight, maxRadiusKm), drivers,
                      EligibleIndices(drivers, weight, from + 1), from);
      }
    }
  }

  /** The same, for the whole list of drivers. */
  lemma EligibleDriversKeepStoredOrder(drivers: seq<Driver>, origin: Coord, weight: real, maxRadiusKm: real)
    ensures DriversAt(EligibleDrivers(drivers, origin, weight, maxRadiusKm), drivers, EligibleIndices(drivers, weight, 0))
  {
    assert drivers[0..] == drivers;
    EligibleDriversInStoredOrder(drivers, origin, weight, maxRadiusKm, 0);
  }

  /** The radius and the origin have no effect on eligibility. */
  lemma {:induction false} EligibilityIgnoresLocation(drivers: seq<Driver>, o1: Coord, o2: Coord, weight: real, r1: real, r2: real)
    ensures EligibleDrivers(drivers, o1, weight, r1) == EligibleDrivers(drivers, o2, weight, r2)
    decreases |drivers|
  {
    if |drivers| > 0 {
      EligibilityIgnoresLocation(drivers[1..], o1, o2, weight, r1, r2);
    }
  }

  // ---------------------------------------------------------------- notification fan-out

  /** What one notification call did: it returned a boolean (false for an
      empty FCM token); it threw an `\Exception`, which the callers catch; or
      it threw an `\Error` that no caller catches, such as the TypeError a
      null FCM token raises at the `string` parameter of sendFCMNotification. */
  datatype Delivery = Returned(delivered: bool) | Raised | Escaped

  /** The indices of the drivers whose notification call returned, in
      increasing order: exactly those indices, each once. */
  function ReturnedIndices(drivers: seq<Driver>, notify: Driver -> Delivery): (ks: seq<nat>)
    ensures forall j :: 0 <= j < |ks| ==> ks[j] < |drivers| && notify(drivers[ks[j]]).Returned?
    ensures forall j, j' :: 0 <= j < j' < |ks| ==> ks[j] < ks[j']
    ensures forall k :: 0 <= k < |drivers| && notify(drivers[k]).Returned? ==> k in ks
    decreases |drivers|
  {
    if |drivers| == 0 then []
    else
      var init := drivers[..|drivers| - 1];
      var ks := ReturnedIndices(init, notify);
      assert forall k :: 0 <= k < |init| ==> init[k] == drivers[k];
      if notify(drivers[|drivers| - 1]).Returned? then ks + [|drivers| - 1] else ks
  }

  /** The ids the fan-out loop collects, in iteration order: one per driver
      whose notification call returned, whether true or false. */
  function NotifiedIds(drivers: seq<Driver>, notify: Driver -> Delivery): (r: seq<Id>)
    ensures |r| <= |drivers|
    decreases |drivers|
  {
    if |drivers| == 0 then []
    else
      var last := drivers[|drivers| - 1];
      var ids := NotifiedIds(drivers[..|drivers| - 1], notify);
      if notify(last).Returned? then ids + [last.id] else ids
  }

  /** `r` lists, one for one, the ids of the drivers at the indices `ks`. */
  predicate IdsAt(r: seq<Id>, drivers: seq<Driver>, ks: seq<nat>) {
    && |r| == |ks|
    && forall j :: 0 <= j < |r| ==> ks[j] < |drivers| && r[j] == drivers[ks[j]].id
  }

  lemma IdsAtExtend(r: seq<Id>, init: seq<Driver>, drivers: seq<Driver>, ks: seq<nat>)
    requires IdsAt(r, init, ks) && |init| <= |drivers| && init == drivers[..|init|]
    ensures IdsAt(r, drivers, ks)
  {
    forall j | 0 <= j < |r|
      ensures ks[j] < |drivers| && r[j] == drivers[ks[j]].id
    {
      assert init[ks[j]] == drivers[ks[j]];
    }
  }

  lemma IdsAtSnoc(r: seq<Id>, drivers: seq<Driver>, ks: seq<nat>, i: nat)
    requires IdsAt(r, drivers, ks) && i < |drivers|
    ensures IdsAt(r + [drivers[i].id], drivers, ks + [i])
  {
    var r', ks' := r + [drivers[i].id], ks + [i];
    forall j | 0 <= j < |r|
      ensures ks'[j] < |drivers| && r'[j] == drivers[ks'[j]].id
    {
      assert r'[j] == r[j] && ks'[j] == ks[j];
    }
  }

  /** The collected ids are, in order, those of the drivers whose call
      returned, so their number is the number of such drivers. */
  lemma {:induction false} NotifiedIdsAreReturnedInOrder(drivers: seq<Driver>, notify: Driver -> Delivery)
    ensures IdsAt(NotifiedIds(drivers, notify), drivers, ReturnedIndices(drivers, notify))
    decreases |drivers|
  {
    if |drivers| > 0 {
      var init := drivers[..|drivers| - 1];
      NotifiedIdsAreReturnedInOrder(init, notify);
      IdsAtExtend(NotifiedIds(init, notify), init, drivers, ReturnedIndices(init, notify));
      if notify(drivers[|drivers| - 1]).Returned? {
        IdsAtSnoc(NotifiedIds(init, notify), drivers, ReturnedIndices(init, notify), |drivers| - 1);
      }
    }
  }

  /** An id is collected iff some driver with that id had its call return:
      a call that returned false still counts, one that threw does not. */
  lemma NotifiedIdsMembership(drivers: seq<Driver>, notify: Driver -> Delivery, id: Id)
    ensures id in NotifiedIds(drivers, notify) <==>
              exists k :: 0 <= k < |drivers| && drivers[k].id == id && notify(drivers[k]).Returned?
  {
    var r := NotifiedIds(drivers, notify);
    var ks := ReturnedIndices(drivers, notify);
    NotifiedIdsAreReturnedInOrder(drivers, notify);
    if id in r {
      var j :| 0 <= j < |r| && r[j] == id;
      assert drivers[ks[j]].id == id;
    }
    if exists k :: 0 <= k < |drivers| && drivers[k].id == id && notify(drivers[k]).Returned? {
      var k :| 0 <= k < |drivers| && drivers[k].id == id && notify(drivers[k]).Returned?;
      var j :| 0 <= j < |ks| && ks[j] == k;
      assert r[j] == id;
    }
  }

  /** A notification attempt, in the order the source makes them. */
  datatype Notice =
    | NewShipmentOffer(driverId: Id, shipmentId: Id)  // notifyDriverOfNewShipment
    | DriverAssigned(shipmentId: Id)                  // notifyCustomerDriverAssigned
    | ShipmentTaken(shipmentId: Id)                   // notifyDriversShipmentTaken
    | ShipmentCancelled(shipmentId: Id, driverId: Id) // notifyDriverShipmentCancelled
    | StatusUpdate(shipmentId: Id, status: string)    // notifyCustomerStatusUpdate

  /** The new-shipment offers sent to `drivers`, in order. */
  function Offers(drivers: seq<Driver>, shipmentId: Id): (r: seq<Notice>)
    ensures |r| == |drivers|
    decreases |drivers|
  {
    if |drivers| == 0 then []
    else Offers(drivers[..|drivers| - 1], shipmentId) + [NewShipmentOffer(drivers[|drivers| - 1].id, shipmentId)]
  }

  /** Exactly one offer per driver, in the drivers' order. */
  lemma {:induction false} OffersOnePerDriver(drivers: seq<Driver>, shipmentId: Id)
    ensures forall k :: 0 <= k < |drivers| ==> Offers(drivers, shipmentId)[k] == NewShipmentOffer(drivers[k].id, shipmentId)
    decreases |drivers|
  {
    if |drivers| > 0 {
      var init := drivers[..|drivers| - 1];
      OffersOnePerDriver(init, shipmentId);
      forall k | 0 <= k < |drivers|
        ensures Offers(drivers, shipmentId)[k] == NewShipmentOffer(drivers[k].id, shipmentId)
      {
        if k < |init| {
          assert init[k] == drivers[k];
        }
      }
    }
  }

  /** One more driver extends both the id list and the offers at the end. */
  lemma FanOutStep(drivers: seq<Driver>, i: nat, notify: Driver -> Delivery, shipmentId: Id)
    requires i < |drivers|
    ensures NotifiedIds(drivers[..i + 1], notify) ==
              NotifiedIds(drivers[..i], notify) + (if notify(drivers[i]).Returned? then [drivers[i].id] else [])
    ensures Offers(drivers[..i + 1], shipmentId) == Offers(drivers[..i], shipmentId) + [NewShipmentOffer(drivers[i].id, shipmentId)]
  {
    assert drivers[..i + 1][..i] == drivers[..i];
  }

  /** The first eligible driver whose notification call lets an `\Error`
      escape: the loop stops there. */
  function FirstEscape(drivers: seq<Driver>, notify: Driver -> Delivery): (r: Option<nat>)
    ensures r.None? <==> forall k :: 0 <= k < |drivers| ==> !notify(drivers[k]).Escaped?
    ensures r.Some? ==> r.value < |drivers| && notify(drivers[r.value]).Escaped?
    ensures r.Some? ==> forall k :: 0 <= k < r.value ==> !notify(drivers[k]).Escaped?
  {
    FirstIndex(drivers, (d: Driver) => notify(d).Escaped?)
  }

  /** The loop stops at driver `i` exactly when it is the first whose call
      escapes. */
  lemma FirstEscapeAt(drivers: seq<Driver>, notify: Driver -> Delivery, i: nat)
    requires i < |drivers| && notify(drivers[i]).Escaped?
    requires forall k :: 0 <= k < i ==> !notify(drivers[k]).Escaped?
    ensures FirstEscape(drivers, notify) == Some(i)
  {
  }

  datatype DispatchError =
    | NoAvailableDrivers           // 'No available drivers found for this shipment'
    | NotificationEscaped(driverId: Id) // an `\Error` from the notification call, not caught

  // ---------------------------------------------------------------- tables and their invariant

  datatype Tables = Tables(shipments: seq<Shipment>, drivers: seq<Driver>)

  /** A shipment has a driver exactly when it is accepted, picked up, in
      transit or delivered; pending and cancelled shipments have none. */
  predicate AssignmentConsistent(s: Shipment) {
    s.driverId.Some? <==> s.status in [StatusAccepted, StatusPickedUp, StatusInTransit, StatusDelivered]
  }

  /** Primary keys are unique and every shipment is assignment-consistent. */
  predicate TablesValid(t: Tables) {
    && (forall i, j :: 0 <= i < j < |t.shipments| ==> t.shipments[i].id != t.shipments[j].id)
    && (forall i, j :: 0 <= i < j < |t.drivers| ==> t.drivers[i].id != t.drivers[j].id)
    && (forall i :: 0 <= i < |t.shipments| ==> AssignmentConsistent(t.shipments[i]))
  }

  /** The new state of both tables, the notifications sent and the boolean
      the service returns. */
  datatype StepResult = StepResult(tables: Tables, notices: seq<Notice>, ok: bool)

  /** `$driver` for a shipment: the driver row with the given id. */
  function DriverIndex(drivers: seq<Driver>, id: Id): (r: Option<nat>)
    ensures r.None? <==> forall k :: 0 <= k < |drivers| ==> drivers[k].id != id
    ensures r.Some? ==> r.value < |drivers| && drivers[r.value].id == id
  {
    FirstIndex(drivers, (d: Driver) => d.id == id)
  }

  // ---------------------------------------------------------------- accept

  /** The three guards of assignDriverToShipment: the shipment is pending,
      the driver is available (verified and `available`), and the driver's
      vehicle, if there is one, can carry the weight. */
  predicate CanAccept(s: Shipment, d: Driver) {
    s.IsPending() && d.IsAvailable() && (d.vehicle.None? || d.vehicle.value.CanCarryWeight(s.weight))
  }

  /** assignDriverToShipment on the tables. */
  function AcceptStep(t: Tables, si: nat, di: nat): (r: StepResult)
    requires si < |t.shipments| && di < |t.drivers|
    ensures |r.tables.shipments| == |t.shipments| && |r.tables.drivers| == |t.drivers|
  {
    var s := t.shipments[si];
    var d := t.drivers[di];
    if s.status != StatusPending then StepResult(t, [], false)
    else if !d.IsAvailable() then StepResult(t, [], false)
    else if d.vehicle.Some? && !d.vehicle.value.CanCarryWeight(s.weight) then StepResult(t, [], false)
    else
      var accepted := s.(driverId := Some(d.id), status := StatusAccepted);
      var busy := d.(status := DriverBusy);
      StepResult(Tables(t.shipments[si := accepted], t.drivers[di := busy]),
                 [DriverAssigned(s.id), ShipmentTaken(s.id)], true)
  }

  /** Accepting succeeds exactly when the three guards hold. On failure
      nothing changes and nothing is sent. On success the shipment gets the
      driver and status `accepted`, the driver becomes `busy`, the customer
      and the other drivers are told, and every other row is untouched. */
  lemma AcceptOutcome(t: Tables, si: nat, di: nat)
    requires si < |t.shipments| && di < |t.drivers|
    ensures var r := AcceptStep(t, si, di);
            && (r.ok <==> CanAccept(t.shipments[si], t.drivers[di]))
            && (!r.ok ==> r.tables == t && r.notices == [])
            && (r.ok ==>
                  && r.tables.shipments[si] == t.shipments[si].(driverId := Some(t.drivers[di].id), status := StatusAccepted)
                  && r.tables.drivers[di] == t.drivers[di].(status := DriverBusy)
                  && r.notices == [DriverAssigned(t.shipments[si].id), ShipmentTaken(t.shipments[si].id)])
            && (forall j :: 0 <= j < |t.shipments| && j != si ==> r.tables.shipments[j] == t.shipments[j])
            && (forall j :: 0 <= j < |t.drivers| && j != di ==> r.tables.drivers[j] == t.drivers[j])
  {
  }

  /** A driver without a vehicle passes the capacity guard of
      assignDriverToShipment, yet is never offered a shipment by
      findEligibleDrivers. */
  lemma VehicleLessDriverMayAcceptButIsNeverOffered(s: Shipment, d: Driver, drivers: seq<Driver>, radius: real)
    requires s.IsPending() && d.IsAvailable() && d.vehicle.None?
    ensures CanAccept(s, d)
    ensures d !in EligibleDrivers(drivers, s.origin, s.weight, radius)
  {
  }

  lemma AcceptPreservesValid(t: Tables, si: nat, di: nat)
    requires TablesValid(t) && si < |t.shipments| && di < |t.drivers|
    ensures TablesValid(AcceptStep(t, si, di).tables)
  {
  }

  /** A sequence of accept calls on shipment `si` by the drivers at
      `dis`, one after the other: the final tables and each call's result. */
  function AcceptRun(t: Tables, si: nat, dis: seq<nat>): (r: (Tables, seq<bool>))
    requires si < |t.shipments|
    requires forall k :: 0 <= k < |dis| ==> dis[k] < |t.drivers|
    ensures |r.0.shipments| == |t.shipments| && |r.0.drivers| == |t.drivers| && |r.1| == |dis|
    decreases |dis|
  {
    if |dis| == 0 then (t, [])
    else
      var step := AcceptStep(t, si, dis[0]);
      var rest := AcceptRun(step.tables, si, dis[1..]);
      (rest.0, [step.ok] + rest.1)
  }

  /** Number of successful calls. */
  function Wins(oks: seq<bool>): nat
    decreases |oks|
  {
    if |oks| == 0 then 0 else (if oks[0] then 1 else 0) + Wins(oks[1..])
  }

  /** Once the shipment is no longer pending, every further accept fails and
      changes nothing. */
  lemma {:induction false} AcceptRunAfterTaken(t: Tables, si: nat, dis: seq<nat>)
    requires si < |t.shipments| && !t.shipments[si].IsPending()
    requires forall k :: 0 <= k < |dis| ==> dis[k] < |t.drivers|
    ensures AcceptRun(t, si, dis).0 == t
    ensures forall k :: 0 <= k < |dis| ==> !AcceptRun(t, si, dis).1[k]
    ensures Wins(AcceptRun(t, si, dis).1) == 0
    decreases |dis|
  {
    if |dis| > 0 {
      AcceptRunAfterTaken(t, si, dis[1..]);
    }
  }

  /** First to accept wins: over any sequence of accept calls on one
      shipment at most one succeeds, and the shipment ends up `accepted`
      with the winner as its driver. */
  lemma {:induction false} AtMostOneAcceptWins(t: Tables, si: nat, dis: seq<nat>)
    requires si < |t.shipments|
    requires forall k :: 0 <= k < |dis| ==> dis[k] < |t.drivers|
    ensures var (final, oks) := AcceptRun(t, si, dis);
            && Wins(oks) <= 1
            && forall k :: 0 <= k < |oks| && oks[k] ==>
                 final.shipments[si].driverId == Some(t.drivers[dis[k]].id)
                 && final.shipments[si].status == StatusAccepted
    decreases |dis|
  {
    if |dis| > 0 {
      var step := AcceptStep(t, si, dis[0]);
      var rest := AcceptRun(step.tables, si, dis[1..]);
      assert AcceptRun(t, si, dis).1 == [step.ok] + rest.1;
      if step.ok {
        AcceptRunAfterTaken(step.tables, si, dis[1..]);
      } else {
        AtMostOneAcceptWins(t, si, dis[1..]);
      }
    }
  }

  /** When the shipment is pending and some caller in the sequence is
      eligible for it at the start, exactly one call succeeds. */
  lemma {:induction false} SomeEligibleAcceptWins(t: Tables, si: nat, dis: seq<nat>, k: nat)
    requires si < |t.shipments| && t.shipments[si].IsPending()
    requires forall j :: 0 <= j < |dis| ==> dis[j] < |t.drivers|
    requires k < |dis| && CanAccept(t.shipments[si], t.drivers[dis[k]])
    ensures Wins(AcceptRun(t, si, dis).1) == 1
    decreases |dis|
  {
    var step := AcceptStep(t, si, dis[0]);
    if step.ok {
      AcceptRunAfterTaken(step.tables, si, dis[1..]);
    } else {
      SomeEligibleAcceptWins(t, si, dis[1..], k - 1);
    }
  }

  // ---------------------------------------------------------------- cancel

  /** cancelDriverAssignment on the tables. */
  function CancelStep(t: Tables, si: nat): (r: StepResult)
    requires si < |t.shipments|
    ensures |r.tables.shipments| == |t.shipments| && |r.tables.drivers| == |t.drivers|
  {
    var s := t.shipments[si];
    if s.driverId.None? then StepResult(t, [], false)
    else
      var shipments := t.shipments[si := s.(driverId := None, status := StatusCancelled)];
      match DriverIndex(t.drivers, s.driverId.value)
      case None => StepResult(Tables(shipments, t.drivers), [], true)
      case Some(di) =>
        var d := t.drivers[di];
        var drivers := if d.status == DriverBusy then t.drivers[di := d.(status := DriverAvailable)] else t.drivers;
        StepResult(Tables(shipments, drivers), [ShipmentCancelled(s.id, d.id)], true)
  }

  /** Cancelling fails, changing and sending nothing, when the shipment has
      no driver. Otherwise the shipment loses its driver and becomes
      `cancelled` whatever its status was; that driver goes back to
      `available` only if it was `busy` (an `on_trip` or `offline` driver
      keeps its status) and is told of the cancellation; no other row
      changes. */
  lemma CancelOutcome(t: Tables, si: nat)
    requires si < |t.shipments|
    ensures var r := CancelStep(t, si);
            var s := t.shipments[si];
            && (r.ok <==> s.driverId.Some?)
            && (!r.ok ==> r.tables == t && r.notices == [])
            && (r.ok ==> r.tables.shipments[si] == s.(driverId := None, status := StatusCancelled))
            && (forall j :: 0 <= j < |t.shipments| && j != si ==> r.tables.shipments[j] == t.shipments[j])
            && (forall j :: 0 <= j < |t.drivers| ==>
                  r.tables.drivers[j] ==
                    if r.ok && t.drivers[j].id == s.driverId.value && DriverIndex(t.drivers, s.driverId.value) == Some(j)
                       && t.drivers[j].status == DriverBusy
                    then t.drivers[j].(status := DriverAvailable)
                    else t.drivers[j])
            && (r.ok ==>
                  r.notices == if DriverIndex(t.drivers, s.driverId.value).Some? then [ShipmentCancelled(s.id, s.driverId.value)] else [])
  {
  }

  /** A second cancel of the same shipment fails: it changes nothing and
      sends no second notification. */
  lemma CancelIsIdempotent(t: Tables, si: nat)
    requires si < |t.shipments|
    ensures var first := CancelStep(t, si);
            var second := CancelStep(first.tables, si);
            !second.ok && second.tables == first.tables && second.notices == []
  {
  }

  lemma CancelPreservesValid(t: Tables, si: nat)
    requires TablesValid(t) && si < |t.shipments|
    ensures TablesValid(CancelStep(t, si).tables)
  {
  }

  // ---------------------------------------------------------------- creation

  /** The largest shipment id in use (0 for none). */
  function MaxShipmentId(shipments: seq<Shipment>): (r: nat)
    ensures forall k :: 0 <= k < |shipments| ==> shipments[k].id <= r
    decreases |shipments|
  {
    if |shipments| == 0 then 0
    else
      var rest := MaxShipmentId(shipments[1..]);
      assert forall k :: 1 <= k < |shipments| ==> shipments[k] == shipments[1..][k - 1];
      if shipments[0].id > rest then shipments[0].id else rest
  }

  // ---------------------------------------------------------------- the coordinator

  /** The assignment service together with the rows it reads and writes.
      `sent` is the log of notification attempts, oldest first. */
  class DispatchCoordinator {
    var customers: seq<Customer>
    var drivers: seq<Driver>
    var shipments: seq<Shipment>
    var sent: seq<Notice>

    ghost predicate Valid()
      reads this
    {
      TablesValid(Tables(shipments, drivers))
    }

    constructor (customers: seq<Customer>, drivers: seq<Driver>, shipments: seq<Shipment>)
      requires TablesValid(Tables(shipments, drivers))
      ensures Valid()
      ensures this.customers == customers && this.drivers == drivers && this.shipments == shipments
      ensures sent == []
    {
      this.customers := customers;
      this.drivers := drivers;
      this.shipments := shipments;
      sent := [];
    }

    /** findAndNotifyDrivers: fails when no driver is eligible; otherwise
        offers the shipment to the eligible drivers in order. */
    method FindAndNotifyDrivers(shipment: Shipment, maxRadiusKm: real, notify: Driver -> Delivery)
      returns (r: Result<seq<Id>, DispatchError>)
      modifies this`sent
      ensures var eligible := EligibleDrivers(drivers, shipment.origin, shipment.weight, maxRadiusKm);
              if eligible == [] then r == Err(NoAvailableDrivers) && sent == old(sent)
              else FanOutResult(eligible, shipment, notify, r, old(sent))
    {
      var eligible := EligibleDrivers(drivers, shipment.origin, shipment.weight, maxRadiusKm);
      if |eligible| == 0 {
        return Err(NoAvailableDrivers);
      }
      r := NotifyEach(eligible, shipment, notify);
    }

    /** What the fan-out over `eligible` leaves: when some call lets an
        `\Error` escape, the offers up to and including that driver were
        made and the error propagates; otherwise every driver got the offer
        and the ids of those whose call returned come back. */
    ghost predicate FanOutResult(eligible: seq<Driver>, shipment: Shipment, notify: Driver -> Delivery,
                                 r: Result<seq<Id>, DispatchError>, sentBefore: seq<Notice>)
      reads this
    {
      match FirstEscape(eligible, notify)
      case Some(e) =>
        r == Err(NotificationEscaped(eligible[e].id)) && sent == sentBefore + Offers(eligible[..e + 1], shipment.id)
      case None =>
        r == Ok(NotifiedIds(eligible, notify)) && sent == sentBefore + Offers(eligible, shipment.id)
    }

    /** The loop of findAndNotifyDrivers over the eligible drivers. */
    method NotifyEach(eligible: seq<Driver>, shipment: Shipment, notify: Driver -> Delivery)
      returns (r: Result<seq<Id>, DispatchError>)
      modifies this`sent
      ensures FanOutResult(eligible, shipment, notify, r, old(sent))
    {
      var notified: seq<Id> := [];
      for i := 0 to |eligible|
        invariant notified == NotifiedIds(eligible[..i], notify)
        invariant sent == old(sent) + Offers(eligible[..i], shipment.id)
        invariant forall k :: 0 <= k < i ==> !notify(eligible[k]).Escaped?
      {
        var driver := eligible[i];
        FanOutStep(eligible, i, notify, shipment.id);
        sent := sent + [NewShipmentOffer(driver.id, shipment.id)];
        var outcome := notify(driver);
        if outcome.Escaped? {
          FirstEscapeAt(eligible, notify, i);
          r := Err(NotificationEscaped(driver.id));
          assert FanOutResult(eligible, shipment, notify, r, old(sent));
          return;
        }
        if outcome.Returned? {
          notified := notified + [driver.id];
        }
        assert notified == NotifiedIds(eligible[..i + 1], notify);
      }
      assert eligible[..|eligible|] == eligible;
      assert FirstEscape(eligible, notify).None?;
      return Ok(notified);
    }

    /** assignDriverToShipment for the shipment at `si` and the driver at
        `di`. */
    method AssignDriverToShipment(si: nat, di: nat) returns (ok: bool)
      requires Valid() && si < |shipments| && di < |drivers|
      modifies this`shipments, this`drivers, this`sent
      ensures Valid()
      ensures var r := AcceptStep(Tables(old(shipments), old(drivers)), si, di);
              && Tables(shipments, drivers) == r.tables
              && sent == old(sent) + r.notices
              && ok == r.ok
    {
      AcceptPreservesValid(Tables(shipments, drivers), si, di);
      var shipment := shipments[si];
      var driver := drivers[di];
      if shipment.status != StatusPending {
        return false;
      }
      if !driver.IsAvailable() {
        return false;
      }
      if driver.vehicle.Some? && !driver.vehicle.value.CanCarryWeight(shipment.weight) {
        return false;
      }
      shipments := shipments[si := shipment.(driverId := Some(driver.id), status := StatusAccepted)];
      drivers := drivers[di := driver.(status := DriverBusy)];
      sent := sent + [DriverAssigned(shipment.id), ShipmentTaken(shipment.id)];
      return true;
    }

    /** cancelDriverAssignment for the shipment at `si`. */
    method CancelDriverAssignment(si: nat) returns (ok: bool)
      requires Valid() && si < |shipments|
      modifies this`shipments, this`drivers, this`sent
      ensures Valid()
      ensures var r := CancelStep(Tables(old(shipments), old(drivers)), si);
              && Tables(shipments, drivers) == r.tables
              && sent == old(sent) + r.notices
              && ok == r.ok
    {
      CancelPreservesValid(Tables(shipments, drivers), si);
      var shipment := shipments[si];
      if shipment.driverId.None? {
        return false;
      }
      var di := DriverIndex(drivers, shipment.driverId.value);
      shipments := shipments[si := shipment.(driverId := None, status := StatusCancelled)];
      if di.Some? && drivers[di.value].status == DriverBusy {
        drivers := drivers[di.value := drivers[di.value].(status := DriverAvailable)];
      }
      if di.Some? {
        sent := sent + [ShipmentCancelled(shipment.id, drivers[di.value].id)];
      }
      return true;
    }

    /** `Shipment::create`: a new pending shipment without a driver, with the
        next auto-increment id, appended to the table. */
    method CreateShipment(customerId: Id, origin: Coord, originAddress: string,
                          destination: Coord, destinationAddress: string,
                          weight: real, distanceKm: real, finalPrice: int)
      returns (s: Shipment)
      requires Valid()
      modifies this`shipments
      ensures Valid()
      ensures forall k :: 0 <= k < |old(shipments)| ==> old(shipments)[k].id != s.id
      ensures s == Shipment(s.id, customerId, None, origin, originAddress, destination,
                            destinationAddress, weight, distanceKm, finalPrice, StatusPending)
      ensures shipments == old(shipments) + [s]
    {
      s := Shipment(MaxShipmentId(shipments) + 1, customerId, None, origin, originAddress,
                    destination, destinationAddress, weight, distanceKm, finalPrice, StatusPending);
      shipments := shipments + [s];
    }
  }
}
