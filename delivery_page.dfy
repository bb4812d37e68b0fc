/**
 * The delivery page of the water-station dashboard: which deliveries a user
 * sees, the search and status filters, the three counters and the buttons
 * each delivery offers.
 */
module DeliveryPage {
  import opened Seqs
  import opened Text
  import opened AquaTypes

  /** A delivery as the page lists it; the rider id is null while no rider is assigned. */
  datatype Delivery = Delivery(id: string, orderId: string, customer: string, riderId: Option<string>, status: string)

  const AllStatus := "all"
  const Pending := "pending"
  const Assigned := "assigned"
  const PickedUp := "picked-up"
  const InTransit := "in-transit"
  const Delivered := "delivered"

  /** Riders see only the deliveries assigned to them; owners and managers see all. */
  function Visible(user: User, deliveries: seq<Delivery>): (r: seq<Delivery>)
    ensures user.role != DeliveryRole ==> r == deliveries
    ensures forall d :: d in r <==> d in deliveries && (user.role == DeliveryRole ==> d.riderId == Some(user.id))
  {
    if user.role == DeliveryRole then
      var r := Filter(deliveries, AssignedTo(user.id));
      forall d ensures d in r <==> d in deliveries && d.riderId == Some(user.id) {
        FilterMembership(deliveries, AssignedTo(user.id), d);
      }
      r
    else deliveries
  }

  function AssignedTo(id: string): Delivery -> bool
  {
    (d: Delivery) => d.riderId == Some(id)
  }

  /** Customer name or order id contains the search term, ignoring case. */
  predicate MatchesSearch(d: Delivery, term: string)
  {
    Includes(ToLower(d.customer), ToLower(term)) || Includes(ToLower(d.orderId), ToLower(term))
  }

  predicate MatchesFilter(d: Delivery, filterStatus: string)
  {
    filterStatus == AllStatus || d.status == filterStatus
  }

  function Passes(term: string, filterStatus: string): Delivery -> bool
  {
    (d: Delivery) => MatchesSearch(d, term) && MatchesFilter(d, filterStatus)
  }

  /** `getFilteredDeliveries`: the role filter, then search and status together. */
  function FilteredDeliveries(user: User, deliveries: seq<Delivery>, term: string, filterStatus: string): (r: seq<Delivery>)
    ensures forall d :: d in r <==> d in deliveries && (user.role == DeliveryRole ==> d.riderId == Some(user.id))
                                    && MatchesSearch(d, term) && MatchesFilter(d, filterStatus)
  {
    var r := Filter(Visible(user, deliveries), Passes(term, filterStatus));
    forall d ensures d in r <==> d in Visible(user, deliveries) && MatchesSearch(d, term) && MatchesFilter(d, filterStatus) {
      FilterMembership(Visible(user, deliveries), Passes(term, filterStatus), d);
    }
    r
  }

  /** An empty search and the 'all' status keep every visible delivery; the filters only ever drop deliveries, in order. */
  lemma FilterShape(user: User, deliveries: seq<Delivery>, term: string, filterStatus: string)
    ensures FilteredDeliveries(user, deliveries, [], AllStatus) == Visible(user, deliveries)
    ensures user.role == DeliveryRole ==>
              FilteredDeliveries(user, deliveries, term, filterStatus)
              == Filter(deliveries, Both(AssignedTo(user.id), Passes(term, filterStatus)))
    ensures user.role != DeliveryRole ==>
              FilteredDeliveries(user, deliveries, term, filterStatus) == Filter(deliveries, Passes(term, filterStatus))
  {
    forall d ensures Passes([], AllStatus)(d) {
      IncludesEmpty(ToLower(d.customer));
    }
    FilterAll(Visible(user, deliveries), Passes([], AllStatus));
    if user.role == DeliveryRole {
      FilterFilter(deliveries, AssignedTo(user.id), Passes(term, filterStatus));
    }
  }

  /** `totalDeliveries`: the user's share of deliveries, ignoring search and status. */
  function TotalDeliveries(user: User, deliveries: seq<Delivery>): nat
  {
    |Visible(user, deliveries)|
  }

  predicate IsActive(d: Delivery)
  {
    d.status == InTransit || d.status == PickedUp
  }

  predicate IsDelivered(d: Delivery)
  {
    d.status == Delivered
  }

  /** `activeDeliveries` */
  function ActiveDeliveries(filtered: seq<Delivery>): nat
  {
    |Filter(filtered, (d: Delivery) => IsActive(d))|
  }

  /** `completedToday` */
  function CompletedToday(filtered: seq<Delivery>): nat
  {
    |Filter(filtered, (d: Delivery) => IsDelivered(d))|
  }

  /** The counters: the filtered list never exceeds the total, and no delivery is both active and completed. */
  lemma CounterBounds(user: User, deliveries: seq<Delivery>, term: string, filterStatus: string)
    ensures |FilteredDeliveries(user, deliveries, term, filterStatus)| <= TotalDeliveries(user, deliveries)
    ensures ActiveDeliveries(FilteredDeliveries(user, deliveries, term, filterStatus))
            + CompletedToday(FilteredDeliveries(user, deliveries, term, filterStatus))
            <= |FilteredDeliveries(user, deliveries, term, filterStatus)|
  {
    assert InTransit != Delivered && PickedUp != Delivered;
    FilterDisjoint(FilteredDeliveries(user, deliveries, term, filterStatus),
                   (d: Delivery) => IsActive(d), (d: Delivery) => IsDelivered(d));
  }

  /** The status a rider's button moves a delivery to. */
  function NextStatus(status: string): Option<string>
  {
    if status == Assigned then Some(PickedUp)
    else if status == PickedUp then Some(InTransit)
    else if status == InTransit then Some(Delivered)
    else None
  }

  /** Position in the delivery lifecycle; unknown statuses have none. */
  function Stage(status: string): Option<nat>
  {
    if status == Pending then Some(0)
    else if status == Assigned then Some(1)
    else if status == PickedUp then Some(2)
    else if status == InTransit then Some(3)
    else if status == Delivered then Some(4)
    else None
  }

  /**
   * A rider's button always moves one stage forward; pending (no rider yet)
   * and delivered have no button, and from 'assigned' three presses reach
   * 'delivered'.
   */
  lemma NextStatusAdvances(status: string)
    ensures NextStatus(status).Some? ==>
              Stage(status).Some? && Stage(NextStatus(status).value) == Some(Stage(status).value + 1)
    ensures NextStatus(status).Some? <==> Stage(status).Some? && 1 <= Stage(status).value <= 3
    ensures NextStatus(Pending).None? && NextStatus(Delivered).None?
    ensures NextStatus(Assigned) == Some(PickedUp) && NextStatus(PickedUp) == Some(InTransit)
            && NextStatus(InTransit) == Some(Delivered)
  {
    assert Pending != Assigned && Pending != PickedUp && Pending != InTransit && Pending != Delivered;
    assert Assigned != PickedUp && Assigned != InTransit && Assigned != Delivered;
    assert PickedUp != InTransit && PickedUp != Delivered && InTransit != Delivered;
  }

  /** The rider's status button on a delivery card, if any. */
  function RiderAction(user: User, d: Delivery): (r: Option<string>)
    ensures r.Some? <==> user.role == DeliveryRole && d.riderId == Some(user.id) && NextStatus(d.status).Some?
    ensures r.Some? ==> r == NextStatus(d.status)
  {
    if user.role == DeliveryRole && d.riderId == Some(user.id) then NextStatus(d.status) else None
  }

  const ViewDetails := "View Details"
  const AssignRider := "Assign Rider"

  /** The buttons owners and managers get on a delivery card. */
  function ManagerActions(user: User, d: Delivery): (r: seq<string>)
    ensures AssignRider in r <==> IsStaffManager(user.role) && d.status == Pending
    ensures ViewDetails in r <==> IsStaffManager(user.role)
  {
    if IsStaffManager(user.role) then [ViewDetails] + (if d.status == Pending then [AssignRider] else []) else []
  }

  /** No user gets both kinds of buttons: riders advance their own deliveries, owners and managers assign. */
  lemma ActionsExclusive(user: User, d: Delivery)
    ensures RiderAction(user, d).Some? ==> ManagerActions(user, d) == []
    ensures ManagerActions(user, d) != [] ==> RiderAction(user, d).None?
  {
  }

  const PendingColor := "bg-gray-100 text-gray-800"
  const AssignedColor := "bg-blue-100 text-blue-800"
  const PickedUpColor := "bg-yellow-100 text-yellow-800"
  const InTransitColor := "bg-orange-100 text-orange-800"
  const DeliveredColor := "bg-green-100 text-green-800"

  /** `getStatusColor`: unknown statuses share the pending grey. */
  function GetStatusColor(status: string): (c: string)
    ensures Stage(status).None? ==> c == PendingColor
    ensures Stage(status).Some? && status != Pending ==> c != PendingColor
  {
    assert PendingColor[3] == 'g' && AssignedColor[3] == 'b' && PickedUpColor[3] == 'y';
    assert InTransitColor[3] == 'o' && DeliveredColor[3] == 'g' && DeliveredColor[4] == 'r' && PendingColor[4] == 'r';
    assert DeliveredColor[5] == 'e' && PendingColor[5] == 'a';
    if status == Pending then PendingColor
    else if status == Assigned then AssignedColor
    else if status == PickedUp then PickedUpColor
    else if status == InTransit then InTransitColor
    else if status == Delivered then DeliveredColor
    else PendingColor
  }
}
