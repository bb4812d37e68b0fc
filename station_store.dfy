/**
 * The water-station store: six collections, selectors that look entries up
 * by station, and three actions that each replace one collection with an
 * updated copy.
 */
module StationStore {
  import opened Seqs

  datatype StationStatus = Operational | Maintenance | Offline

  datatype Station = Station(id: string, name: string, code: string, location: string,
                             capacityLiters: int, currentLevelLiters: int, dailyProductionLiters: int,
                             lastQualityCheck: string, status: StationStatus)

  datatype Customer = Customer(id: string, name: string, address: string, phone: Option<string>)

  datatype Driver = Driver(id: string, name: string, plateNumber: string)

  datatype OrderStatus = Pending | Preparing | OutForDelivery | Delivered | Cancelled

  datatype Order = Order(id: string, stationId: string, customerId: string, date: string,
                         itemsLiters: int, status: OrderStatus)

  datatype DeliveryStatus = Scheduled | InTransit | Delivered | Failed

  datatype Delivery = Delivery(id: string, stationId: string, orderId: string, driverId: string,
                               scheduledAt: string, deliveredAt: Option<string>, status: DeliveryStatus)

  datatype InventoryItem = InventoryItem(id: string, stationId: string, name: string, qty: int,
                                         unit: string, minQty: int)

  // ---------------------------------------------------------------------------
  // Selectors on one collection

  /** The filter predicate "the order belongs to station `id`". */
  function OrderAt(id: string): Order -> bool
  {
    (o: Order) => o.stationId == id
  }

  /** The orders of one station, in stored order. */
  function OrdersOf(orders: seq<Order>, id: string): (r: seq<Order>)
    ensures forall o :: o in r <==> o in orders && o.stationId == id
    ensures r == Filter(orders, OrderAt(id))
  {
    var r := Filter(orders, OrderAt(id));
    forall o ensures o in r <==> o in orders && o.stationId == id {
      FilterMembership(orders, OrderAt(id), o);
    }
    r
  }

  /** The filter predicate "the delivery belongs to station `id`". */
  function DeliveryAt(id: string): Delivery -> bool
  {
    (d: Delivery) => d.stationId == id
  }

  /** The deliveries of one station, in stored order. */
  function DeliveriesOf(deliveries: seq<Delivery>, id: string): (r: seq<Delivery>)
    ensures forall d :: d in r <==> d in deliveries && d.stationId == id
    ensures r == Filter(deliveries, DeliveryAt(id))
  {
    var r := Filter(deliveries, DeliveryAt(id));
    forall d ensures d in r <==> d in deliveries && d.stationId == id {
      FilterMembership(deliveries, DeliveryAt(id), d);
    }
    r
  }

  /** The filter predicate "the stock entry belongs to station `id`". */
  function StockAt(id: string): InventoryItem -> bool
  {
    (x: InventoryItem) => x.stationId == id
  }

  /** The inventory of one station, in stored order. */
  function InventoryOf(inventory: seq<InventoryItem>, id: string): (r: seq<InventoryItem>)
    ensures forall x :: x in r <==> x in inventory && x.stationId == id
    ensures r == Filter(inventory, StockAt(id))
  {
    var r := Filter(inventory, StockAt(id));
    forall x ensures x in r <==> x in inventory && x.stationId == id {
      FilterMembership(inventory, StockAt(id), x);
    }
    r
  }

  /** Selecting a station's entries from two stretches of a collection selects from each in turn, so the stored order is kept. */
  lemma SelectionsKeepOrder(o1: seq<Order>, o2: seq<Order>, d1: seq<Delivery>, d2: seq<Delivery>,
                            i1: seq<InventoryItem>, i2: seq<InventoryItem>, id: string)
    ensures OrdersOf(o1 + o2, id) == OrdersOf(o1, id) + OrdersOf(o2, id)
    ensures DeliveriesOf(d1 + d2, id) == DeliveriesOf(d1, id) + DeliveriesOf(d2, id)
    ensures InventoryOf(i1 + i2, id) == InventoryOf(i1, id) + InventoryOf(i2, id)
  {
    FilterAppend(o1, o2, OrderAt(id));
    FilterAppend(d1, d2, DeliveryAt(id));
    FilterAppend(i1, i2, StockAt(id));
  }

  /** The first station with that id, or none. */
  function StationIn(stations: seq<Station>, id: string): (r: Option<Station>)
    ensures r.Some? ==> exists i :: 0 <= i < |stations| && stations[i] == r.value && r.value.id == id &&
                                    forall j :: 0 <= j < i ==> stations[j].id != id
    ensures r.None? <==> forall i :: 0 <= i < |stations| ==> stations[i].id != id
  {
    match FindIndex(stations, (s: Station) => s.id == id)
    case None => None
    case Some(i) => Some(stations[i])
  }

  // ---------------------------------------------------------------------------
  // The updates the actions install

  /** The orders with the status of every order carrying `id` replaced. */
  function WithOrderStatus(orders: seq<Order>, id: string, status: OrderStatus): (r: seq<Order>)
    ensures |r| == |orders|
    ensures forall i :: 0 <= i < |orders| ==>
              r[i] == if orders[i].id == id then orders[i].(status := status) else orders[i]
  {
    Map(orders, (o: Order) => if o.id == id then o.(status := status) else o)
  }

  /** The deliveries with the status of every delivery carrying `id` replaced. */
  function WithDeliveryStatus(deliveries: seq<Delivery>, id: string, status: DeliveryStatus): (r: seq<Delivery>)
    ensures |r| == |deliveries|
    ensures forall i :: 0 <= i < |deliveries| ==>
              r[i] == if deliveries[i].id == id then deliveries[i].(status := status) else deliveries[i]
  {
    Map(deliveries, (d: Delivery) => if d.id == id then d.(status := status) else d)
  }

  /** An unknown id changes nothing. */
  lemma UnknownOrderUnchanged(orders: seq<Order>, id: string, status: OrderStatus)
    requires forall i :: 0 <= i < |orders| ==> orders[i].id != id
    ensures WithOrderStatus(orders, id, status) == orders
  {
  }

  lemma UnknownDeliveryUnchanged(deliveries: seq<Delivery>, id: string, status: DeliveryStatus)
    requires forall i :: 0 <= i < |deliveries| ==> deliveries[i].id != id
    ensures WithDeliveryStatus(deliveries, id, status) == deliveries
  {
  }

  /** Only the status moves: every other field of every order is as before, and a second update wins over the first. */
  lemma OrderStatusOnlyStatus(orders: seq<Order>, id: string, s1: OrderStatus, s2: OrderStatus)
    ensures forall i :: 0 <= i < |orders| ==>
              WithOrderStatus(orders, id, s1)[i].(status := orders[i].status) == orders[i]
    ensures WithOrderStatus(WithOrderStatus(orders, id, s1), id, s2) == WithOrderStatus(orders, id, s2)
  {
  }

  lemma DeliveryStatusOnlyStatus(deliveries: seq<Delivery>, id: string, s1: DeliveryStatus, s2: DeliveryStatus)
    ensures forall i :: 0 <= i < |deliveries| ==>
              WithDeliveryStatus(deliveries, id, s1)[i].(status := deliveries[i].status) == deliveries[i]
    ensures WithDeliveryStatus(WithDeliveryStatus(deliveries, id, s1), id, s2) == WithDeliveryStatus(deliveries, id, s2)
  {
  }

  /** A new order shows up first in its own station's list and nowhere else. */
  lemma AddOrderView(orders: seq<Order>, o: Order, id: string)
    ensures OrdersOf([o] + orders, id) == if o.stationId == id then [o] + OrdersOf(orders, id) else OrdersOf(orders, id)
  {
    assert ([o] + orders)[1..] == orders;
  }

  /** Updating a status and then selecting a station is selecting and then updating. */
  lemma {:induction false} StatusUpdateCommutesWithSelect(orders: seq<Order>, id: string, status: OrderStatus, station: string)
    ensures OrdersOf(WithOrderStatus(orders, id, status), station) == WithOrderStatus(OrdersOf(orders, station), id, status)
  {
    if orders != [] {
      var f := (o: Order) => if o.id == id then o.(status := status) else o;
      assert WithOrderStatus(orders, id, status)[1..] == WithOrderStatus(orders[1..], id, status);
      StatusUpdateCommutesWithSelect(orders[1..], id, status, station);
      var rest := OrdersOf(orders[1..], station);
      if orders[0].stationId == station {
        assert OrdersOf(orders, station) == [orders[0]] + rest;
        assert WithOrderStatus([orders[0]] + rest, id, status) == [f(orders[0])] + WithOrderStatus(rest, id, status);
      }
    }
  }

  // ---------------------------------------------------------------------------
  // The store

  class Store {
    var stations: seq<Station>
    var customers: seq<Customer>
    var drivers: seq<Driver>
    var orders: seq<Order>
    var deliveries: seq<Delivery>
    var inventory: seq<InventoryItem>

    /** The store starts from the given data. */
    constructor(stations: seq<Station>, customers: seq<Customer>, drivers: seq<Driver>,
                orders: seq<Order>, deliveries: seq<Delivery>, inventory: seq<InventoryItem>)
      ensures this.stations == stations && this.customers == customers && this.drivers == drivers
      ensures this.orders == orders && this.deliveries == deliveries && this.inventory == inventory
    {
      this.stations := stations;
      this.customers := customers;
      this.drivers := drivers;
      this.orders := orders;
      this.deliveries := deliveries;
      this.inventory := inventory;
    }

    /** `stationById` */
    function StationById(id: string): (r: Option<Station>)
      reads this
      ensures r.Some? ==> exists i :: 0 <= i < |stations| && stations[i] == r.value && r.value.id == id &&
                                      forall j :: 0 <= j < i ==> stations[j].id != id
      ensures r.None? <==> forall i :: 0 <= i < |stations| ==> stations[i].id != id
    {
      StationIn(stations, id)
    }

    /** `ordersByStation` */
    function OrdersByStation(id: string): (r: seq<Order>)
      reads this
      ensures forall o :: o in r <==> o in orders && o.stationId == id
      ensures r == Filter(orders, OrderAt(id))
    {
      OrdersOf(orders, id)
    }

    /** `deliveriesByStation` */
    function DeliveriesByStation(id: string): (r: seq<Delivery>)
      reads this
      ensures forall d :: d in r <==> d in deliveries && d.stationId == id
      ensures r == Filter(deliveries, DeliveryAt(id))
    {
      DeliveriesOf(deliveries, id)
    }

    /** `inventoryByStation` */
    function InventoryByStation(id: string): (r: seq<InventoryItem>)
      reads this
      ensures forall x :: x in r <==> x in inventory && x.stationId == id
      ensures r == Filter(inventory, StockAt(id))
    {
      InventoryOf(inventory, id)
    }

    /** `addOrder`: the new order goes first; nothing but the orders changes. */
    method AddOrder(o: Order)
      modifies this`orders
      ensures orders == [o] + old(orders)
      ensures OrdersByStation(o.stationId) == [o] + old(OrdersByStation(o.stationId))
    {
      AddOrderView(orders, o, o.stationId);
      orders := [o] + orders;
    }

    /** `updateOrderStatus`: nothing but the orders changes. */
    method UpdateOrderStatus(id: string, status: OrderStatus)
      modifies this`orders
      ensures orders == WithOrderStatus(old(orders), id, status)
    {
      orders := WithOrderStatus(orders, id, status);
    }

    /** `updateDeliveryStatus`: nothing but the deliveries change. */
    method UpdateDeliveryStatus(id: string, status: DeliveryStatus)
      modifies this`deliveries
      ensures deliveries == WithDeliveryStatus(old(deliveries), id, status)
    {
      deliveries := WithDeliveryStatus(deliveries, id, status);
    }
  }

  /** A sequence of actions leaves the collections no action names untouched. */
  method ActionsTouchOnlyTheirCollection(store: Store, o: Order, d: string)
    modifies store
    ensures store.stations == old(store.stations) && store.customers == old(store.customers)
    ensures store.drivers == old(store.drivers) && store.inventory == old(store.inventory)
    ensures store.orders == WithOrderStatus([o] + old(store.orders), o.id, Preparing)
    ensures store.deliveries == WithDeliveryStatus(old(store.deliveries), d, InTransit)
  {
    store.AddOrder(o);
    store.UpdateOrderStatus(o.id, Preparing);
    store.UpdateDeliveryStatus(d, InTransit);
  }
}
