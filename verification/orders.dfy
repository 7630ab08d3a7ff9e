/** The vendor's order table (components/shared/VendorSide/home/orders/order.tsx):
    a status picker per order and the four per-status counters below the
    table. */
module Orders {
  import opened Wrappers
  import Seqs

  datatype OrderStatus = Preparing | OnTheWay | Completed | Refunded

  datatype Order = Order(
    id: int, customerName: string, customerAvatar: string, items: string,
    total: string, status: OrderStatus, time: string, notes: Option<string>)

  const MariaOrder := Order(1, "Maria Santos", "/shopLogo/alingRosa.png", "Chicken Breast (2kg), Pork Belly (1kg)",
    "\U{20B1}610", Preparing, "10:30 AM", Some("I want only breast part, please remove skin"))
  const JuanOrder := Order(2, "Juan Dela Cruz", "/shopLogo/mangBerto.png", "Fresh Tomatoes (3kg)",
    "\U{20B1}150", OnTheWay, "9:45 AM", Some("Please pick the ripest ones"))
  const AnaOrder := Order(3, "Ana Reyes", "/shopLogo/nenita.png", "Ground Pork (1.5kg)",
    "\U{20B1}375", Completed, "8:20 AM", Some("Please grind it finely for lumpia"))
  const PedroOrder := Order(4, "Pedro Cruz", "/shopLogo/alingLita.png", "Chicken Wings (1kg)",
    "\U{20B1}200", Preparing, "11:00 AM", Some("Extra spicy marinade please"))

  const InitialOrders: seq<Order> := [MariaOrder, JuanOrder, AnaOrder, PedroOrder]

  /** `orders.map(order => order.id === orderId ? { ...order, status: newStatus } : order)` */
  function SetStatus(orders: seq<Order>, orderId: int, newStatus: OrderStatus): (r: seq<Order>)
    ensures |r| == |orders|
    ensures forall i :: 0 <= i < |r| && orders[i].id == orderId ==> r[i] == orders[i].(status := newStatus)
    ensures forall i :: 0 <= i < |r| && orders[i].id != orderId ==> r[i] == orders[i]
  {
    seq(|orders|, i requires 0 <= i < |orders| =>
      if orders[i].id == orderId then orders[i].(status := newStatus) else orders[i])
  }

  /** A status change never touches ids or anything but the status. */
  lemma SetStatusKeepsOtherFields(orders: seq<Order>, orderId: int, newStatus: OrderStatus)
    ensures forall i :: 0 <= i < |orders| ==>
              SetStatus(orders, orderId, newStatus)[i].(status := orders[i].status) == orders[i]
  {
  }

  /** A status change for an id no order has leaves the orders as they are. */
  lemma SetStatusUnknownId(orders: seq<Order>, orderId: int, newStatus: OrderStatus)
    requires forall i :: 0 <= i < |orders| ==> orders[i].id != orderId
    ensures SetStatus(orders, orderId, newStatus) == orders
  {
  }

  function HasStatus(status: OrderStatus): Order -> bool {
    (o: Order) => o.status == status
  }

  /** `getOrderCount(status)`: `orders.filter(order => order.status === status).length` */
  function CountStatus(orders: seq<Order>, status: OrderStatus): (n: nat)
    ensures n <= |orders|
  {
    Seqs.Count(orders, HasStatus(status))
  }

  /** Counting over a split list adds up. */
  lemma CountSplit(a: seq<Order>, b: seq<Order>, status: OrderStatus)
    ensures CountStatus(a + b, status) == CountStatus(a, status) + CountStatus(b, status)
  {
    Seqs.CountAppend(a, b, HasStatus(status));
  }

  /** A single order counts once under its own status and nowhere else. */
  lemma CountOne(o: Order, status: OrderStatus)
    ensures CountStatus([o], status) == if o.status == status then 1 else 0
  {
    assert [o][1..] == [];
  }

  /** The four counters add up to the number of orders. */
  lemma {:induction false} CountsSumToTotal(orders: seq<Order>)
    ensures CountStatus(orders, Preparing) + CountStatus(orders, OnTheWay) +
            CountStatus(orders, Completed) + CountStatus(orders, Refunded) == |orders|
    decreases |orders|
  {
    if orders != [] {
      var rest := orders[1..];
      assert orders == [orders[0]] + rest;
      CountsSumToTotal(rest);
      CountSplit([orders[0]], rest, Preparing);
      CountSplit([orders[0]], rest, OnTheWay);
      CountSplit([orders[0]], rest, Completed);
      CountSplit([orders[0]], rest, Refunded);
      CountOne(orders[0], Preparing);
      CountOne(orders[0], OnTheWay);
      CountOne(orders[0], Completed);
      CountOne(orders[0], Refunded);
    }
  }

  predicate UniqueIds(orders: seq<Order>) {
    forall i, j :: 0 <= i < j < |orders| ==> orders[i].id != orders[j].id
  }

  /** With unique ids, moving one order from status `a` to a different
      status `b` lowers the count of `a` by one, raises that of `b` by one
      and leaves the other counts alone. */
  lemma MoveOrderCounts(orders: seq<Order>, k: nat, b: OrderStatus, other: OrderStatus)
    requires UniqueIds(orders) && k < |orders| && orders[k].status != b
    requires other != orders[k].status && other != b
    ensures var after := SetStatus(orders, orders[k].id, b);
            CountStatus(after, orders[k].status) == CountStatus(orders, orders[k].status) - 1 &&
            CountStatus(after, b) == CountStatus(orders, b) + 1 &&
            CountStatus(after, other) == CountStatus(orders, other)
  {
    var o := orders[k];
    var a := o.status;
    var after := SetStatus(orders, o.id, b);
    var pre := orders[..k];
    var post := orders[k + 1..];
    assert orders == pre + [o] + post;
    assert after == pre + [o.(status := b)] + post;
    forall s: OrderStatus
      ensures CountStatus(orders, s) == CountStatus(pre, s) + CountStatus([o], s) + CountStatus(post, s)
      ensures CountStatus(after, s) == CountStatus(pre, s) + CountStatus([o.(status := b)], s) + CountStatus(post, s)
    {
      CountSplit(pre + [o], post, s);
      CountSplit(pre, [o], s);
      CountSplit(pre + [o.(status := b)], post, s);
      CountSplit(pre, [o.(status := b)], s);
    }
    CountOne(o, a);
    CountOne(o, b);
    CountOne(o, other);
    CountOne(o.(status := b), a);
    CountOne(o.(status := b), b);
    CountOne(o.(status := b), other);
  }

  /** The counters start at 2 preparing, 1 on the way, 1 completed and 0
      refunded. */
  lemma InitialCounts()
    ensures CountStatus(InitialOrders, Preparing) == 2
    ensures CountStatus(InitialOrders, OnTheWay) == 1
    ensures CountStatus(InitialOrders, Completed) == 1
    ensures CountStatus(InitialOrders, Refunded) == 0
  {
    var os := InitialOrders;
    var o0, o1, o2, o3 := os[0], os[1], os[2], os[3];
    assert os == [o0, o1, o2, o3];
    assert o0.status == Preparing && o1.status == OnTheWay;
    assert o2.status == Completed && o3.status == Preparing;
    CountOfFour(o0, o1, o2, o3, Preparing);
    CountOfFour(o0, o1, o2, o3, OnTheWay);
    CountOfFour(o0, o1, o2, o3, Completed);
    CountOfFour(o0, o1, o2, o3, Refunded);
  }

  lemma CountOfFour(o0: Order, o1: Order, o2: Order, o3: Order, s: OrderStatus)
    ensures CountStatus([o0, o1, o2, o3], s) ==
            (if o0.status == s then 1 else 0) + (if o1.status == s then 1 else 0) +
            (if o2.status == s then 1 else 0) + (if o3.status == s then 1 else 0)
  {
    assert [o0, o1, o2, o3] == [o0] + ([o1] + ([o2] + [o3]));
    CountSplit([o0], [o1] + ([o2] + [o3]), s);
    CountSplit([o1], [o2] + [o3], s);
    CountSplit([o2], [o3], s);
    CountOne(o0, s);
    CountOne(o1, s);
    CountOne(o2, s);
    CountOne(o3, s);
  }

  class OrdersComponent {
    var orders: seq<Order>

    constructor ()
      ensures orders == InitialOrders
    {
      orders := InitialOrders;
    }

    /** `handleStatusChange` */
    method HandleStatusChange(orderId: int, newStatus: OrderStatus)
      modifies this
      ensures orders == SetStatus(old(orders), orderId, newStatus)
    {
      orders := SetStatus(orders, orderId, newStatus);
    }

    /** `getOrderCount` on the current orders. */
    function GetOrderCount(status: OrderStatus): (n: nat)
      reads this
      ensures n <= |orders|
    {
      CountStatus(orders, status)
    }
  }
}
