/** The orders store: an append-only order history, newest first. */
module OrdersStore {
  import opened Types
  import opened Seqs

  datatype OrderItem = OrderItem(product: Product, quantity: int, price: int)

  datatype OrderStatus = Pending | Confirmed | Delivered

  datatype Order = Order(
    id: string,
    items: seq<OrderItem>,
    total: int,
    status: OrderStatus,
    createdAt: string,
    address: string,
    phone: string)

  /** What a caller of `addOrder` supplies: an order without id, creation
      time and status. */
  datatype OrderInput = OrderInput(items: seq<OrderItem>, total: int, address: string, phone: string)

  /** The record `addOrder` builds: the caller's fields, an id derived from
      the clock, the clock's timestamp and the fixed status `confirmed`. */
  function NewOrder(input: OrderInput, now: Clock): Order
  {
    Order(
      id := "order-" + Decimal(now.millis),
      items := input.items,
      total := input.total,
      status := Confirmed,
      createdAt := now.iso,
      address := input.address,
      phone := input.phone)
  }

  class Orders {
    var orders: seq<Order>

    /** The store starts with an empty history. */
    constructor ()
      ensures orders == []
    {
      orders := [];
    }

    /** `addOrder`: prepends the new order; the earlier history follows it
        unchanged. */
    method AddOrder(input: OrderInput, now: Clock)
      modifies this
      ensures orders == [NewOrder(input, now)] + old(orders)
      ensures |orders| == |old(orders)| + 1 && orders[1..] == old(orders)
      ensures orders[0].status == Confirmed
      ensures orders[0].items == input.items && orders[0].total == input.total
      ensures orders[0].address == input.address && orders[0].phone == input.phone
      ensures orders[0].id == "order-" + Decimal(now.millis) && orders[0].createdAt == now.iso
    {
      orders := [NewOrder(input, now)] + orders;
    }

    /** `getOrders`: the stored history, as stored. */
    method GetOrders() returns (r: seq<Order>)
      ensures r == orders
    {
      r := orders;
    }
  }
}
