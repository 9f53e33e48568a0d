/** The checkout page: the delivery-fee rule, the order it records on
    submit (from the cart, or from a direct "buy now" purchase), the cart
    clearing on the cart path, and the redirect when there is nothing to
    check out. */
module CheckoutPage {
  import opened Types
  import opened Cart
  import opened OrdersStore
  import Catalog

  /** From this pre-fee total on, delivery is free. */
  const FreeDeliveryThreshold := 1500
  /** The flat delivery fee below the threshold. */
  const DeliveryCharge := 199

  /** `deliveryFee`: 0 when the pre-fee total reaches the threshold, else
      the flat fee. */
  function DeliveryFee(total: int): (fee: int)
    ensures fee == 0 <==> total >= FreeDeliveryThreshold
    ensures fee == 0 || fee == DeliveryCharge
  {
    if total >= FreeDeliveryThreshold then 0 else DeliveryCharge
  }

  /** The router state a "buy now" button passes to the page. */
  datatype DirectPurchaseState = DirectPurchaseState(
    directPurchase: bool,
    product: Product,
    quantity: int,
    price: int,
    total: int)

  datatype FormData = FormData(name: string, phone: string, address: string, comment: string)

  datatype FormField = Name | Phone | Address | Comment

  /** `directState?.directPurchase === true`. */
  predicate IsDirectPurchase(directState: Option<DirectPurchaseState>)
  {
    directState.Some? && directState.value.directPurchase
  }

  /** `total`: the direct purchase's total, otherwise the cart total. */
  function PreFeeTotal(directState: Option<DirectPurchaseState>, cart: seq<CartLine>): (total: int)
    ensures IsDirectPurchase(directState) ==> total == directState.value.total
    ensures !IsDirectPurchase(directState) ==> total == ItemsTotal(CartOrderItems(cart))
  {
    CartOrderItemsAddUpToCartTotal(cart);
    if IsDirectPurchase(directState) then directState.value.total else CartTotal(cart)
  }

  /** `items.map(...)`: one order item per cart line, priced
      `product.price * quantity`. */
  function CartOrderItems(cart: seq<CartLine>): (items: seq<OrderItem>)
    ensures |items| == |cart|
    ensures forall i :: 0 <= i < |cart| ==>
      items[i].product == cart[i].product &&
      items[i].quantity == cart[i].quantity &&
      items[i].price == cart[i].product.price * cart[i].quantity
  {
    seq(|cart|, i requires 0 <= i < |cart| =>
      OrderItem(cart[i].product, cart[i].quantity, cart[i].product.price * cart[i].quantity))
  }

  /** The sum of the line prices of an order. */
  function ItemsTotal(items: seq<OrderItem>): int
  {
    if items == [] then 0 else items[0].price + ItemsTotal(items[1..])
  }

  /** The cart-path order items add up to the cart total. */
  lemma {:induction false} CartOrderItemsAddUpToCartTotal(cart: seq<CartLine>)
    ensures ItemsTotal(CartOrderItems(cart)) == CartTotal(cart)
    decreases |cart|
  {
    if cart != [] {
      CartOrderItemsAddUpToCartTotal(cart[1..]);
      assert CartOrderItems(cart)[1..] == CartOrderItems(cart[1..]);
    }
  }

  /** The order `handleSubmit` hands to `addOrder`. On either path its total
      is the sum of its line prices plus the delivery fee, and only the
      address and the phone of the form reach it. */
  function BuildOrderInput(directState: Option<DirectPurchaseState>, cart: seq<CartLine>, form: FormData): (input: OrderInput)
    ensures input.total == ItemsTotal(input.items) + DeliveryFee(PreFeeTotal(directState, cart))
    ensures input.total == PreFeeTotal(directState, cart) + DeliveryFee(PreFeeTotal(directState, cart))
    ensures input.address == form.address && input.phone == form.phone
    ensures IsDirectPurchase(directState) ==>
      input.items == [OrderItem(directState.value.product, directState.value.quantity, directState.value.total)]
    ensures !IsDirectPurchase(directState) ==>
      |input.items| == |cart| &&
      forall i :: 0 <= i < |cart| ==>
        input.items[i].product == cart[i].product &&
        input.items[i].quantity == cart[i].quantity &&
        input.items[i].price == cart[i].product.price * cart[i].quantity
  {
    var fee := DeliveryFee(PreFeeTotal(directState, cart));
    if IsDirectPurchase(directState) then
      var ds := directState.value;
      var items := [OrderItem(ds.product, ds.quantity, ds.total)];
      assert ItemsTotal(items) == ds.total by {
        assert items[1..] == [];
      }
      OrderInput(items, ds.total + fee, form.address, form.phone)
    else
      CartOrderItemsAddUpToCartTotal(cart);
      OrderInput(CartOrderItems(cart), CartTotal(cart) + fee, form.address, form.phone)
  }

  /** The form after one input's `onChange`. */
  function WithField(form: FormData, field: FormField, value: string): FormData
  {
    match field
    case Name => form.(name := value)
    case Phone => form.(phone := value)
    case Address => form.(address := value)
    case Comment => form.(comment := value)
  }

  class Checkout {
    const directState: Option<DirectPurchaseState>
    var form: FormData
    var isSubmitting: bool
    var isSuccess: bool

    /** The page opens with an empty form, not submitting, not succeeded. */
    constructor (directState: Option<DirectPurchaseState>)
      ensures this.directState == directState
      ensures form == FormData("", "", "", "") && !isSubmitting && !isSuccess
    {
      this.directState := directState;
      form := FormData("", "", "", "");
      isSubmitting, isSuccess := false, false;
    }

    /** The guard before rendering: an empty cart, no success yet and no
        direct purchase send the shopper to the cart instead. */
    predicate RedirectsToCart(cart: seq<CartLine>)
      reads this
      ensures RedirectsToCart(cart) ==>
        CartOrderItems(cart) == [] && PreFeeTotal(directState, cart) == 0 && !isSuccess
      ensures !RedirectsToCart(cart) ==> |cart| > 0 || isSuccess || IsDirectPurchase(directState)
    {
      |cart| == 0 && !isSuccess && !IsDirectPurchase(directState)
    }

    /** The form is on screen: no redirect and no success message. */
    predicate ShowsForm(cart: seq<CartLine>)
      reads this
      ensures ShowsForm(cart) ==> !isSuccess && (|cart| > 0 || IsDirectPurchase(directState))
    {
      !RedirectsToCart(cart) && !isSuccess
    }

    /** A submit goes through: the form is shown, the submit button is not
        disabled, and the three `required` inputs are filled in. */
    predicate CanSubmit(cart: seq<CartLine>)
      reads this
      ensures CanSubmit(cart) ==>
        !isSubmitting && !isSuccess && (|cart| > 0 || IsDirectPurchase(directState)) &&
        form.name != "" && form.phone != "" && form.address != ""
    {
      ShowsForm(cart) && !isSubmitting &&
      form.name != "" && form.phone != "" && form.address != ""
    }

    /** One input's `onChange`: `setFormData({ ...formData, field: value })`. */
    method Edit(field: FormField, value: string)
      modifies this
      ensures form == WithField(old(form), field, value)
      ensures isSubmitting == old(isSubmitting) && isSuccess == old(isSuccess)
    {
      form := WithField(form, field, value);
    }

    /** `handleSubmit`, with the wait left out. When the submit goes
        through, the order is recorded first, the cart is emptied on the
        cart path only, and success is set last; the button stays disabled
        afterwards, so one page records at most one order. A submit that
        cannot go through changes nothing. Returns the cart contents after
        the submit. */
    method Submit(orders: Orders, cart: seq<CartLine>, now: Clock) returns (cartAfter: seq<CartLine>)
      modifies this, orders
      ensures form == old(form)
      ensures old(CanSubmit(cart)) ==>
        orders.orders == [NewOrder(BuildOrderInput(directState, cart, form), now)] + old(orders.orders) &&
        cartAfter == (if IsDirectPurchase(directState) then cart else []) &&
        isSubmitting && isSuccess &&
        !RedirectsToCart(cartAfter) && !CanSubmit(cartAfter)
      ensures !old(CanSubmit(cart)) ==>
        orders.orders == old(orders.orders) && cartAfter == cart &&
        isSubmitting == old(isSubmitting) && isSuccess == old(isSuccess)
    {
      cartAfter := cart;
      if !CanSubmit(cart) {
        return;
      }
      isSubmitting := true;
      orders.AddOrder(BuildOrderInput(directState, cart, form), now);
      if !IsDirectPurchase(directState) {
        cartAfter := [];
      }
      isSuccess := true;
    }
  }

  /** The worked examples: 450 x 1 + 590 x 2 = 1630 reaches the threshold,
      so the order total is 1630 with two items; a 300 rouble direct
      purchase pays the fee, 499 in all. */
  lemma CheckoutExamples(form: FormData, product: Product)
    ensures var cart := [CartLine(Catalog.P3, 1, None), CartLine(Catalog.P4, 2, None)];
            var input := BuildOrderInput(None, cart, form);
            CartTotal(cart) == 1630 && DeliveryFee(1630) == 0 &&
            input.total == 1630 && |input.items| == 2
    ensures var direct := Some(DirectPurchaseState(true, product, 1, 300, 300));
            var input := BuildOrderInput(direct, [], form);
            DeliveryFee(300) == 199 && input.total == 499 && |input.items| == 1
  {
    var cart := [CartLine(Catalog.P3, 1, None), CartLine(Catalog.P4, 2, None)];
    assert cart[1..][1..] == [];
    assert CartTotal(cart[1..]) == 1180;
  }
}
