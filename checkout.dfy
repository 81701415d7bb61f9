/**
 * The earlier checkout panel (src/app/dashboard/sales/components/Checkout.tsx).
 * It builds the same sale payload as the sales terminal, keeps the selected
 * customer in its own state, and reports failures differently.
 */
module Checkout {
  import opened Wrappers
  import opened Types
  import opened SaleData
  import Text
  import Cart

  const EmptyCartAlert: string := "Your cart is empty."
  const SuccessAlert: string := "Sale Completed Successfully!"
  const FailurePrefix: string := "Sale failed: "
  const DefaultFailure: string := "Check console."

  /** `` `Sale failed: ${message || "Check console."}` ``. */
  function FailureAlert(message: ServerMessage): (text: string)
    ensures FailurePrefix <= text
    ensures message.NoMessage? || message == TextMessage("") ==> text == FailurePrefix + DefaultFailure
    ensures message.TextMessage? && message.text != "" ==> text == FailurePrefix + message.text
    ensures message.ListMessage? ==> text == FailurePrefix + Text.Join(message.parts, ",")
  {
    FailurePrefix + MessageText(message, DefaultFailure, TemplateSeparator)
  }

  class CheckoutPanel {
    var cart: Cart.CartStore
    var selectedCustomer: Option<Customer>
    var paymentMethod: PaymentMethod
    var loading: bool

    constructor (cart: Cart.CartStore)
      ensures this.cart == cart && selectedCustomer == None && paymentMethod == Cash && !loading
    {
      this.cart := cart;
      selectedCustomer := None;
      paymentMethod := Cash;
      loading := false;
    }

    /**
     * `handleFinalizeSale`: an empty cart posts nothing; otherwise the
     * payload is posted, and only a successful post clears the cart and the
     * selected customer. `loading` is false afterwards on every path.
     */
    method HandleFinalizeSale(postOk: bool, message: ServerMessage)
      returns (posted: Option<SalePayload>, alertText: string)
      modifies this, cart
      ensures cart == old(cart) && paymentMethod == old(paymentMethod)
      ensures old(cart.items) == [] ==>
        posted == None && alertText == EmptyCartAlert && cart.items == []
        && selectedCustomer == old(selectedCustomer) && loading == old(loading)
      ensures old(cart.items) != [] ==>
        posted == Some(BuildSalePayload(old(selectedCustomer), old(paymentMethod), old(cart.items))) && !loading
      ensures old(cart.items) != [] && postOk ==>
        alertText == SuccessAlert && cart.items == [] && selectedCustomer == None
      ensures old(cart.items) != [] && !postOk ==>
        alertText == FailureAlert(message) && cart.items == old(cart.items) && selectedCustomer == old(selectedCustomer)
    {
      if |cart.items| == 0 {
        return None, EmptyCartAlert;
      }
      loading := true;
      var saleData := BuildSalePayload(selectedCustomer, paymentMethod, cart.items);
      posted := Some(saleData);
      if postOk {
        alertText := SuccessAlert;
        cart.ClearCart();
        selectedCustomer := None;
      } else {
        alertText := FailureAlert(message);
      }
      loading := false;
    }
  }
}
