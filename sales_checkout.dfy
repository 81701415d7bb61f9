/**
 * The sales terminal's checkout panel (src/app/dashboard/sales/components/temp.tsx):
 * the customer search filter, the Pay button routing and the sale submission.
 * The POST to /sales is an input (`postOk`, and the server's `message` on
 * failure); the browser alert is returned as text.
 */
module SalesCheckout {
  import opened Wrappers
  import opened Types
  import opened SaleData
  import Text
  import Cart

  /** A customer matches when the lower-cased query is in the lower-cased name, or the raw query is in the phone. */
  predicate MatchesQuery(c: Customer, query: string) {
    Text.Includes(Text.ToLower(c.name), Text.ToLower(query)) || Text.Includes(c.phone, query)
  }

  /** `customers.filter(...)`: the matching customers, in their original order. */
  function FilterCustomers(customers: seq<Customer>, query: string): (r: seq<Customer>)
    ensures |r| <= |customers|
  {
    if customers == [] then []
    else if MatchesQuery(customers[0], query) then [customers[0]] + FilterCustomers(customers[1..], query)
    else FilterCustomers(customers[1..], query)
  }

  /** A customer is listed exactly when it is one of the customers and matches the query. */
  lemma {:induction false} FilterMembers(customers: seq<Customer>, query: string)
    ensures forall c :: c in FilterCustomers(customers, query) <==> c in customers && MatchesQuery(c, query)
  {
    if customers != [] {
      FilterMembers(customers[1..], query);
      assert customers == [customers[0]] + customers[1..];
    }
  }

  /** Filtering distributes over concatenation, so the kept customers stay in their order and keep their repeats. */
  lemma {:induction false} FilterAppend(a: seq<Customer>, b: seq<Customer>, query: string)
    ensures FilterCustomers(a + b, query) == FilterCustomers(a, query) + FilterCustomers(b, query)
  {
    if a == [] {
      assert a + b == b;
    } else {
      var head := if MatchesQuery(a[0], query) then [a[0]] else [];
      assert (a + b)[0] == a[0];
      assert (a + b)[1..] == a[1..] + b;
      assert FilterCustomers(a + b, query) == head + FilterCustomers(a[1..] + b, query);
      assert FilterCustomers(a, query) == head + FilterCustomers(a[1..], query);
      FilterAppend(a[1..], b, query);
    }
  }

  /** A single customer is kept exactly when it matches. */
  lemma FilterSingle(c: Customer, query: string)
    ensures FilterCustomers([c], query) == if MatchesQuery(c, query) then [c] else []
  {
    assert [c][1..] == [];
  }

  /** An empty search box lists every customer. */
  lemma {:induction false} EmptyQueryKeepsAll(customers: seq<Customer>)
    ensures FilterCustomers(customers, "") == customers
  {
    if customers != [] {
      assert Text.ToLower("") == "";
      Text.IncludesEmpty(Text.ToLower(customers[0].name));
      EmptyQueryKeepsAll(customers[1..]);
      assert customers == [customers[0]] + customers[1..];
    }
  }

  /** Filtering an already filtered list with the same query changes nothing. */
  lemma {:induction false} FilterIdempotent(customers: seq<Customer>, query: string)
    ensures FilterCustomers(FilterCustomers(customers, query), query) == FilterCustomers(customers, query)
  {
    if customers != [] {
      FilterIdempotent(customers[1..], query);
      if MatchesQuery(customers[0], query) {
        var r := FilterCustomers(customers, query);
        assert r[0] == customers[0];
        assert r[1..] == FilterCustomers(customers[1..], query);
      }
    }
  }

  const EmptyCartFinalizeAlert: string := "Cannot complete sale: Your cart is empty."
  const EmptyCartPayAlert: string := "Your cart is empty."
  const SuccessAlert: string := "Sale Completed Successfully!"
  const FailurePrefix: string := "Sale Failed: "
  const DefaultFailure: string := "Sale failed. Please check the console for details."

  /** The alert after a failed post: a list message joined with ", ", a non-empty text as is, else the default. */
  function FailureAlert(message: ServerMessage): (text: string)
    ensures FailurePrefix <= text
    ensures message.NoMessage? ==> text == FailurePrefix + DefaultFailure
    ensures message.TextMessage? && message.text != "" ==> text == FailurePrefix + message.text
  {
    FailurePrefix + MessageText(message, DefaultFailure, JoinSeparator)
  }

  /** What pressing Pay did. */
  datatype PayOutcome =
    | CartWasEmpty
    | CashDialogOpened
    | Finalized(posted: Option<SalePayload>, alertText: string)

  class SalesTerminal {
    var cart: Cart.CartStore
    var customers: seq<Customer>
    var selectedCustomer: Option<Customer>
    var paymentMethod: PaymentMethod
    var customerSearchQuery: string
    var isCashDialogOpen: bool
    var loading: bool

    constructor (cart: Cart.CartStore)
      ensures this.cart == cart && customers == [] && selectedCustomer == None
      ensures paymentMethod == Cash && customerSearchQuery == "" && !isCashDialogOpen && !loading
    {
      this.cart := cart;
      customers := [];
      selectedCustomer := None;
      paymentMethod := Cash;
      customerSearchQuery := "";
      isCashDialogOpen := false;
      loading := false;
    }

    /** The list shown in the customer search. */
    function FilteredCustomers(): (r: seq<Customer>)
      reads this
      ensures forall c :: c in r <==> c in customers && MatchesQuery(c, customerSearchQuery)
    {
      FilterMembers(customers, customerSearchQuery);
      FilterCustomers(customers, customerSearchQuery)
    }

    /**
     * `handleFinalizeSale`. An empty cart posts nothing and changes nothing.
     * Otherwise the payload is built from the selected customer, the method
     * and the cart; success clears the cart, the customer, the query and the
     * dialog; failure keeps them. `loading` ends false either way.
     */
    method HandleFinalizeSale(postOk: bool, message: ServerMessage)
      returns (posted: Option<SalePayload>, alertText: string)
      modifies this, cart
      ensures cart == old(cart) && customers == old(customers) && paymentMethod == old(paymentMethod)
      ensures old(cart.items) == [] ==>
        && posted == None && alertText == EmptyCartFinalizeAlert
        && cart.items == [] && selectedCustomer == old(selectedCustomer)
        && customerSearchQuery == old(customerSearchQuery)
        && isCashDialogOpen == old(isCashDialogOpen) && loading == old(loading)
      ensures old(cart.items) != [] ==>
        && posted == Some(BuildSalePayload(old(selectedCustomer), old(paymentMethod), old(cart.items)))
        && !loading
      ensures old(cart.items) != [] && postOk ==>
        && alertText == SuccessAlert && cart.items == [] && selectedCustomer == None
        && customerSearchQuery == "" && !isCashDialogOpen
      ensures old(cart.items) != [] && !postOk ==>
        && alertText == FailureAlert(message) && cart.items == old(cart.items)
        && selectedCustomer == old(selectedCustomer)
        && customerSearchQuery == old(customerSearchQuery) && isCashDialogOpen == old(isCashDialogOpen)
    {
      if |cart.items| == 0 {
        return None, EmptyCartFinalizeAlert;
      }
      loading := true;
      var saleData := BuildSalePayload(selectedCustomer, paymentMethod, cart.items);
      posted := Some(saleData);
      if postOk {
        alertText := SuccessAlert;
        cart.ClearCart();
        selectedCustomer := None;
        customerSearchQuery := "";
        isCashDialogOpen := false;
      } else {
        alertText := FailureAlert(message);
      }
      loading := false;
    }

    /**
     * `handlePayButtonPress`: an empty cart does nothing but alert; Cash
     * opens the tendered dialog without posting; any other method finalizes
     * at once.
     */
    method HandlePayButtonPress(postOk: bool, message: ServerMessage) returns (outcome: PayOutcome)
      modifies this, cart
      ensures cart == old(cart) && customers == old(customers) && paymentMethod == old(paymentMethod)
      ensures old(cart.items) == [] ==>
        outcome == CartWasEmpty && cart.items == [] && isCashDialogOpen == old(isCashDialogOpen)
        && selectedCustomer == old(selectedCustomer) && customerSearchQuery == old(customerSearchQuery)
        && loading == old(loading)
      ensures old(cart.items) != [] && old(paymentMethod) == Cash ==>
        outcome == CashDialogOpened && isCashDialogOpen && cart.items == old(cart.items)
        && selectedCustomer == old(selectedCustomer) && customerSearchQuery == old(customerSearchQuery)
        && loading == old(loading)
      ensures old(cart.items) != [] && old(paymentMethod) != Cash ==>
        && outcome.Finalized?
        && outcome.posted == Some(BuildSalePayload(old(selectedCustomer), old(paymentMethod), old(cart.items)))
        && !loading
      ensures old(cart.items) != [] && old(paymentMethod) != Cash && postOk ==>
        && outcome.Finalized? && outcome.alertText == SuccessAlert
        && cart.items == [] && selectedCustomer == None && customerSearchQuery == "" && !isCashDialogOpen
      ensures old(cart.items) != [] && old(paymentMethod) != Cash && !postOk ==>
        && outcome.Finalized? && outcome.alertText == FailureAlert(message)
        && cart.items == old(cart.items) && selectedCustomer == old(selectedCustomer)
        && customerSearchQuery == old(customerSearchQuery) && isCashDialogOpen == old(isCashDialogOpen)
    {
      if |cart.items| == 0 {
        return CartWasEmpty;
      }
      if paymentMethod == Cash {
        isCashDialogOpen := true;
        outcome := CashDialogOpened;
      } else {
        var posted, alertText := HandleFinalizeSale(postOk, message);
        outcome := Finalized(posted, alertText);
      }
    }
  }
}
