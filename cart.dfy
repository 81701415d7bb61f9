/**
 * The point-of-sale cart store (src/store/cart.ts): a list of product lines
 * keyed by product id. Each action replaces `items` with a new list built by
 * `find`/`map`/`filter`; the total is a `reduce` over the lines.
 */
module Cart {
  import opened Types
  import opened Keyed

  /** A product in the cart with the number of units being sold. */
  datatype CartItem = CartItem(product: Product, quantity: int)

  function CartKey(item: CartItem): int { item.product.id }

  function Incremented(item: CartItem): CartItem { item.(quantity := item.quantity + 1) }

  /** `addItem`: increment the line of a product already in the cart, else append it with quantity 1. */
  function WithItemAdded(items: seq<CartItem>, product: Product): seq<CartItem> {
    if product.id in Keys(items, CartKey) then UpdateKey(items, CartKey, product.id, Incremented)
    else items + [CartItem(product, 1)]
  }

  /** `removeItem`: drop the lines with this product id. */
  function WithoutItem(items: seq<CartItem>, productId: int): seq<CartItem> {
    RemoveKey(items, CartKey, productId)
  }

  /** The `map` callback of `updateQuantity`: `{ ...item, quantity: q }`. */
  function QuantitySetter(q: int): CartItem -> CartItem {
    (item: CartItem) => item.(quantity := q)
  }

  /** `updateQuantity`: a quantity of 0 or less removes the line, otherwise it is set. */
  function WithQuantity(items: seq<CartItem>, productId: int, newQuantity: int): seq<CartItem> {
    if newQuantity <= 0 then WithoutItem(items, productId)
    else UpdateKey(items, CartKey, productId, QuantitySetter(newQuantity))
  }

  function LineTotal(item: CartItem): int { item.product.sellingPrice * item.quantity }

  /** `getTotalPrice`: the `reduce` from the left over the lines, starting at 0. */
  function TotalPrice(items: seq<CartItem>): int {
    if items == [] then 0 else TotalPrice(items[..|items| - 1]) + LineTotal(items[|items| - 1])
  }

  /** The sum of the line totals taken from the front: an independent reading of the total. */
  function LineSum(items: seq<CartItem>): int {
    if items == [] then 0 else LineTotal(items[0]) + LineSum(items[1..])
  }

  /** The left fold and the sum from the front agree. */
  lemma {:induction false} TotalPriceIsLineSum(items: seq<CartItem>)
    ensures TotalPrice(items) == LineSum(items)
  {
    if items != [] {
      TotalPriceIsLineSum(items[1..]);
      TotalPriceAppend([items[0]], items[1..]);
      assert items == [items[0]] + items[1..];
      assert TotalPrice([items[0]]) == LineTotal(items[0]) by {
        assert [items[0]][..0] == [];
      }
    }
  }

  /** The cart's invariant: one line per product, and every quantity is at least 1. */
  predicate Valid(items: seq<CartItem>) {
    UniqueKeys(items, CartKey) && QuantitiesPositive(items)
  }

  predicate QuantitiesPositive(items: seq<CartItem>) {
    forall i :: 0 <= i < |items| ==> items[i].quantity >= 1
  }

  /** The total of two lists put together is the sum of their totals. */
  lemma {:induction false} TotalPriceAppend(a: seq<CartItem>, b: seq<CartItem>)
    ensures TotalPrice(a + b) == TotalPrice(a) + TotalPrice(b)
    decreases |b|
  {
    if b == [] {
      assert a + b == a;
    } else {
      var b' := b[..|b| - 1];
      assert (a + b)[..|a + b| - 1] == a + b';
      TotalPriceAppend(a, b');
    }
  }

  /** The total changes by the difference between the old and the new line. */
  lemma TotalPriceUpdateAt(items: seq<CartItem>, i: nat, x: CartItem)
    requires i < |items|
    ensures TotalPrice(items[i := x]) == TotalPrice(items) - LineTotal(items[i]) + LineTotal(x)
  {
    var a, b := items[..i], items[i + 1..];
    assert items[i := x] == (a + [x]) + b;
    assert items[i := x][..i] + items[i := x][i + 1..] == a + b;
    TotalPriceWithout(items, i);
    TotalPriceWithout(items[i := x], i);
  }

  /**
   * Adding a product that is not in the cart appends it with quantity 1 at
   * the end; the cart stays valid and its total grows by the product's price.
   */
  lemma AddNewProduct(items: seq<CartItem>, product: Product)
    requires product.id !in Keys(items, CartKey)
    ensures WithItemAdded(items, product) == items + [CartItem(product, 1)]
    ensures Valid(items) ==> Valid(WithItemAdded(items, product))
    ensures TotalPrice(WithItemAdded(items, product)) == TotalPrice(items) + product.sellingPrice
  {
    var r := items + [CartItem(product, 1)];
    assert r[..|r| - 1] == items;
    if Valid(items) {
      AppendNewKeepsUnique(items, CartKey, CartItem(product, 1));
    }
  }

  /**
   * Adding a product already on line `i` increments that line's quantity by
   * one and changes nothing else; the cart stays valid and its total grows by
   * the price of that line's product.
   */
  lemma AddExistingProduct(items: seq<CartItem>, product: Product, i: nat)
    requires Valid(items) && i < |items| && items[i].product.id == product.id
    ensures WithItemAdded(items, product) == items[i := Incremented(items[i])]
    ensures Valid(WithItemAdded(items, product))
    ensures TotalPrice(WithItemAdded(items, product))
         == TotalPrice(items) + items[i].product.sellingPrice
  {
    assert product.id in Keys(items, CartKey) by { assert Keys(items, CartKey)[i] == product.id; }
    UpdateKeyAt(items, CartKey, i, Incremented);
    UpdateKeyKeepsUnique(items, CartKey, product.id, Incremented);
    SetLineKeepsQuantities(items, i, Incremented(items[i]));
    TotalPriceUpdateAt(items, i, Incremented(items[i]));
    IncrementedLineTotal(items[i]);
  }

  lemma IncrementedLineTotal(item: CartItem)
    ensures LineTotal(Incremented(item)) == LineTotal(item) + item.product.sellingPrice
  {
    var p, q := item.product.sellingPrice, item.quantity;
    assert p * (q + 1) == p * q + p;
  }

  lemma SetLineKeepsQuantities(items: seq<CartItem>, i: nat, x: CartItem)
    requires i < |items| && x.quantity >= 1 && QuantitiesPositive(items)
    ensures QuantitiesPositive(items[i := x])
  {
  }

  /**
   * Removing the product on line `i` of a valid cart drops exactly that line;
   * the others keep their order, and the total loses that line's amount.
   */
  lemma RemovePresentItem(items: seq<CartItem>, i: nat)
    requires Valid(items) && i < |items|
    ensures WithoutItem(items, items[i].product.id) == items[..i] + items[i + 1..]
    ensures Valid(WithoutItem(items, items[i].product.id))
    ensures TotalPrice(WithoutItem(items, items[i].product.id)) == TotalPrice(items) - LineTotal(items[i])
  {
    RemoveKeyAt(items, CartKey, i);
    RemoveKeepsValid(items, items[i].product.id);
    TotalPriceWithout(items, i);
  }

  lemma TotalPriceWithout(items: seq<CartItem>, i: nat)
    requires i < |items|
    ensures TotalPrice(items[..i] + items[i + 1..]) == TotalPrice(items) - LineTotal(items[i])
  {
    var a, b, x := items[..i], items[i + 1..], items[i];
    assert items[..i + 1] == a + [x];
    assert items == items[..i + 1] + b;
    assert TotalPrice(items) == TotalPrice(a + [x]) + TotalPrice(b) by {
      TotalPriceAppend(a + [x], b);
    }
    assert TotalPrice(a + [x]) == TotalPrice(a) + LineTotal(x) by {
      assert (a + [x])[..|a|] == a;
    }
    TotalPriceAppend(a, b);
  }

  /** Removing a product id that is not in the cart leaves the cart unchanged. */
  lemma RemoveAbsentItem(items: seq<CartItem>, productId: int)
    requires productId !in Keys(items, CartKey)
    ensures WithoutItem(items, productId) == items
  {
    RemoveAbsentKey(items, CartKey, productId);
  }

  /** Any removal keeps a valid cart valid. */
  lemma RemoveKeepsValid(items: seq<CartItem>, productId: int)
    requires Valid(items)
    ensures Valid(WithoutItem(items, productId))
  {
    RemoveKeyKeepsUnique(items, CartKey, productId);
    RemoveKeyMembers(items, CartKey, productId);
    var r := WithoutItem(items, productId);
    forall j | 0 <= j < |r| ensures r[j].quantity >= 1 {
      assert r[j] in items;
    }
  }

  /** A quantity of 0 or less behaves exactly like `removeItem`. */
  lemma SetNonPositiveQuantityRemoves(items: seq<CartItem>, productId: int, newQuantity: int)
    requires newQuantity <= 0
    ensures WithQuantity(items, productId, newQuantity) == WithoutItem(items, productId)
  {
  }

  /**
   * A positive quantity for the product on line `i` sets that line's quantity
   * and nothing else; the total changes accordingly.
   */
  lemma SetPositiveQuantity(items: seq<CartItem>, i: nat, newQuantity: int)
    requires Valid(items) && i < |items| && newQuantity > 0
    ensures WithQuantity(items, items[i].product.id, newQuantity)
         == items[i := items[i].(quantity := newQuantity)]
    ensures Valid(WithQuantity(items, items[i].product.id, newQuantity))
    ensures TotalPrice(WithQuantity(items, items[i].product.id, newQuantity))
         == TotalPrice(items) + items[i].product.sellingPrice * (newQuantity - items[i].quantity)
  {
    var f := QuantitySetter(newQuantity);
    var k := items[i].product.id;
    var x := items[i].(quantity := newQuantity);
    var r := items[i := x];
    assert CartKey(items[i]) == k;
    assert f(items[i]) == x;
    assert WithQuantity(items, k, newQuantity) == UpdateKey(items, CartKey, k, f);
    assert UpdateKey(items, CartKey, k, f) == r by {
      UpdateKeyAt(items, CartKey, i, f);
    }
    assert Valid(r) by {
      UpdateKeyKeepsUnique(items, CartKey, k, f);
      SetLineKeepsQuantities(items, i, x);
    }
    assert TotalPrice(r) == TotalPrice(items) - LineTotal(items[i]) + LineTotal(x) by {
      TotalPriceUpdateAt(items, i, x);
    }
    SetLineTotal(items[i], newQuantity);
  }

  lemma SetLineTotal(item: CartItem, q: int)
    ensures LineTotal(item.(quantity := q)) - LineTotal(item) == item.product.sellingPrice * (q - item.quantity)
  {
    var p := item.product.sellingPrice;
    assert p * q - p * item.quantity == p * (q - item.quantity);
  }

  /** Setting the quantity of a product that is not in the cart changes nothing. */
  lemma SetQuantityOfAbsentItem(items: seq<CartItem>, productId: int, newQuantity: int)
    requires productId !in Keys(items, CartKey)
    ensures WithQuantity(items, productId, newQuantity) == items
  {
    if newQuantity <= 0 {
      RemoveAbsentKey(items, CartKey, productId);
    } else {
      var r := WithQuantity(items, productId, newQuantity);
      forall j | 0 <= j < |items| ensures r[j] == items[j] {
        assert Keys(items, CartKey)[j] != productId;
      }
    }
  }

  /** The actions a cart offers, for reasoning about sequences of them. */
  datatype CartAction = Add(product: Product) | Remove(productId: int)
                      | SetQuantity(productId: int, quantity: int) | Clear

  function Apply(items: seq<CartItem>, action: CartAction): seq<CartItem> {
    match action
    case Add(p) => WithItemAdded(items, p)
    case Remove(id) => WithoutItem(items, id)
    case SetQuantity(id, q) => WithQuantity(items, id, q)
    case Clear => []
  }

  function ApplyAll(items: seq<CartItem>, actions: seq<CartAction>): seq<CartItem>
    decreases |actions|
  {
    if actions == [] then items else ApplyAll(Apply(items, actions[0]), actions[1..])
  }

  /** Every action keeps the cart valid. */
  lemma ApplyKeepsValid(items: seq<CartItem>, action: CartAction)
    requires Valid(items)
    ensures Valid(Apply(items, action))
  {
    match action
    case Add(p) =>
      if p.id in Keys(items, CartKey) {
        var i :| 0 <= i < |items| && Keys(items, CartKey)[i] == p.id;
        AddExistingProduct(items, p, i);
      } else {
        AddNewProduct(items, p);
      }
    case Remove(id) => RemoveKeepsValid(items, id);
    case SetQuantity(id, q) =>
      if q <= 0 {
        RemoveKeepsValid(items, id);
      } else if id in Keys(items, CartKey) {
        var i :| 0 <= i < |items| && Keys(items, CartKey)[i] == id;
        SetPositiveQuantity(items, i, q);
      } else {
        SetQuantityOfAbsentItem(items, id, q);
      }
    case Clear =>
  }

  /**
   * Starting from the empty cart, after any sequence of actions every product
   * has one line and every quantity is at least 1.
   */
  lemma {:induction false} ActionsKeepValid(items: seq<CartItem>, actions: seq<CartAction>)
    requires Valid(items)
    ensures Valid(ApplyAll(items, actions))
    decreases |actions|
  {
    if actions != [] {
      ApplyKeepsValid(items, actions[0]);
      ActionsKeepValid(Apply(items, actions[0]), actions[1..]);
    }
  }

  /** The zustand cart store; `items` starts empty. */
  class CartStore {
    var items: seq<CartItem>

    constructor ()
      ensures items == []
    {
      items := [];
    }

    method AddItem(product: Product)
      modifies this
      ensures items == WithItemAdded(old(items), product)
    {
      if product.id in Keys(items, CartKey) {
        items := UpdateKey(items, CartKey, product.id, Incremented);
      } else {
        items := items + [CartItem(product, 1)];
      }
    }

    method RemoveItem(productId: int)
      modifies this
      ensures items == WithoutItem(old(items), productId)
    {
      items := RemoveKey(items, CartKey, productId);
    }

    method UpdateQuantity(productId: int, newQuantity: int)
      modifies this
      ensures items == WithQuantity(old(items), productId, newQuantity)
    {
      if newQuantity <= 0 {
        RemoveItem(productId);
      } else {
        items := UpdateKey(items, CartKey, productId, QuantitySetter(newQuantity));
      }
    }

    method ClearCart()
      modifies this
      ensures items == []
    {
      items := [];
    }

    /** The reduce over the cart: 0 when empty, and each line adds its price times its quantity. */
    function GetTotalPrice(): (total: int)
      reads this
      ensures items == [] ==> total == 0
      ensures total == LineSum(items)
    {
      TotalPriceIsLineSum(items);
      TotalPrice(items)
    }
  }
}
