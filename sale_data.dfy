/**
 * The sale submission payload built by the checkout panels (the `saleData`
 * object of sales/components/temp.tsx and Checkout.tsx) and its JSON form.
 */
module SaleData {
  import opened Wrappers
  import opened Types
  import opened Json
  import Cart

  datatype PaymentMethod = Cash | Card | Wallet | Split

  function MethodName(m: PaymentMethod): string {
    match m
    case Cash => "Cash"
    case Card => "Card"
    case Wallet => "Wallet"
    case Split => "Split"
  }

  function MethodOfName(s: string): Option<PaymentMethod> {
    if s == "Cash" then Some(Cash)
    else if s == "Card" then Some(Card)
    else if s == "Wallet" then Some(Wallet)
    else if s == "Split" then Some(Split)
    else None
  }

  datatype SaleLine = SaleLine(productId: int, quantity: int)

  datatype SalePayload = SalePayload(customerId: Option<int>, paymentMethod: PaymentMethod, items: seq<SaleLine>)

  /** `selectedCustomer?.id || null`: no customer, or the falsy id 0, gives `null`. */
  function CustomerIdOf(selected: Option<Customer>): Option<int> {
    if selected.Some? && selected.value.id != 0 then Some(selected.value.id) else None
  }

  function LineOf(item: Cart.CartItem): SaleLine {
    SaleLine(item.product.id, item.quantity)
  }

  /** The `saleData` object: customer reference, payment method and one line per cart entry. */
  function BuildSalePayload(selected: Option<Customer>, payMethod: PaymentMethod, items: seq<Cart.CartItem>): (p: SalePayload)
    ensures |p.items| == |items|
    ensures forall i :: 0 <= i < |items| ==> p.items[i] == SaleLine(items[i].product.id, items[i].quantity)
    ensures p.paymentMethod == payMethod
    ensures p.customerId == None <==> selected == None || selected.value.id == 0
    ensures p.customerId.Some? ==> p.customerId.value == selected.value.id
  {
    SalePayload(CustomerIdOf(selected), payMethod, seq(|items|, i requires 0 <= i < |items| => LineOf(items[i])))
  }

  /**
   * The payload of a valid cart names each product once and sells at least
   * one unit of each.
   */
  lemma PayloadOfValidCart(selected: Option<Customer>, payMethod: PaymentMethod, items: seq<Cart.CartItem>)
    requires Cart.Valid(items)
    ensures var p := BuildSalePayload(selected, payMethod, items);
      && (forall i, j :: 0 <= i < j < |p.items| ==> p.items[i].productId != p.items[j].productId)
      && (forall i :: 0 <= i < |p.items| ==> p.items[i].quantity >= 1)
  {
    var p := BuildSalePayload(selected, payMethod, items);
    forall i, j | 0 <= i < j < |p.items| ensures p.items[i].productId != p.items[j].productId {
      assert Cart.CartKey(items[i]) != Cart.CartKey(items[j]);
    }
  }

  function LineToJson(l: SaleLine): Json {
    JObj(map["productId" := JNum(l.productId), "quantity" := JNum(l.quantity)])
  }

  function LinesToJson(lines: seq<SaleLine>): (js: seq<Json>)
    ensures |js| == |lines|
  {
    if lines == [] then [] else [LineToJson(lines[0])] + LinesToJson(lines[1..])
  }

  /** The JSON object that is posted to /sales (or queued offline). */
  function ToRecord(p: SalePayload): Record {
    map[
      "customerId" := (if p.customerId.Some? then JNum(p.customerId.value) else JNull),
      "paymentMethod" := JStr(MethodName(p.paymentMethod)),
      "items" := JArr(LinesToJson(p.items))]
  }

  function LineFromJson(j: Json): Option<SaleLine> {
    if j.JObj? && "productId" in j.fields && "quantity" in j.fields
       && j.fields["productId"].JNum? && j.fields["quantity"].JNum?
    then Some(SaleLine(j.fields["productId"].n, j.fields["quantity"].n))
    else None
  }

  function LinesFromJson(js: seq<Json>): Option<seq<SaleLine>> {
    if js == [] then Some([])
    else
      match (LineFromJson(js[0]), LinesFromJson(js[1..]))
      case (Some(l), Some(rest)) => Some([l] + rest)
      case _ => None
  }

  /** Reads a sale payload back from its JSON object. */
  function FromRecord(r: Record): Option<SalePayload> {
    if "customerId" in r && "paymentMethod" in r && "items" in r
       && (r["customerId"].JNull? || r["customerId"].JNum?)
       && r["paymentMethod"].JStr? && r["items"].JArr?
    then
      match (MethodOfName(r["paymentMethod"].s), LinesFromJson(r["items"].elems))
      case (Some(m), Some(lines)) =>
        Some(SalePayload(if r["customerId"].JNum? then Some(r["customerId"].n) else None, m, lines))
      case _ => None
    else None
  }

  lemma {:induction false} LinesRoundTrip(lines: seq<SaleLine>)
    ensures LinesFromJson(LinesToJson(lines)) == Some(lines)
  {
    if lines != [] {
      LinesRoundTrip(lines[1..]);
      assert LinesToJson(lines)[1..] == LinesToJson(lines[1..]);
      assert [lines[0]] + lines[1..] == lines;
    }
  }

  /**
   * The JSON object determines the sale: reading it back gives the payload,
   * and it has no `id` member for the offline queue to collide with.
   */
  lemma RecordRoundTrip(p: SalePayload)
    ensures FromRecord(ToRecord(p)) == Some(p)
    ensures "id" !in ToRecord(p)
  {
    LinesRoundTrip(p.items);
    assert MethodOfName(MethodName(p.paymentMethod)) == Some(p.paymentMethod);
  }
}
