/**
 * The Receive Stock page (src/app/dashboard/inventory/receive-stock/page.tsx):
 * a receiving list keyed by product id, edited in place, and the submit
 * handler that validates it and posts it to /products/receive-stock.
 */
module ReceiveStock {
  import opened Wrappers
  import opened Types
  import opened Keyed
  import Text
  import Auth

  /** A product on the receiving list, with the units received and the batch cost. */
  datatype ReceivingItem = ReceivingItem(product: Product, quantityReceived: int, batchCostPrice: int)

  function ItemKey(item: ReceivingItem): int { item.product.id }

  /** The two editable columns of the receiving list. */
  datatype ItemField = QuantityReceived | BatchCostPrice

  /** The `map` callback of `handleItemUpdate`: `{ ...item, [field]: v }`. */
  function FieldSetter(field: ItemField, v: int): ReceivingItem -> ReceivingItem {
    match field
    case QuantityReceived => (item: ReceivingItem) => item.(quantityReceived := v)
    case BatchCostPrice => (item: ReceivingItem) => item.(batchCostPrice := v)
  }

  /** `handleProductSelect`: a product already listed is ignored, a new one is appended. */
  function WithProductSelected(list: seq<ReceivingItem>, product: Product): seq<ReceivingItem> {
    if product.id in Keys(list, ItemKey) then list
    else list + [ReceivingItem(product, 1, product.costPrice)]
  }

  /**
   * `handleItemUpdate`: `parsed` is `parseFloat(value)`, None when it is NaN;
   * `parsed || 0` is the value stored.
   */
  function WithItemUpdated(list: seq<ReceivingItem>, productId: int, field: ItemField, parsed: Option<int>): seq<ReceivingItem> {
    UpdateKey(list, ItemKey, productId, FieldSetter(field, parsed.GetOr(0)))
  }

  /** `handleItemRemove`. */
  function WithItemRemoved(list: seq<ReceivingItem>, productId: int): seq<ReceivingItem> {
    RemoveKey(list, ItemKey, productId)
  }

  /** Selecting a product keeps the product ids of the list unique. */
  lemma SelectKeepsIdsUnique(list: seq<ReceivingItem>, product: Product)
    requires UniqueKeys(list, ItemKey)
    ensures UniqueKeys(WithProductSelected(list, product), ItemKey)
    ensures product.id in Keys(list, ItemKey) ==> WithProductSelected(list, product) == list
    ensures product.id !in Keys(list, ItemKey) ==>
      WithProductSelected(list, product) == list + [ReceivingItem(product, 1, product.costPrice)]
  {
    if product.id !in Keys(list, ItemKey) {
      AppendNewKeepsUnique(list, ItemKey, ReceivingItem(product, 1, product.costPrice));
    }
  }

  /**
   * Updating a field of the item on position `i` (ids unique) changes that
   * field of that item only; a value that does not parse is stored as 0.
   */
  lemma ItemUpdateAt(list: seq<ReceivingItem>, i: nat, field: ItemField, parsed: Option<int>)
    requires UniqueKeys(list, ItemKey) && i < |list|
    ensures var r := WithItemUpdated(list, list[i].product.id, field, parsed);
      var v := if parsed.Some? then parsed.value else 0;
      && |r| == |list|
      && (forall j :: 0 <= j < |list| && j != i ==> r[j] == list[j])
      && r[i].product == list[i].product
      && (field == QuantityReceived ==> r[i].quantityReceived == v && r[i].batchCostPrice == list[i].batchCostPrice)
      && (field == BatchCostPrice ==> r[i].batchCostPrice == v && r[i].quantityReceived == list[i].quantityReceived)
      && UniqueKeys(r, ItemKey)
  {
    var f := FieldSetter(field, parsed.GetOr(0));
    assert ItemKey(list[i]) == list[i].product.id;
    UpdateKeyAt(list, ItemKey, i, f);
    UpdateKeyKeepsUnique(list, ItemKey, list[i].product.id, f);
  }

  /** Updating an id that is not listed changes nothing. */
  lemma ItemUpdateAbsent(list: seq<ReceivingItem>, productId: int, field: ItemField, parsed: Option<int>)
    requires productId !in Keys(list, ItemKey)
    ensures WithItemUpdated(list, productId, field, parsed) == list
  {
    var r := WithItemUpdated(list, productId, field, parsed);
    forall j | 0 <= j < |list| ensures r[j] == list[j] {
      assert Keys(list, ItemKey)[j] != productId;
    }
  }

  /** Removing the item on position `i` (ids unique) drops exactly it and keeps the others in order. */
  lemma ItemRemoveAt(list: seq<ReceivingItem>, i: nat)
    requires UniqueKeys(list, ItemKey) && i < |list|
    ensures WithItemRemoved(list, list[i].product.id) == list[..i] + list[i + 1..]
    ensures UniqueKeys(WithItemRemoved(list, list[i].product.id), ItemKey)
  {
    RemoveKeyAt(list, ItemKey, i);
    RemovedSliceUnique(list, ItemKey, i);
  }

  /** One entry of the receive-stock request. */
  datatype StockLine = StockLine(productId: int, quantityReceived: int, costPrice: int)

  /** The receive-stock request; `vendorId` is `null` for no vendor (or an id that is NaN). */
  datatype StockPayload = StockPayload(vendorId: Option<int>, items: seq<StockLine>)

  const NoVendor: string := "none"

  /** `selectedVendorId === "none" ? null : parseInt(selectedVendorId)`. */
  function VendorIdOf(selected: string): Option<int> {
    if selected == NoVendor then None else Text.ParseInt(selected)
  }

  function LineOf(item: ReceivingItem): StockLine {
    StockLine(item.product.id, item.quantityReceived, item.batchCostPrice)
  }

  function BuildPayload(list: seq<ReceivingItem>, selected: string): (p: StockPayload)
    ensures |p.items| == |list|
    ensures forall i :: 0 <= i < |list| ==> p.items[i] == LineOf(list[i])
  {
    StockPayload(VendorIdOf(selected), seq(|list|, i requires 0 <= i < |list| => LineOf(list[i])))
  }

  /**
   * The vendor drop-down offers "none" and `String(vendor.id)` for each
   * vendor; the payload carries no vendor for the first and exactly that id
   * for the others.
   */
  lemma VendorSelectionRoundTrip(vendorId: int)
    ensures VendorIdOf(NoVendor) == None
    ensures VendorIdOf(Text.IntToString(vendorId)) == Some(vendorId)
  {
    Text.ParseIntToString(vendorId);
    var s := Text.IntToString(vendorId);
    assert s[0] == '-' || Text.IsDigit(s[0]);
    assert s != NoVendor by { assert NoVendor[0] == 'n'; }
  }

  const EmptyListMessage: string := "Please add at least one product to the list."
  const NoUserMessage: string := "User not found. Please log in again."
  const QuantityMessage: string := "Quantity for must be greater than 0."
  const CostMessage: string := "Cost price for must be greater than 0."
  const UnknownErrorMessage: string := "An unknown error occurred."

  predicate LineAcceptable(line: StockLine) {
    line.quantityReceived > 0 && line.costPrice > 0
  }

  /** The message of the first line the validation loop rejects, if any. */
  function FirstProblem(lines: seq<StockLine>): Option<string> {
    if lines == [] then None
    else if lines[0].quantityReceived <= 0 then Some(QuantityMessage)
    else if lines[0].costPrice <= 0 then Some(CostMessage)
    else FirstProblem(lines[1..])
  }

  /** The loop rejects nothing exactly when every line has a positive quantity and cost. */
  lemma {:induction false} FirstProblemNoneIff(lines: seq<StockLine>)
    ensures FirstProblem(lines) == None <==> forall i :: 0 <= i < |lines| ==> LineAcceptable(lines[i])
  {
    if lines != [] {
      FirstProblemNoneIff(lines[1..]);
      if forall i :: 0 <= i < |lines[1..]| ==> LineAcceptable(lines[1..][i]) {
        forall i | 0 <= i < |lines| && LineAcceptable(lines[0]) ensures LineAcceptable(lines[i]) {
          if i > 0 { assert lines[i] == lines[1..][i - 1]; }
        }
      }
    }
  }

  /**
   * The validation loop of `handleSubmit`: stops at the first line with
   * quantity <= 0 (checked first) or cost <= 0 and reports it.
   */
  method ValidateLines(lines: seq<StockLine>) returns (problem: Option<string>)
    ensures problem == FirstProblem(lines)
    ensures problem == None <==> forall i :: 0 <= i < |lines| ==> LineAcceptable(lines[i])
  {
    FirstProblemNoneIff(lines);
    for k := 0 to |lines|
      invariant FirstProblem(lines) == FirstProblem(lines[k..])
    {
      assert lines[k..][1..] == lines[k + 1..];
      if lines[k].quantityReceived <= 0 {
        return Some(QuantityMessage);
      }
      if lines[k].costPrice <= 0 {
        return Some(CostMessage);
      }
    }
    problem := None;
  }

  datatype AlertKind = Success | Error
  datatype Alert = Alert(kind: AlertKind, message: string)

  class ReceiveStockPage {
    var selectedVendorId: string
    var receivingList: seq<ReceivingItem>
    var productSearchOpen: bool
    var submitting: bool
    var alert: Option<Alert>

    constructor ()
      ensures selectedVendorId == NoVendor && receivingList == []
      ensures !productSearchOpen && !submitting && alert == None
    {
      selectedVendorId := NoVendor;
      receivingList := [];
      productSearchOpen := false;
      submitting := false;
      alert := None;
    }

    method HandleProductSelect(product: Product)
      modifies this
      ensures !productSearchOpen
      ensures receivingList == WithProductSelected(old(receivingList), product)
      ensures selectedVendorId == old(selectedVendorId) && submitting == old(submitting) && alert == old(alert)
    {
      productSearchOpen := false;
      if product.id in Keys(receivingList, ItemKey) {
        return;
      }
      receivingList := receivingList + [ReceivingItem(product, 1, product.costPrice)];
    }

    method HandleItemUpdate(productId: int, field: ItemField, parsed: Option<int>)
      modifies this
      ensures receivingList == WithItemUpdated(old(receivingList), productId, field, parsed)
      ensures selectedVendorId == old(selectedVendorId) && productSearchOpen == old(productSearchOpen)
      ensures submitting == old(submitting) && alert == old(alert)
    {
      var numericValue := if parsed.Some? then parsed.value else 0;
      receivingList := UpdateKey(receivingList, ItemKey, productId, FieldSetter(field, numericValue));
    }

    method HandleItemRemove(productId: int)
      modifies this
      ensures receivingList == WithItemRemoved(old(receivingList), productId)
      ensures selectedVendorId == old(selectedVendorId) && productSearchOpen == old(productSearchOpen)
      ensures submitting == old(submitting) && alert == old(alert)
    {
      receivingList := RemoveKey(receivingList, ItemKey, productId);
    }

    /**
     * `handleSubmit`. `user` is the auth store's user, `postOk` the outcome
     * of the POST and `message` the error body's message when it fails.
     * Returns the payload that was posted, if one was.
     */
    method HandleSubmit(user: Option<Auth.StoredUserProfile>, postOk: bool, message: ServerMessage)
      returns (posted: Option<StockPayload>)
      modifies this
      ensures productSearchOpen == old(productSearchOpen)
      ensures old(receivingList) == [] ==>
        posted == None && alert == Some(Alert(Error, EmptyListMessage))
        && receivingList == old(receivingList) && selectedVendorId == old(selectedVendorId)
        && submitting == old(submitting)
      ensures old(receivingList) != [] && user == None ==>
        posted == None && alert == Some(Alert(Error, NoUserMessage))
        && receivingList == old(receivingList) && selectedVendorId == old(selectedVendorId)
        && submitting == old(submitting)
      ensures old(receivingList) != [] && user != None ==> !submitting
      ensures old(receivingList) != [] && user != None ==>
        var payload := BuildPayload(old(receivingList), old(selectedVendorId));
        match FirstProblem(payload.items)
        case Some(problem) =>
          posted == None && alert == Some(Alert(Error, problem))
          && receivingList == old(receivingList) && selectedVendorId == old(selectedVendorId)
        case None =>
          && posted == Some(payload)
          && (postOk ==> receivingList == [] && selectedVendorId == NoVendor && alert == None)
          && (!postOk ==> receivingList == old(receivingList) && selectedVendorId == old(selectedVendorId)
                          && alert == Some(Alert(Error, MessageText(message, UnknownErrorMessage, JoinSeparator))))
    {
      alert := None;
      if |receivingList| == 0 {
        alert := Some(Alert(Error, EmptyListMessage));
        return None;
      }
      if user == None {
        alert := Some(Alert(Error, NoUserMessage));
        return None;
      }
      submitting := true;
      var payload := BuildPayload(receivingList, selectedVendorId);
      var problem := ValidateLines(payload.items);
      if problem.Some? {
        alert := Some(Alert(Error, problem.value));
        submitting := false;
        return None;
      }
      posted := Some(payload);
      if postOk {
        receivingList := [];
        selectedVendorId := NoVendor;
      } else {
        alert := Some(Alert(Error, MessageText(message, UnknownErrorMessage, JoinSeparator)));
      }
      submitting := false;
    }
  }
}
