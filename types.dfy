/**
 * The record shapes the dashboard pages share (ProductType.ts, UserType.ts,
 * CustomerType.ts, StoreType.ts, SaleType.ts) and the error body the API
 * returns. Money is in integer minor units (cents).
 */
module Types {
  import opened Wrappers
  import Text

  datatype Product = Product(
    id: int,
    sku: string,
    name: string,
    category: string,
    stockQuantity: int,
    sellingPrice: int,
    costPrice: int,
    supplierId: int,
    reorderLevel: int,
    expiryDate: Option<string>)

  datatype Role = ADMIN | MANAGER | CASHIER | STOCK

  /** The string value of each member of the `Role` enum. */
  function RoleName(r: Role): string {
    match r
    case ADMIN => "ADMIN"
    case MANAGER => "MANAGER"
    case CASHIER => "CASHIER"
    case STOCK => "STOCK"
  }

  datatype User = User(
    id: int,
    username: string,
    fullName: string,
    email: Option<string>,
    role: Role,
    storeId: Option<int>)

  datatype Customer = Customer(
    id: int,
    name: string,
    phone: string,
    email: Option<string>,
    loyaltyPoints: int,
    segment: string)

  datatype Store = Store(
    id: int,
    name: string,
    address: Option<string>,
    createdAt: string,
    updatedAt: string)

  datatype CustomerName = CustomerName(name: string)

  datatype Sale = Sale(
    id: int,
    invoiceNumber: string,
    status: string,
    totalAmount: int,
    profitTotal: int,
    createdAt: string,
    cashierFullName: string,
    customer: Option<CustomerName>)

  /** The `message` of an API error body: absent, one string, or a list of strings. */
  datatype ServerMessage = NoMessage | TextMessage(text: string) | ListMessage(parts: seq<string>)

  /** How `Array.join(", ")` separates the parts of a list message. */
  const JoinSeparator: string := ", "

  /** How a list prints when it is interpolated into a template string. */
  const TemplateSeparator: string := ","

  /**
   * The text shown for an API error body's `message`: a list is joined with
   * `separator`, a non-empty string is shown as is, and a missing or empty
   * string gives `fallback`. An empty list is truthy in JavaScript, so it
   * yields the empty text rather than the fallback.
   */
  function MessageText(msg: ServerMessage, fallback: string, separator: string): (text: string)
    ensures msg.TextMessage? && msg.text != "" ==> text == msg.text
    ensures msg.ListMessage? && |msg.parts| == 1 ==> text == msg.parts[0]
    ensures msg.ListMessage? && msg.parts == [] ==> text == ""
    ensures msg.NoMessage? || msg == TextMessage("") ==> text == fallback
  {
    match msg
    case ListMessage(parts) => Text.Join(parts, separator)
    case TextMessage(t) => if t != "" then t else fallback
    case NoMessage => fallback
  }

  /** `` `${collection}/${id}` ``: the path of one record of a REST collection. */
  function ItemPath(collection: string, id: int): string {
    collection + "/" + Text.IntToString(id)
  }

  /** The path names its record: it starts with the collection and a slash, and the rest parses back to the id. */
  lemma ItemPathNamesItem(collection: string, id: int)
    ensures |ItemPath(collection, id)| > |collection| + 1
    ensures ItemPath(collection, id)[..|collection| + 1] == collection + "/"
    ensures Text.ParseInt(ItemPath(collection, id)[|collection| + 1..]) == Some(id)
  {
    var p := ItemPath(collection, id);
    assert p[|collection| + 1..] == Text.IntToString(id);
    Text.ParseIntToString(id);
  }

  /** Different records of one collection have different paths. */
  lemma ItemPathInjective(collection: string, a: int, b: int)
    ensures ItemPath(collection, a) == ItemPath(collection, b) ==> a == b
  {
    ItemPathNamesItem(collection, a);
    ItemPathNamesItem(collection, b);
  }
}
