/** The inventory service's records: products, order lines, the per-line and
    per-order verdicts, and the result event. */
module InventoryModel {
  import opened Wrappers
  import opened Categories
  import opened Time

  const INT_MIN: int := -0x8000_0000
  const INT_MAX: int := 0x7fff_ffff

  /** Java's `int` / `Integer` range. */
  type Int32 = x: int | INT_MIN <= x <= INT_MAX

  /** Java's `int` subtraction, which wraps around modulo 2^32. */
  function Sub32(a: Int32, b: Int32): (r: Int32)
    ensures INT_MIN <= a - b <= INT_MAX ==> r == a - b
    ensures (r - (a - b)) % 0x1_0000_0000 == 0
  {
    (a - b - INT_MIN) % 0x1_0000_0000 + INT_MIN
  }

  datatype Product = Product(
    productId: string,
    name: string,
    category: Category,
    availableQuantity: Int32,
    expirationDate: Option<Day>,
    active: bool)

  /** An order line as the inventory service receives it; the declared category
      is carried but never trusted. */
  datatype OrderItem = OrderItem(productId: string, quantity: Int32, category: Option<Category>)

  /** The verdict on one order line. `category` is None when the product was not found. */
  datatype ValidatedItem = ValidatedItem(
    productId: string,
    requestedQuantity: Int32,
    availableQuantity: Int32,
    category: Option<Category>,
    available: bool)

  datatype IssueType =
    | ProductNotFound
    | InsufficientQuantity
    | ExpiredProduct
    | InvalidCategory
    | ProductInactive

  /** The human-readable reason of an issue; the standard-category reason carries
      the two numbers its message template formats. */
  datatype IssueReason =
    | NotFoundInCatalog
    | QuantityShort(requested: Int32, available: Int32)
    | ExpiredOrInsufficient
    | DigitalUnavailable

  datatype ValidationIssue = ValidationIssue(productId: string, reason: IssueReason, issueType: IssueType)

  datatype InventoryCheckResult = InventoryCheckResult(
    orderId: string,
    approved: bool,
    issues: seq<ValidationIssue>,
    validatedItems: seq<ValidatedItem>)

  datatype MissingItem = MissingItem(productId: string, reason: IssueReason)

  /** The payload published on the inventory-check-result topic; `missingItems`
      None stands for a JSON null. */
  datatype InventoryCheckResultEvent = InventoryCheckResultEvent(
    orderId: string,
    missingItems: Option<seq<MissingItem>>,
    approved: bool,
    eventType: string,
    eventTimestamp: Instant)
}
