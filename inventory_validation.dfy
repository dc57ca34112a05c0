/** The inventory validation engine (InventoryValidationService): a per-line
    verdict from the catalog, the per-order aggregate, the catalog update of an
    approved order and the result event. */
module InventoryValidation {
  import opened Wrappers
  import opened Categories
  import opened InventoryModel
  import opened Time
  import opened ProductCatalog
  import opened EventBus

  // ----- the verdict on one line -----

  /** validateProductAvailability: the verdict for a product found in the catalog. */
  function ValidateProductAvailability(product: Product, item: OrderItem, today: Day): ValidatedItem
  {
    if !product.active then
      ValidatedItem(item.productId, item.quantity, 0, Some(product.category), false)
    else
      var available :=
        match product.category
        case Standard => product.availableQuantity >= item.quantity
        case Perishable =>
          var notExpired := product.expirationDate.Some? && product.expirationDate.value > today;
          var sufficientQuantity := product.availableQuantity >= item.quantity;
          notExpired && sufficientQuantity
        case Digital => true;
      ValidatedItem(item.productId, item.quantity, product.availableQuantity, Some(product.category), available)
  }

  /** createNotFoundValidatedItem */
  function NotFoundItem(item: OrderItem): ValidatedItem
  {
    ValidatedItem(item.productId, item.quantity, 0, None, false)
  }

  /** validateItem: look the product up, then judge it. */
  function ValidateItem(products: map<string, Product>, item: OrderItem, today: Day): ValidatedItem
  {
    if item.productId in products then ValidateProductAvailability(products[item.productId], item, today)
    else NotFoundItem(item)
  }

  /** The per-category availability rules, stated over the catalog. */
  lemma AvailabilityRules(products: map<string, Product>, item: OrderItem, today: Day)
    ensures var v := ValidateItem(products, item, today);
      && v.productId == item.productId
      && v.requestedQuantity == item.quantity
      && (item.productId !in products ==>
            !v.available && v.availableQuantity == 0 && v.category == None)
      && (item.productId in products ==>
            var p := products[item.productId];
            && v.category == Some(p.category)
            && (!p.active ==> !v.available && v.availableQuantity == 0)
            && (p.active ==> v.availableQuantity == p.availableQuantity)
            && (p.active && p.category == Standard ==>
                  (v.available <==> p.availableQuantity >= item.quantity))
            && (p.active && p.category == Perishable ==>
                  (v.available <==> p.expirationDate.Some? && p.expirationDate.value > today
                                    && p.availableQuantity >= item.quantity))
            && (p.active && p.category == Digital ==> v.available))
  {
  }

  /** A line that is available and not digital asks for no more than the snapshot holds. */
  lemma AvailableLineIsCovered(products: map<string, Product>, item: OrderItem, today: Day)
    ensures var v := ValidateItem(products, item, today);
      v.available && v.category != Some(Digital) ==> v.availableQuantity >= v.requestedQuantity
  {
  }

  // ----- issues -----

  /** getIssueType: decided by the resolved category alone. */
  function IssueTypeOf(v: ValidatedItem): (t: IssueType)
    ensures t == ProductNotFound <==> v.category == None
    ensures t == InsufficientQuantity <==> v.category == Some(Standard)
    ensures t == ExpiredProduct <==> v.category == Some(Perishable)
    ensures t == ProductInactive <==> v.category == Some(Digital)
    ensures t != InvalidCategory
  {
    match v.category
    case None => ProductNotFound
    case Some(Standard) => InsufficientQuantity
    case Some(Perishable) => ExpiredProduct
    case Some(Digital) => ProductInactive
  }

  /** getIssueReason: only the standard-category reason carries numbers, the
      requested and the available quantity of the line. */
  function IssueReasonOf(v: ValidatedItem): (r: IssueReason)
    ensures r == NotFoundInCatalog <==> v.category == None
    ensures r.QuantityShort? <==> v.category == Some(Standard)
    ensures r.QuantityShort? ==> r.requested == v.requestedQuantity && r.available == v.availableQuantity
    ensures r == ExpiredOrInsufficient <==> v.category == Some(Perishable)
    ensures r == DigitalUnavailable <==> v.category == Some(Digital)
  {
    match v.category
    case None => NotFoundInCatalog
    case Some(Standard) => QuantityShort(v.requestedQuantity, v.availableQuantity)
    case Some(Perishable) => ExpiredOrInsufficient
    case Some(Digital) => DigitalUnavailable
  }

  function IssueFor(v: ValidatedItem): ValidationIssue
  {
    ValidationIssue(v.productId, IssueReasonOf(v), IssueTypeOf(v))
  }

  /** One issue per unavailable line, in line order. */
  function IssuesOf(vs: seq<ValidatedItem>): seq<ValidationIssue>
  {
    if vs == [] then []
    else
      var last := vs[|vs| - 1];
      IssuesOf(vs[..|vs| - 1]) + (if last.available then [] else [IssueFor(last)])
  }

  predicate AllAvailable(vs: seq<ValidatedItem>)
  {
    forall i :: 0 <= i < |vs| ==> vs[i].available
  }

  /** The positions of the unavailable lines, in increasing order. */
  function UnavailableLines(vs: seq<ValidatedItem>): (ix: seq<nat>)
    ensures forall k :: 0 <= k < |ix| ==> ix[k] < |vs| && !vs[ix[k]].available
    ensures forall k, l :: 0 <= k < l < |ix| ==> ix[k] < ix[l]
    ensures forall j :: 0 <= j < |vs| && !vs[j].available ==> j in ix
  {
    if vs == [] then []
    else
      var n := |vs| - 1;
      UnavailableLines(vs[..n]) + (if vs[n].available then [] else [n])
  }

  /** The issue list is exactly the unavailable lines, in order. */
  lemma {:induction false} IssuesAreUnavailableLines(vs: seq<ValidatedItem>)
    ensures |IssuesOf(vs)| == |UnavailableLines(vs)|
    ensures forall k :: 0 <= k < |IssuesOf(vs)| ==>
      IssuesOf(vs)[k] == IssueFor(vs[UnavailableLines(vs)[k]])
  {
    if vs != [] {
      var n := |vs| - 1;
      IssuesAreUnavailableLines(vs[..n]);
      forall k | 0 <= k < |UnavailableLines(vs[..n])|
        ensures vs[..n][UnavailableLines(vs[..n])[k]] == vs[UnavailableLines(vs[..n])[k]]
      {
      }
    }
  }

  /** No issue exactly when every line is available. */
  lemma {:induction false} NoIssuesIffAllAvailable(vs: seq<ValidatedItem>)
    ensures IssuesOf(vs) == [] <==> AllAvailable(vs)
  {
    if vs != [] {
      var n := |vs| - 1;
      NoIssuesIffAllAvailable(vs[..n]);
      assert AllAvailable(vs) <==> AllAvailable(vs[..n]) && vs[n].available;
    }
  }

  // ----- the order verdict -----

  function ValidatedItems(products: map<string, Product>, items: seq<OrderItem>, today: Day): seq<ValidatedItem>
  {
    seq(|items|, i requires 0 <= i < |items| => ValidateItem(products, items[i], today))
  }

  /** The result validateOrder returns for a catalog snapshot. */
  function CheckOrder(orderId: string, items: seq<OrderItem>, products: map<string, Product>, today: Day): InventoryCheckResult
  {
    var vs := ValidatedItems(products, items, today);
    InventoryCheckResult(orderId, AllAvailable(vs), IssuesOf(vs), vs)
  }

  /** One validated item per line, in line order, echoing the line; approved
      exactly when every line is available, and exactly when there is no issue. */
  lemma CheckOrderShape(orderId: string, items: seq<OrderItem>, products: map<string, Product>, today: Day)
    ensures var r := CheckOrder(orderId, items, products, today);
      && r.orderId == orderId
      && |r.validatedItems| == |items|
      && (forall i :: 0 <= i < |items| ==>
            r.validatedItems[i].productId == items[i].productId
            && r.validatedItems[i].requestedQuantity == items[i].quantity)
      && (r.approved <==> forall i :: 0 <= i < |items| ==> r.validatedItems[i].available)
      && (r.approved <==> r.issues == [])
  {
    NoIssuesIffAllAvailable(ValidatedItems(products, items, today));
  }

  /** An inactive standard product is reported as INSUFFICIENT_QUANTITY, because
      the issue type follows the category and not the cause. */
  lemma InactiveStandardReportsInsufficientQuantity(orderId: string, item: OrderItem, products: map<string, Product>, today: Day)
    requires item.productId in products
    requires !products[item.productId].active && products[item.productId].category == Standard
    ensures CheckOrder(orderId, [item], products, today).issues
         == [ValidationIssue(item.productId, QuantityShort(item.quantity, 0), InsufficientQuantity)]
  {
    var vs := ValidatedItems(products, [item], today);
    assert |vs| == 1 && vs[..0] == [];
    assert vs[0] == ValidatedItem(item.productId, item.quantity, 0, Some(Standard), false);
    assert IssuesOf(vs) == IssuesOf(vs[..0]) + [IssueFor(vs[0])];
  }

  // ----- the catalog update of an approved order -----

  /** A line that writes a new quantity: available and not digital. */
  predicate Decrements(v: ValidatedItem)
  {
    v.available && v.category != Some(Digital)
  }

  /** The quantity the last writing line for `id` stores, if any line writes it. */
  function LastWrite(vs: seq<ValidatedItem>, id: string): Option<Int32>
  {
    if vs == [] then None
    else
      var v := vs[|vs| - 1];
      if Decrements(v) && v.productId == id then Some(Sub32(v.availableQuantity, v.requestedQuantity))
      else LastWrite(vs[..|vs| - 1], id)
  }

  function WithWrite(product: Product, w: Option<Int32>): Product
  {
    match w
    case None => product
    case Some(n) => product.(availableQuantity := n)
  }

  /** The catalog after the writes of `vs`, made against the quantities the lines carry. */
  function ApplyWrites(products: map<string, Product>, vs: seq<ValidatedItem>): map<string, Product>
  {
    map id | id in products :: WithWrite(products[id], LastWrite(vs, id))
  }

  /** The catalog updateInventoryForApprovedOrder leaves: untouched for a
      rejected result. */
  function UpdatedCatalog(products: map<string, Product>, result: InventoryCheckResult): map<string, Product>
  {
    if result.approved then ApplyWrites(products, result.validatedItems) else products
  }

  /** LastWrite is the value of the last writing line for the id, and None when no line writes it. */
  lemma {:induction false} LastWriteIsLastLine(vs: seq<ValidatedItem>, id: string)
    ensures LastWrite(vs, id) == None <==>
      forall j :: 0 <= j < |vs| ==> !(Decrements(vs[j]) && vs[j].productId == id)
    ensures forall j ::
      (0 <= j < |vs| && Decrements(vs[j]) && vs[j].productId == id &&
       forall k :: j < k < |vs| ==> !(Decrements(vs[k]) && vs[k].productId == id))
      ==> LastWrite(vs, id) == Some(Sub32(vs[j].availableQuantity, vs[j].requestedQuantity))
  {
    if vs != [] {
      var n := |vs| - 1;
      LastWriteIsLastLine(vs[..n], id);
      assert forall j :: 0 <= j < n ==> vs[..n][j] == vs[j];
    }
  }

  /** Processing one more line is one more quantity update. */
  lemma ApplyWritesStep(products: map<string, Product>, vs: seq<ValidatedItem>, v: ValidatedItem)
    ensures ApplyWrites(products, vs + [v]) ==
      if Decrements(v) then SetQuantity(ApplyWrites(products, vs), v.productId, Sub32(v.availableQuantity, v.requestedQuantity))
      else ApplyWrites(products, vs)
  {
    assert (vs + [v])[..|vs|] == vs;
  }

  /** What the update changes: the quantity of each product that a line of an
      approved result writes, set from that line's snapshot; nothing else. */
  lemma UpdateFrame(products: map<string, Product>, result: InventoryCheckResult)
    ensures var r := UpdatedCatalog(products, result);
      && r.Keys == products.Keys
      && (!result.approved ==> r == products)
      && (forall id :: id in products ==>
            r[id].(availableQuantity := 0) == products[id].(availableQuantity := 0))
      && (forall id :: id in products &&
            (forall j :: 0 <= j < |result.validatedItems| ==>
               !(Decrements(result.validatedItems[j]) && result.validatedItems[j].productId == id))
            ==> r[id] == products[id])
      && (forall j :: 0 <= j < |result.validatedItems| ==>
            var v := result.validatedItems[j];
            result.approved && Decrements(v) && v.productId in products &&
            (forall k :: j < k < |result.validatedItems| ==>
               !(Decrements(result.validatedItems[k]) && result.validatedItems[k].productId == v.productId)) ==>
            r[v.productId].availableQuantity == Sub32(v.availableQuantity, v.requestedQuantity))
  {
    forall id | id in products {
      LastWriteIsLastLine(result.validatedItems, id);
    }
  }

  /** Running the update twice for the same result leaves the catalog it leaves
      after once: every write is an absolute value taken from the result. */
  lemma UpdateIdempotent(products: map<string, Product>, result: InventoryCheckResult)
    ensures UpdatedCatalog(UpdatedCatalog(products, result), result) == UpdatedCatalog(products, result)
  {
    if result.approved {
      var once := UpdatedCatalog(products, result);
      var twice := UpdatedCatalog(once, result);
      assert twice.Keys == once.Keys;
      forall id | id in once ensures twice[id] == once[id] {
      }
    }
  }

  /** If every writing line asks for no more than it found and no less than
      nothing, every value written is non-negative. */
  lemma {:induction false} LastWriteNonNegative(vs: seq<ValidatedItem>, id: string)
    requires forall j :: 0 <= j < |vs| && Decrements(vs[j]) ==>
      0 <= vs[j].requestedQuantity <= vs[j].availableQuantity
    ensures LastWrite(vs, id).Some? ==> LastWrite(vs, id).value >= 0
  {
    if vs != [] {
      var n := |vs| - 1;
      assert forall j :: 0 <= j < n ==> vs[..n][j] == vs[j];
      LastWriteNonNegative(vs[..n], id);
    }
  }

  /** Within validateOrder the update never stores a negative quantity, when
      every requested quantity is non-negative (as intake's validation of
      positive quantities guarantees). */
  lemma ValidatedUpdateNeverNegative(orderId: string, items: seq<OrderItem>, products: map<string, Product>, today: Day)
    requires forall i :: 0 <= i < |items| ==> items[i].quantity >= 0
    ensures var r := UpdatedCatalog(products, CheckOrder(orderId, items, products, today));
      forall id :: id in products ==>
        r[id].availableQuantity == products[id].availableQuantity || r[id].availableQuantity >= 0
  {
    var vs := ValidatedItems(products, items, today);
    forall j | 0 <= j < |vs| && Decrements(vs[j])
      ensures 0 <= vs[j].requestedQuantity <= vs[j].availableQuantity
    {
      AvailableLineIsCovered(products, items[j], today);
    }
    forall id | id in products {
      LastWriteNonNegative(vs, id);
    }
  }

  /** Within validateOrder, digital products and products no line names keep
      their entries. */
  lemma ValidatedUpdateSparesDigital(orderId: string, items: seq<OrderItem>, products: map<string, Product>, today: Day)
    ensures var r := UpdatedCatalog(products, CheckOrder(orderId, items, products, today));
      forall id :: id in products &&
        (products[id].category == Digital || forall i :: 0 <= i < |items| ==> items[i].productId != id)
        ==> r[id] == products[id]
  {
    var vs := ValidatedItems(products, items, today);
    forall id | id in products &&
        (products[id].category == Digital || forall i :: 0 <= i < |items| ==> items[i].productId != id)
      ensures LastWrite(vs, id) == None
    {
      LastWriteIsLastLine(vs, id);
    }
  }

  /** Two lines for the same product are both judged against the same snapshot,
      and the later write wins: 6 + 6 units leave a stock of 10 at 4. */
  lemma DuplicateLinesLastWriteWins()
    ensures var products := map["P1" := Product("P1", "n", Standard, 10, None, true)];
      var items := [OrderItem("P1", 6, None), OrderItem("P1", 6, None)];
      var result := CheckOrder("o", items, products, 0);
      result.approved && UpdatedCatalog(products, result)["P1"].availableQuantity == 4
  {
    var products := map["P1" := Product("P1", "n", Standard, 10, None, true)];
    var items := [OrderItem("P1", 6, None), OrderItem("P1", 6, None)];
    var vs := ValidatedItems(products, items, 0);
    assert vs[..1][..0] == [];
    assert LastWrite(vs, "P1") == Some(4);
  }

  /** With a negative requested quantity the 32-bit subtraction wraps, and a
      negative quantity is stored. */
  lemma NegativeRequestWraps()
    ensures var products := map["P1" := Product("P1", "n", Standard, INT_MAX, None, true)];
      var result := CheckOrder("o", [OrderItem("P1", -1, None)], products, 0);
      result.approved && UpdatedCatalog(products, result)["P1"].availableQuantity == INT_MIN
  {
    var products := map["P1" := Product("P1", "n", Standard, INT_MAX, None, true)];
    var vs := ValidatedItems(products, [OrderItem("P1", -1, None)], 0);
    assert vs[..0] == [];
    assert LastWrite(vs, "P1") == Some(INT_MIN);
  }

  // ----- the result event -----

  /** The event published for a result; the missing-items list is null when it
      would be empty. */
  function ToEvent(result: InventoryCheckResult, now: Instant): (e: InventoryCheckResultEvent)
    ensures e.orderId == result.orderId && e.approved == result.approved
    ensures e.missingItems == None <==> result.approved || result.issues == []
    ensures e.missingItems.Some? ==>
      |e.missingItems.value| == |result.issues| &&
      forall k :: 0 <= k < |result.issues| ==>
        e.missingItems.value[k] == MissingItem(result.issues[k].productId, result.issues[k].reason)
    ensures e.eventType == "INVENTORY_CHECK_RESULT" && e.eventTimestamp == now
  {
    var missing :=
      if !result.approved then seq(|result.issues|, k requires 0 <= k < |result.issues| =>
                                     MissingItem(result.issues[k].productId, result.issues[k].reason))
      else [];
    InventoryCheckResultEvent(result.orderId, if missing == [] then None else Some(missing),
                              result.approved, "INVENTORY_CHECK_RESULT", now)
  }

  /** For a result validateOrder produced, the missing-items list is null exactly
      when the order is approved. */
  lemma EventMissingItemsIffRejected(orderId: string, items: seq<OrderItem>, products: map<string, Product>, today: Day, now: Instant)
    ensures var e := ToEvent(CheckOrder(orderId, items, products, today), now);
      e.missingItems == None <==> e.approved
  {
    CheckOrderShape(orderId, items, products, today);
  }

  // ----- the service -----

  class InventoryValidationService {
    const catalog: InMemoryProductCatalog
    const producer: Outbox<InventoryCheckResultEvent>

    constructor (catalog: InMemoryProductCatalog, producer: Outbox<InventoryCheckResultEvent>)
      ensures this.catalog == catalog && this.producer == producer
    {
      this.catalog := catalog;
      this.producer := producer;
    }

    /** validateOrder: judge every line against the catalog, update the catalog
        if the order is approved, then try to publish the result; a failed
        publish is swallowed and the result is still returned. */
    method ValidateOrder(orderId: string, items: seq<OrderItem>, today: Day, now: Instant, publishFails: bool)
      returns (result: InventoryCheckResult)
      requires catalog.Valid()
      modifies catalog, producer
      ensures catalog.Valid()
      ensures result == CheckOrder(orderId, items, old(catalog.products), today)
      ensures catalog.products == UpdatedCatalog(old(catalog.products), result)
      ensures producer.sent == old(producer.sent) + if publishFails then [] else [ToEvent(result, now)]
    {
      var issues: seq<ValidationIssue> := [];
      var validatedItems: seq<ValidatedItem> := [];
      var orderApproved := true;
      for i := 0 to |items|
        invariant |validatedItems| == i
        invariant forall k :: 0 <= k < i ==> validatedItems[k] == ValidateItem(catalog.products, items[k], today)
        invariant issues == IssuesOf(validatedItems)
        invariant orderApproved == AllAvailable(validatedItems)
        invariant catalog.products == old(catalog.products)
        invariant producer.sent == old(producer.sent)
      {
        var validatedItem := ValidateItemIn(items[i], today);
        assert (validatedItems + [validatedItem])[..i] == validatedItems;
        validatedItems := validatedItems + [validatedItem];
        if !validatedItem.available {
          orderApproved := false;
          issues := issues + [IssueFor(validatedItem)];
        }
      }
      assert validatedItems == ValidatedItems(catalog.products, items, today);
      result := InventoryCheckResult(orderId, orderApproved, issues, validatedItems);
      if orderApproved {
        UpdateInventoryForApprovedOrder(result);
      }
      PublishInventoryCheckResultEvent(result, now, publishFails);
    }

    /** validateItem, through the catalog's findProduct. */
    method ValidateItemIn(item: OrderItem, today: Day) returns (v: ValidatedItem)
      ensures v == ValidateItem(catalog.products, item, today)
    {
      var found := catalog.FindProduct(item.productId);
      match found
      case Some(product) => v := ValidateProductAvailability(product, item, today);
      case None => v := NotFoundItem(item);
    }

    /** updateInventoryForApprovedOrder: for an approved result, store snapshot
        minus requested for every available, non-digital line. */
    method UpdateInventoryForApprovedOrder(result: InventoryCheckResult)
      requires catalog.Valid()
      modifies catalog
      ensures catalog.Valid()
      ensures catalog.products == UpdatedCatalog(old(catalog.products), result)
    {
      if !result.approved {
        return;
      }
      var vs := result.validatedItems;
      for i := 0 to |vs|
        invariant catalog.Valid()
        invariant catalog.products == ApplyWrites(old(catalog.products), vs[..i])
      {
        var item := vs[i];
        ApplyWritesStep(old(catalog.products), vs[..i], item);
        assert vs[..i + 1] == vs[..i] + [item];
        if item.available && item.category != Some(Digital) {
          var newQuantity := Sub32(item.availableQuantity, item.requestedQuantity);
          catalog.UpdateProductQuantity(item.productId, newQuantity);
        }
      }
      assert vs[..|vs|] == vs;
    }

    /** publishInvenoryCheckResultEvent: build the event and publish it; a
        publish failure is swallowed. */
    method PublishInventoryCheckResultEvent(result: InventoryCheckResult, now: Instant, publishFails: bool)
      modifies producer
      ensures producer.sent == old(producer.sent) + if publishFails then [] else [ToEvent(result, now)]
    {
      var event := ToEvent(result, now);
      var _ := producer.Publish(event, publishFails);
    }
  }
}
