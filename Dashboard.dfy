/**
 * The customer dashboard: newest-first orders and their counts, the
 * download gate, order-to-file reconciliation, the download MIME choice,
 * the status and payment-method labels, the e-mail form and the
 * membership purchase form.
 */
module Dashboard {
  import opened Wrappers
  import opened JsString
  import opened Domain
  import opened OrderSort

  // ---------------------------------------------------------------------------
  // Counts
  // ---------------------------------------------------------------------------

  /** The order's status, lower-cased, is `status`. */
  predicate HasStatus(o: Order, status: string) {
    ToLower(o.status) == status
  }

  /** `orders.filter(o => o.status.toLowerCase() === status).length`. */
  function CountWithStatus(orders: seq<Order>, status: string): (n: nat)
    ensures n <= |orders|
  {
    if orders == [] then 0
    else CountWithStatus(orders[..|orders| - 1], status) + (if HasStatus(orders[|orders| - 1], status) then 1 else 0)
  }

  lemma {:induction false} CountAppend(a: seq<Order>, b: seq<Order>, status: string)
    ensures CountWithStatus(a + b, status) == CountWithStatus(a, status) + CountWithStatus(b, status)
  {
    if b != [] {
      var ab := a + b;
      CountAppend(a, b[..|b| - 1], status);
      assert ab[..|ab| - 1] == a + b[..|b| - 1];
    } else {
      assert a + b == a;
    }
  }

  lemma CountOne(o: Order, status: string)
    ensures CountWithStatus([o], status) == if HasStatus(o, status) then 1 else 0
  {
    assert [o][..0] == [];
  }

  lemma {:induction false} InsertKeepsCount(sorted: seq<Order>, o: Order, status: string)
    ensures CountWithStatus(InsertNewestFirst(sorted, o), status)
         == CountWithStatus(sorted, status) + (if HasStatus(o, status) then 1 else 0)
  {
    CountOne(o, status);
    if sorted == [] || sorted[|sorted| - 1].timestamp >= o.timestamp {
      CountAppend(sorted, [o], status);
    } else {
      var init, last := sorted[..|sorted| - 1], sorted[|sorted| - 1];
      var inserted := InsertNewestFirst(init, o);
      assert InsertNewestFirst(sorted, o) == inserted + [last];
      InsertKeepsCount(init, o, status);
      CountOne(last, status);
      CountAppend(inserted, [last], status);
      CountAppend(init, [last], status);
      assert init + [last] == sorted;
    }
  }

  /** Sorting does not change how many orders have a given status. */
  lemma {:induction false} SortKeepsCount(s: seq<Order>, status: string)
    ensures CountWithStatus(SortNewestFirst(s), status) == CountWithStatus(s, status)
  {
    if s != [] {
      var init, last := s[..|s| - 1], s[|s| - 1];
      SortKeepsCount(init, status);
      InsertKeepsCount(SortNewestFirst(init), last, status);
    }
  }

  /** The "Pending" tile. */
  function PendingCount(orders: seq<Order>): nat {
    CountWithStatus(orders, "pending")
  }

  /** The "Completed" tile: the accepted orders. */
  function CompletedCount(orders: seq<Order>): nat {
    CountWithStatus(orders, "accepted")
  }

  /** An order is pending or accepted, not both, so the two tiles never add up to more than the total. */
  lemma {:induction false} CountsWithinTotal(orders: seq<Order>)
    ensures PendingCount(orders) + CompletedCount(orders) <= |orders|
  {
    if orders != [] {
      CountsWithinTotal(orders[..|orders| - 1]);
    }
  }

  // ---------------------------------------------------------------------------
  // Labels
  // ---------------------------------------------------------------------------

  /**
   * The all-lower-case property names every object literal inherits from
   * `Object.prototype`. Indexing a literal table with one of them finds the
   * inherited member, which is not nullish, so a `??` fallback is skipped.
   */
  predicate InheritedKey(key: string) {
    key == "constructor" || key == "__proto__"
  }

  /**
   * `StatusBadge`'s label: the three known statuses (any case) get a fixed
   * label and any other status its own text, except that a status naming an
   * inherited member finds that member, whose `label` is undefined and
   * renders as nothing.
   */
  function StatusLabel(status: string): (shown: string)
    ensures ToLower(status) == "pending" ==> shown == "Pending"
    ensures ToLower(status) == "accepted" ==> shown == "Accepted"
    ensures ToLower(status) == "declined" ==> shown == "Declined"
    ensures InheritedKey(ToLower(status)) ==> shown == ""
    ensures ToLower(status) !in {"pending", "accepted", "declined"} && !InheritedKey(ToLower(status)) ==>
      shown == status
  {
    var key := ToLower(status);
    if key == "pending" then "Pending"
    else if key == "accepted" then "Accepted"
    else if key == "declined" then "Declined"
    else if InheritedKey(key) then ""
    else status
  }

  /** The six-entry table of `getPaymentMethodLabel`, keyed by lower-case method. */
  function PaymentLabels(): map<string, string> {
    map[
      "paypal" := "PayPal", "bitcoin" := "Bitcoin", "ethereum" := "Ethereum",
      "xbox" := "Xbox Gift Card", "amazon" := "Amazon Gift Card", "etsy" := "Etsy Gift Card"]
  }

  /** What a lookup in `getPaymentMethodLabel`'s table yields: text, or a member inherited from `Object.prototype`. */
  datatype LabelValue = Text(text: string) | InheritedMember(key: string)

  /**
   * `getPaymentMethodLabel`: the table entry for the lower-cased method, the
   * inherited member for a method naming one, or else the method itself.
   */
  function PaymentMethodLabel(m: string): (shown: LabelValue)
    ensures ToLower(m) in PaymentLabels() ==> shown == Text(PaymentLabels()[ToLower(m)])
    ensures InheritedKey(ToLower(m)) ==> shown == InheritedMember(ToLower(m))
    ensures ToLower(m) !in PaymentLabels() && !InheritedKey(ToLower(m)) ==> shown == Text(m)
  {
    var key := ToLower(m);
    if key in PaymentLabels() then Text(PaymentLabels()[key])
    else if InheritedKey(key) then InheritedMember(key)
    else Text(m)
  }

  /** Every method the checkout sends gets its display name, in whatever case it is stored. */
  lemma PaymentMethodLabelOfEveryMethod(m: PaymentMethod, stored: string)
    requires ToLower(stored) == m.Id()
    ensures PaymentMethodLabel(stored) == Text(PaymentLabels()[m.Id()])
  {
  }

  // ---------------------------------------------------------------------------
  // Order-to-file reconciliation
  // ---------------------------------------------------------------------------

  /** An accepted order shows a download section only with a download handler and some way to list files. */
  predicate CanDownload(status: string, hasDownloadHandler: bool, hasListByName: bool, hasListById: bool) {
    ToLower(status) == "accepted" && hasDownloadHandler && (hasListByName || hasListById)
  }

  /**
   * An order whose card shows a download section is one the "Completed"
   * tile counts, and never one the "Pending" tile counts.
   */
  lemma DownloadableOrderIsCompleted(
    orders: seq<Order>, k: int, hasDownloadHandler: bool, hasListByName: bool, hasListById: bool)
    requires 0 <= k < |orders|
    requires CanDownload(orders[k].status, hasDownloadHandler, hasListByName, hasListById)
    ensures CompletedCount(orders) >= 1
    ensures PendingCount(orders) < |orders|
  {
    var before, here, after := orders[..k], [orders[k]], orders[k + 1..];
    assert orders == before + here + after;
    CountAppend(before + here, after, "accepted");
    CountAppend(before, here, "accepted");
    CountOne(orders[k], "accepted");
    CountAppend(before + here, after, "pending");
    CountAppend(before, here, "pending");
    CountOne(orders[k], "pending");
  }

  /** Names are compared trimmed and lower-cased. */
  function NameKey(name: string): string {
    ToLower(Trim(name))
  }

  /** Product `k` is the first whose name matches `itemName`. */
  predicate FirstMatchAt(products: seq<Product>, itemName: string, k: int) {
    && 0 <= k < |products|
    && NameKey(products[k].name) == NameKey(itemName)
    && forall i :: 0 <= i < k ==> NameKey(products[i].name) != NameKey(itemName)
  }

  /** The match key of every product, in catalogue order. */
  function NameKeys(products: seq<Product>): (keys: seq<string>)
    ensures |keys| == |products|
    ensures forall i :: 0 <= i < |products| ==> keys[i] == NameKey(products[i].name)
  {
    seq(|products|, i requires 0 <= i < |products| => NameKey(products[i].name))
  }

  /** The first index at or after `from` holding `key`. */
  function FirstIndexFrom(keys: seq<string>, key: string, from: nat): (r: Option<nat>)
    requires from <= |keys|
    ensures r.Some? ==> from <= r.value < |keys| && keys[r.value] == key
    ensures r.Some? ==> forall i :: from <= i < r.value ==> keys[i] != key
    ensures r.None? ==> forall i :: from <= i < |keys| ==> keys[i] != key
    decreases |keys| - from
  {
    if from == |keys| then None
    else if keys[from] == key then Some(from)
    else FirstIndexFrom(keys, key, from + 1)
  }

  /** `products.find(...)`: the index of the first product whose trimmed, lower-cased name equals the order's. */
  function FindProductByName(products: seq<Product>, itemName: string): (r: Option<nat>)
    ensures r.Some? ==> FirstMatchAt(products, itemName, r.value)
    ensures r.None? <==> forall i :: 0 <= i < |products| ==> NameKey(products[i].name) != NameKey(itemName)
  {
    FirstIndexFrom(NameKeys(products), NameKey(itemName), 0)
  }

  /** The listing call `loadFiles` makes. */
  datatype FileLookup = ByName(productName: string) | ById(productId: int)

  /**
   * Which listing call `loadFiles` makes: the name-keyed lookup with the
   * order's item name as it is when that handler exists; otherwise, with
   * the id-keyed handler, the id of the first product whose name matches,
   * or no call when none does.
   */
  function FileLookupFor(itemName: string, products: seq<Product>, hasListByName: bool, hasListById: bool)
    : (r: Option<FileLookup>)
    ensures hasListByName ==> r == Some(ByName(itemName))
    ensures !hasListByName && !hasListById ==> r == None
    ensures !hasListByName && hasListById ==>
      (r.None? <==> forall i :: 0 <= i < |products| ==> NameKey(products[i].name) != NameKey(itemName))
    ensures r.Some? && r.value.ById? ==>
      exists k :: FirstMatchAt(products, itemName, k) && products[k].id == r.value.productId
  {
    if hasListByName then Some(ByName(itemName))
    else if hasListById then
      match FindProductByName(products, itemName)
      case Some(k) => Some(ById(products[k].id))
      case None => None
    else None
  }

  /** `handleDownload`'s MIME type: the Android package type for "apk" in any case, plain text otherwise. */
  function MimeType(fileType: string): (mime: string)
    ensures mime == "application/vnd.android.package-archive" <==> ToLower(fileType) == "apk"
    ensures mime != "application/vnd.android.package-archive" ==> mime == "text/plain"
  {
    if ToLower(fileType) == "apk" then "application/vnd.android.package-archive" else "text/plain"
  }

  /** A downloaded file as handed to the browser: its original name, its MIME type and its bytes. */
  datatype SavedFile = SavedFile(fileName: string, mimeType: string, data: seq<bv8>)

  /** The download section of one order card. */
  class OrderDownloadSection {
    const order: Order
    const products: seq<Product>
    var files: seq<ProductFileInfo>
    var isLoading: bool
    var downloadingId: Option<int>

    constructor (order: Order, products: seq<Product>)
      ensures this.order == order && this.products == products
      ensures files == [] && isLoading && downloadingId == None
    {
      this.order := order;
      this.products := products;
      files := [];
      isLoading := true;
      downloadingId := None;
    }

    /**
     * `loadFiles`: one listing call chosen by `FileLookupFor`; its files on
     * success; a rejection is swallowed; loading ends on every path.
     */
    method LoadFiles(
      listByName: Option<string -> Outcome<seq<ProductFileInfo>>>,
      listById: Option<int -> Outcome<seq<ProductFileInfo>>>)
      returns (lookup: Option<FileLookup>)
      modifies this`files, this`isLoading
      ensures lookup == FileLookupFor(order.itemName, products, listByName.Some?, listById.Some?)
      ensures !isLoading
      ensures files ==
        match lookup
        case Some(ByName(name)) =>
          (match listByName.value(name) case Resolved(fs) => fs case Rejected => old(files))
        case Some(ById(id)) =>
          (match listById.value(id) case Resolved(fs) => fs case Rejected => old(files))
        case None => old(files)
    {
      lookup := FileLookupFor(order.itemName, products, listByName.Some?, listById.Some?);
      match lookup {
        case Some(ByName(name)) =>
          var result := listByName.value(name);
          if result.Resolved? {
            files := result.value;
          }
        case Some(ById(id)) =>
          var result := listById.value(id);
          if result.Resolved? {
            files := result.value;
          }
        case None =>
      }
      isLoading := false;
    }

    /** `handleDownload`: fetch the bytes and save them under the file's name with its MIME type. */
    method HandleDownload(file: ProductFileInfo, downloadFile: int -> Outcome<seq<bv8>>)
      returns (saved: Option<SavedFile>)
      modifies this`downloadingId
      ensures downloadingId == None
      ensures saved ==
        match downloadFile(file.fileId)
        case Resolved(data) => Some(SavedFile(file.fileName, MimeType(file.fileType), data))
        case Rejected => None
    {
      downloadingId := Some(file.fileId);
      match downloadFile(file.fileId) {
      case Resolved(data) =>
        saved := Some(SavedFile(file.fileName, MimeType(file.fileType), data));
      case Rejected =>
        saved := None;
      }
      downloadingId := None;
    }
  }

  // ---------------------------------------------------------------------------
  // The dashboard's own state
  // ---------------------------------------------------------------------------

  /** The checks of `handleSaveEmail`: a blank address is refused before any call. */
  function EmailToSave(emailInput: string): (r: Option<string>)
    ensures r.None? <==> AllWhitespace(emailInput)
    ensures r.Some? ==> r.value == Trim(emailInput) && r.value != ""
  {
    TrimEmptyIff(emailInput);
    if Trim(emailInput) == "" then None else Some(Trim(emailInput))
  }

  /**
   * The dashboard's own state. The profile is a prop that App replaces
   * after an e-mail update while the page stays mounted, so the members
   * that read it take its current value as a parameter.
   */
  class DashboardPage {
    var orders: seq<Order>
    var isLoadingOrders: bool
    var emailInput: string
    var isSavingEmail: bool

    /** Between two handlers the loaded orders are newest first and no save is in flight. */
    ghost predicate Valid()
      reads this
    {
      NewestFirst(orders) && !isSavingEmail
    }

    /** Mounting: the profile at that moment seeds the e-mail input. */
    constructor (userProfile: UserProfile)
      ensures Valid()
      ensures orders == [] && isLoadingOrders
      ensures emailInput == userProfile.email
    {
      orders := [];
      isLoadingOrders := true;
      emailInput := userProfile.email;
      isSavingEmail := false;
    }

    /** The save button, against the current profile: enabled unless a save runs or the trimmed input is the current address. */
    function SaveEmailEnabled(userProfile: UserProfile): (enabled: bool)
      reads this
      ensures enabled ==> EmailToSave(emailInput) != Some(userProfile.email)
    {
      !isSavingEmail && Trim(emailInput) != userProfile.email
    }

    /** The load effect for the current profile's username: fetch its orders, keep them sorted newest first, end loading either way. */
    method LoadOrders(username: string, onLoadOrders: string -> Outcome<seq<Order>>)
      requires Valid()
      modifies this`orders, this`isLoadingOrders
      ensures Valid() && !isLoadingOrders
      ensures orders == match onLoadOrders(username)
                      case Resolved(loaded) => SortNewestFirst(loaded)
                      case Rejected => old(orders)
    {
      match onLoadOrders(username) {
        case Resolved(loaded) =>
          var a := new Order[|loaded|](i requires 0 <= i < |loaded| => loaded[i]);
          assert a[..] == loaded;
          SortOrdersInPlace(a);
          SortIsNewestFirst(loaded);
          orders := a[..];
        case Rejected =>
      }
      isLoadingOrders := false;
    }

    /** The "Pending" tile over the loaded orders. */
    function Pending(): (n: nat)
      reads this
      ensures n + CompletedCount(orders) <= |orders|
    {
      CountsWithinTotal(orders);
      PendingCount(orders)
    }

    method EditEmail(text: string)
      requires Valid()
      modifies this`emailInput
      ensures Valid() && emailInput == text
    {
      emailInput := text;
    }

    /** `handleSaveEmail`: a blank input makes no call; otherwise the trimmed input is handed to `onUpdateEmail`. */
    method SaveEmail(onUpdateEmail: string -> Outcome<Unit>) returns (call: Option<string>, saved: bool)
      requires Valid()
      modifies this`isSavingEmail
      ensures Valid()
      ensures call == EmailToSave(emailInput)
      ensures saved <==> call.Some? && onUpdateEmail(call.value).Resolved?
    {
      call := EmailToSave(emailInput);
      saved := false;
      if call.Some? {
        isSavingEmail := true;
        saved := onUpdateEmail(call.value).Resolved?;
        isSavingEmail := false;
      }
    }
  }

  // ---------------------------------------------------------------------------
  // Membership purchase
  // ---------------------------------------------------------------------------

  /** How one press of the membership purchase button ended. */
  datatype PurchaseResult = NoMethodSelected | NoReference | PurchaseUnavailable | Purchased | PurchaseFailed

  /** The arguments of one `onPurchase` call. */
  datatype PurchaseRequest = PurchaseRequest(paymentMethod: string, paymentRef: string)

  /**
   * `handlePurchase`: method chosen, trimmed reference non-blank, handler
   * present, in that order; then one call with the trimmed reference.
   */
  function PurchaseStep(
    selected: Option<PaymentMethod>, paymentRef: string,
    onPurchase: Option<PurchaseRequest -> Outcome<int>>
  ): (r: (PurchaseResult, Option<PurchaseRequest>))
    ensures r.1.Some? <==> selected.Some? && Trim(paymentRef) != "" && onPurchase.Some?
    ensures r.1.Some? ==> r.1.value == PurchaseRequest(selected.value.Id(), Trim(paymentRef))
    ensures selected.None? ==> r.0 == NoMethodSelected
    ensures selected.Some? && Trim(paymentRef) == "" ==> r.0 == NoReference
    ensures selected.Some? && Trim(paymentRef) != "" && onPurchase.None? ==> r.0 == PurchaseUnavailable
    ensures r.0 == Purchased <==> r.1.Some? && onPurchase.value(r.1.value).Resolved?
  {
    if selected.None? then (NoMethodSelected, None)
    else if Trim(paymentRef) == "" then (NoReference, None)
    else if onPurchase.None? then (PurchaseUnavailable, None)
    else
      var request := PurchaseRequest(selected.value.Id(), Trim(paymentRef));
      (if onPurchase.value(request).Resolved? then Purchased else PurchaseFailed, Some(request))
  }

  class MembershipCheckout {
    var selectedMethod: Option<PaymentMethod>
    var paymentRef: string
    var isPlacing: bool
    var purchased: bool

    constructor ()
      ensures selectedMethod == None && paymentRef == "" && !isPlacing && !purchased
    {
      selectedMethod := None;
      paymentRef := "";
      isPlacing := false;
      purchased := false;
    }

    method SelectMethod(m: PaymentMethod)
      modifies this`selectedMethod
      ensures selectedMethod == Some(m)
    {
      selectedMethod := Some(m);
    }

    method EditPaymentRef(text: string)
      modifies this`paymentRef
      ensures paymentRef == text
    {
      paymentRef := text;
    }

    /** `handlePurchase`: `purchased` becomes true only when the purchase call resolves. */
    method HandlePurchase(onPurchase: Option<PurchaseRequest -> Outcome<int>>)
      returns (result: PurchaseResult, call: Option<PurchaseRequest>)
      modifies this`isPlacing, this`purchased
      ensures (result, call) == PurchaseStep(selectedMethod, paymentRef, onPurchase)
      ensures purchased == (old(purchased) || result == Purchased)
      ensures !isPlacing
    {
      var step := PurchaseStep(selectedMethod, paymentRef, onPurchase);
      result, call := step.0, step.1;
      if call.Some? {
        isPlacing := true;
        if result == Purchased {
          purchased := true;
        }
      }
      isPlacing := false;
    }
  }
}
