/**
 * The admin panel: the PIN gate and the admin check behind it, the
 * flattened order list with its accept/decline actions, and the product
 * and package forms with their feature lists and save validation.
 */
module Admin {
  import opened Wrappers
  import opened JsString
  import opened Domain
  import opened OrderSort
  import Dashboard

  // ---------------------------------------------------------------------------
  // PIN gate and admin check
  // ---------------------------------------------------------------------------

  /** `CORRECT_PIN`. */
  const CorrectPin: string := "2006"

  /** `PinState`; `Entered` is declared in `AdminPage.tsx` but never set. */
  datatype PinState = Idle | Entered | Verified | Denied

  class PinGate {
    var pin: string
    var pinState: PinState

    constructor ()
      ensures pin == "" && pinState == Idle
    {
      pin := "";
      pinState := Idle;
    }

    /** Typing replaces the PIN and clears an earlier verdict. */
    method EditPin(text: string)
      modifies this
      ensures pin == text && pinState == Idle
    {
      pin := text;
      pinState := Idle;
    }

    /**
     * `handleSubmit`: exactly "2006" verifies and reports success; anything
     * else is denied and the PIN is cleared.
     */
    method Submit() returns (onSuccessCalled: bool)
      modifies this
      ensures onSuccessCalled <==> old(pin) == CorrectPin
      ensures onSuccessCalled ==> pinState == Verified && pin == old(pin)
      ensures !onSuccessCalled ==> pinState == Denied && pin == ""
    {
      if pin == CorrectPin {
        pinState := Verified;
        onSuccessCalled := true;
      } else {
        pinState := Denied;
        pin := "";
        onSuccessCalled := false;
      }
    }
  }

  /**
   * The verdict of `handlePinSuccess`: the backend's answer when it gives
   * one, and access granted when the call fails.
   */
  function AdminAccess(isCallerAdmin: Outcome<bool>): (authed: bool)
    ensures isCallerAdmin.Rejected? ==> authed
    ensures isCallerAdmin.Resolved? ==> authed == isCallerAdmin.value
  {
    match isCallerAdmin
    case Resolved(isAdmin) => isAdmin
    case Rejected => true
  }

  /** The check fails open: only an explicit "not an admin" answer keeps the panel locked. */
  lemma AdminCheckFailsOpen(isCallerAdmin: Outcome<bool>)
    ensures !AdminAccess(isCallerAdmin) <==> isCallerAdmin == Resolved(false)
  {
  }

  /** The panel's own gate state. */
  class AdminGate {
    var isAuthed: bool
    var isCheckingAdmin: bool

    constructor ()
      ensures !isAuthed && !isCheckingAdmin
    {
      isAuthed := false;
      isCheckingAdmin := false;
    }

    /** `handlePinSuccess`. */
    method HandlePinSuccess(isCallerAdmin: Outcome<bool>)
      modifies this
      ensures isAuthed == AdminAccess(isCallerAdmin)
      ensures !isCheckingAdmin
    {
      isCheckingAdmin := true;
      match isCallerAdmin {
        case Resolved(isAdmin) =>
          isAuthed := isAdmin;
        case Rejected =>
          isAuthed := true;
      }
      isCheckingAdmin := false;
    }
  }

  // ---------------------------------------------------------------------------
  // The flattened order list
  // ---------------------------------------------------------------------------

  /** One entry of `listAllOrders`: a customer and that customer's orders. */
  type OrderGroup = (string, seq<Order>)

  /** `orders.map(o => ({ ...o, customerUsername: username }))`. */
  function TagAll(username: string, orders: seq<Order>): (r: seq<Order>)
    ensures |r| == |orders|
    ensures forall k :: 0 <= k < |orders| ==> r[k] == orders[k].(customerUsername := username)
  {
    seq(|orders|, k requires 0 <= k < |orders| => orders[k].(customerUsername := username))
  }

  /** The `flatMap` before sorting: each group's orders tagged with its customer, group after group. */
  function FlattenTagged(groups: seq<OrderGroup>): seq<Order> {
    if groups == [] then [] else TagAll(groups[0].0, groups[0].1) + FlattenTagged(groups[1..])
  }

  /** The number of orders over all groups. */
  function TotalOrders(groups: seq<OrderGroup>): nat {
    if groups == [] then 0 else |groups[0].1| + TotalOrders(groups[1..])
  }

  /** `allOrdersFlat`. */
  function AllOrdersFlat(groups: seq<OrderGroup>): seq<Order> {
    SortNewestFirst(FlattenTagged(groups))
  }

  lemma {:induction false} FlattenLength(groups: seq<OrderGroup>)
    ensures |FlattenTagged(groups)| == TotalOrders(groups)
  {
    if groups != [] {
      FlattenLength(groups[1..]);
    }
  }

  /** `x` is order `k` of group `i`, tagged with that group's customer. */
  predicate TaggedFrom(groups: seq<OrderGroup>, i: int, k: int, x: Order) {
    0 <= i < |groups| && 0 <= k < |groups[i].1| && x == groups[i].1[k].(customerUsername := groups[i].0)
  }

  lemma {:induction false} FlattenMembership(groups: seq<OrderGroup>, x: Order)
    ensures x in FlattenTagged(groups) <==> exists i, k :: TaggedFrom(groups, i, k, x)
  {
    if groups != [] {
      FlattenMembership(groups[1..], x);
      var head := TagAll(groups[0].0, groups[0].1);
      if x in head {
        var k :| 0 <= k < |head| && head[k] == x;
        assert TaggedFrom(groups, 0, k, x);
      }
      if x in FlattenTagged(groups[1..]) {
        var i, k :| TaggedFrom(groups[1..], i, k, x);
        assert TaggedFrom(groups, i + 1, k, x);
      }
      if exists i, k :: TaggedFrom(groups, i, k, x) {
        var i, k :| TaggedFrom(groups, i, k, x);
        if i == 0 {
          assert head[k] == x;
        } else {
          assert TaggedFrom(groups[1..], i - 1, k, x);
        }
      }
    }
  }

  /**
   * The admin list holds every customer's orders, each tagged with the
   * customer it was listed under (whatever its own field said), newest
   * first, and nothing else.
   */
  lemma AllOrdersFlatIsTaggedAndSorted(groups: seq<OrderGroup>)
    ensures |AllOrdersFlat(groups)| == TotalOrders(groups)
    ensures NewestFirst(AllOrdersFlat(groups))
    ensures multiset(AllOrdersFlat(groups)) == multiset(FlattenTagged(groups))
    ensures forall x :: x in AllOrdersFlat(groups) <==> exists i, k :: TaggedFrom(groups, i, k, x)
  {
    FlattenLength(groups);
    SortIsNewestFirst(FlattenTagged(groups));
    SortIsPermutation(FlattenTagged(groups));
    forall x ensures x in AllOrdersFlat(groups) <==> exists i, k :: TaggedFrom(groups, i, k, x) {
      FlattenMembership(groups, x);
      assert x in AllOrdersFlat(groups) <==> x in multiset(AllOrdersFlat(groups));
      assert x in FlattenTagged(groups) <==> x in multiset(FlattenTagged(groups));
    }
  }

  // ---------------------------------------------------------------------------
  // Accept / decline
  // ---------------------------------------------------------------------------

  /** `isPending`: the lower-cased status is "pending". */
  predicate IsPending(o: Order) {
    Dashboard.HasStatus(o, "pending")
  }

  /** The statuses an admin can send for an order: accept or decline, only while it is pending. */
  function StatusActions(o: Order): (actions: seq<string>)
    ensures actions != [] <==> IsPending(o)
    ensures forall a :: a in actions ==> a == "accepted" || a == "declined"
  {
    if IsPending(o) then ["accepted", "declined"] else []
  }

  /** `${username}-${orderId.toString()}`: the row key and the `updatingId` of an order. */
  function OrderKey(username: string, orderId: int): string {
    username + "-" + IntToString(orderId)
  }

  /** The position of the last `c` in `s`. */
  function LastIndexOf(s: string, c: char): (r: Option<nat>)
    ensures r.Some? ==> r.value < |s| && s[r.value] == c
    ensures r.Some? ==> forall k :: r.value < k < |s| ==> s[k] != c
    ensures r.None? ==> forall k :: 0 <= k < |s| ==> s[k] != c
  {
    if s == [] then None
    else if s[|s| - 1] == c then Some(|s| - 1)
    else LastIndexOf(s[..|s| - 1], c)
  }

  lemma {:induction false} LastDashBeforeDigits(u: string, d: string)
    requires IsDigits(d)
    ensures LastIndexOf(u + "-" + d, '-') == Some(|u|)
  {
    if d != [] {
      var d' := d[..|d| - 1];
      LastDashBeforeDigits(u, d');
      assert (u + "-" + d)[..|u + "-" + d| - 1] == u + "-" + d';
    } else {
      assert u + "-" + d == u + "-";
    }
  }

  /**
   * With non-negative order ids (the backend numbers orders from zero) the
   * key names one order: the last "-" separates the customer from the id.
   */
  lemma OrderKeyInjective(u1: string, id1: int, u2: string, id2: int)
    requires id1 >= 0 && id2 >= 0
    requires OrderKey(u1, id1) == OrderKey(u2, id2)
    ensures u1 == u2 && id1 == id2
  {
    var s := OrderKey(u1, id1);
    var d1, d2 := IntToString(id1), IntToString(id2);
    LastDashBeforeDigits(u1, d1);
    LastDashBeforeDigits(u2, d2);
    assert u1 == s[..|u1|] == u2;
    assert d1 == s[|u1| + 1..] == d2;
  }

  /** A negative id would break that: "a" with -1 and "a-" with 1 share the key "a--1". */
  lemma NegativeIdsCanShareKey()
    ensures OrderKey("a", -1) == OrderKey("a-", 1)
  {
    assert NatToString(1) == "1";
  }

  /** The arguments of one `updateOrderStatus` call. */
  datatype StatusUpdate = StatusUpdate(username: string, orderId: int, status: string)

  /** The orders tab. */
  class OrdersTab {
    var allOrders: seq<OrderGroup>
    var isLoading: bool
    var updatingId: Option<string>

    constructor ()
      ensures allOrders == [] && isLoading && updatingId == None
    {
      allOrders := [];
      isLoading := true;
      updatingId := None;
    }

    /** The rows shown once loading is done: every customer's orders, tagged, newest first. */
    function Rows(): (rows: seq<Order>)
      reads this
      ensures |rows| == TotalOrders(allOrders)
      ensures NewestFirst(rows)
    {
      AllOrdersFlatIsTaggedAndSorted(allOrders);
      AllOrdersFlat(allOrders)
    }

    /** `loadOrders`: keep the listing on success, keep the old one on failure, end loading either way. */
    method LoadOrders(listAllOrders: Outcome<seq<OrderGroup>>)
      modifies this`allOrders, this`isLoading
      ensures allOrders == (if listAllOrders.Resolved? then listAllOrders.value else old(allOrders))
      ensures !isLoading
    {
      isLoading := true;
      if listAllOrders.Resolved? {
        allOrders := listAllOrders.value;
      }
      isLoading := false;
    }

    /**
     * `handleStatus`: mark the row as updating, send the update, reload the
     * list after a success, and clear the mark either way.
     */
    method HandleStatus(
      username: string, orderId: int, status: string,
      updateOrderStatus: StatusUpdate -> Outcome<Unit>,
      listAllOrders: Outcome<seq<OrderGroup>>)
      returns (markedKey: string, reloaded: bool)
      modifies this`allOrders, this`isLoading, this`updatingId
      ensures markedKey == OrderKey(username, orderId)
      ensures reloaded <==> updateOrderStatus(StatusUpdate(username, orderId, status)).Resolved?
      ensures allOrders == (if reloaded && listAllOrders.Resolved? then listAllOrders.value else old(allOrders))
      ensures updatingId == None
    {
      markedKey := OrderKey(username, orderId);
      updatingId := Some(markedKey);
      reloaded := updateOrderStatus(StatusUpdate(username, orderId, status)).Resolved?;
      if reloaded {
        LoadOrders(listAllOrders);
      }
      updatingId := None;
    }
  }

  // ---------------------------------------------------------------------------
  // Save validation
  // ---------------------------------------------------------------------------

  predicate IsDigit(c: char) {
    '0' <= c <= '9'
  }

  /**
   * `!isNaN(parseFloat(s))`: after leading whitespace, an optional sign and
   * then "Infinity", a digit, or "." followed by a digit. Whatever follows
   * that prefix is ignored.
   */
  predicate ParsesAsNumber(s: string) {
    var t := TrimStart(s);
    var u := if t != [] && (t[0] == '+' || t[0] == '-') then t[1..] else t;
    StartsWith(u, "Infinity") || (u != [] && IsDigit(u[0])) || (|u| >= 2 && u[0] == '.' && IsDigit(u[1]))
  }

  /** `!form.price || isNaN(parseFloat(form.price))` refuses the price. */
  predicate PriceAccepted(price: string) {
    price != "" && ParsesAsNumber(price)
  }

  /** Whatever follows an accepted price is ignored: "3abc" passes because "3" does. */
  lemma AcceptedPriceIgnoresSuffix(price: string, rest: string)
    requires PriceAccepted(price)
    ensures PriceAccepted(price + rest)
  {
    var t := TrimStart(price);
    TrimStartAppend(price, rest);
    var t' := TrimStart(price + rest);
    assert t' == t + rest;
    var u := if t != [] && (t[0] == '+' || t[0] == '-') then t[1..] else t;
    var u' := if t' != [] && (t'[0] == '+' || t'[0] == '-') then t'[1..] else t';
    assert u' == u + rest by {
      if t[0] == '+' || t[0] == '-' {
        assert t'[1..] == t[1..] + rest;
      }
    }
    if StartsWith(u, "Infinity") {
      assert u'[..|"Infinity"|] == u[..|"Infinity"|];
    }
  }

  /** A price typed as plain digits is accepted, and so is anything it begins. */
  lemma DigitPricesAccepted(n: nat, rest: string)
    ensures PriceAccepted(NatToString(n) + rest)
  {
    var d := NatToString(n);
    assert IsDigit(d[0]);
    assert TrimStart(d) == d;
    AcceptedPriceIgnoresSuffix(d, rest);
  }

  /** A blank price is refused, whatever whitespace it holds. */
  lemma BlankPriceRefused(price: string)
    requires AllWhitespace(price)
    ensures !PriceAccepted(price)
  {
    TrimStartEmptyIff(price);
  }

  /** How one press of "Save" ended. */
  datatype SaveResult = NameRequired | PriceRequired | Saved | SaveFailed

  /** The checks shared by both forms, in order. */
  function SaveRefusal(name: string, price: string): (r: Option<SaveResult>)
    ensures r.None? <==> !AllWhitespace(name) && PriceAccepted(price)
    ensures AllWhitespace(name) ==> r == Some(NameRequired)
    ensures !AllWhitespace(name) && !PriceAccepted(price) ==> r == Some(PriceRequired)
  {
    TrimEmptyIff(name);
    if Trim(name) == "" then Some(NameRequired)
    else if !PriceAccepted(price) then Some(PriceRequired)
    else None
  }

  // ---------------------------------------------------------------------------
  // Products tab
  // ---------------------------------------------------------------------------

  datatype ProductForm = ProductForm(
    name: string, description: string, price: string, category: string, imageUrl: string, isAvailable: bool)

  /** The product form's defaults. */
  const DefaultProductForm := ProductForm("", "", "", "game_account", "", true)

  /** The backend call a product save makes. */
  datatype ProductSave =
    | CreateProduct(name: string, description: string, price: int, category: string, imageUrl: string)
    | UpdateProduct(id: int, name: string, description: string, price: int, category: string, imageUrl: string, isAvailable: bool)

  /**
   * `handleSave` of the products tab: the checks, then the price
   * conversion (which throws for a non-finite number), then an update of
   * the product being edited or a create, with trimmed texts.
   */
  function ProductSaveStep(
    form: ProductForm, editing: Option<Product>,
    toPence: string -> Outcome<int>, save: ProductSave -> Outcome<int>
  ): (r: (SaveResult, Option<ProductSave>))
    ensures SaveRefusal(form.name, form.price).Some? ==> r == (SaveRefusal(form.name, form.price).value, None)
    ensures r.1.Some? <==> SaveRefusal(form.name, form.price).None? && toPence(form.price).Resolved?
    ensures r.1.Some? ==> (r.1.value.UpdateProduct? <==> editing.Some?)
    ensures r.1.Some? && editing.Some? ==>
      r.1.value == UpdateProduct(editing.value.id, Trim(form.name), Trim(form.description),
                                 toPence(form.price).value, form.category, Trim(form.imageUrl), form.isAvailable)
    ensures r.1.Some? && editing.None? ==>
      r.1.value == CreateProduct(Trim(form.name), Trim(form.description),
                                 toPence(form.price).value, form.category, Trim(form.imageUrl))
    ensures r.0 == Saved <==> r.1.Some? && save(r.1.value).Resolved?
  {
    match SaveRefusal(form.name, form.price)
    case Some(refusal) => (refusal, None)
    case None =>
      match toPence(form.price)
      case Rejected => (SaveFailed, None)
      case Resolved(price) =>
        var call :=
          if editing.Some? then
            UpdateProduct(editing.value.id, Trim(form.name), Trim(form.description), price,
                          form.category, Trim(form.imageUrl), form.isAvailable)
          else CreateProduct(Trim(form.name), Trim(form.description), price, form.category, Trim(form.imageUrl));
        (if save(call).Resolved? then Saved else SaveFailed, Some(call))
  }

  class ProductsTab {
    var products: seq<Product>
    var form: ProductForm
    var editing: Option<Product>
    var showForm: bool
    var isSaving: bool

    constructor ()
      ensures products == [] && form == DefaultProductForm && editing == None && !showForm && !isSaving
    {
      products := [];
      form := DefaultProductForm;
      editing := None;
      showForm := false;
      isSaving := false;
    }

    /** `resetForm`. */
    method ResetForm()
      modifies this`form, this`editing, this`showForm
      ensures form == DefaultProductForm && editing == None && !showForm
    {
      form := DefaultProductForm;
      editing := None;
      showForm := false;
    }

    /** `openEdit`, given the price as the form shows it (a two-decimal rendering of the pence). */
    method OpenEdit(p: Product, priceText: string)
      modifies this`form, this`editing, this`showForm
      ensures form == ProductForm(p.name, p.description, priceText, p.category, p.imageUrl, p.isAvailable)
      ensures editing == Some(p) && showForm
    {
      form := ProductForm(p.name, p.description, priceText, p.category, p.imageUrl, p.isAvailable);
      editing := Some(p);
      showForm := true;
    }

    /** `handleSave`: the form is reset and the list reloaded only after a successful save. */
    method HandleSave(
      toPence: string -> Outcome<int>, save: ProductSave -> Outcome<int>,
      listAvailableProducts: Outcome<seq<Product>>)
      returns (result: SaveResult, call: Option<ProductSave>)
      modifies this`products, this`form, this`editing, this`showForm, this`isSaving
      ensures (result, call) == ProductSaveStep(old(form), old(editing), toPence, save)
      ensures result == Saved ==> form == DefaultProductForm && editing == None && !showForm
      ensures result != Saved ==> form == old(form) && editing == old(editing) && showForm == old(showForm)
      ensures products ==
        (if result == Saved && listAvailableProducts.Resolved? then listAvailableProducts.value else old(products))
      ensures !isSaving
    {
      var step := ProductSaveStep(form, editing, toPence, save);
      result, call := step.0, step.1;
      if result == Saved {
        isSaving := true;
        ResetForm();
        if listAvailableProducts.Resolved? {
          products := listAvailableProducts.value;
        }
      }
      isSaving := false;
    }
  }

  // ---------------------------------------------------------------------------
  // Packages tab
  // ---------------------------------------------------------------------------

  /**
   * `addFeature`: a non-blank entry is appended trimmed and the input
   * cleared; a blank one changes nothing.
   */
  function AddFeature(features: seq<string>, newFeature: string): (r: (seq<string>, string))
    ensures AllWhitespace(newFeature) ==> r == (features, newFeature)
    ensures !AllWhitespace(newFeature) ==> r == (features + [Trim(newFeature)], "")
  {
    TrimEmptyIff(newFeature);
    if Trim(newFeature) != "" then (features + [Trim(newFeature)], "") else (features, newFeature)
  }

  /** `features.filter((_, i) => i !== idx)`, walking the list with the index of its first element. */
  function RemoveFeatureFrom(features: seq<string>, idx: int, first: int): (r: seq<string>)
    ensures |r| <= |features|
  {
    if features == [] then []
    else (if first != idx then [features[0]] else []) + RemoveFeatureFrom(features[1..], idx, first + 1)
  }

  /** `removeFeature(idx)`. */
  function RemoveFeature(features: seq<string>, idx: int): seq<string> {
    RemoveFeatureFrom(features, idx, 0)
  }

  lemma {:induction false} RemoveFeatureFromSlices(features: seq<string>, idx: int, first: int)
    ensures first <= idx < first + |features| ==>
      RemoveFeatureFrom(features, idx, first) == features[..idx - first] + features[idx - first + 1..]
    ensures !(first <= idx < first + |features|) ==> RemoveFeatureFrom(features, idx, first) == features
  {
    if features != [] {
      RemoveFeatureFromSlices(features[1..], idx, first + 1);
      if first == idx {
        assert RemoveFeatureFrom(features[1..], idx, first + 1) == features[1..];
      } else if first < idx < first + |features| {
        assert features[..idx - first] == [features[0]] + features[1..][..idx - first - 1];
        assert features[idx - first + 1..] == features[1..][idx - first..];
      } else {
        assert features == [features[0]] + features[1..];
      }
    }
  }

  /** Removing drops exactly the entry at `idx`, keeps the rest in order, and ignores an index out of range. */
  lemma RemoveFeatureSpec(features: seq<string>, idx: int)
    ensures 0 <= idx < |features| ==> RemoveFeature(features, idx) == features[..idx] + features[idx + 1..]
    ensures 0 <= idx < |features| ==> |RemoveFeature(features, idx)| == |features| - 1
    ensures !(0 <= idx < |features|) ==> RemoveFeature(features, idx) == features
  {
    RemoveFeatureFromSlices(features, idx, 0);
  }

  /** Removing the entry just added restores the list. */
  lemma RemoveUndoesAdd(features: seq<string>, newFeature: string)
    requires !AllWhitespace(newFeature)
    ensures RemoveFeature(AddFeature(features, newFeature).0, |features|) == features
  {
    var added := AddFeature(features, newFeature).0;
    RemoveFeatureSpec(added, |features|);
    assert added[..|features|] == features;
  }

  datatype PackageForm = PackageForm(
    name: string, description: string, price: string, features: seq<string>, isActive: bool)

  /** The package form's defaults. */
  const DefaultPackageForm := PackageForm("", "", "", [], true)

  /** The backend call a package save makes. */
  datatype PackageSave =
    | CreatePackage(name: string, description: string, price: int, features: seq<string>)
    | UpdatePackage(id: int, name: string, description: string, price: int, features: seq<string>, isActive: bool)

  /** `handleSave` of the packages tab: the same checks, the feature list passed as it is. */
  function PackageSaveStep(
    form: PackageForm, editing: Option<Package>,
    toPence: string -> Outcome<int>, save: PackageSave -> Outcome<int>
  ): (r: (SaveResult, Option<PackageSave>))
    ensures SaveRefusal(form.name, form.price).Some? ==> r == (SaveRefusal(form.name, form.price).value, None)
    ensures r.1.Some? <==> SaveRefusal(form.name, form.price).None? && toPence(form.price).Resolved?
    ensures r.1.Some? && editing.Some? ==>
      r.1.value == UpdatePackage(editing.value.id, Trim(form.name), Trim(form.description),
                                 toPence(form.price).value, form.features, form.isActive)
    ensures r.1.Some? && editing.None? ==>
      r.1.value == CreatePackage(Trim(form.name), Trim(form.description), toPence(form.price).value, form.features)
    ensures r.0 == Saved <==> r.1.Some? && save(r.1.value).Resolved?
  {
    match SaveRefusal(form.name, form.price)
    case Some(refusal) => (refusal, None)
    case None =>
      match toPence(form.price)
      case Rejected => (SaveFailed, None)
      case Resolved(price) =>
        var call :=
          if editing.Some? then
            UpdatePackage(editing.value.id, Trim(form.name), Trim(form.description), price, form.features, form.isActive)
          else CreatePackage(Trim(form.name), Trim(form.description), price, form.features);
        (if save(call).Resolved? then Saved else SaveFailed, Some(call))
  }

  class SubscriptionsTab {
    var packages: seq<Package>
    var form: PackageForm
    var editing: Option<Package>
    var showForm: bool
    var newFeature: string
    var isSaving: bool

    constructor ()
      ensures packages == [] && form == DefaultPackageForm && editing == None
      ensures !showForm && newFeature == "" && !isSaving
    {
      packages := [];
      form := DefaultPackageForm;
      editing := None;
      showForm := false;
      newFeature := "";
      isSaving := false;
    }

    /** `resetForm`: the defaults, no package being edited, the form hidden and the feature input cleared. */
    method ResetForm()
      modifies this`form, this`editing, this`showForm, this`newFeature
      ensures form == DefaultPackageForm && editing == None && !showForm && newFeature == ""
    {
      form := DefaultPackageForm;
      editing := None;
      showForm := false;
      newFeature := "";
    }

    /** `openEdit`: the form gets its own copy of the package's features. */
    method OpenEdit(pkg: Package, priceText: string)
      modifies this`form, this`editing, this`showForm
      ensures form == PackageForm(pkg.name, pkg.description, priceText, pkg.features, pkg.isActive)
      ensures editing == Some(pkg) && showForm
    {
      form := PackageForm(pkg.name, pkg.description, priceText, pkg.features, pkg.isActive);
      editing := Some(pkg);
      showForm := true;
    }

    method EditNewFeature(text: string)
      modifies this`newFeature
      ensures newFeature == text
    {
      newFeature := text;
    }

    /** `addFeature` on the form. */
    method AddFeatureToForm()
      modifies this`form, this`newFeature
      ensures (form.features, newFeature) == AddFeature(old(form.features), old(newFeature))
      ensures form == old(form).(features := form.features)
    {
      var r := AddFeature(form.features, newFeature);
      form := form.(features := r.0);
      newFeature := r.1;
    }

    /** `removeFeature(idx)` on the form. */
    method RemoveFeatureFromForm(idx: int)
      modifies this`form
      ensures form == old(form).(features := RemoveFeature(old(form.features), idx))
    {
      form := form.(features := RemoveFeature(form.features, idx));
    }

    /** `handleSave`: the form is reset and the list reloaded only after a successful save. */
    method HandleSave(
      toPence: string -> Outcome<int>, save: PackageSave -> Outcome<int>,
      listActivePackages: Outcome<seq<Package>>)
      returns (result: SaveResult, call: Option<PackageSave>)
      modifies this`packages, this`form, this`editing, this`showForm, this`newFeature, this`isSaving
      ensures (result, call) == PackageSaveStep(old(form), old(editing), toPence, save)
      ensures result == Saved ==> form == DefaultPackageForm && editing == None && !showForm && newFeature == ""
      ensures result != Saved ==>
        form == old(form) && editing == old(editing) && showForm == old(showForm) && newFeature == old(newFeature)
      ensures packages ==
        (if result == Saved && listActivePackages.Resolved? then listActivePackages.value else old(packages))
      ensures !isSaving
    {
      var step := PackageSaveStep(form, editing, toPence, save);
      result, call := step.0, step.1;
      if result == Saved {
        isSaving := true;
        ResetForm();
        if listActivePackages.Resolved? {
          packages := listActivePackages.value;
        }
      }
      isSaving := false;
    }
  }
}
