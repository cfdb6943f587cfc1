/**
 * The application shell: which screen is shown, navigation, the signed-in
 * profile, and the handlers that wrap the backend actor for the pages
 * (each refusing, or quietly falling back, when no actor is connected).
 */
module App {
  import opened Wrappers
  import opened Domain
  import JsString
  import StoreScreen = Store
  import CheckoutScreen = Checkout
  import AuthScreen = Auth
  import DashboardScreen = Dashboard
  import AdminScreen = Admin

  // ---------------------------------------------------------------------------
  // Handlers around the actor
  // ---------------------------------------------------------------------------

  /** How a handler ends: with a value, by throwing one of its own errors, or with the backend's rejection. */
  datatype Reply<T> = Returned(value: T) | NotConnected | NotLoggedIn | BackendFailed
  {
    /** The message of an error the handler throws itself. */
    function Message(): string
      requires NotConnected? || NotLoggedIn?
    {
      if NotConnected? then "Not connected" else "Not logged in"
    }

    /** What the page awaiting the handler sees: a value, or a rejected promise. */
    function AsOutcome(): (o: Outcome<T>)
      ensures o.Resolved? <==> Returned?
      ensures Returned? ==> o.value == value
    {
      if Returned? then Resolved(value) else Rejected
    }
  }

  /** A backend promise turned into a handler reply. */
  function FromBackend<T>(o: Outcome<T>): (r: Reply<T>)
    ensures r.Returned? <==> o.Resolved?
    ensures r.Returned? ==> r.value == o.value
    ensures o.Rejected? ==> r == BackendFailed
  {
    match o
    case Resolved(v) => Returned(v)
    case Rejected => BackendFailed
  }

  /**
   * `handleRegister`: without an actor it throws; otherwise it registers
   * the user and, once that succeeds, saves the same name and email as
   * the caller's profile.
   */
  function HandleRegister(
    actorConnected: bool, reg: AuthScreen.Registration,
    registerUser: AuthScreen.Registration -> Outcome<Unit>,
    saveCallerUserProfile: UserProfile -> Outcome<Unit>
  ): (r: Reply<Unit>)
    ensures !actorConnected ==> r == NotConnected
    ensures actorConnected ==> r != NotConnected && r != NotLoggedIn
    ensures r.Returned? <==>
      actorConnected && registerUser(reg).Resolved?
      && saveCallerUserProfile(UserProfile(reg.username, reg.email)).Resolved?
  {
    if !actorConnected then NotConnected
    else if registerUser(reg).Rejected? then BackendFailed
    else FromBackend(saveCallerUserProfile(UserProfile(reg.username, reg.email)))
  }

  /** `handleLoginLookup`: the caller's stored profile, if any; throws without an actor. */
  function HandleLoginLookup(actorConnected: bool, getCallerUserProfile: Outcome<Option<UserProfile>>)
    : (r: Reply<Option<UserProfile>>)
    ensures !actorConnected ==> r == NotConnected
    ensures actorConnected ==> r == FromBackend(getCallerUserProfile)
  {
    if !actorConnected then NotConnected else FromBackend(getCallerUserProfile)
  }

  /** The arguments of one backend `placeOrder` call: the customer and the page's order. */
  datatype PlaceOrderCall = PlaceOrderCall(username: string, request: CheckoutScreen.OrderRequest)

  /**
   * `handlePlaceOrder`: throws without an actor, then without a profile;
   * otherwise places the order under the signed-in user's name, passing
   * the page's request through unchanged.
   */
  function HandlePlaceOrder(
    actorConnected: bool, userProfile: Option<UserProfile>, req: CheckoutScreen.OrderRequest,
    placeOrder: PlaceOrderCall -> Outcome<int>
  ): (r: Reply<int>)
    ensures !actorConnected ==> r == NotConnected
    ensures actorConnected && userProfile.None? ==> r == NotLoggedIn
    ensures actorConnected && userProfile.Some? ==>
      r == FromBackend(placeOrder(PlaceOrderCall(userProfile.value.username, req)))
  {
    if !actorConnected then NotConnected
    else if userProfile.None? then NotLoggedIn
    else FromBackend(placeOrder(PlaceOrderCall(userProfile.value.username, req)))
  }

  /** `handleLoadOrders`: the customer's orders; an empty list without an actor. */
  function HandleLoadOrders(actorConnected: bool, username: string, getCustomerOrders: string -> Outcome<seq<Order>>)
    : (r: Outcome<seq<Order>>)
    ensures !actorConnected ==> r == Resolved([])
    ensures actorConnected ==> r == getCustomerOrders(username)
  {
    if actorConnected then getCustomerOrders(username) else Resolved([])
  }

  /**
   * The admin backend and the dashboard's file handlers: each forwards to
   * the actor, or resolves with a fixed value when there is none (false,
   * an empty list, id 0, nothing, no bytes).
   */
  function OrFallback<T>(actorConnected: bool, call: Outcome<T>, fallback: T): (r: Outcome<T>)
    ensures actorConnected ==> r == call
    ensures !actorConnected ==> r == Resolved(fallback)
  {
    if actorConnected then call else Resolved(fallback)
  }

  /** With no actor the admin check answers false, so the panel stays locked even though it fails open on errors. */
  lemma NoActorNoAdmin(isCallerAdmin: Outcome<bool>)
    ensures !AdminScreen.AdminAccess(OrFallback(false, isCallerAdmin, false))
    ensures AdminScreen.AdminAccess(OrFallback(true, Rejected, false))
  {
  }

  /**
   * With no actor every admin save that passes the form's checks reports
   * success, because the fallback resolves without storing anything.
   */
  lemma NoActorSavesLookSuccessful(
    form: AdminScreen.ProductForm, editing: Option<Product>,
    toPence: string -> Outcome<int>, createOrUpdate: AdminScreen.ProductSave -> Outcome<int>)
    requires AdminScreen.SaveRefusal(form.name, form.price).None? && toPence(form.price).Resolved?
    ensures AdminScreen.ProductSaveStep(
              form, editing, toPence, (c: AdminScreen.ProductSave) => OrFallback(false, createOrUpdate(c), 0)).0
            == AdminScreen.Saved
  {
  }

  /**
   * The dashboard gets only the id-keyed file listing, so an order's files
   * are looked up through the first catalogue product whose trimmed,
   * lower-cased name matches the order's item. With the download handler
   * always passed, an order's download section shows exactly when its
   * lower-cased status is "accepted".
   */
  lemma DashboardUsesIdLookup(itemName: string, products: seq<Product>, status: string)
    ensures DashboardScreen.CanDownload(status, true, false, true) <==> JsString.ToLower(status) == "accepted"
    ensures DashboardScreen.FileLookupFor(itemName, products, false, true).None? <==>
      forall i :: 0 <= i < |products| ==>
        DashboardScreen.NameKey(products[i].name) != DashboardScreen.NameKey(itemName)
    ensures DashboardScreen.FileLookupFor(itemName, products, false, true).Some? ==>
      DashboardScreen.FileLookupFor(itemName, products, false, true).value.ById?
  {
  }

  // ---------------------------------------------------------------------------
  // Screen selection and navigation
  // ---------------------------------------------------------------------------

  /** What the shell renders. */
  datatype View =
    | LoadingView
    | AdminView
    | StoreView
    | ProductDetailView(product: Product)
    | CheckoutView(item: CheckoutItem)
    | AuthView
    | DashboardView(profile: UserProfile)
    | LoginPrompt
    | NoItemPrompt
    | EmptyMain

  /** The shell's state. */
  class AppState {
    var showLoading: bool
    var currentPage: Page
    var userProfile: Option<UserProfile>
    var selectedProduct: Option<Product>
    var checkoutItem: Option<CheckoutItem>
    var showAdminPinModal: bool
    var isMenuOpen: bool

    /** Nothing ever raises the PIN-modal flag; it is only cleared. */
    ghost predicate Valid()
      reads this
    {
      !showAdminPinModal
    }

    constructor ()
      ensures Valid()
      ensures showLoading && currentPage == Store && userProfile.None? && selectedProduct.None?
      ensures checkoutItem.None? && !isMenuOpen
    {
      showLoading := true;
      currentPage := Store;
      userProfile := None;
      selectedProduct := None;
      checkoutItem := None;
      showAdminPinModal := false;
      isMenuOpen := false;
    }

    /**
     * The render: the loading screen first; then the admin panel for the
     * admin page or the modal flag; otherwise the page, where the product,
     * checkout and dashboard pages need their data and show a prompt (or
     * nothing, for a missing product) without it.
     */
    function CurrentView(): (v: View)
      reads this
      ensures v == LoadingView <==> showLoading
      ensures v == AdminView <==> !showLoading && (currentPage == Admin || showAdminPinModal)
      ensures v.ProductDetailView? ==> selectedProduct == Some(v.product)
      ensures v.CheckoutView? ==> checkoutItem == Some(v.item)
      ensures v.DashboardView? ==> userProfile == Some(v.profile)
    {
      if showLoading then LoadingView
      else if showAdminPinModal then AdminView
      else match currentPage
        case Store => StoreView
        case ProductDetail => if selectedProduct.Some? then ProductDetailView(selectedProduct.value) else EmptyMain
        case Checkout => if checkoutItem.Some? then CheckoutView(checkoutItem.value) else NoItemPrompt
        case Auth => AuthView
        case Dashboard => if userProfile.Some? then DashboardView(userProfile.value) else LoginPrompt
        case Admin => AdminView
    }

    /** The navigation bar is shown with every page except the loading screen and the admin panel. */
    function NavbarShown(): (shown: bool)
      reads this
      ensures shown <==> !showLoading && !showAdminPinModal && currentPage != Admin
    {
      CurrentView() != LoadingView && CurrentView() != AdminView
    }

    /** The loading screen's `onComplete`. */
    method FinishLoading()
      modifies this`showLoading
      ensures !showLoading
    {
      showLoading := false;
    }

    /** `navigate`: switch page and close the mobile menu; the selections and the profile stay. */
    method Navigate(page: Page)
      modifies this`currentPage, this`isMenuOpen
      ensures currentPage == page && !isMenuOpen
    {
      currentPage := page;
      isMenuOpen := false;
    }

    /** The admin panel's `onNavigate`: drop the PIN-modal flag, then navigate. */
    method AdminNavigate(page: Page)
      modifies this`showAdminPinModal, this`currentPage, this`isMenuOpen
      ensures Valid()
      ensures currentPage == page && !isMenuOpen
    {
      showAdminPinModal := false;
      Navigate(page);
    }

    /** The menu button. */
    method ToggleMenu()
      modifies this`isMenuOpen
      ensures isMenuOpen == !old(isMenuOpen)
    {
      isMenuOpen := !isMenuOpen;
    }

    /** `handleLogout`: forget the profile (clearing the identity provider is outside the model). */
    method Logout()
      modifies this`userProfile
      ensures userProfile.None?
    {
      userProfile := None;
    }

    /** `onSetUserProfile`, as the sign-in page calls it. */
    method SetUserProfile(profile: UserProfile)
      modifies this`userProfile
      ensures userProfile == Some(profile)
    {
      userProfile := Some(profile);
    }

    /** A store or detail button: record what it selects, then navigate where it says. */
    method ApplySelection(e: StoreScreen.Selection)
      modifies this`selectedProduct, this`checkoutItem, this`currentPage, this`isMenuOpen
      ensures selectedProduct == (if e.product.Some? then e.product else old(selectedProduct))
      ensures checkoutItem == (if e.checkoutItem.Some? then e.checkoutItem else old(checkoutItem))
      ensures currentPage == e.navigateTo && !isMenuOpen
    {
      if e.product.Some? {
        selectedProduct := e.product;
      }
      if e.checkoutItem.Some? {
        checkoutItem := e.checkoutItem;
      }
      Navigate(e.navigateTo);
    }

    /**
     * `handleUpdateEmail`: without an actor or a profile it returns at once
     * (the caller sees success); otherwise it saves the profile with the new
     * email and adopts it only after the save succeeds.
     */
    method HandleUpdateEmail(actorConnected: bool, newEmail: string, saveCallerUserProfile: UserProfile -> Outcome<Unit>)
      returns (r: Outcome<Unit>, call: Option<UserProfile>)
      modifies this`userProfile
      ensures !actorConnected || old(userProfile).None? ==>
        r == Resolved(Unit) && call.None? && userProfile == old(userProfile)
      ensures actorConnected && old(userProfile).Some? ==>
        call == Some(old(userProfile).value.(email := newEmail)) && r == saveCallerUserProfile(call.value)
      ensures userProfile == (if call.Some? && r.Resolved? then call else old(userProfile))
    {
      if !actorConnected || userProfile.None? {
        return Resolved(Unit), None;
      }
      var updated := userProfile.value.(email := newEmail);
      call := Some(updated);
      r := saveCallerUserProfile(updated);
      if r.Resolved? {
        userProfile := Some(updated);
      }
    }
  }

  /** Without the modal flag, the admin panel is shown exactly on the admin page. */
  lemma AdminViewOnlyOnAdminPage(app: AppState)
    requires app.Valid() && !app.showLoading
    ensures app.CurrentView() == AdminView <==> app.currentPage == Admin
  {
  }

  /** Every page that needs data either has it or shows its prompt; none of them renders with a missing value. */
  lemma PagesHaveTheirData(app: AppState)
    requires !app.showLoading && !app.showAdminPinModal
    ensures app.currentPage == Checkout && app.checkoutItem.Some? ==>
      app.CurrentView() == CheckoutView(app.checkoutItem.value)
    ensures app.currentPage == Checkout && app.checkoutItem.None? ==> app.CurrentView() == NoItemPrompt
    ensures app.currentPage == Dashboard && app.userProfile.None? ==> app.CurrentView() == LoginPrompt
    ensures app.currentPage == Dashboard && app.userProfile.Some? ==>
      app.CurrentView() == DashboardView(app.userProfile.value)
  {
  }

  /** A signed-in buy-now lands on the checkout of that product at its catalogue price. */
  method BuyNowReachesCheckout(app: AppState, p: Product)
    requires !app.showLoading && app.Valid() && app.userProfile.Some?
    modifies app
    ensures app.CurrentView() == CheckoutView(CheckoutItem(p.id, p.name, p.price, None))
  {
    app.ApplySelection(StoreScreen.BuyNow(p, app.userProfile));
  }

  /** A signed-out buy-now lands on the sign-in page and leaves any earlier checkout item alone. */
  method SignedOutBuyNowAsksToSignIn(app: AppState, p: Product)
    requires !app.showLoading && app.Valid() && app.userProfile.None?
    modifies app
    ensures app.CurrentView() == AuthView
    ensures app.checkoutItem == old(app.checkoutItem)
  {
    app.ApplySelection(StoreScreen.BuyNow(p, app.userProfile));
  }

  /**
   * App's `handleLogout` on its own, as the navigation menu's Sign Out calls
   * it: on the dashboard page the login prompt takes the dashboard's place.
   */
  method MenuLogoutOnDashboard(app: AppState)
    requires !app.showLoading && app.Valid() && app.currentPage == Dashboard
    modifies app
    ensures app.CurrentView() == LoginPrompt
  {
    app.Logout();
  }

  /** The dashboard's own Log Out button: App's logout, then the store. */
  method DashboardLogOutGoesToStore(app: AppState)
    requires !app.showLoading && app.Valid() && app.currentPage == Dashboard
    modifies app
    ensures app.userProfile.None? && app.CurrentView() == StoreView
  {
    app.Logout();
    app.Navigate(Store);
  }

  /** A logout while the checkout shows keeps it mounted: the page stays, its profile prop becomes null. */
  method LogoutKeepsCheckout(app: AppState)
    requires !app.showLoading && app.Valid() && app.currentPage == Checkout && app.checkoutItem.Some?
    modifies app
    ensures app.userProfile.None? && app.checkoutItem == old(app.checkoutItem)
    ensures app.CurrentView() == CheckoutView(app.checkoutItem.value)
  {
    app.Logout();
  }

  /**
   * Logging out with the checkout still mounted: Apply then refuses a
   * non-blank code with "Please log in to use coupons", and a completed
   * form sends no order and leads to the sign-in page.
   */
  method LogoutDuringCheckout(
    app: AppState, page: CheckoutScreen.CheckoutPage, actorConnected: bool,
    validateCoupon: CheckoutScreen.CouponRequest -> Outcome<CheckoutScreen.CouponValidation>,
    onPlaceOrder: CheckoutScreen.OrderRequest -> Outcome<int>,
    saveProfile: UserProfile -> Outcome<Unit>)
    returns (request: Option<CheckoutScreen.CouponRequest>, step: CheckoutScreen.PlaceStep)
    requires !app.showLoading && app.Valid() && app.currentPage == Checkout && app.checkoutItem == Some(page.item)
    requires page.Valid() && !JsString.AllWhitespace(page.couponInput)
    requires page.selectedMethod.Some?
    requires !JsString.AllWhitespace(page.paymentRef) && !JsString.AllWhitespace(page.deliveryEmail)
    modifies app, page
    ensures request.None? && page.couponMessage == Some(CheckoutScreen.CouponError("Please log in to use coupons"))
    ensures page.appliedCoupon == old(page.appliedCoupon)
    ensures step == CheckoutScreen.PlaceStep(CheckoutScreen.NotLoggedIn, Some(Auth), None, None)
    ensures page.orderId == old(page.orderId)
    ensures app.userProfile.None? && app.CurrentView() == AuthView
  {
    LogoutKeepsCheckout(app);
    request, step := CheckoutScreen.SignedOutPresses(page, actorConnected, validateCoupon, onPlaceOrder, saveProfile);
    app.Navigate(step.navigateTo.value);
  }

  /**
   * Saving a new address from the dashboard, whose `onUpdateEmail` is App's
   * `handleUpdateEmail`: once the backend accepts it, App adopts the address
   * and the dashboard, still shown, disables its save button. Without an
   * actor the page still reports success, but nothing is adopted.
   */
  method SavedEmailDisablesSave(
    app: AppState, page: DashboardScreen.DashboardPage, actorConnected: bool,
    saveCallerUserProfile: UserProfile -> Outcome<Unit>)
    returns (saved: bool)
    requires !app.showLoading && app.Valid() && app.currentPage == Dashboard && app.userProfile.Some?
    requires page.Valid() && !JsString.AllWhitespace(page.emailInput)
    modifies app, page
    ensures actorConnected ==>
      (saved <==> saveCallerUserProfile(old(app.userProfile.value).(email := JsString.Trim(page.emailInput))).Resolved?)
    ensures actorConnected && saved ==>
      && app.userProfile == Some(old(app.userProfile.value).(email := JsString.Trim(page.emailInput)))
      && app.CurrentView() == DashboardView(app.userProfile.value)
      && !page.SaveEmailEnabled(app.userProfile.value)
    ensures !actorConnected ==> saved && app.userProfile == old(app.userProfile)
  {
    var email := DashboardScreen.EmailToSave(page.emailInput);
    var r, _ := app.HandleUpdateEmail(actorConnected, email.value, saveCallerUserProfile);
    var _, pageSaved := page.SaveEmail((e: string) => r);
    saved := pageSaved;
  }
}
