/**
 * The checkout page: the discounted-price rule, the coupon apply/remove
 * state machine, the payment-details fallbacks and place-order validation.
 */
module Checkout {
  import opened Wrappers
  import opened JsString
  import opened Domain

  // ---------------------------------------------------------------------------
  // Pricing
  // ---------------------------------------------------------------------------

  /** The part of a validated coupon that the page keeps. */
  datatype AppliedCoupon = AppliedCoupon(code: string, discountType: string, discountValue: int)

  /** BigInt division by 100: the quotient truncated toward zero (Dafny's `/` is Euclidean). */
  function TruncDiv100(a: int): (q: int)
    ensures a >= 0 ==> 0 <= 100 * q <= a < 100 * q + 100
    ensures a < 0 ==> 100 * q - 100 < a <= 100 * q <= 0
  {
    if a >= 0 then a / 100 else -((-a) / 100)
  }

  /**
   * The price shown and charged on the page: the item's price without a
   * coupon; with a "percentage" coupon, the price less price*value/100
   * (truncated); with any other type, the price less the value; never
   * below zero once a coupon is applied.
   */
  function DiscountedPrice(price: int, applied: Option<AppliedCoupon>): (r: int)
    ensures applied.None? ==> r == price
    ensures applied.Some? ==> r >= 0
  {
    match applied
    case None => price
    case Some(c) =>
      var discounted :=
        if c.discountType == "percentage" then price - TruncDiv100(price * c.discountValue)
        else price - c.discountValue;
      if discounted < 0 then 0 else discounted
  }

  /**
   * A percentage coupon charges the proportional price price*(100-value)/100
   * rounded UP to a whole minor unit (the discount is rounded down), and never
   * more than the price.
   */
  lemma PercentagePriceIsProportionalRoundedUp(price: int, code: string, value: int)
    requires price >= 0 && 0 <= value <= 100
    ensures var r := DiscountedPrice(price, Some(AppliedCoupon(code, "percentage", value)));
      && 0 <= r <= price
      && price * (100 - value) <= 100 * r < price * (100 - value) + 100
  {
    var pv := price * value;
    assert 0 <= pv <= 100 * price by {
      assert price * value <= price * 100;
    }
    assert price * (100 - value) == 100 * price - pv;
    var q := TruncDiv100(pv);
    assert 100 * q <= pv < 100 * q + 100;
  }

  /**
   * Any other discount type, "fixed" included, takes exactly the value off
   * while the value does not exceed the price, and charges zero otherwise.
   */
  lemma NonPercentageSubtractsValue(price: int, code: string, kind: string, value: int)
    requires kind != "percentage" && price >= 0 && value >= 0
    ensures var r := DiscountedPrice(price, Some(AppliedCoupon(code, kind, value)));
      && 0 <= r <= price
      && (value <= price ==> r + value == price)
      && (value > price ==> r == 0)
  {
  }

  /** A bigger discount value of the same type never raises the price. */
  lemma DiscountMonotone(price: int, code: string, kind: string, v1: int, v2: int)
    requires price >= 0 && v1 <= v2
    ensures DiscountedPrice(price, Some(AppliedCoupon(code, kind, v2)))
         <= DiscountedPrice(price, Some(AppliedCoupon(code, kind, v1)))
  {
    if kind == "percentage" {
      assert price * v1 <= price * v2;
      var q1, q2 := TruncDiv100(price * v1), TruncDiv100(price * v2);
      assert q1 <= q2;
    }
  }

  /** Worked values: 10% off 1000 is 900; 100 off 50 is 0; 33% off 999 is 670; -1% off 150 truncates to 151. */
  lemma WorkedExamples()
    ensures DiscountedPrice(1000, Some(AppliedCoupon("SAVE10", "percentage", 10))) == 900
    ensures DiscountedPrice(50, Some(AppliedCoupon("BIG", "fixed", 100))) == 0
    ensures DiscountedPrice(999, Some(AppliedCoupon("C33", "percentage", 33))) == 670
    ensures DiscountedPrice(150, Some(AppliedCoupon("ODD", "percentage", -1))) == 151
  {
  }

  // ---------------------------------------------------------------------------
  // Payment details
  // ---------------------------------------------------------------------------

  /** The payment setting the method shows, possibly empty. */
  function ConfiguredDetails(m: PaymentMethod, s: PaymentSettings): string {
    match m
    case PayPal => s.paypalEmail
    case Bitcoin => s.bitcoinWallet
    case Ethereum => s.ethereumWallet
    case Xbox => s.xboxInstructions
    case Amazon => s.amazonInstructions
    case Etsy => s.etsyInstructions
  }

  /** What the page shows when the setting is empty. */
  function DefaultDetails(m: PaymentMethod): string {
    match m
    case PayPal => "Contact admin for PayPal details"
    case Bitcoin => "Contact admin for Bitcoin wallet"
    case Ethereum => "Contact admin for Ethereum wallet"
    case Xbox => "Send your Xbox gift card code to admin via email"
    case Amazon => "Send your Amazon gift card code to admin via email"
    case Etsy => "Send your Etsy gift card code to admin via email"
  }

  /** `getDetails`: the configured setting, or the method's fallback text when the setting is "". */
  function PaymentDetails(m: PaymentMethod, s: PaymentSettings): (r: string)
    ensures r != ""
    ensures ConfiguredDetails(m, s) != "" ==> r == ConfiguredDetails(m, s)
    ensures ConfiguredDetails(m, s) == "" ==> r == DefaultDetails(m)
  {
    var configured := ConfiguredDetails(m, s);
    if configured != "" then configured else DefaultDetails(m)
  }

  /** The details panel: shown only when a method is selected and settings were loaded. */
  function ShownPaymentDetails(selected: Option<PaymentMethod>, settings: Option<PaymentSettings>): (r: Option<string>)
    ensures r.Some? <==> selected.Some? && settings.Some?
    ensures r.Some? ==> r.value != ""
  {
    if selected.Some? && settings.Some? then Some(PaymentDetails(selected.value, settings.value)) else None
  }

  // ---------------------------------------------------------------------------
  // Coupon and order requests
  // ---------------------------------------------------------------------------

  /** What `validateCoupon` resolves with. */
  datatype CouponValidation = CouponValidation(soloUse: bool, coupon: Coupon)

  /** The arguments of one `validateCoupon` call. */
  datatype CouponRequest = CouponRequest(code: string, customerUsername: string)

  /** The coupon feedback line: an error text, or the coupon that was applied (its text is rendered from it). */
  datatype CouponMessage = CouponError(text: string) | CouponSuccess(applied: AppliedCoupon)

  /** The coupon code as sent: the input trimmed, then upper-cased. */
  function NormalizedCode(input: string): (code: string)
    ensures |code| <= |input|
    ensures code == "" <==> AllWhitespace(input)
    ensures ToUpper(code) == code
  {
    TrimEmptyIff(input);
    ToUpperIdempotent(Trim(input));
    ToUpper(Trim(input))
  }

  /** The fast-fail checks of `handleApplyCoupon`, in order; `None` when the backend is asked. */
  function CouponPrecheck(code: string, profile: Option<UserProfile>, actorConnected: bool): (err: Option<string>)
    ensures err.None? <==> code != "" && profile.Some? && actorConnected
    ensures code == "" ==> err == Some("Please enter a coupon code")
    ensures code != "" && profile.None? ==> err == Some("Please log in to use coupons")
    ensures code != "" && profile.Some? && !actorConnected ==> err == Some("Not connected to backend")
  {
    if code == "" then Some("Please enter a coupon code")
    else if profile.None? then Some("Please log in to use coupons")
    else if !actorConnected then Some("Not connected to backend")
    else None
  }

  /** The arguments of one `onPlaceOrder` call. */
  datatype OrderRequest = OrderRequest(
    itemName: string,
    price: int,
    paymentMethod: string,
    paymentReference: string,
    couponCode: Option<string>,
    deliveryEmail: string)

  /** How one press of "Place Order" ended. */
  datatype PlaceOrderResult =
    | NoPaymentMethod | NoPaymentReference | NoDeliveryEmail | NotLoggedIn
    | Placed(orderId: int) | PlaceFailed

  /** The checks of `handlePlaceOrder`, in order; `None` when the order is sent. */
  function PlaceOrderPrecheck(
    selected: Option<PaymentMethod>, paymentRef: string, deliveryEmail: string, profile: Option<UserProfile>
  ): (failed: Option<PlaceOrderResult>)
    ensures failed.None? <==>
      selected.Some? && Trim(paymentRef) != "" && Trim(deliveryEmail) != "" && profile.Some?
    ensures selected.None? ==> failed == Some(NoPaymentMethod)
    ensures selected.Some? && Trim(paymentRef) == "" ==> failed == Some(NoPaymentReference)
    ensures selected.Some? && Trim(paymentRef) != "" && Trim(deliveryEmail) == "" ==> failed == Some(NoDeliveryEmail)
    ensures selected.Some? && Trim(paymentRef) != "" && Trim(deliveryEmail) != "" && profile.None? ==>
      failed == Some(NotLoggedIn)
  {
    if selected.None? then Some(NoPaymentMethod)
    else if Trim(paymentRef) == "" then Some(NoPaymentReference)
    else if Trim(deliveryEmail) == "" then Some(NoDeliveryEmail)
    else if profile.None? then Some(NotLoggedIn)
    else None
  }

  /** The order the page sends: the undiscounted item price, the trimmed texts and the applied coupon's code. */
  function OrderRequestFor(
    item: CheckoutItem, m: PaymentMethod, paymentRef: string, applied: Option<AppliedCoupon>, deliveryEmail: string
  ): (req: OrderRequest)
    ensures req.itemName == item.name && req.price == item.price
    ensures req.paymentMethod == m.Id()
    ensures req.paymentReference == Trim(paymentRef) && req.deliveryEmail == Trim(deliveryEmail)
    ensures req.couponCode.Some? <==> applied.Some?
    ensures applied.Some? ==> req.couponCode == Some(applied.value.code)
  {
    OrderRequest(
      item.name, item.price, m.Id(), Trim(paymentRef),
      if applied.Some? then Some(applied.value.code) else None,
      Trim(deliveryEmail))
  }

  /**
   * The order request carries the undiscounted price whatever coupon is
   * applied; the discount reaches the backend only as the coupon code. With
   * SAVE10 (10%) on 1000 the page shows 900 and sends 1000.
   */
  lemma ForwardedPriceIsUndiscounted(
    item: CheckoutItem, m: PaymentMethod, paymentRef: string, c: AppliedCoupon, deliveryEmail: string)
    requires item.price >= 100 && c.discountType == "percentage" && 1 <= c.discountValue <= 100
    ensures OrderRequestFor(item, m, paymentRef, Some(c), deliveryEmail).price == item.price
    ensures DiscountedPrice(item.price, Some(c)) < OrderRequestFor(item, m, paymentRef, Some(c), deliveryEmail).price
  {
    PercentagePriceIsProportionalRoundedUp(item.price, c.code, c.discountValue);
    assert item.price * (100 - c.discountValue) <= item.price * 99;
  }

  /** What one press of Apply leaves behind: the call made, the applied coupon and the message. */
  datatype ApplyStep = ApplyStep(
    request: Option<CouponRequest>, applied: Option<AppliedCoupon>, message: CouponMessage)

  /**
   * `handleApplyCoupon` as a function of the input, the profile, the actor,
   * the coupon already applied and the backend's answer to each request.
   */
  function ApplyCouponStep(
    input: string, profile: Option<UserProfile>, actorConnected: bool,
    current: Option<AppliedCoupon>, validateCoupon: CouponRequest -> Outcome<CouponValidation>
  ): (r: ApplyStep)
    ensures var err := CouponPrecheck(NormalizedCode(input), profile, actorConnected);
      && (err.Some? ==> r.request == None && r.applied == current && r.message == CouponError(err.value))
      && (err.None? ==> r.request == Some(CouponRequest(NormalizedCode(input), profile.value.username)))
    ensures r.request.Some? && validateCoupon(r.request.value).Rejected? ==>
      r.applied == None && r.message == CouponError("Invalid or expired coupon")
    ensures r.request.Some? && validateCoupon(r.request.value).Resolved? ==>
      var c := validateCoupon(r.request.value).value.coupon;
      r.applied == Some(AppliedCoupon(c.code, c.discountType, c.discountValue)) && r.message == CouponSuccess(r.applied.value)
    ensures r.message.CouponSuccess? ==> r.applied == Some(r.message.applied)
  {
    var code := NormalizedCode(input);
    var err := CouponPrecheck(code, profile, actorConnected);
    if err.Some? then ApplyStep(None, current, CouponError(err.value))
    else
      var request := CouponRequest(code, profile.value.username);
      match validateCoupon(request)
      case Resolved(v) =>
        var c := AppliedCoupon(v.coupon.code, v.coupon.discountType, v.coupon.discountValue);
        ApplyStep(Some(request), Some(c), CouponSuccess(c))
      case Rejected =>
        ApplyStep(Some(request), None, CouponError("Invalid or expired coupon"))
  }

  /** A blank or whitespace-only coupon input never reaches the backend and leaves the applied coupon alone. */
  lemma BlankCodeNeverValidated(
    input: string, profile: Option<UserProfile>, actorConnected: bool,
    current: Option<AppliedCoupon>, validateCoupon: CouponRequest -> Outcome<CouponValidation>)
    requires AllWhitespace(input)
    ensures var r := ApplyCouponStep(input, profile, actorConnected, current, validateCoupon);
      r.request == None && r.applied == current && r.message == CouponError("Please enter a coupon code")
  {
  }

  /** What one press of "Place Order" leaves behind. */
  datatype PlaceStep = PlaceStep(
    result: PlaceOrderResult, navigateTo: Option<Page>,
    orderCall: Option<OrderRequest>, profileSave: Option<UserProfile>)

  /**
   * `handlePlaceOrder` as a function of the form, the profile, the actor and
   * the backend's answer: the checks in order, the one order call, and the
   * profile save that follows a successful order when the email changed.
   */
  function PlaceOrderStep(
    item: CheckoutItem, selected: Option<PaymentMethod>, paymentRef: string, deliveryEmail: string,
    applied: Option<AppliedCoupon>, profile: Option<UserProfile>, actorConnected: bool,
    onPlaceOrder: OrderRequest -> Outcome<int>
  ): (r: PlaceStep)
    ensures var failed := PlaceOrderPrecheck(selected, paymentRef, deliveryEmail, profile);
      && (failed.Some? ==>
            && r.result == failed.value && r.orderCall == None && r.profileSave == None
            && (r.navigateTo == Some(Auth) <==> r.result == NotLoggedIn)
            && (r.navigateTo.Some? ==> r.navigateTo == Some(Auth)))
      && (failed.None? ==>
            r.navigateTo == None && r.orderCall == Some(OrderRequestFor(item, selected.value, paymentRef, applied, deliveryEmail)))
    ensures r.orderCall.Some? && onPlaceOrder(r.orderCall.value).Rejected? ==>
      r.result == PlaceFailed && r.profileSave == None
    ensures r.orderCall.Some? && onPlaceOrder(r.orderCall.value).Resolved? ==>
      && r.result == Placed(onPlaceOrder(r.orderCall.value).value)
      && (r.profileSave.Some? <==> Trim(deliveryEmail) != profile.value.email && actorConnected)
      && (r.profileSave.Some? ==> r.profileSave.value == UserProfile(profile.value.username, Trim(deliveryEmail)))
  {
    var failed := PlaceOrderPrecheck(selected, paymentRef, deliveryEmail, profile);
    if failed.Some? then
      PlaceStep(failed.value, if failed.value == NotLoggedIn then Some(Auth) else None, None, None)
    else
      var request := OrderRequestFor(item, selected.value, paymentRef, applied, deliveryEmail);
      match onPlaceOrder(request)
      case Resolved(id) =>
        var email := Trim(deliveryEmail);
        var save := if email != profile.value.email && actorConnected
                    then Some(UserProfile(profile.value.username, email)) else None;
        PlaceStep(Placed(id), None, Some(request), save)
      case Rejected =>
        PlaceStep(PlaceFailed, None, Some(request), None)
  }

  // ---------------------------------------------------------------------------
  // The page's state
  // ---------------------------------------------------------------------------

  /**
   * The component state of one mounted checkout page. The signed-in
   * profile is a prop that App may change while the page stays mounted, so
   * the handlers take its current value as a parameter.
   */
  class CheckoutPage {
    const item: CheckoutItem
    var selectedMethod: Option<PaymentMethod>
    var paymentRef: string
    var isPlacing: bool
    var orderId: Option<int>
    var deliveryEmail: string
    var couponInput: string
    var appliedCoupon: Option<AppliedCoupon>
    var couponMessage: Option<CouponMessage>
    var isValidatingCoupon: bool

    /**
     * Between two handlers: the coupon input is upper-case, nothing is in
     * flight, and a success message always names the coupon that is applied.
     */
    ghost predicate Valid()
      reads this
    {
      && ToUpper(couponInput) == couponInput
      && !isValidatingCoupon && !isPlacing
      && (couponMessage.Some? && couponMessage.value.CouponSuccess? ==> appliedCoupon == Some(couponMessage.value.applied))
    }

    /** Mounting: the profile at that moment seeds the delivery e-mail field. */
    constructor (item: CheckoutItem, userProfile: Option<UserProfile>)
      ensures Valid()
      ensures this.item == item
      ensures selectedMethod == None && paymentRef == "" && orderId == None
      ensures deliveryEmail == (if userProfile.Some? then userProfile.value.email else "")
      ensures couponInput == "" && appliedCoupon == None && couponMessage == None
    {
      this.item := item;
      selectedMethod := None;
      paymentRef := "";
      isPlacing := false;
      orderId := None;
      deliveryEmail := if userProfile.Some? then userProfile.value.email else "";
      couponInput := "";
      appliedCoupon := None;
      couponMessage := None;
      isValidatingCoupon := false;
    }

    /** The price shown in the summary and on the "Place Order" button. */
    function Price(): (r: int)
      reads this
      ensures appliedCoupon.None? ==> r == item.price
      ensures appliedCoupon.Some? ==> r >= 0
    {
      DiscountedPrice(item.price, appliedCoupon)
    }

    /**
     * The coupon input and its Apply button are shown only while no coupon
     * is applied: the price is then the item's own, and no success message
     * is on screen.
     */
    function CouponInputShown(): (shown: bool)
      reads this
      ensures shown ==> Price() == item.price
      ensures shown && Valid() ==> !(couponMessage.Some? && couponMessage.value.CouponSuccess?)
    {
      appliedCoupon.None?
    }

    /** The Apply button is enabled while no validation is running and the input is not blank. */
    predicate ApplyEnabled()
      reads this
    {
      !isValidatingCoupon && Trim(couponInput) != ""
    }

    /** The "Place Order" button is enabled when not placing, a method is chosen and the reference is not blank. */
    predicate PlaceEnabled()
      reads this
    {
      !isPlacing && selectedMethod.Some? && Trim(paymentRef) != ""
    }

    /** Typing in the coupon field: the text is upper-cased and any message is cleared. */
    method EditCouponInput(text: string)
      requires Valid()
      modifies this`couponInput, this`couponMessage
      ensures Valid()
      ensures couponInput == ToUpper(text) && couponMessage == None
    {
      ToUpperIdempotent(text);
      couponInput := ToUpper(text);
      couponMessage := None;
    }

    method SelectMethod(m: PaymentMethod)
      requires Valid()
      modifies this`selectedMethod
      ensures Valid() && selectedMethod == Some(m)
    {
      selectedMethod := Some(m);
    }

    method EditPaymentRef(text: string)
      requires Valid()
      modifies this`paymentRef
      ensures Valid() && paymentRef == text
    {
      paymentRef := text;
    }

    method EditDeliveryEmail(text: string)
      requires Valid()
      modifies this`deliveryEmail
      ensures Valid() && deliveryEmail == text
    {
      deliveryEmail := text;
    }

    /**
     * `handleApplyCoupon`: normalise the code, fail fast without a backend
     * call, otherwise ask the backend and apply what it returns or show the
     * generic error. `request` is the `validateCoupon` call made, if any.
     */
    method ApplyCoupon(
      userProfile: Option<UserProfile>, actorConnected: bool,
      validateCoupon: CouponRequest -> Outcome<CouponValidation>)
      returns (request: Option<CouponRequest>)
      requires Valid()
      modifies this`appliedCoupon, this`couponMessage, this`isValidatingCoupon
      ensures Valid()
      ensures var step := ApplyCouponStep(old(couponInput), userProfile, actorConnected, old(appliedCoupon), validateCoupon);
        request == step.request && appliedCoupon == step.applied && couponMessage == Some(step.message)
    {
      var step := ApplyCouponStep(couponInput, userProfile, actorConnected, appliedCoupon, validateCoupon);
      request := step.request;
      if request.Some? {
        isValidatingCoupon := true;
        couponMessage := None;
      }
      appliedCoupon := step.applied;
      couponMessage := Some(step.message);
      isValidatingCoupon := false;
    }

    /** `handleRemoveCoupon`: back to no coupon, an empty input and no message. */
    method RemoveCoupon()
      requires Valid()
      modifies this`appliedCoupon, this`couponInput, this`couponMessage
      ensures Valid()
      ensures appliedCoupon == None && couponInput == "" && couponMessage == None
      ensures Price() == item.price
    {
      appliedCoupon := None;
      couponInput := "";
      couponMessage := None;
    }

    /**
     * `handlePlaceOrder`: the four checks in order (a missing profile also
     * navigates to "auth"), then one `onPlaceOrder` call; on success the
     * order id is kept and the trimmed delivery email is saved to the profile
     * when it changed and an actor exists, whatever that save returns.
     */
    method PlaceOrder(
      userProfile: Option<UserProfile>, actorConnected: bool,
      onPlaceOrder: OrderRequest -> Outcome<int>,
      saveProfile: UserProfile -> Outcome<Unit>)
      returns (step: PlaceStep)
      requires Valid()
      modifies this`isPlacing, this`orderId
      ensures Valid()
      ensures step == PlaceOrderStep(item, selectedMethod, paymentRef, deliveryEmail, appliedCoupon,
                                     userProfile, actorConnected, onPlaceOrder)
      ensures orderId == (if step.result.Placed? then Some(step.result.orderId) else old(orderId))
    {
      step := PlaceOrderStep(item, selectedMethod, paymentRef, deliveryEmail, appliedCoupon,
                             userProfile, actorConnected, onPlaceOrder);
      if step.orderCall.Some? {
        isPlacing := true;
        if step.result.Placed? {
          orderId := Some(step.result.orderId);
          if step.profileSave.Some? {
            // A rejected save is only logged: the order stands.
            var _ := saveProfile(step.profileSave.value);
          }
        }
        isPlacing := false;
      }
    }
  }

  /** Signed out, a non-blank code is refused before the backend is asked. */
  lemma SignedOutApplyRefused(
    input: string, actorConnected: bool,
    current: Option<AppliedCoupon>, validateCoupon: CouponRequest -> Outcome<CouponValidation>)
    requires !AllWhitespace(input)
    ensures ApplyCouponStep(input, None, actorConnected, current, validateCoupon)
         == ApplyStep(None, current, CouponError("Please log in to use coupons"))
  {
  }

  /** Signed out, a completed form sends no order and goes to the sign-in page. */
  lemma SignedOutPlaceGoesToAuth(
    item: CheckoutItem, m: PaymentMethod, paymentRef: string, deliveryEmail: string,
    applied: Option<AppliedCoupon>, actorConnected: bool, onPlaceOrder: OrderRequest -> Outcome<int>)
    requires !AllWhitespace(paymentRef) && !AllWhitespace(deliveryEmail)
    ensures PlaceOrderStep(item, Some(m), paymentRef, deliveryEmail, applied, None, actorConnected, onPlaceOrder)
         == PlaceStep(NotLoggedIn, Some(Auth), None, None)
  {
    TrimEmptyIff(paymentRef);
    TrimEmptyIff(deliveryEmail);
  }

  /**
   * Pressing Apply and then "Place Order" while signed out: the coupon is
   * refused before the backend is asked, and the order is not sent but
   * leads to the sign-in page.
   */
  method SignedOutPresses(
    page: CheckoutPage, actorConnected: bool,
    validateCoupon: CouponRequest -> Outcome<CouponValidation>,
    onPlaceOrder: OrderRequest -> Outcome<int>,
    saveProfile: UserProfile -> Outcome<Unit>)
    returns (request: Option<CouponRequest>, step: PlaceStep)
    requires page.Valid() && !AllWhitespace(page.couponInput) && page.selectedMethod.Some?
    requires !AllWhitespace(page.paymentRef) && !AllWhitespace(page.deliveryEmail)
    modifies page
    ensures request.None? && page.couponMessage == Some(CouponError("Please log in to use coupons"))
    ensures page.appliedCoupon == old(page.appliedCoupon) && page.orderId == old(page.orderId)
    ensures step == PlaceStep(NotLoggedIn, Some(Auth), None, None)
  {
    SignedOutApplyRefused(page.couponInput, actorConnected, page.appliedCoupon, validateCoupon);
    request := page.ApplyCoupon(None, actorConnected, validateCoupon);
    SignedOutPlaceGoesToAuth(
      page.item, page.selectedMethod.value, page.paymentRef, page.deliveryEmail, page.appliedCoupon,
      actorConnected, onPlaceOrder);
    step := page.PlaceOrder(None, actorConnected, onPlaceOrder, saveProfile);
  }

  /** An enabled Apply button never meets the empty-code check. */
  lemma EnabledApplyPassesEmptyCheck(page: CheckoutPage)
    requires page.ApplyEnabled()
    ensures NormalizedCode(page.couponInput) != ""
  {
  }

  /** An enabled "Place Order" button never meets the first two checks. */
  lemma EnabledPlacePassesFirstChecks(page: CheckoutPage, profile: Option<UserProfile>)
    requires page.PlaceEnabled()
    ensures var failed := PlaceOrderPrecheck(page.selectedMethod, page.paymentRef, page.deliveryEmail, profile);
      failed != Some(NoPaymentMethod) && failed != Some(NoPaymentReference)
  {
  }
}
