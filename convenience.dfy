/**
  The twelve convenience functions of `useMetaPixel`. Each pins one event and
  builds a baseline custom-data object from its arguments, then hands the
  resulting `TrackOptions` to `trackEvent`. None of them passes a user-supplied
  event id, and only `trackRegistration` and `trackLogin` pass user data.
*/
module Convenience {
  import opened Wrappers
  import opened MetaPixel

  /** The order argument of `trackPurchase`. */
  datatype Order = Order(orderId: string, items: real, value: real, currency: Option<string>, contentIds: Option<seq<string>>)

  /** The product argument of `trackAddToWishlist`. */
  datatype Product = Product(id: string, name: string, value: Option<real>, currency: Option<string>)

  /** One invocation of a convenience function, with the arguments as passed (`None` for an omitted one). */
  datatype ConvenienceCall =
    | TrackRegistration(userData: UserData, extra: Option<CustomData>)
    | TrackLogin(userData: UserData)
    | TrackSubscription(plan: string, value: Option<real>, currency: Option<string>)
    | TrackLinkCreation(quantity: Option<real>)
    | TrackSearch(searchTerm: string)
    | TrackPaymentInfo(paymentMethod: string, value: Option<real>, currency: Option<string>)
    | TrackCheckout(items: real, value: Option<real>, currency: Option<string>)
    | TrackPurchase(order: Order)
    | TrackTrialStart(plan: string, predictedLtv: Option<real>)
    | TrackContactForm
    | TrackAddToWishlist(product: Product)
    | TrackDonate(amount: real, currency: Option<string>, campaign: Option<string>)

  /** A JavaScript default parameter (`x = d`): the default replaces only an omitted argument. */
  function DefaultArg<T>(arg: Option<T>, default: T): T
  {
    if arg.Some? then arg.value else default
  }

  /** `s || d` on an optional string: the default replaces an omitted or empty string. */
  function OrElse(s: Option<string>, default: string): string
  {
    if Truthy(s) then s.value else default
  }

  /** An optional number written into an object literal: the key is there either way. */
  function OptionalNum(n: Option<real>): Value
  {
    if n.Some? then Num(n.value) else Undefined
  }

  function OptionalList(l: Option<seq<string>>): Value
  {
    if l.Some? then StrList(l.value) else Undefined
  }

  /** Object spread of a possibly absent object: `{...undefined}` adds nothing. */
  function Spread(d: Option<CustomData>): CustomData
  {
    if d.Some? then d.value else map[]
  }

  const RegistrationDefaults: CustomData := map["content_name" := Str("registration"), "status" := Str("success")]

  const LoginData: CustomData := map["content_name" := Str("login"), "status" := Str("success")]

  const OrderPrefix := "Order #"

  /** The options a convenience function hands to `trackEvent`. */
  function Build(c: ConvenienceCall): (opts: TrackOptions)
    ensures opts.customData.Some? && opts.eventId == None
    ensures opts.userData.Some? <==> c.TrackRegistration? || c.TrackLogin?
    ensures opts.userData.Some? ==> opts.userData.value == c.userData
  {
    match c
    case TrackRegistration(userData, extra) =>
      TrackOptions(CompleteRegistration, Some(userData), Some(RegistrationDefaults + Spread(extra)), None)
    case TrackLogin(userData) =>
      TrackOptions(Lead, Some(userData), Some(LoginData), None)
    case TrackSubscription(plan, value, currency) =>
      TrackOptions(Subscribe, None, Some(map[
        "content_name" := Str(plan),
        "plan_name" := Str(plan),
        "plan_value" := OptionalNum(value),
        "currency" := Str(DefaultArg(currency, "USD"))]), None)
    case TrackLinkCreation(quantity) =>
      TrackOptions(CustomizeProduct, None, Some(map[
        "content_name" := Str("link_created"),
        "num_items" := Num(DefaultArg(quantity, 1.0))]), None)
    case TrackSearch(searchTerm) =>
      TrackOptions(Search, None, Some(map[
        "content_name" := Str(searchTerm),
        "search_string" := Str(searchTerm)]), None)
    case TrackPaymentInfo(paymentMethod, value, currency) =>
      TrackOptions(AddPaymentInfo, None, Some(map[
        "content_name" := Str(paymentMethod),
        "value" := OptionalNum(value),
        "currency" := Str(DefaultArg(currency, "USD"))]), None)
    case TrackCheckout(items, value, currency) =>
      TrackOptions(InitiateCheckout, None, Some(map[
        "num_items" := Num(items),
        "value" := OptionalNum(value),
        "currency" := Str(DefaultArg(currency, "USD"))]), None)
    case TrackPurchase(order) =>
      TrackOptions(Purchase, None, Some(map[
        "content_name" := Str(OrderPrefix + order.orderId),
        "content_ids" := OptionalList(order.contentIds),
        "num_items" := Num(order.items),
        "value" := Num(order.value),
        "currency" := Str(OrElse(order.currency, "USD"))]), None)
    case TrackTrialStart(plan, predictedLtv) =>
      TrackOptions(StartTrial, None, Some(map[
        "content_name" := Str(plan),
        "predicted_ltv" := OptionalNum(predictedLtv)]), None)
    case TrackContactForm =>
      TrackOptions(Contact, None, Some(map[
        "content_name" := Str("contact_form"),
        "content_category" := Str("contact")]), None)
    case TrackAddToWishlist(product) =>
      TrackOptions(AddToWishlist, None, Some(map[
        "content_name" := Str(product.name),
        "content_ids" := StrList([product.id]),
        "value" := OptionalNum(product.value),
        "currency" := Str(OrElse(product.currency, "USD"))]), None)
    case TrackDonate(amount, currency, campaign) =>
      TrackOptions(Donate, None, Some(map[
        "content_name" := Str(OrElse(campaign, "donation")),
        "value" := Num(amount),
        "currency" := Str(DefaultArg(currency, "USD"))]), None)
  }

  /** The custom data a convenience call passes. */
  function CustomOf(c: ConvenienceCall): CustomData
  {
    Build(c).customData.value
  }

  /** A convenience function: hand its options to `trackEvent`. */
  method Send(pixel: Pixel, c: ConvenienceCall)
    modifies pixel`sent
    ensures pixel.sent == old(pixel.sent) + pixel.Emitted(Build(c))
  {
    pixel.TrackEvent(Build(c));
  }

  /**
    No convenience call can take the deduplication path: the outgoing call never
    carries an `eventID` and always merges the user parameters with the enriched
    custom data.
  */
  lemma ConvenienceCallsMerge(c: ConvenienceCall, enhance: Option<CustomData> -> CustomData)
    ensures Outgoing(Build(c), enhance) ==
      Track(Build(c).event, UserParams(Build(c).userData) + enhance(Build(c).customData), None)
    ensures !(c.TrackRegistration? || c.TrackLogin?) ==> Outgoing(Build(c), enhance).params == enhance(Build(c).customData)
  {
  }

  /** Each of the twelve functions sends its own event, so the event names the function. */
  lemma EventIdentifiesFunction(c1: ConvenienceCall, c2: ConvenienceCall)
    requires Build(c1).event == Build(c2).event
    ensures c1.TrackRegistration? == c2.TrackRegistration? && c1.TrackLogin? == c2.TrackLogin?
    ensures c1.TrackSubscription? == c2.TrackSubscription? && c1.TrackLinkCreation? == c2.TrackLinkCreation?
    ensures c1.TrackSearch? == c2.TrackSearch? && c1.TrackPaymentInfo? == c2.TrackPaymentInfo?
    ensures c1.TrackCheckout? == c2.TrackCheckout? && c1.TrackPurchase? == c2.TrackPurchase?
    ensures c1.TrackTrialStart? == c2.TrackTrialStart? && c1.TrackContactForm? == c2.TrackContactForm?
    ensures c1.TrackAddToWishlist? == c2.TrackAddToWishlist? && c1.TrackDonate? == c2.TrackDonate?
  {
  }

  /**
    `trackRegistration` sends `content_name` 'registration' and `status` 'success'
    unless the caller's custom data has those keys: every key of the caller's object
    wins, and nothing else is added.
  */
  lemma RegistrationCallerWins(userData: UserData, extra: Option<CustomData>)
    ensures var d := CustomOf(TrackRegistration(userData, extra));
      && Build(TrackRegistration(userData, extra)).event == CompleteRegistration
      && d.Keys == {"content_name", "status"} + Spread(extra).Keys
      && (forall k | k in Spread(extra) :: d[k] == extra.value[k])
      && ("content_name" !in Spread(extra) ==> d["content_name"] == Str("registration"))
      && ("status" !in Spread(extra) ==> d["status"] == Str("success"))
  {
  }

  /** `trackLogin` sends Lead with the same custom data whoever logs in. */
  lemma LoginDataFixed(u1: UserData, u2: UserData)
    ensures Build(TrackLogin(u1)).event == Lead
    ensures CustomOf(TrackLogin(u1)) == CustomOf(TrackLogin(u2))
    ensures CustomOf(TrackLogin(u1))["content_name"] == Str("login")
    ensures CustomOf(TrackLogin(u1))["status"] == Str("success")
  {
  }

  /** The currency a call sends, when it sends one. */
  function CurrencyOf(c: ConvenienceCall): Option<Value>
  {
    if "currency" in CustomOf(c) then Some(CustomOf(c)["currency"]) else None
  }

  /**
    Currency defaulting. `trackSubscription`, `trackPaymentInfo`, `trackCheckout` and
    `trackDonate` use a default parameter: 'USD' replaces only an omitted currency.
    `trackPurchase` and `trackAddToWishlist` use `||`: 'USD' also replaces ''.
  */
  lemma CurrencyDefaulting(c: ConvenienceCall)
    ensures (c.TrackSubscription? || c.TrackPaymentInfo? || c.TrackCheckout? || c.TrackDonate?) ==>
      CurrencyOf(c) == Some(Str(if c.currency.Some? then c.currency.value else "USD"))
    ensures c.TrackPurchase? ==>
      CurrencyOf(c) == Some(Str(if Truthy(c.order.currency) then c.order.currency.value else "USD"))
    ensures c.TrackAddToWishlist? ==>
      CurrencyOf(c) == Some(Str(if Truthy(c.product.currency) then c.product.currency.value else "USD"))
    ensures || (c.TrackRegistration? && "currency" !in Spread(c.extra))
            || c.TrackLogin? || c.TrackLinkCreation? || c.TrackSearch? || c.TrackTrialStart? || c.TrackContactForm?
            ==> CurrencyOf(c) == None
  {
  }

  /** The two defaulting rules differ exactly on an empty currency string. */
  lemma EmptyCurrencyDiffers(plan: string, order: Order)
    requires order.currency == Some("")
    ensures CurrencyOf(TrackSubscription(plan, None, Some(""))) == Some(Str(""))
    ensures CurrencyOf(TrackPurchase(order)) == Some(Str("USD"))
  {
  }

  /**
    `trackPurchase` names the order "Order #" followed by its id, so the id can be
    read back from the content name and different orders get different names.
  */
  lemma PurchaseNamesOrder(o1: Order, o2: Order)
    ensures var name := CustomOf(TrackPurchase(o1))["content_name"];
      name.Str? && |name.s| >= |OrderPrefix| && name.s[..|OrderPrefix|] == OrderPrefix && name.s[|OrderPrefix|..] == o1.orderId
    ensures CustomOf(TrackPurchase(o1))["content_name"] == CustomOf(TrackPurchase(o2))["content_name"] <==>
      o1.orderId == o2.orderId
  {
    var n1 := OrderPrefix + o1.orderId;
    var n2 := OrderPrefix + o2.orderId;
    assert n1[|OrderPrefix|..] == o1.orderId;
    assert n2[|OrderPrefix|..] == o2.orderId;
  }

  /** `trackDonate` names the campaign, or 'donation' when the campaign is omitted or empty. */
  lemma DonateNamesCampaign(amount: real, currency: Option<string>, campaign: Option<string>)
    ensures CustomOf(TrackDonate(amount, currency, campaign))["content_name"] ==
      Str(if Truthy(campaign) then campaign.value else "donation")
    ensures CustomOf(TrackDonate(amount, currency, campaign))["value"] == Num(amount)
  {
  }

  /** `trackAddToWishlist` lists exactly the product's id as content ids and names the product. */
  lemma WishlistListsProduct(product: Product)
    ensures CustomOf(TrackAddToWishlist(product))["content_ids"] == StrList([product.id])
    ensures CustomOf(TrackAddToWishlist(product))["content_name"] == Str(product.name)
  {
  }

  /** `trackLinkCreation` counts one link unless told otherwise. */
  lemma LinkCreationQuantity(quantity: Option<real>)
    ensures CustomOf(TrackLinkCreation(quantity))["num_items"] ==
      Num(if quantity.Some? then quantity.value else 1.0)
  {
  }

  /**
    An omitted optional number still puts its key into the object, with value
    `undefined`: the key set of a call does not depend on which optionals are given.
  */
  lemma OptionalNumbersKeepKeys(c1: ConvenienceCall, c2: ConvenienceCall)
    requires || (c1.TrackSubscription? && c2.TrackSubscription?)
             || (c1.TrackPaymentInfo? && c2.TrackPaymentInfo?)
             || (c1.TrackCheckout? && c2.TrackCheckout?)
             || (c1.TrackTrialStart? && c2.TrackTrialStart?)
    ensures CustomOf(c1).Keys == CustomOf(c2).Keys
  {
  }

  /** `trackPurchase({orderId: "123", items: 2, value: 49.99})`. */
  lemma PurchaseExample()
    ensures CustomOf(TrackPurchase(Order("123", 2.0, 49.99, None, None))) == map[
      "content_name" := Str("Order #123"),
      "content_ids" := Undefined,
      "num_items" := Num(2.0),
      "value" := Num(49.99),
      "currency" := Str("USD")]
    ensures Build(TrackPurchase(Order("123", 2.0, 49.99, None, None))).event == Purchase
  {
    assert OrderPrefix + "123" == "Order #123";
  }

  /** `trackSubscription("pro", 20)`. */
  lemma SubscriptionExample()
    ensures CustomOf(TrackSubscription("pro", Some(20.0), None)) == map[
      "content_name" := Str("pro"),
      "plan_name" := Str("pro"),
      "plan_value" := Num(20.0),
      "currency" := Str("USD")]
    ensures Build(TrackSubscription("pro", Some(20.0), None)).event == Subscribe
  {
  }
}
