/** The per-order limits. Numbers are reals: the source computes in exact decimals. */
module Policy {
  import opened Wrappers

  datatype Leg = Leg(symbol: string, secType: string, ratio: real, multiplier: Option<real>, price: Option<real>)

  datatype Order = Order(
    symbol: string, secType: string, action: string, quantity: real, orderType: string, limitPrice: Option<real>,
    auxPrice: Option<real>, multiplier: Option<real>, currency: string, referencePrice: Option<real>, legs: seq<Leg>)

  /** An empty allowlist or no limit means no restriction. */
  datatype Limits = Limits(maxNotional: Option<real>, maxQuantity: Option<real>, symbols: set<string>,
                           secTypes: set<string>, currencies: set<string>)

  const AUX_PRICE_ORDER_TYPES := {"STP", "STP LMT", "STP PRT", "MIT", "LIT"}
  const CAPPING_LIMIT_ORDER_TYPES := {"LMT", "STP LMT", "LIT", "LOC", "LOO"}
  const MULTIPLIER_REQUIRED := {"OPT", "FOP", "FUT", "CONTFUT", "WAR", "IOPT"}
  const UNBOUNDED_NOTIONAL := {"BOND", "EVENT"}

  /** What the models' validators establish. */
  ghost predicate ValidLeg(leg: Leg) {
    leg.ratio > 0.0 && (leg.multiplier.Some? ==> leg.multiplier.value > 0.0)
  }

  ghost predicate Valid(order: Order) {
    && (order.multiplier.Some? ==> order.multiplier.value > 0.0)
    && (forall leg | leg in order.legs :: ValidLeg(leg))
  }

  function Abs(x: real): (r: real)
    ensures r >= 0.0 && (r == x || r == -x)
  {
    if x < 0.0 then -x else x
  }

  function Upper(s: string): string {
    seq(|s|, i requires 0 <= i < |s| => if 'a' <= s[i] <= 'z' then (s[i] as int - 32) as char else s[i])
  }

  // ----- the notional -----

  predicate Capped(order: Order) {
    order.action == "BUY" && order.orderType in CAPPING_LIMIT_ORDER_TYPES && order.limitPrice.Some?
  }

  /** The order's own price, which counts only beside a reference price. */
  function OwnPrice(order: Order): Option<real> {
    if order.limitPrice.Some? then Some(Abs(order.limitPrice.value))
    else if order.auxPrice.Some? && order.orderType in AUX_PRICE_ORDER_TYPES then Some(Abs(order.auxPrice.value))
    else None
  }

  /** The per-unit price that bounds the order's fill. */
  function PriceBasis(order: Order): Option<real> {
    if Capped(order) then Some(Abs(order.limitPrice.value))
    else if order.referencePrice.None? then None
    else
      var reference := Abs(order.referencePrice.value);
      if OwnPrice(order).Some? && OwnPrice(order).value > reference then OwnPrice(order) else Some(reference)
  }

  function Multiplier(multiplier: Option<real>): real {
    if multiplier.Some? then multiplier.value else 1.0
  }

  /** The units of a leg in `quantity` units of the combo. */
  function LegQuantity(leg: Leg, quantity: real): real {
    leg.ratio * quantity
  }

  /** What `amount` units at `price` are worth. */
  function Worth(amount: real, price: real, multiplier: Option<real>): real {
    amount * Abs(price) * Multiplier(multiplier)
  }

  predicate AllPriced(legs: seq<Leg>) {
    forall leg | leg in legs :: leg.price.Some?
  }

  function Gross(legs: seq<Leg>, quantity: real): real
    requires AllPriced(legs)
  {
    if legs == [] then 0.0
    else
      var leg := legs[|legs| - 1];
      Gross(legs[..|legs| - 1], quantity) + Worth(LegQuantity(leg, quantity), leg.price.value, leg.multiplier)
  }

  function Notional(order: Order): Option<real> {
    var quantity := Abs(order.quantity);
    if order.legs != [] then if AllPriced(order.legs) then Some(Gross(order.legs, quantity)) else None
    else if PriceBasis(order).None? then None
    else Some(Worth(quantity, PriceBasis(order).value, order.multiplier))
  }

  /** What `amount` units at a price are worth: times the contract's multiplier, when it has one. */
  ghost predicate IsProduct(value: real, amount: real, price: real, multiplier: Option<real>) {
    match multiplier
    case None => value == amount * Abs(price)
    case Some(m) => value == amount * Abs(price) * m
  }

  lemma WorthIsProduct(value: real, amount: real, price: real, multiplier: Option<real>)
    ensures IsProduct(value, amount, price, multiplier) <==> value == Worth(amount, price, multiplier)
  {
  }

  /** How much of a leg filled, and at what price. */
  datatype Fill = Fill(amount: real, price: real)

  /** What a fill is worth, by the multiplier of the leg when it has one. */
  ghost function FillWorth(leg: Leg, fill: Fill): (w: real)
    ensures IsProduct(w, fill.amount, fill.price, leg.multiplier)
  {
    match leg.multiplier
    case None => fill.amount * Abs(fill.price)
    case Some(m) => fill.amount * Abs(fill.price) * m
  }

  ghost function FillsWorth(legs: seq<Leg>, fills: seq<Fill>): real
    requires |fills| == |legs|
  {
    if legs == [] then 0.0
    else
      var last := |legs| - 1;
      FillsWorth(legs[..last], fills[..last]) + FillWorth(legs[last], fills[last])
  }

  /** A leg filled to its part of the order, at its reference price. */
  ghost function FullFill(leg: Leg, quantity: real): Fill {
    Fill(leg.ratio * quantity, if leg.price.Some? then leg.price.value else 0.0)
  }

  ghost function FullFills(legs: seq<Leg>, quantity: real): (fills: seq<Fill>)
    ensures |fills| == |legs| && forall k | 0 <= k < |legs| :: fills[k] == FullFill(legs[k], quantity)
  {
    seq(|legs|, k requires 0 <= k < |legs| => FullFill(legs[k], quantity))
  }

  /** The gross estimate is what a combo that fills wholly at its reference prices is worth. */
  lemma {:induction false} GrossIsFull(legs: seq<Leg>, quantity: real)
    requires AllPriced(legs)
    ensures Gross(legs, quantity) == FillsWorth(legs, FullFills(legs, quantity))
  {
    if legs != [] {
      var last, leg := |legs| - 1, legs[|legs| - 1];
      assert leg in legs;
      GrossIsFull(legs[..last], quantity);
      FullBefore(legs, quantity);
      LegIsFull(leg, quantity);
    }
  }

  lemma FullBefore(legs: seq<Leg>, quantity: real)
    requires legs != []
    ensures FullFills(legs, quantity)[..|legs| - 1] == FullFills(legs[..|legs| - 1], quantity)
  {
  }

  lemma LegIsFull(leg: Leg, quantity: real)
    requires leg.price.Some?
    ensures Worth(LegQuantity(leg, quantity), leg.price.value, leg.multiplier)
         == FillWorth(leg, FullFill(leg, quantity))
  {
    var fill := FullFill(leg, quantity);
    WorthIsProduct(FillWorth(leg, fill), fill.amount, fill.price, leg.multiplier);
  }

  /** A BUY whose limit price bounds its fill. */
  ghost predicate Caps(order: Order) {
    && order.action == "BUY" && order.limitPrice.Some?
    && order.orderType in {"LMT", "STP LMT", "LIT", "LOC", "LOO"}
  }

  /** The price that counts: a BUY's limit when it caps the fill, else the dearest of the known ones. */
  ghost predicate IsBasis(order: Order, price: real) {
    if Caps(order) then
      price == Abs(order.limitPrice.value)
    else
      && order.referencePrice.Some? && price >= Abs(order.referencePrice.value)
      && (order.limitPrice.Some? ==> price >= Abs(order.limitPrice.value))
      && (HasTrigger(order) ==> price >= Abs(order.auxPrice.value))
      && (|| price == Abs(order.referencePrice.value)
          || (order.limitPrice.Some? && price == Abs(order.limitPrice.value))
          || (HasTrigger(order) && price == Abs(order.auxPrice.value)))
  }

  /** The stop or trigger price counts when there is no limit price. */
  ghost predicate HasTrigger(order: Order) {
    && order.limitPrice.None? && order.auxPrice.Some?
    && order.orderType in {"STP", "STP LMT", "STP PRT", "MIT", "LIT"}
  }

  lemma BasisExactlyWhen(order: Order, price: real)
    ensures PriceBasis(order) == Some(price) <==> IsBasis(order, price)
  {
  }

  /** What the estimate is, in plain products. */
  ghost predicate IsEstimate(order: Order, estimate: Option<real>) {
    if order.legs != [] then
      match estimate
      case None => !AllPriced(order.legs)
      case Some(total) =>
        AllPriced(order.legs) && total == FillsWorth(order.legs, FullFills(order.legs, Abs(order.quantity)))
    else
      match estimate
      case None => forall price :: !IsBasis(order, price)
      case Some(value) =>
        exists price :: IsBasis(order, price) && IsProduct(value, Abs(order.quantity), price, order.multiplier)
  }

  lemma NotionalIsEstimate(order: Order)
    ensures IsEstimate(order, Notional(order))
  {
    if order.legs != [] {
      if AllPriced(order.legs) { GrossIsFull(order.legs, Abs(order.quantity)); }
    } else if PriceBasis(order).Some? {
      var price := PriceBasis(order).value;
      BasisExactlyWhen(order, price);
      WorthIsProduct(Notional(order).value, Abs(order.quantity), price, order.multiplier);
    } else {
      forall price ensures !IsBasis(order, price) { BasisExactlyWhen(order, price); }
    }
  }

  method EstimateNotional(order: Order) returns (estimate: Option<real>)
    ensures estimate == Notional(order) && IsEstimate(order, estimate)
  {
    NotionalIsEstimate(order);
    var quantity := Abs(order.quantity);
    if order.legs != [] {
      var total := 0.0;
      for k := 0 to |order.legs|
        invariant AllPriced(order.legs[..k]) && total == Gross(order.legs[..k], quantity)
      {
        var leg := order.legs[k];
        if leg.price.None? {
          assert leg in order.legs;
          return None;
        }
        assert order.legs[..k + 1][..k] == order.legs[..k];
        var legQuantity := LegQuantity(leg, quantity);
        total := total + Worth(legQuantity, leg.price.value, leg.multiplier);
      }
      assert order.legs[..|order.legs|] == order.legs;
      return Some(total);
    }
    var basis := PriceBasis(order);
    if basis.None? {
      return None;
    }
    return Some(Worth(quantity, basis.value, order.multiplier));
  }

  // ----- the violations -----

  datatype Violation =
    | SymbolNotAllowed(symbol: string)
    | LegSymbolNotAllowed(symbol: string)
    | SecTypeNotAllowed(secType: string)
    | LegSecTypeNotAllowed(symbol: string, secType: string)
    | CurrencyNotAllowed(currency: string)
    | QuantityTooLarge(quantity: real)
    | LegQuantityTooLarge(symbol: string, quantity: real)
    | NotionalUnbounded(symbol: string, secType: string)
    | MultiplierUnknown(symbol: string, secType: string)
    | LegUnpriced(symbol: string, secType: string)
    | NothingBoundsThePrice
    | NotionalTooLarge(notional: real)

  /** One violation for each leg that `breaks`, in order. */
  function OfLegs(legs: seq<Leg>, breaks: Leg -> bool, describe: Leg -> Violation): seq<Violation> {
    if legs == [] then []
    else
      var last := legs[|legs| - 1];
      OfLegs(legs[..|legs| - 1], breaks, describe) + if breaks(last) then [describe(last)] else []
  }

  lemma {:induction false} OfLegsEmpty(legs: seq<Leg>, breaks: Leg -> bool, describe: Leg -> Violation)
    ensures OfLegs(legs, breaks, describe) == [] <==> forall leg | leg in legs :: !breaks(leg)
  {
    if legs != [] {
      OfLegsEmpty(legs[..|legs| - 1], breaks, describe);
      assert legs == legs[..|legs| - 1] + [legs[|legs| - 1]];
    }
  }

  lemma {:induction false} OfLegsMembers(legs: seq<Leg>, breaks: Leg -> bool, describe: Leg -> Violation, v: Violation)
    ensures v in OfLegs(legs, breaks, describe) <==> exists leg :: leg in legs && breaks(leg) && describe(leg) == v
  {
    if legs != [] {
      var rest, last := legs[..|legs| - 1], legs[|legs| - 1];
      OfLegsMembers(rest, breaks, describe, v);
      assert legs == rest + [last];
    }
  }

  function SymbolViolations(limits: Limits, order: Order): seq<Violation> {
    if limits.symbols == {} then []
    else if order.legs != [] then
      OfLegs(order.legs, (leg: Leg) => Upper(leg.symbol) !in limits.symbols,
             (leg: Leg) => LegSymbolNotAllowed(leg.symbol))
    else if Upper(order.symbol) !in limits.symbols then [SymbolNotAllowed(order.symbol)]
    else []
  }

  function SecTypeViolations(limits: Limits, order: Order): seq<Violation> {
    if limits.secTypes == {} then []
    else
      (if order.secType !in limits.secTypes then [SecTypeNotAllowed(order.secType)] else [])
      + OfLegs(order.legs, (leg: Leg) => leg.secType !in limits.secTypes,
               (leg: Leg) => LegSecTypeNotAllowed(leg.symbol, leg.secType))
  }

  function CurrencyViolations(limits: Limits, order: Order): seq<Violation> {
    if limits.currencies == {} || order.currency in limits.currencies then [] else [CurrencyNotAllowed(order.currency)]
  }

  /** A ratio-1 leg equals the combo quantity, which is reported already. */
  predicate LegTooLarge(leg: Leg, quantity: real, limit: real) {
    LegQuantity(leg, quantity) > limit && LegQuantity(leg, quantity) > quantity
  }

  function TooLarge(quantity: real, limit: real): Leg -> bool {
    leg => LegTooLarge(leg, quantity, limit)
  }

  function SayTooLarge(quantity: real): Leg -> Violation {
    (leg: Leg) => LegQuantityTooLarge(leg.symbol, LegQuantity(leg, quantity))
  }

  function QuantityViolations(limits: Limits, order: Order): seq<Violation> {
    if limits.maxQuantity.None? then []
    else
      var limit, quantity := limits.maxQuantity.value, Abs(order.quantity);
      (if quantity > limit then [QuantityTooLarge(quantity)] else [])
      + OfLegs(order.legs, TooLarge(quantity, limit), SayTooLarge(quantity))
  }

  method FindQuantityViolations(limits: Limits, order: Order) returns (found: seq<Violation>)
    ensures found == QuantityViolations(limits, order)
    ensures found == [] <==> QuantityWithin(limits, order)
  {
    QuantitiesExactly(limits, order);
    found := [];
    if limits.maxQuantity.None? {
      return;
    }
    var limit, quantity := limits.maxQuantity.value, Abs(order.quantity);
    if quantity > limit {
      found := found + [QuantityTooLarge(quantity)];
    }
    ghost var own := found;
    for k := 0 to |order.legs|
      invariant found == own + OfLegs(order.legs[..k], TooLarge(quantity, limit), SayTooLarge(quantity))
    {
      var leg := order.legs[k];
      var legQuantity := LegQuantity(leg, quantity);
      assert order.legs[..k + 1][..k] == order.legs[..k];
      if legQuantity > limit && legQuantity > quantity {
        found := found + [LegQuantityTooLarge(leg.symbol, legQuantity)];
      }
    }
    assert order.legs[..|order.legs|] == order.legs;
  }

  /** The instruments whose notional cannot be bounded, or whose multiplier is unknown. */
  function UncheckedViolations(order: Order): seq<Violation> {
    if order.legs != [] then
      OfLegs(order.legs, (leg: Leg) => leg.secType in UNBOUNDED_NOTIONAL,
             (leg: Leg) => NotionalUnbounded(leg.symbol, leg.secType))
      + OfLegs(order.legs, (leg: Leg) => leg.secType in MULTIPLIER_REQUIRED && leg.multiplier.None?,
               (leg: Leg) => MultiplierUnknown(leg.symbol, leg.secType))
    else
      (if order.secType in UNBOUNDED_NOTIONAL then [NotionalUnbounded(order.symbol, order.secType)] else [])
      + if order.secType in MULTIPLIER_REQUIRED && order.multiplier.None?
        then [MultiplierUnknown(order.symbol, order.secType)]
        else []
  }

  function WithoutRepeats(list: seq<Violation>): seq<Violation> {
    if list == [] then []
    else
      var before, last := WithoutRepeats(list[..|list| - 1]), list[|list| - 1];
      if last in before then before else before + [last]
  }

  function NotionalViolations(limits: Limits, order: Order): seq<Violation> {
    if limits.maxNotional.None? then []
    else if UncheckedViolations(order) != [] then UncheckedViolations(order)
    else
      var estimate := Notional(order);
      if estimate.None? && order.legs != [] then
        WithoutRepeats(OfLegs(order.legs, (leg: Leg) => leg.price.None?,
                              (leg: Leg) => LegUnpriced(leg.symbol, leg.secType)))
      else if estimate.None? then [NothingBoundsThePrice]
      else if estimate.value > limits.maxNotional.value then [NotionalTooLarge(estimate.value)]
      else []
  }

  function Check(limits: Limits, order: Order): seq<Violation> {
    SymbolViolations(limits, order) + SecTypeViolations(limits, order) + CurrencyViolations(limits, order)
      + QuantityViolations(limits, order) + NotionalViolations(limits, order)
  }

  // ----- when an order is accepted -----

  predicate Admits(allowed: set<string>, code: string) {
    allowed == {} || code in allowed
  }

  ghost predicate SymbolsAllowed(limits: Limits, order: Order) {
    if order.legs != [] then forall leg | leg in order.legs :: Admits(limits.symbols, Upper(leg.symbol))
    else Admits(limits.symbols, Upper(order.symbol))
  }

  ghost predicate CodesAllowed(limits: Limits, order: Order) {
    && Admits(limits.secTypes, order.secType) && Admits(limits.currencies, order.currency)
    && (forall leg | leg in order.legs :: Admits(limits.secTypes, leg.secType))
  }

  ghost predicate QuantityWithin(limits: Limits, order: Order) {
    limits.maxQuantity.None?
    || (Abs(order.quantity) <= limits.maxQuantity.value
        && forall leg | leg in order.legs :: LegQuantity(leg, Abs(order.quantity)) <= limits.maxQuantity.value)
  }

  /** Whether the notional of an instrument with this type and multiplier is quantity x price x multiplier. */
  predicate Checkable(secType: string, multiplier: Option<real>) {
    secType !in UNBOUNDED_NOTIONAL && (secType in MULTIPLIER_REQUIRED ==> multiplier.Some?)
  }

  ghost predicate AllCheckable(order: Order) {
    if order.legs != [] then forall leg | leg in order.legs :: Checkable(leg.secType, leg.multiplier)
    else Checkable(order.secType, order.multiplier)
  }

  ghost predicate NotionalWithin(limits: Limits, order: Order) {
    limits.maxNotional.None?
    || (AllCheckable(order) && Notional(order).Some? && Notional(order).value <= limits.maxNotional.value)
  }

  lemma SymbolsExactly(limits: Limits, order: Order)
    ensures SymbolViolations(limits, order) == [] <==> SymbolsAllowed(limits, order)
  {
    OfLegsEmpty(order.legs, (leg: Leg) => Upper(leg.symbol) !in limits.symbols,
                (leg: Leg) => LegSymbolNotAllowed(leg.symbol));
  }

  lemma CodesExactly(limits: Limits, order: Order)
    ensures SecTypeViolations(limits, order) + CurrencyViolations(limits, order) == [] <==> CodesAllowed(limits, order)
  {
    OfLegsEmpty(order.legs, (leg: Leg) => leg.secType !in limits.secTypes,
                (leg: Leg) => LegSecTypeNotAllowed(leg.symbol, leg.secType));
  }

  /** Though ratio-1 legs are left out of the report, no quantity violation is lost. */
  lemma QuantitiesExactly(limits: Limits, order: Order)
    ensures QuantityViolations(limits, order) == [] <==> QuantityWithin(limits, order)
  {
    if limits.maxQuantity.Some? {
      var limit, quantity := limits.maxQuantity.value, Abs(order.quantity);
      OfLegsEmpty(order.legs, TooLarge(quantity, limit), SayTooLarge(quantity));
      if quantity <= limit {
        forall leg | leg in order.legs ensures TooLarge(quantity, limit)(leg) <==> LegQuantity(leg, quantity) > limit {
          assert TooLarge(quantity, limit)(leg) == LegTooLarge(leg, quantity, limit);
        }
      }
    }
  }

  lemma UncheckedExactly(order: Order)
    ensures UncheckedViolations(order) == [] <==> AllCheckable(order)
  {
    OfLegsEmpty(order.legs, (leg: Leg) => leg.secType in UNBOUNDED_NOTIONAL,
                (leg: Leg) => NotionalUnbounded(leg.symbol, leg.secType));
    OfLegsEmpty(order.legs, (leg: Leg) => leg.secType in MULTIPLIER_REQUIRED && leg.multiplier.None?,
                (leg: Leg) => MultiplierUnknown(leg.symbol, leg.secType));
  }

  lemma {:induction false} RepeatsKeepOne(list: seq<Violation>)
    ensures WithoutRepeats(list) == [] <==> list == []
  {
    if list != [] { RepeatsKeepOne(list[..|list| - 1]); }
  }

  lemma NotionalsExactly(limits: Limits, order: Order)
    ensures NotionalViolations(limits, order) == [] <==> NotionalWithin(limits, order)
  {
    UncheckedExactly(order);
    var breaks, describe := (leg: Leg) => leg.price.None?, (leg: Leg) => LegUnpriced(leg.symbol, leg.secType);
    RepeatsKeepOne(OfLegs(order.legs, breaks, describe));
    OfLegsEmpty(order.legs, breaks, describe);
  }

  /** The check passes exactly when every limit is kept. */
  lemma AcceptedExactlyWhen(limits: Limits, order: Order)
    ensures Check(limits, order) == [] <==>
      && SymbolsAllowed(limits, order) && CodesAllowed(limits, order)
      && QuantityWithin(limits, order) && NotionalWithin(limits, order)
  {
    SymbolsExactly(limits, order);
    CodesExactly(limits, order);
    QuantitiesExactly(limits, order);
    NotionalsExactly(limits, order);
  }

  // ----- what acceptance promises -----

  lemma WorthGrows(amount: real, more: real, price: real, higher: real, multiplier: Option<real>)
    requires 0.0 <= amount <= more && Abs(price) <= Abs(higher)
    requires multiplier.Some? ==> multiplier.value > 0.0
    ensures 0.0 <= Worth(amount, price, multiplier) <= Worth(more, higher, multiplier)
  {
    var m := Multiplier(multiplier);
    Products(amount, more, Abs(price), Abs(higher));
    Products(amount * Abs(price), more * Abs(higher), m, m);
  }

  lemma Products(a: real, b: real, c: real, d: real)
    requires 0.0 <= a <= b && 0.0 <= c <= d
    ensures 0.0 <= a * c <= b * d
  {
    assert a * c <= b * c && b * c <= b * d;
  }

  ghost predicate FillOf(leg: Leg, fill: Fill, quantity: real) {
    leg.price.Some? && 0.0 <= fill.amount <= leg.ratio * quantity && Abs(fill.price) <= Abs(leg.price.value)
  }

  /** Each leg fills up to its part of the order at up to its reference price; it may not fill at all. */
  ghost predicate Possible(legs: seq<Leg>, fills: seq<Fill>, quantity: real) {
    && |fills| == |legs|
    && (forall k | 0 <= k < |legs| :: FillOf(legs[k], fills[k], quantity))
  }

  lemma FillWithinLeg(leg: Leg, fill: Fill, quantity: real)
    requires ValidLeg(leg) && FillOf(leg, fill, quantity)
    ensures FillWorth(leg, fill) <= Worth(LegQuantity(leg, quantity), leg.price.value, leg.multiplier)
  {
    WorthIsProduct(FillWorth(leg, fill), fill.amount, fill.price, leg.multiplier);
    WorthGrows(fill.amount, LegQuantity(leg, quantity), fill.price, leg.price.value, leg.multiplier);
  }

  lemma {:induction false} FillsWithinGross(legs: seq<Leg>, fills: seq<Fill>, quantity: real)
    requires AllPriced(legs) && Possible(legs, fills, quantity)
    requires forall leg | leg in legs :: ValidLeg(leg)
    ensures FillsWorth(legs, fills) <= Gross(legs, quantity)
  {
    if legs != [] {
      var last := |legs| - 1;
      FillsWithinGross(legs[..last], fills[..last], quantity);
      assert legs[last] in legs;
      assert FillOf(legs[last], fills[last], quantity);
      FillWithinLeg(legs[last], fills[last], quantity);
    }
  }

  /** An accepted combo stays within the cap whichever of its legs fill, and however far. */
  lemma {:induction false} ComboFillsStayWithinCap(limits: Limits, order: Order, fills: seq<Fill>)
    requires Valid(order) && Check(limits, order) == [] && limits.maxNotional.Some? && order.legs != []
    requires Possible(order.legs, fills, Abs(order.quantity))
    ensures FillsWorth(order.legs, fills) <= limits.maxNotional.value
  {
    AcceptedExactlyWhen(limits, order);
    FillsWithinGross(order.legs, fills, Abs(order.quantity));
  }

  /** `amount` units at the price are worth no more than the cap. */
  ghost predicate WorthAtMost(cap: real, amount: real, price: real, multiplier: Option<real>) {
    match multiplier
    case None => amount * Abs(price) <= cap
    case Some(m) => amount * Abs(price) * m <= cap
  }

  /** An accepted capped BUY stays within the cap at any fill price from 0 to its limit. */
  lemma CappedBuyStaysWithinCap(limits: Limits, order: Order, amount: real, price: real)
    requires Valid(order) && Check(limits, order) == [] && limits.maxNotional.Some? && order.legs == []
    requires Caps(order)
    requires 0.0 <= amount <= Abs(order.quantity) && Abs(price) <= Abs(order.limitPrice.value)
    ensures WorthAtMost(limits.maxNotional.value, amount, price, order.multiplier)
  {
    AcceptedExactlyWhen(limits, order);
    var cap, limit := limits.maxNotional.value, PriceBasis(order).value;
    WithinBasis(cap, amount, Abs(order.quantity), price, limit, order.multiplier);
  }

  /**
   Any other accepted order has a reference price, and stays within the cap at it, at its limit, and
   at its stop or trigger price when that counts.
   */
  lemma KnownPricesStayWithinCap(limits: Limits, order: Order, price: real)
    requires Valid(order) && Check(limits, order) == [] && limits.maxNotional.Some? && order.legs == []
    requires !Caps(order)
    ensures order.referencePrice.Some?
    ensures || Abs(price) <= Abs(order.referencePrice.value)
            || (order.limitPrice.Some? && Abs(price) <= Abs(order.limitPrice.value))
            || (HasTrigger(order) && Abs(price) <= Abs(order.auxPrice.value))
            ==> WorthAtMost(limits.maxNotional.value, Abs(order.quantity), price, order.multiplier)
  {
    AcceptedExactlyWhen(limits, order);
    BasisExactlyWhen(order, PriceBasis(order).value);
    if Abs(price) <= PriceBasis(order).value {
      WithinBasis(limits.maxNotional.value, Abs(order.quantity), Abs(order.quantity), price, PriceBasis(order).value,
                  order.multiplier);
    }
  }

  lemma WithinBasis(cap: real, amount: real, more: real, price: real, higher: real, multiplier: Option<real>)
    requires 0.0 <= amount <= more && Abs(price) <= Abs(higher) && Worth(more, higher, multiplier) <= cap
    requires multiplier.Some? ==> multiplier.value > 0.0
    ensures WorthAtMost(cap, amount, price, multiplier)
  {
    WorthGrows(amount, more, price, higher, multiplier);
  }

  /** With a cap, no order is accepted whose worth is not quantity times price times a known multiplier. */
  lemma UncheckableAreRefused(limits: Limits, order: Order)
    requires limits.maxNotional.Some? && Check(limits, order) == []
    ensures order.legs == [] ==> order.secType !in {"BOND", "EVENT"}
    ensures order.legs == [] && order.secType in {"OPT", "FOP", "FUT", "CONTFUT", "WAR", "IOPT"} ==>
              order.multiplier.Some?
    ensures forall leg | leg in order.legs :: leg.price.Some? && leg.secType !in {"BOND", "EVENT"}
    ensures forall leg | leg in order.legs && leg.secType in {"OPT", "FOP", "FUT", "CONTFUT", "WAR", "IOPT"} ::
              leg.multiplier.Some?
  {
    AcceptedExactlyWhen(limits, order);
  }

  lemma {:induction false} GrossGrows(legs: seq<Leg>, quantity: real, more: real)
    requires AllPriced(legs) && 0.0 <= quantity <= more && forall leg | leg in legs :: ValidLeg(leg)
    ensures Gross(legs, quantity) <= Gross(legs, more)
  {
    if legs != [] {
      var last := legs[|legs| - 1];
      assert last in legs;
      GrossGrows(legs[..|legs| - 1], quantity, more);
      Products(last.ratio, last.ratio, quantity, more);
      var price := last.price.value;
      WorthGrows(LegQuantity(last, quantity), LegQuantity(last, more), price, price, last.multiplier);
    }
  }

  /** An accepted order stays accepted when its quantity shrinks. */
  lemma SmallerOrdersStayAccepted(limits: Limits, order: Order, quantity: real)
    requires Valid(order) && Check(limits, order) == [] && Abs(quantity) <= Abs(order.quantity)
    ensures Check(limits, order.(quantity := quantity)) == []
  {
    var smaller := order.(quantity := quantity);
    AcceptedExactlyWhen(limits, order);
    AcceptedExactlyWhen(limits, smaller);
    SmallerQuantity(limits, order, quantity);
    SmallerNotional(order, quantity);
  }

  lemma SmallerQuantity(limits: Limits, order: Order, quantity: real)
    requires Valid(order) && QuantityWithin(limits, order) && Abs(quantity) <= Abs(order.quantity)
    ensures QuantityWithin(limits, order.(quantity := quantity))
  {
    forall leg | leg in order.legs ensures LegQuantity(leg, Abs(quantity)) <= LegQuantity(leg, Abs(order.quantity)) {
      Products(leg.ratio, leg.ratio, Abs(quantity), Abs(order.quantity));
    }
  }

  lemma SmallerNotional(order: Order, quantity: real)
    requires Valid(order) && Abs(quantity) <= Abs(order.quantity)
    ensures Notional(order).Some? <==> Notional(order.(quantity := quantity)).Some?
    ensures Notional(order).Some? ==> Notional(order.(quantity := quantity)).value <= Notional(order).value
  {
    var smaller := order.(quantity := quantity);
    assert PriceBasis(smaller) == PriceBasis(order);
    if order.legs != [] {
      if AllPriced(order.legs) { GrossGrows(order.legs, Abs(quantity), Abs(order.quantity)); }
    } else if PriceBasis(order).Some? {
      var price := PriceBasis(order).value;
      WorthGrows(Abs(quantity), Abs(order.quantity), price, price, order.multiplier);
    }
  }

  ghost predicate LooserLimit(tight: Option<real>, loose: Option<real>) {
    loose.None? || (tight.Some? && tight.value <= loose.value)
  }

  ghost predicate LooserSet(tight: set<string>, loose: set<string>) {
    loose == {} || (tight != {} && tight <= loose)
  }

  ghost predicate Looser(tight: Limits, loose: Limits) {
    && LooserLimit(tight.maxNotional, loose.maxNotional) && LooserLimit(tight.maxQuantity, loose.maxQuantity)
    && LooserSet(tight.symbols, loose.symbols) && LooserSet(tight.secTypes, loose.secTypes)
    && LooserSet(tight.currencies, loose.currencies)
  }

  /** An accepted order stays accepted when limits are loosened. */
  lemma LooserLimitsStayAccepting(tight: Limits, loose: Limits, order: Order)
    requires Check(tight, order) == [] && Looser(tight, loose)
    ensures Check(loose, order) == []
  {
    AcceptedExactlyWhen(tight, order);
    AcceptedExactlyWhen(loose, order);
  }

  // ----- what a refusal says -----

  /** The limit that a violation names is one the order breaks. */
  ghost predicate IsTrue(limits: Limits, order: Order, v: Violation) {
    var quantity := Abs(order.quantity);
    match v
    case SymbolNotAllowed(symbol) =>
      order.legs == [] && symbol == order.symbol && !Admits(limits.symbols, Upper(symbol))
    case LegSymbolNotAllowed(symbol) =>
      (exists leg :: leg in order.legs && leg.symbol == symbol) && !Admits(limits.symbols, Upper(symbol))
    case SecTypeNotAllowed(secType) => secType == order.secType && !Admits(limits.secTypes, secType)
    case LegSecTypeNotAllowed(symbol, secType) =>
      && (exists leg :: leg in order.legs && leg.symbol == symbol && leg.secType == secType)
      && !Admits(limits.secTypes, secType)
    case CurrencyNotAllowed(currency) => currency == order.currency && !Admits(limits.currencies, currency)
    case QuantityTooLarge(said) => said == quantity && limits.maxQuantity.Some? && said > limits.maxQuantity.value
    case LegQuantityTooLarge(symbol, said) =>
      && (exists leg :: leg in order.legs && leg.symbol == symbol && said == leg.ratio * quantity)
      && limits.maxQuantity.Some? && said > limits.maxQuantity.value && said > quantity
    case NotionalUnbounded(symbol, secType) =>
      && limits.maxNotional.Some? && secType in {"BOND", "EVENT"}
      && if order.legs == [] then symbol == order.symbol && secType == order.secType
         else exists leg :: leg in order.legs && leg.symbol == symbol && leg.secType == secType
    case MultiplierUnknown(symbol, secType) =>
      && limits.maxNotional.Some? && secType in {"OPT", "FOP", "FUT", "CONTFUT", "WAR", "IOPT"}
      && if order.legs == [] then symbol == order.symbol && secType == order.secType && order.multiplier.None?
         else exists leg :: leg in order.legs && leg.symbol == symbol && leg.secType == secType && leg.multiplier.None?
    case LegUnpriced(symbol, secType) =>
      && limits.maxNotional.Some?
      && exists leg :: leg in order.legs && leg.symbol == symbol && leg.secType == secType && leg.price.None?
    case NothingBoundsThePrice =>
      limits.maxNotional.Some? && order.legs == [] && forall price :: !IsBasis(order, price)
    case NotionalTooLarge(said) =>
      limits.maxNotional.Some? && IsEstimate(order, Some(said)) && said > limits.maxNotional.value
  }

  /** What a violation is about: the notional is checked only where it can be. */
  predicate AboutNotional(v: Violation) {
    v.NotionalUnbounded? || v.MultiplierUnknown? || v.LegUnpriced? || v.NothingBoundsThePrice? || v.NotionalTooLarge?
  }

  lemma SymbolReports(limits: Limits, order: Order, v: Violation)
    ensures v in SymbolViolations(limits, order)
      <==> (v.SymbolNotAllowed? || v.LegSymbolNotAllowed?) && IsTrue(limits, order, v)
  {
    OfLegsMembers(order.legs, (leg: Leg) => Upper(leg.symbol) !in limits.symbols,
                  (leg: Leg) => LegSymbolNotAllowed(leg.symbol), v);
  }

  lemma CodeReports(limits: Limits, order: Order, v: Violation)
    ensures v in SecTypeViolations(limits, order) + CurrencyViolations(limits, order)
      <==> (v.SecTypeNotAllowed? || v.LegSecTypeNotAllowed? || v.CurrencyNotAllowed?) && IsTrue(limits, order, v)
  {
    OfLegsMembers(order.legs, (leg: Leg) => leg.secType !in limits.secTypes,
                  (leg: Leg) => LegSecTypeNotAllowed(leg.symbol, leg.secType), v);
  }

  lemma LegReport(leg: Leg, quantity: real, limit: real)
    ensures TooLarge(quantity, limit)(leg) <==> leg.ratio * quantity > limit && leg.ratio * quantity > quantity
    ensures SayTooLarge(quantity)(leg) == LegQuantityTooLarge(leg.symbol, leg.ratio * quantity)
  {
    var units := LegQuantity(leg, quantity);
    assert units == leg.ratio * quantity && (LegTooLarge(leg, quantity, limit) <==> units > limit && units > quantity);
  }

  lemma {:induction false} LegQuantityReports(legs: seq<Leg>, quantity: real, limit: real, v: Violation)
    ensures v in OfLegs(legs, TooLarge(quantity, limit), SayTooLarge(quantity)) <==>
      && v.LegQuantityTooLarge? && v.quantity > limit && v.quantity > quantity
      && exists leg :: leg in legs && leg.symbol == v.symbol && v.quantity == leg.ratio * quantity
  {
    OfLegsMembers(legs, TooLarge(quantity, limit), SayTooLarge(quantity), v);
    forall leg {
      LegReport(leg, quantity, limit);
    }
  }

  lemma QuantityReports(limits: Limits, order: Order, v: Violation)
    ensures v in QuantityViolations(limits, order)
      <==> (v.QuantityTooLarge? || v.LegQuantityTooLarge?) && IsTrue(limits, order, v)
  {
    if limits.maxQuantity.Some? {
      LegQuantityReports(order.legs, Abs(order.quantity), limits.maxQuantity.value, v);
    }
  }

  lemma {:induction false} NoneInvented(list: seq<Violation>)
    ensures forall v :: v in WithoutRepeats(list) <==> v in list
  {
    if list != [] {
      NoneInvented(list[..|list| - 1]);
      assert list == list[..|list| - 1] + [list[|list| - 1]];
    }
  }

  lemma UncheckedReports(limits: Limits, order: Order, v: Violation)
    requires limits.maxNotional.Some?
    ensures v in UncheckedViolations(order)
      <==> (v.NotionalUnbounded? || v.MultiplierUnknown?) && IsTrue(limits, order, v)
  {
    OfLegsMembers(order.legs, (leg: Leg) => leg.secType in UNBOUNDED_NOTIONAL,
                  (leg: Leg) => NotionalUnbounded(leg.symbol, leg.secType), v);
    OfLegsMembers(order.legs, (leg: Leg) => leg.secType in MULTIPLIER_REQUIRED && leg.multiplier.None?,
                  (leg: Leg) => MultiplierUnknown(leg.symbol, leg.secType), v);
  }

  lemma UnpricedReports(limits: Limits, order: Order, v: Violation)
    requires limits.maxNotional.Some?
    ensures v in WithoutRepeats(OfLegs(order.legs, (leg: Leg) => leg.price.None?,
                                       (leg: Leg) => LegUnpriced(leg.symbol, leg.secType)))
      <==> v.LegUnpriced? && IsTrue(limits, order, v)
  {
    var breaks, describe := (leg: Leg) => leg.price.None?, (leg: Leg) => LegUnpriced(leg.symbol, leg.secType);
    OfLegsMembers(order.legs, breaks, describe, v);
    NoneInvented(OfLegs(order.legs, breaks, describe));
  }

  lemma NotionalReports(limits: Limits, order: Order, v: Violation)
    ensures v in NotionalViolations(limits, order) ==> AboutNotional(v) && IsTrue(limits, order, v)
  {
    if limits.maxNotional.Some? {
      UncheckedReports(limits, order, v);
      UnpricedReports(limits, order, v);
      NotionalIsEstimate(order);
    }
  }

  /**
   Every reason a refusal gives is true of the order, with the names and numbers it quotes; and apart from
   the notional, whose checks build on each other, every reason there is is given.
   */
  lemma RefusalsSayWhatIsWrong(limits: Limits, order: Order, v: Violation)
    ensures v in Check(limits, order) ==> IsTrue(limits, order, v)
    ensures !AboutNotional(v) && IsTrue(limits, order, v) ==> v in Check(limits, order)
  {
    SymbolReports(limits, order, v);
    CodeReports(limits, order, v);
    QuantityReports(limits, order, v);
    NotionalReports(limits, order, v);
  }

  /** Symbols are compared in upper case. */
  lemma UpperIsPerLetter(s: string, i: nat)
    requires i < |s|
    ensures |Upper(s)| == |s|
    ensures Upper(s)[i] == s[i] || ('a' <= s[i] <= 'z' && 'A' <= Upper(s)[i] <= 'Z')
    ensures 'a' <= s[i] <= 'z' ==> s[i] as int - Upper(s)[i] as int == 'a' as int - 'A' as int
    ensures !('a' <= Upper(s)[i] <= 'z')
  {
  }
}
