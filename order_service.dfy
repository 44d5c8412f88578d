/**
 * Placing an order from a cart: the price snapshot, one voucher per applied
 * cart rule (with the rule's use counter increased), one line item per cart
 * item, which addresses are copied from the cart, and the amount the online
 * payment asks for. The persistence layer, the clock, the event dispatcher and
 * the payment SDK are not modelled; what they would supply is passed in.
 */
module OrderService {

  import opened Options
  import OrderIndex

  /** A persisted entity (product, variant, customer, finish, ...) referred to by its identifier. */
  type EntityId = nat

  datatype Locale = Locale(icu: string, currency: string)

  datatype DeliveryMethod = DeliveryMethod(code: string)

  /** An address as the cart holds it: its fields by name. */
  datatype Address = Address(fields: map<string, string>)

  /** A cart rule of the shop, by its identifier. */
  type RuleId = nat

  /** The shop's cart rules as far as placing an order touches them: each rule's use counter. */
  class CartRules {
    var useCounter: map<RuleId, int>

    constructor (useCounter: map<RuleId, int>)
      ensures this.useCounter == useCounter
    {
      this.useCounter := useCounter;
    }

    /** One more use of `rule`; no other rule's counter changes. */
    method IncreaseUseCounter(rule: RuleId)
      requires rule in useCounter
      modifies this
      ensures useCounter == old(useCounter)[rule := old(useCounter)[rule] + 1]
    {
      useCounter := useCounter[rule := useCounter[rule] + 1];
    }
  }

  /** A cart rule applied to the cart, with the discount it gives there. */
  datatype AppliedRule = AppliedRule(rule: RuleId, discount: int)

  /** The price statistics the cart computes for itself (prices in minor units). */
  datatype Statistics = Statistics(
    productsPrice: int,
    totalDiscount: int,
    deliveryPrice: int,
    assemblyPrice: int,
    fullDeliveryPrice: int,
    totalPrice: int,
    deposit: int,
    rules: seq<AppliedRule>)

  datatype CartItem = CartItem(
    product: EntityId,
    variant: EntityId,
    quantity: int,
    surfaceFinish: Option<EntityId>,
    cloth: Option<EntityId>,
    glass: Option<EntityId>,
    weightCategory: Option<EntityId>,
    isGift: bool,
    price: int)

  /** The stored cart record: how it is to be delivered and paid, and its addresses. */
  datatype CartRecord = CartRecord(
    deliveryMethod: DeliveryMethod,
    paymentMethod: EntityId,
    address: Address,
    deliveryAddress: Option<Address>,
    assembly: bool,
    fullDelivery: bool)

  /** The shopping cart component: the stored record, the customer, the items and the computed statistics. */
  datatype Cart = Cart(
    record: CartRecord,
    customer: Option<EntityId>,
    items: seq<CartItem>,
    statistics: Statistics)

  /** A voucher recorded on an order: the cart rule it comes from and its discount. */
  datatype Voucher = Voucher(cartRule: RuleId, discount: int)

  /** An order line. */
  datatype Item = Item(
    product: EntityId,
    variant: EntityId,
    quantity: int,
    surfaceFinish: Option<EntityId>,
    cloth: Option<EntityId>,
    glass: Option<EntityId>,
    weightCategory: Option<EntityId>,
    isGift: bool,
    singlePrice: int,
    totalPrice: int)

  // ---------------------------------------------------------------------------
  // Line items and vouchers as values

  /** The item's product and options are those of the cart item. */
  predicate CopiedFrom(item: Item, ci: CartItem)
  {
    && item.product == ci.product && item.variant == ci.variant && item.quantity == ci.quantity
    && item.surfaceFinish == ci.surfaceFinish && item.cloth == ci.cloth && item.glass == ci.glass
    && item.weightCategory == ci.weightCategory && item.isGift == ci.isGift
  }

  /** The order line made from a cart item: a gift is free, anything else costs the cart item's price. */
  function MakeItem(ci: CartItem): (item: Item)
    ensures CopiedFrom(item, ci)
    ensures item.isGift ==> item.singlePrice == 0 && item.totalPrice == 0
    ensures !item.isGift ==> item.singlePrice == ci.price
    ensures item.totalPrice == item.quantity * item.singlePrice
  {
    var single := if ci.isGift then 0 else ci.price;
    Item(ci.product, ci.variant, ci.quantity, ci.surfaceFinish, ci.cloth, ci.glass,
         ci.weightCategory, ci.isGift, single, ci.quantity * single)
  }

  /** The order lines for `cartItems`, one per cart item, in order. */
  function ItemsFor(cartItems: seq<CartItem>): (items: seq<Item>)
    ensures |items| == |cartItems|
  {
    if cartItems == [] then []
    else
      var n := |cartItems| - 1;
      ItemsFor(cartItems[..n]) + [MakeItem(cartItems[n])]
  }

  /** The `i`-th order line is made from the `i`-th cart item. */
  lemma {:induction false} ItemsForLines(cartItems: seq<CartItem>)
    ensures forall i :: 0 <= i < |cartItems| ==> ItemsFor(cartItems)[i] == MakeItem(cartItems[i])
  {
    if cartItems != [] {
      ItemsForLines(cartItems[..|cartItems| - 1]);
    }
  }

  /** The vouchers for the applied rules, one each, in order. */
  function VouchersFor(rules: seq<AppliedRule>): (vouchers: seq<Voucher>)
    ensures |vouchers| == |rules|
  {
    if rules == [] then []
    else
      var n := |rules| - 1;
      VouchersFor(rules[..n]) + [Voucher(rules[n].rule, rules[n].discount)]
  }

  /** The `i`-th voucher records the `i`-th applied rule and its discount. */
  lemma {:induction false} VouchersForRules(rules: seq<AppliedRule>)
    ensures forall i :: 0 <= i < |rules| ==>
      VouchersFor(rules)[i].cartRule == rules[i].rule && VouchersFor(rules)[i].discount == rules[i].discount
  {
    if rules != [] {
      VouchersForRules(rules[..|rules| - 1]);
    }
  }

  /** The cart rules that are applied at least once. */
  function RuleSet(rules: seq<AppliedRule>): set<RuleId>
  {
    if rules == [] then {} else RuleSet(rules[..|rules| - 1]) + {rules[|rules| - 1].rule}
  }

  /** How many times each cart rule is applied. */
  function RuleUses(rules: seq<AppliedRule>): (uses: multiset<RuleId>)
    ensures |uses| == |rules|
  {
    if rules == [] then multiset{} else RuleUses(rules[..|rules| - 1]) + multiset{rules[|rules| - 1].rule}
  }

  /** The use counters after each application of a rule has increased its counter by one. */
  function CountersAfter(counters: map<RuleId, int>, rules: seq<AppliedRule>): (after: map<RuleId, int>)
    ensures after.Keys == counters.Keys
  {
    if rules == [] then counters
    else
      var before := CountersAfter(counters, rules[..|rules| - 1]);
      var r := rules[|rules| - 1].rule;
      if r in before then before[r := before[r] + 1] else before
  }

  /** Each counter goes up by the number of times its rule is applied, and by nothing else. */
  lemma {:induction false} CountersAfterUses(counters: map<RuleId, int>, rules: seq<AppliedRule>)
    ensures forall r :: r in counters ==> CountersAfter(counters, rules)[r] == counters[r] + RuleUses(rules)[r]
  {
    if rules != [] {
      CountersAfterUses(counters, rules[..|rules| - 1]);
    }
  }

  /** A rule that is not applied has no uses. */
  lemma {:induction false} RuleUsesOutside(rules: seq<AppliedRule>, c: RuleId)
    requires c !in RuleSet(rules)
    ensures RuleUses(rules)[c] == 0
  {
    if rules != [] {
      RuleUsesOutside(rules[..|rules| - 1], c);
    }
  }

  /** Every applied rule is in the set of applied rules... */
  lemma {:induction false} RuleSetContains(rules: seq<AppliedRule>, i: nat)
    requires i < |rules|
    ensures rules[i].rule in RuleSet(rules)
  {
    if i < |rules| - 1 {
      RuleSetContains(rules[..|rules| - 1], i);
    }
  }

  /** ... and nothing else is. */
  lemma {:induction false} RuleSetOnlyApplied(rules: seq<AppliedRule>, c: RuleId)
    requires forall j :: 0 <= j < |rules| ==> rules[j].rule != c
    ensures c !in RuleSet(rules)
  {
    if rules != [] {
      RuleSetOnlyApplied(rules[..|rules| - 1], c);
    }
  }

  /** When no rule is applied twice, each applied rule is used exactly once. */
  lemma {:induction false} DistinctRulesUsedOnce(rules: seq<AppliedRule>)
    requires forall i, j :: 0 <= i < j < |rules| ==> rules[i].rule != rules[j].rule
    ensures forall c :: c in RuleSet(rules) ==> RuleUses(rules)[c] == 1
  {
    if rules != [] {
      var n := |rules| - 1;
      var prefix, last := rules[..n], rules[n].rule;
      DistinctRulesUsedOnce(prefix);
      RuleSetOnlyApplied(prefix, last);
      RuleUsesOutside(prefix, last);
    }
  }

  /**
   * When no rule is applied twice, placing the order adds exactly one use to
   * each applied rule's counter and leaves every other counter as it was.
   */
  lemma CountersAfterDistinct(counters: map<RuleId, int>, rules: seq<AppliedRule>)
    requires forall i, j :: 0 <= i < j < |rules| ==> rules[i].rule != rules[j].rule
    ensures forall r :: r in counters ==>
      CountersAfter(counters, rules)[r] == counters[r] + (if r in RuleSet(rules) then 1 else 0)
  {
    CountersAfterUses(counters, rules);
    DistinctRulesUsedOnce(rules);
    forall r | r in counters && r !in RuleSet(rules)
      ensures RuleUses(rules)[r] == 0
    {
      RuleUsesOutside(rules, r);
    }
  }

  // ---------------------------------------------------------------------------
  // Addresses and payment

  /** Which addresses are copied from the cart onto the order. */
  datatype AddressCopy = AddressCopy(billing: bool, delivery: bool)

  /**
   * The address rule of `saveAddresses`: nothing is copied without a customer;
   * with one, the address is copied, and the delivery address too unless the
   * delivery method is personal pickup or the cart has no delivery address.
   */
  function AddressesToCopy(hasCustomer: bool, deliveryCode: string, personalPickupCode: string, hasDeliveryAddress: bool): (copy: AddressCopy)
    ensures copy.billing <==> hasCustomer
    ensures copy.delivery <==> hasCustomer && deliveryCode != personalPickupCode && hasDeliveryAddress
    ensures copy.delivery ==> copy.billing
  {
    if !hasCustomer then AddressCopy(false, false)
    else AddressCopy(true, deliveryCode != personalPickupCode && hasDeliveryAddress)
  }

  // ---------------------------------------------------------------------------
  // The order's header and price snapshot as values

  /** The header of an order: where it was placed, by whom, and how it is delivered and paid. */
  datatype OrderHeader = OrderHeader(
    locale: Option<Locale>,
    index: string,
    customer: Option<EntityId>,
    deliveryMethod: Option<DeliveryMethod>,
    paymentMethod: Option<EntityId>,
    assembly: bool,
    fullDelivery: bool)

  /** The prices an order records. */
  datatype OrderPrices = OrderPrices(
    productsPrice: int,
    totalDiscount: int,
    deliveryPrice: int,
    totalDeliveryPrice: int,
    assemblyPrice: int,
    fullDeliveryPrice: int,
    totalPrice: int,
    deposit: int)

  /**
   * The header of the order placed from `cart` under `index`: the shop's
   * locale, the cart's customer, its delivery and payment method, and the
   * assembly and full-delivery flags `hydrateFromCart` takes over.
   */
  function HeaderFromCart(locale: Locale, index: string, cart: Cart): (header: OrderHeader)
    ensures header.locale == Some(locale) && header.index == index && header.customer == cart.customer
    ensures header.deliveryMethod == Some(cart.record.deliveryMethod)
    ensures header.paymentMethod == Some(cart.record.paymentMethod)
    ensures header.assembly == cart.record.assembly && header.fullDelivery == cart.record.fullDelivery
  {
    OrderHeader(Some(locale), index, cart.customer, Some(cart.record.deliveryMethod),
                Some(cart.record.paymentMethod), cart.record.assembly, cart.record.fullDelivery)
  }

  /**
   * The price snapshot, in the steps `placeOrder` takes: the cart's prices,
   * the delivery total starting at the base delivery price, and then each
   * surcharge, recorded and added to the total only when its flag is set.
   */
  function PriceSnapshot(stats: Statistics, assembly: bool, fullDelivery: bool): (prices: OrderPrices)
    ensures prices.productsPrice == stats.productsPrice && prices.totalDiscount == stats.totalDiscount
    ensures prices.deliveryPrice == stats.deliveryPrice
    ensures prices.assemblyPrice == (if assembly then stats.assemblyPrice else 0)
    ensures prices.fullDeliveryPrice == (if fullDelivery then stats.fullDeliveryPrice else 0)
    ensures prices.totalDeliveryPrice == prices.deliveryPrice + prices.assemblyPrice + prices.fullDeliveryPrice
    ensures prices.totalPrice == stats.totalPrice && prices.deposit == stats.deposit
  {
    var base := OrderPrices(stats.productsPrice, stats.totalDiscount, stats.deliveryPrice, stats.deliveryPrice,
                            0, 0, stats.totalPrice, stats.deposit);
    var withAssembly :=
      if assembly then base.(assemblyPrice := stats.assemblyPrice,
                             totalDeliveryPrice := base.totalDeliveryPrice + stats.assemblyPrice)
      else base;
    if fullDelivery then withAssembly.(fullDeliveryPrice := stats.fullDeliveryPrice,
                                       totalDeliveryPrice := withAssembly.totalDeliveryPrice + stats.fullDeliveryPrice)
    else withAssembly
  }

  // ---------------------------------------------------------------------------
  // The order

  class Order {
    var locale: Option<Locale>
    var index: string
    var customer: Option<EntityId>
    var deliveryMethod: Option<DeliveryMethod>
    var paymentMethod: Option<EntityId>
    var address: Option<Address>
    var deliveryAddress: Option<Address>
    var assembly: bool
    var fullDelivery: bool
    var productsPrice: int
    var totalDiscount: int
    var deliveryPrice: int
    var totalDeliveryPrice: int
    var assemblyPrice: int
    var fullDeliveryPrice: int
    var totalPrice: int
    var deposit: int
    var items: seq<Item>
    var vouchers: seq<Voucher>

    /** The order's header fields. */
    function Header(): OrderHeader
      reads this`locale, this`index, this`customer, this`deliveryMethod, this`paymentMethod
      reads this`assembly, this`fullDelivery
    {
      OrderHeader(locale, index, customer, deliveryMethod, paymentMethod, assembly, fullDelivery)
    }

    /** The order's price fields. */
    function Prices(): OrderPrices
      reads this`productsPrice, this`totalDiscount, this`deliveryPrice, this`totalDeliveryPrice
      reads this`assemblyPrice, this`fullDeliveryPrice, this`totalPrice, this`deposit
    {
      OrderPrices(productsPrice, totalDiscount, deliveryPrice, totalDeliveryPrice,
                  assemblyPrice, fullDeliveryPrice, totalPrice, deposit)
    }

    /**
     * A new order for the cart, with the header and the price snapshot taken
     * from it, and no address, line or voucher yet. The delivery total is
     * accumulated as `placeOrder` does it: the base price first, then each
     * surcharge whose flag is set.
     */
    constructor FromCart(locale: Locale, index: string, cart: Cart)
      ensures Header() == HeaderFromCart(locale, index, cart)
      ensures Prices() == PriceSnapshot(cart.statistics, cart.record.assembly, cart.record.fullDelivery)
      ensures address == None && deliveryAddress == None
      ensures items == [] && vouchers == []
    {
      var stats := cart.statistics;
      var surchargeAssembly, surchargeFull := 0, 0;
      var delivery := stats.deliveryPrice;
      if cart.record.assembly {
        surchargeAssembly := stats.assemblyPrice;
        delivery := delivery + surchargeAssembly;
      }
      if cart.record.fullDelivery {
        surchargeFull := stats.fullDeliveryPrice;
        delivery := delivery + surchargeFull;
      }
      this.locale, this.index, customer := Some(locale), index, cart.customer;
      deliveryMethod, paymentMethod := Some(cart.record.deliveryMethod), Some(cart.record.paymentMethod);
      address, deliveryAddress := None, None;
      assembly, fullDelivery := cart.record.assembly, cart.record.fullDelivery;
      productsPrice, totalDiscount := stats.productsPrice, stats.totalDiscount;
      deliveryPrice, totalDeliveryPrice := stats.deliveryPrice, delivery;
      assemblyPrice, fullDeliveryPrice := surchargeAssembly, surchargeFull;
      totalPrice, deposit := stats.totalPrice, stats.deposit;
      items, vouchers := [], [];
    }

    /**
     * One voucher per applied rule, in order, and one more use of the rule per
     * application; the counters of rules that are not applied do not change.
     */
    method AddVouchers(rules: seq<AppliedRule>, catalogue: CartRules)
      requires forall j :: 0 <= j < |rules| ==> rules[j].rule in catalogue.useCounter
      modifies this`vouchers, catalogue
      ensures vouchers == old(vouchers) + VouchersFor(rules)
      ensures catalogue.useCounter == CountersAfter(old(catalogue.useCounter), rules)
      // Already implied by the modifies frame; stated so that callers need not re-derive it.
      ensures Header() == old(Header()) && Prices() == old(Prices())
    {
      var i := 0;
      while i < |rules|
        invariant 0 <= i <= |rules|
        invariant vouchers == old(vouchers) + VouchersFor(rules[..i])
        invariant catalogue.useCounter == CountersAfter(old(catalogue.useCounter), rules[..i])
      {
        var applied := rules[i];
        assert rules[..i + 1][..i] == rules[..i];
        vouchers := vouchers + [Voucher(applied.rule, applied.discount)];
        catalogue.IncreaseUseCounter(applied.rule);
        i := i + 1;
      }
      assert rules[..i] == rules;
    }

    /** One line per cart item, in cart order, appended after the lines already on the order. */
    method AddItems(cartItems: seq<CartItem>)
      modifies this`items
      ensures items == old(items) + ItemsFor(cartItems)
      // Already implied by the modifies frame; stated so that callers need not re-derive it.
      ensures Header() == old(Header()) && Prices() == old(Prices())
    {
      var i := 0;
      while i < |cartItems|
        invariant 0 <= i <= |cartItems|
        invariant items == old(items) + ItemsFor(cartItems[..i])
      {
        var ci := cartItems[i];
        var single := if ci.isGift then 0 else ci.price;
        var item := Item(ci.product, ci.variant, ci.quantity, ci.surfaceFinish, ci.cloth, ci.glass,
                         ci.weightCategory, ci.isGift, single, ci.quantity * single);
        assert cartItems[..i + 1][..i] == cartItems[..i];
        items := items + [item];
        i := i + 1;
      }
      assert cartItems[..i] == cartItems;
    }
  }

  /** `saveAddresses`: copies the cart's addresses onto the order as `AddressesToCopy` decides. */
  method SaveAddresses(order: Order, record: CartRecord, personalPickupCode: string)
    modifies order`address, order`deliveryAddress
    ensures var copy := AddressesToCopy(order.customer.Some?, record.deliveryMethod.code,
                                        personalPickupCode, record.deliveryAddress.Some?);
      && order.address == (if copy.billing then Some(record.address) else old(order.address))
      && order.deliveryAddress == (if copy.delivery then record.deliveryAddress else old(order.deliveryAddress))
    // Already implied by the modifies frame; stated so that callers need not re-derive it.
    ensures order.Header() == old(order.Header()) && order.Prices() == old(order.Prices())
  {
    if order.customer.Some? {
      order.address := Some(record.address);
      if record.deliveryMethod.code != personalPickupCode && record.deliveryAddress.Some? {
        order.deliveryAddress := record.deliveryAddress;
      }
    }
  }

  /** The amount the online payment is opened for: the deposit when there is one, otherwise the total price. */
  function OnlineAmount(order: Order): (amount: int)
    reads order
    ensures order.deposit != 0 ==> amount == order.deposit
    ensures order.deposit == 0 ==> amount == order.totalPrice
    ensures amount == 0 <==> order.deposit == 0 && order.totalPrice == 0
  {
    if order.deposit != 0 then order.deposit else order.totalPrice
  }

  /** The steps of `placeOrder` after the index is allocated: the order for the cart under `index`. */
  method PlaceOrderUnder(cart: Cart, catalogue: CartRules, locale: Locale, index: string,
                         personalPickupCode: string) returns (order: Order)
    requires forall j :: 0 <= j < |cart.statistics.rules| ==> cart.statistics.rules[j].rule in catalogue.useCounter
    modifies catalogue
    ensures fresh(order)
    ensures order.Header() == HeaderFromCart(locale, index, cart)
    ensures order.Prices() == PriceSnapshot(cart.statistics, cart.record.assembly, cart.record.fullDelivery)
    ensures var copy := AddressesToCopy(cart.customer.Some?, cart.record.deliveryMethod.code,
                                        personalPickupCode, cart.record.deliveryAddress.Some?);
      && order.address == (if copy.billing then Some(cart.record.address) else None)
      && order.deliveryAddress == (if copy.delivery then cart.record.deliveryAddress else None)
    ensures order.items == ItemsFor(cart.items)
    ensures order.vouchers == VouchersFor(cart.statistics.rules)
    ensures catalogue.useCounter == CountersAfter(old(catalogue.useCounter), cart.statistics.rules)
  {
    order := new Order.FromCart(locale, index, cart);
    SaveAddresses(order, cart.record, personalPickupCode);
    order.AddVouchers(cart.statistics.rules, catalogue);
    order.AddItems(cart.items);
  }

  /**
   * `placeOrder`: a new order for the cart, under the index `generateIndex`
   * allocates from the month prefix `yymm` and this month's `MAX(r.index)`.
   */
  method PlaceOrder(cart: Cart, catalogue: CartRules, locale: Locale, yymm: string, monthMax: Option<string>,
                    personalPickupCode: string) returns (order: Order)
    requires forall j :: 0 <= j < |cart.statistics.rules| ==> cart.statistics.rules[j].rule in catalogue.useCounter
    modifies catalogue
    ensures fresh(order)
    ensures order.Header() == HeaderFromCart(locale, OrderIndex.NextIndex(yymm, monthMax), cart)
    ensures order.Prices() == PriceSnapshot(cart.statistics, cart.record.assembly, cart.record.fullDelivery)
    ensures var copy := AddressesToCopy(cart.customer.Some?, cart.record.deliveryMethod.code,
                                        personalPickupCode, cart.record.deliveryAddress.Some?);
      && order.address == (if copy.billing then Some(cart.record.address) else None)
      && order.deliveryAddress == (if copy.delivery then cart.record.deliveryAddress else None)
    ensures order.items == ItemsFor(cart.items)
    ensures order.vouchers == VouchersFor(cart.statistics.rules)
    ensures catalogue.useCounter == CountersAfter(old(catalogue.useCounter), cart.statistics.rules)
  {
    var index := OrderIndex.NextIndex(yymm, monthMax);
    order := PlaceOrderUnder(cart, catalogue, locale, index, personalPickupCode);
  }
}
