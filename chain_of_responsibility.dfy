/**
 * Chain of Responsibility: a pizza's cost from enum values, and a chain of discount
 * handlers in which the first handler whose condition holds decides the discount.
 */
module ChainOfResponsibility {

  import opened Outcomes

  datatype PizzaSize = Small | Medium | Large

  /** The enum value of a size, which is also its price. */
  function SizeValue(size: PizzaSize): (v: nat)
    ensures v >= 10
  {
    match size
    case Small => 10
    case Medium => 15
    case Large => 20
  }

  datatype PizzaTopping = Mushroom | Pepperoni | ExtraCheese

  /** The enum value of a topping, which is also its price. */
  function ToppingValue(topping: PizzaTopping): (v: nat)
    ensures 1 <= v <= 3
  {
    match topping
    case Mushroom => 1
    case Pepperoni => 2
    case ExtraCheese => 3
  }

  datatype Pizza = Pizza(size: PizzaSize, toppings: seq<PizzaTopping>)

  /** `sum(topping.value for topping in toppings)`. */
  function ToppingsSum(toppings: seq<PizzaTopping>): nat
  {
    if toppings == [] then 0 else ToppingValue(toppings[0]) + ToppingsSum(toppings[1..])
  }

  /** `Pizza.get_cost`: the size value plus the value of every topping, duplicates included. */
  function Cost(pizza: Pizza): nat
  {
    SizeValue(pizza.size) + ToppingsSum(pizza.toppings)
  }

  /** Every topping is worth at least 1 and at most 3. */
  lemma {:induction false} ToppingsSumBounds(toppings: seq<PizzaTopping>)
    ensures |toppings| <= ToppingsSum(toppings) <= 3 * |toppings|
  {
    if toppings != [] {
      ToppingsSumBounds(toppings[1..]);
    }
  }

  /** The cost never falls below the size value, which is at least 10, plus one per topping. */
  lemma CostLowerBound(pizza: Pizza)
    ensures Cost(pizza) >= SizeValue(pizza.size) + |pizza.toppings|
    ensures Cost(pizza) >= 10
  {
    ToppingsSumBounds(pizza.toppings);
  }

  lemma {:induction false} ToppingsSumAppend(toppings: seq<PizzaTopping>, topping: PizzaTopping)
    ensures ToppingsSum(toppings + [topping]) == ToppingsSum(toppings) + ToppingValue(topping)
  {
    if toppings != [] {
      assert (toppings + [topping])[1..] == toppings[1..] + [topping];
      ToppingsSumAppend(toppings[1..], topping);
    }
  }

  /** Adding a topping raises the cost by exactly its value, so by at least 1. */
  lemma AddToppingRaisesCost(size: PizzaSize, toppings: seq<PizzaTopping>, topping: PizzaTopping)
    ensures Cost(Pizza(size, toppings + [topping])) == Cost(Pizza(size, toppings)) + ToppingValue(topping)
    ensures Cost(Pizza(size, toppings + [topping])) >= Cost(Pizza(size, toppings)) + 1
  {
    ToppingsSumAppend(toppings, topping);
  }

  /** Which `handle` override a handler object runs; `Plain` is the base `PizzaOrderHandler`. */
  datatype HandlerKind = Plain | Discount | Coupon | Delivery

  /** A handler and the successor it forwards to, if any. */
  datatype Handler = Handler(kind: HandlerKind, successor: Option<Handler>)

  /** The condition under which a handler answers the request itself. */
  predicate Accepts(kind: HandlerKind, pizza: Pizza)
    ensures Accepts(kind, pizza) ==> kind != Plain
  {
    match kind
    case Plain => false
    case Discount => pizza.size == Large && ExtraCheese in pizza.toppings
    case Coupon => |pizza.toppings| >= 3
    case Delivery => pizza.size == Medium || pizza.size == Large
  }

  /** The fixed discount a handler returns when it accepts. */
  function Amount(kind: HandlerKind): (amount: nat)
    ensures amount <= 3
    ensures amount == 0 <==> kind == Plain
  {
    match kind
    case Plain => 0
    case Discount => 2
    case Coupon => 1
    case Delivery => 3
  }

  /** `handle`: answer if this handler accepts, else ask the successor, else 0. */
  function Handle(handler: Handler, pizza: Pizza): (discount: nat)
    ensures discount <= 3
    ensures discount != 0 ==> exists k :: k in Kinds(handler) && Accepts(k, pizza) && Amount(k) == discount
    decreases handler
  {
    if Accepts(handler.kind, pizza) then Amount(handler.kind)
    else match handler.successor
      case None => 0
      case Some(next) => Handle(next, pizza)
  }

  /** The handler kinds along the chain, head first. */
  function Kinds(handler: Handler): (ks: seq<HandlerKind>)
    ensures |ks| >= 1 && ks[0] == handler.kind
    decreases handler
  {
    [handler.kind] + match handler.successor
      case None => []
      case Some(next) => Kinds(next)
  }

  /** The position of the first kind in `kinds` that accepts the pizza, if any. */
  function FirstAccepting(kinds: seq<HandlerKind>, pizza: Pizza): (r: Option<nat>)
    ensures r.Some? ==> r.value < |kinds| && Accepts(kinds[r.value], pizza)
    ensures r.Some? ==> forall j :: 0 <= j < r.value ==> !Accepts(kinds[j], pizza)
    ensures r.None? ==> forall j :: 0 <= j < |kinds| ==> !Accepts(kinds[j], pizza)
  {
    if kinds == [] then None
    else if Accepts(kinds[0], pizza) then Some(0)
    else match FirstAccepting(kinds[1..], pizza)
      case None => None
      case Some(i) => Some(i + 1)
  }

  /**
   * First match wins: the chain returns the amount of the first handler along it that
   * accepts, whatever comes after it, and 0 when no handler accepts.
   */
  lemma {:induction false} HandleIsFirstMatch(handler: Handler, pizza: Pizza)
    ensures Handle(handler, pizza) ==
      match FirstAccepting(Kinds(handler), pizza)
      case None => 0
      case Some(i) => Amount(Kinds(handler)[i])
    decreases handler
  {
    if !Accepts(handler.kind, pizza) {
      match handler.successor
      case None =>
      case Some(next) =>
        HandleIsFirstMatch(next, pizza);
        assert Kinds(handler)[1..] == Kinds(next);
    }
  }

  /** A handler that declines forwards: with no successor it returns 0, otherwise what the successor returns. */
  lemma DeclineDelegates(handler: Handler, pizza: Pizza)
    requires !Accepts(handler.kind, pizza)
    ensures handler.successor.None? ==> Handle(handler, pizza) == 0
    ensures handler.successor.Some? ==> Handle(handler, pizza) == Handle(handler.successor.value, pizza)
  {
  }

  /** `DiscountHandler` returns 2 exactly for a large pizza with extra cheese, and otherwise delegates. */
  lemma DiscountHandlerDecides(successor: Option<Handler>, pizza: Pizza)
    ensures var d := Handle(Handler(Discount, successor), pizza);
      if pizza.size == Large && ExtraCheese in pizza.toppings then d == 2
      else d == (if successor.None? then 0 else Handle(successor.value, pizza))
  {
  }

  /** `CouponHandler` returns 1 exactly when there are at least 3 toppings, and otherwise delegates. */
  lemma CouponHandlerDecides(successor: Option<Handler>, pizza: Pizza)
    ensures var d := Handle(Handler(Coupon, successor), pizza);
      if |pizza.toppings| >= 3 then d == 1
      else d == (if successor.None? then 0 else Handle(successor.value, pizza))
  {
  }

  /** `DeliveryHandler` returns 3 for a medium or large pizza, and otherwise delegates. */
  lemma DeliveryHandlerDecides(successor: Option<Handler>, pizza: Pizza)
    ensures var d := Handle(Handler(Delivery, successor), pizza);
      if pizza.size == Medium || pizza.size == Large then d == 3
      else d == (if successor.None? then 0 else Handle(successor.value, pizza))
  {
  }

  /** The chain the demo wires up: Delivery, then Coupon, then Discount. */
  function DemoChain(): (h: Handler)
    ensures Kinds(h) == [Delivery, Coupon, Discount]
  {
    Handler(Delivery, Some(Handler(Coupon, Some(Handler(Discount, None)))))
  }

  /**
   * In the demo chain a large pizza is always caught by Delivery, so the Discount
   * handler, which needs a large pizza, never gets to return 2; the chain gives 3 for
   * medium and large, 1 for a small pizza with 3 or more toppings and 0 otherwise.
   */
  lemma DemoChainOutcomes(pizza: Pizza)
    ensures Handle(DemoChain(), pizza) != 2
    ensures Handle(DemoChain(), pizza) == 3 <==> pizza.size != Small
    ensures Handle(DemoChain(), pizza) == 1 <==> pizza.size == Small && |pizza.toppings| >= 3
    ensures Handle(DemoChain(), pizza) == 0 <==> pizza.size == Small && |pizza.toppings| < 3
  {
  }

  /** Whatever the chain, the discounted price stays positive: at least 7. */
  lemma DiscountedCostPositive(handler: Handler, pizza: Pizza)
    ensures Cost(pizza) - Handle(handler, pizza) >= 7
  {
    CostLowerBound(pizza);
  }

  /** The demo's order: a large pizza with pepperoni and extra cheese costs 25, less 3 for delivery. */
  lemma DemoTotal()
    ensures var pizza := Pizza(Large, [Pepperoni, ExtraCheese]);
      Cost(pizza) == 25 && Handle(DemoChain(), pizza) == 3 && Cost(pizza) - Handle(DemoChain(), pizza) == 22
  {
  }
}
