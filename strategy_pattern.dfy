/**
 * Strategy: a pizza's description and cost come from its size and topping objects, and
 * two ordering strategies build pizzas, one always small and one of a configured size.
 */
module StrategyPattern {

  import opened Outcomes
  import Text

  /** The concrete `PizzaTopping` classes. */
  datatype Topping = PepperoniTopping | MushroomTopping

  function ToppingDescription(topping: Topping): string
  {
    match topping
    case PepperoniTopping => "Pepperoni"
    case MushroomTopping => "Mushroom"
  }

  /** A topping's price: 2.0 for pepperoni, 1.5 for mushroom. */
  function ToppingCost(topping: Topping): (c: real)
    ensures 1.5 <= c <= 2.0
  {
    match topping
    case PepperoniTopping => 2.0
    case MushroomTopping => 1.5
  }

  /** The concrete `PizzaSize` classes. */
  datatype Size = SmallSize | MediumSize

  function SizeDescription(size: Size): string
  {
    match size
    case SmallSize => "Small"
    case MediumSize => "Medium"
  }

  /** A size's price: 10.0 for small, 12.0 for medium. */
  function SizeCost(size: Size): (c: real)
    ensures 10.0 <= c <= 12.0
  {
    match size
    case SmallSize => 10.0
    case MediumSize => 12.0
  }

  /** `sum(topping.get_cost() for topping in toppings)`. */
  function ToppingsCost(toppings: seq<Topping>): real
  {
    if toppings == [] then 0.0 else ToppingCost(toppings[0]) + ToppingsCost(toppings[1..])
  }

  /** Adding a topping adds exactly its price to the sum. */
  lemma {:induction false} ToppingsCostAppend(toppings: seq<Topping>, topping: Topping)
    ensures ToppingsCost(toppings + [topping]) == ToppingsCost(toppings) + ToppingCost(topping)
  {
    if toppings != [] {
      assert (toppings + [topping])[1..] == toppings[1..] + [topping];
      ToppingsCostAppend(toppings[1..], topping);
    }
  }

  /** Every topping costs between 1.5 and 2.0. */
  lemma {:induction false} ToppingsCostBounds(toppings: seq<Topping>)
    ensures 1.5 * |toppings| as real <= ToppingsCost(toppings) <= 2.0 * |toppings| as real
  {
    if toppings != [] {
      ToppingsCostBounds(toppings[1..]);
    }
  }

  /** The topping descriptions, in topping order. */
  function Descriptions(toppings: seq<Topping>): (ds: seq<string>)
    ensures |ds| == |toppings|
    ensures forall i :: 0 <= i < |toppings| ==> ds[i] == ToppingDescription(toppings[i])
  {
    if toppings == [] then [] else [ToppingDescription(toppings[0])] + Descriptions(toppings[1..])
  }

  /** `get_description` for a pizza whose size is set. */
  function Describe(size: Size, toppings: seq<Topping>): string
  {
    SizeDescription(size) + " pizza with " + Text.Join(Descriptions(toppings), ", ")
  }

  /**
   * The description is the size, " pizza with ", then the joined topping descriptions; with
   * no toppings it ends in that trailing space.
   */
  lemma DescribeLayout(size: Size, toppings: seq<Topping>)
    ensures var d := Describe(size, toppings);
      var n := |SizeDescription(size)|;
      n + 12 <= |d| && d[..n] == SizeDescription(size) && d[n..n + 12] == " pizza with " &&
      d[n + 12..] == Text.Join(Descriptions(toppings), ", ")
    ensures toppings == [] ==> Describe(size, toppings) == SizeDescription(size) + " pizza with "
  {
    var d := Describe(size, toppings);
    var n := |SizeDescription(size)|;
    assert d == SizeDescription(size) + " pizza with " + Text.Join(Descriptions(toppings), ", ");
    assert toppings == [] ==> Descriptions(toppings) == [];
  }

  class Pizza {

    var toppings: seq<Topping>
    /** The size object; `None` when none was given. */
    var size: Option<Size>

    /** `Pizza(toppings, size)`: a missing or empty toppings argument gives an empty list. */
    constructor (toppings: Option<seq<Topping>>, size: Option<Size>)
      ensures this.toppings == (if toppings.None? then [] else toppings.value)
      ensures this.size == size
    {
      this.toppings := if toppings.None? then [] else toppings.value;
      this.size := size;
    }

    /** Appends a topping, keeping order and duplicates. */
    method AddTopping(topping: Topping)
      modifies this
      ensures toppings == old(toppings) + [topping] && size == old(size)
    {
      toppings := toppings + [topping];
    }

    /** Overwrites the size. */
    method SetSize(size: Size)
      modifies this
      ensures this.size == Some(size) && toppings == old(toppings)
    {
      this.size := Some(size);
    }

    /** `get_description`; with no size the lookup of its description raises. */
    function Description(): (r: Result<string>)
      reads this
      ensures r.Fail? <==> size.None?
      ensures r.Fail? ==> r.error == AttributeError
      ensures r.Ok? ==> r.value == Describe(size.value, toppings)
    {
      if size.None? then Fail(AttributeError) else Ok(Describe(size.value, toppings))
    }

    /** `__str__` is the description. */
    function Str(): (r: Result<string>)
      reads this
      ensures r == Description()
    {
      Description()
    }

    /** `get_cost`: the size's price plus every topping's; with no size it raises. */
    function Cost(): (r: Result<real>)
      reads this
      ensures r.Fail? <==> size.None?
      ensures r.Fail? ==> r.error == AttributeError
      ensures r.Ok? ==> r.value == SizeCost(size.value) + ToppingsCost(toppings)
      ensures r.Ok? ==> SizeCost(size.value) + 1.5 * |toppings| as real <= r.value <= SizeCost(size.value) + 2.0 * |toppings| as real
    {
      if size.None? then Fail(AttributeError)
      else
        ToppingsCostBounds(toppings);
        Ok(SizeCost(size.value) + ToppingsCost(toppings))
    }
  }

  /** The ordering strategies; a custom strategy carries the size it was configured with. */
  datatype OrderingStrategy = Basic | Custom(size: Option<Size>)

  /** The size a strategy gives its pizzas. */
  function StrategySize(strategy: OrderingStrategy): Option<Size>
  {
    match strategy
    case Basic => Some(SmallSize)
    case Custom(size) => size
  }

  /**
   * `order_pizza`: a new pizza of the strategy's size with the given toppings appended in
   * order. The basic strategy iterates its argument as it is, so a missing list raises;
   * the custom strategy treats a missing list as empty.
   */
  method OrderPizza(strategy: OrderingStrategy, toppings: Option<seq<Topping>>) returns (r: Result<Pizza>)
    ensures r.Fail? <==> strategy.Basic? && toppings.None?
    ensures r.Fail? ==> r.error == TypeError
    ensures r.Ok? ==> fresh(r.value) && r.value.size == StrategySize(strategy)
    ensures r.Ok? ==> r.value.toppings == (if toppings.None? then [] else toppings.value)
  {
    var pizza := new Pizza(None, StrategySize(strategy));
    if toppings.None? {
      if strategy.Basic? {
        return Fail(TypeError);
      }
      return Ok(pizza);
    }
    var given := toppings.value;
    var i := 0;
    while i < |given|
      invariant i <= |given|
      invariant pizza.toppings == given[..i] && pizza.size == StrategySize(strategy)
    {
      pizza.AddTopping(given[i]);
      assert given[..i + 1] == given[..i] + [given[i]];
      i := i + 1;
    }
    assert given[..i] == given;
    r := Ok(pizza);
  }

  /**
   * The demo: the basic strategy with pepperoni gives a small pizza that costs 12.0, and the
   * medium custom strategy with pepperoni and mushroom gives a medium pizza with both.
   */
  method Demo() returns (basicText: Result<string>, basicCost: Result<real>, customText: Result<string>)
    ensures basicText == Ok(Describe(SmallSize, [PepperoniTopping]))
    ensures basicCost == Ok(12.0)
    ensures customText == Ok(Describe(MediumSize, [PepperoniTopping, MushroomTopping]))
  {
    var basic := OrderPizza(Basic, Some([PepperoniTopping]));
    var pizza := basic.value;
    basicText := pizza.Description();
    basicCost := pizza.Cost();
    var custom := OrderPizza(Custom(Some(MediumSize)), Some([PepperoniTopping, MushroomTopping]));
    var pizza2 := custom.value;
    customText := pizza2.Str();
  }

  /** The basic demo pizza reads "Small pizza with Pepperoni". */
  lemma BasicDemoText()
    ensures Describe(SmallSize, [PepperoniTopping]) == "Small pizza with Pepperoni"
  {
    assert Descriptions([PepperoniTopping]) == ["Pepperoni"];
    assert Text.Join(["Pepperoni"], ", ") == "Pepperoni";
  }
}
