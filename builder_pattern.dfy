/**
 * Builder: a builder owns one pizza and fills it in through chained calls that set the
 * base or append toppings and cheeses; `bake` hands out that same pizza.
 */
module BuilderPattern {

  import opened Outcomes
  import Text

  /** The text of `Pizza.__repr__` for a pizza whose base is set. */
  function Render(base: string, toppings: seq<string>, cheeses: seq<string>): string
  {
    Text.Capitalize(base) + " pizza with " + Text.Join(toppings, ", ") + " and " + Text.Join(cheeses, ", ")
  }

  /**
   * The rendering reads left to right as the capitalised base, " pizza with ", the joined
   * toppings, " and ", and the joined cheeses.
   */
  lemma RenderLayout(base: string, toppings: seq<string>, cheeses: seq<string>)
    ensures var r := Render(base, toppings, cheeses);
      var t := |base| + 12 + |Text.Join(toppings, ", ")|;
      t + 5 <= |r| &&
      r[..|base|] == Text.Capitalize(base) &&
      r[|base|..|base| + 12] == " pizza with " &&
      r[|base| + 12..t] == Text.Join(toppings, ", ") &&
      r[t..t + 5] == " and " &&
      r[t + 5..] == Text.Join(cheeses, ", ")
  {
    var r := Render(base, toppings, cheeses);
    var c := Text.Capitalize(base);
    var joined := Text.Join(toppings, ", ");
    assert r == c + " pizza with " + joined + " and " + Text.Join(cheeses, ", ");
  }

  /**
   * The rendering's length counts every part and separator; empty lists leave their slot
   * empty, as in "Thin crust pizza with  and ".
   */
  lemma RenderLength(base: string, toppings: seq<string>, cheeses: seq<string>)
    ensures |Render(base, toppings, cheeses)| ==
      |base| + 12 + Text.TotalLength(toppings) + (if toppings == [] then 0 else 2 * (|toppings| - 1)) +
      5 + Text.TotalLength(cheeses) + (if cheeses == [] then 0 else 2 * (|cheeses| - 1))
  {
    Text.JoinLength(toppings, ", ");
    Text.JoinLength(cheeses, ", ");
  }

  class Pizza {

    /** The crust; `None` until a base is set. */
    var base: Option<string>
    var toppings: seq<string>
    var cheeses: seq<string>

    constructor ()
      ensures base == None && toppings == [] && cheeses == []
    {
      base := None;
      toppings := [];
      cheeses := [];
    }

    /** `__repr__`: the rendering, or an error when there is no base to capitalise. */
    function Repr(): (r: Result<string>)
      reads this
      ensures r.Fail? <==> base.None?
      ensures r.Fail? ==> r.error == AttributeError
      ensures r.Ok? ==> r.value == Render(base.value, toppings, cheeses)
      ensures r.Ok? ==> |r.value| >= |base.value| + 17 && r.value[..|base.value|] == Text.Capitalize(base.value)
    {
      match base
      case None => Fail(AttributeError)
      case Some(b) =>
        RenderLayout(b, toppings, cheeses);
        Ok(Render(b, toppings, cheeses))
    }
  }

  class PizzaBuilder {

    /** The one pizza this builder fills in. */
    const pizza: Pizza

    /** A new builder holds a new pizza with no base, toppings or cheeses. */
    constructor ()
      ensures fresh(pizza)
      ensures pizza.base == None && pizza.toppings == [] && pizza.cheeses == []
    {
      pizza := new Pizza();
    }

    /** Overwrites the base and returns this builder. */
    method SetBase(base: string) returns (self: PizzaBuilder)
      modifies pizza
      ensures self == this
      ensures pizza.base == Some(base)
      ensures pizza.toppings == old(pizza.toppings) && pizza.cheeses == old(pizza.cheeses)
    {
      pizza.base := Some(base);
      self := this;
    }

    /** Appends a topping, duplicates included, and returns this builder. */
    method AddTopping(topping: string) returns (self: PizzaBuilder)
      modifies pizza
      ensures self == this
      ensures pizza.toppings == old(pizza.toppings) + [topping]
      ensures pizza.base == old(pizza.base) && pizza.cheeses == old(pizza.cheeses)
    {
      pizza.toppings := pizza.toppings + [topping];
      self := this;
    }

    /** Appends a cheese, duplicates included, and returns this builder. */
    method AddCheese(cheese: string) returns (self: PizzaBuilder)
      modifies pizza
      ensures self == this
      ensures pizza.cheeses == old(pizza.cheeses) + [cheese]
      ensures pizza.base == old(pizza.base) && pizza.toppings == old(pizza.toppings)
    {
      pizza.cheeses := pizza.cheeses + [cheese];
      self := this;
    }

    /** Returns the builder's own pizza, not a copy. */
    method Bake() returns (baked: Pizza)
      ensures baked == pizza
    {
      baked := pizza;
    }
  }

  /**
   * `bake` shares the pizza: a topping added through the builder afterwards shows up in
   * the pizza already handed out.
   */
  method AddAfterBake(builder: PizzaBuilder, topping: string) returns (baked: Pizza)
    modifies builder.pizza
    ensures baked == builder.pizza
    ensures baked.toppings == old(builder.pizza.toppings) + [topping]
  {
    baked := builder.Bake();
    var _ := builder.AddTopping(topping);
  }

  /** The demo's chain: a base, one topping and one cheese, then the pizza's rendering. */
  method Demo(base: string, topping: string, cheese: string) returns (text: Result<string>)
    ensures text == Ok(Text.Capitalize(base) + " pizza with " + topping + " and " + cheese)
  {
    var builder := new PizzaBuilder();
    builder := builder.SetBase(base);
    builder := builder.AddTopping(topping);
    builder := builder.AddCheese(cheese);
    var pizza := builder.Bake();
    assert pizza.toppings == [topping] && pizza.cheeses == [cheese];
    text := pizza.Repr();
  }
}
