/**
 * Factory: a static factory maps each pizza type to its pizza class, and each class
 * announces the four preparation steps for its own kind of pizza.
 */
module FactoryPattern {

  import opened Outcomes

  datatype PizzaType = Cheese | Pepperoni

  /** The pizza classes: the base `Pizza`, whose steps do nothing, and its two subclasses. */
  datatype Product = PlainPizza | CheesePizza | PepperoniPizza

  /** The four steps every pizza offers, in the order the demo calls them. */
  datatype Step = Prepare | Bake | Cut | Box

  function Verb(step: Step): string
  {
    match step
    case Prepare => "Preparing"
    case Bake => "Baking"
    case Cut => "Cutting"
    case Box => "Boxing"
  }

  /** `PizzaFactory.create_pizza`: one class per type, with no fall-through. */
  function CreatePizza(pizzaType: PizzaType): (product: Product)
    ensures product != PlainPizza
    ensures TypeOf(product) == Some(pizzaType)
  {
    match pizzaType
    case Cheese => CheesePizza
    case Pepperoni => PepperoniPizza
  }

  /** The type a product was made for; the base class belongs to none. */
  function TypeOf(product: Product): Option<PizzaType>
  {
    match product
    case PlainPizza => None
    case CheesePizza => Some(Cheese)
    case PepperoniPizza => Some(Pepperoni)
  }

  /** The word naming a product's kind in its messages. */
  function KindName(product: Product): string
    requires product != PlainPizza
  {
    if product == CheesePizza then "cheese" else "pepperoni"
  }

  /** What one step prints: nothing for the base class, "<Verb> <kind> pizza..." otherwise. */
  function StepOutput(product: Product, step: Step): (lines: seq<string>)
    ensures product == PlainPizza <==> lines == []
    ensures |lines| <= 1
  {
    if product == PlainPizza then [] else [Verb(step) + " " + KindName(product) + " pizza..."]
  }

  /** Preparing, baking, cutting and boxing one pizza, in that order. */
  function Steps(product: Product): seq<string>
  {
    StepOutput(product, Prepare) + StepOutput(product, Bake) + StepOutput(product, Cut) + StepOutput(product, Box)
  }

  /**
   * A product made by the factory announces all four steps in order, each naming its verb
   * and its kind; the base class announces nothing.
   */
  lemma StepsOfProducts(pizzaType: PizzaType)
    ensures Steps(PlainPizza) == []
    ensures var product := CreatePizza(pizzaType);
      var kind := KindName(product);
      Steps(product) == [
        "Preparing " + kind + " pizza...", "Baking " + kind + " pizza...",
        "Cutting " + kind + " pizza...", "Boxing " + kind + " pizza..."]
  {
    var product := CreatePizza(pizzaType);
    var kind := KindName(product);
    var a, b, c, d := Verb(Prepare) + " " + kind + " pizza...", Verb(Bake) + " " + kind + " pizza...",
      Verb(Cut) + " " + kind + " pizza...", Verb(Box) + " " + kind + " pizza...";
    assert Verb(Prepare) + " " == "Preparing ";
    assert Verb(Bake) + " " == "Baking ";
    assert Verb(Cut) + " " == "Cutting ";
    assert Verb(Box) + " " == "Boxing ";
    assert Steps(product) == [a] + [b] + [c] + [d] == [a, b, c, d];
  }

  /** The demo's output: the cheese pizza's steps, an empty line, then the pepperoni pizza's steps. */
  function DemoOutput(): (lines: seq<string>)
    ensures |lines| == 9 && lines[4] == ""
  {
    Steps(CreatePizza(Cheese)) + [""] + Steps(CreatePizza(Pepperoni))
  }
}
