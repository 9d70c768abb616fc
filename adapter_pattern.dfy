/**
 * Adapter: a calzone, which only knows `make_calzone`, joins the pizzas through an adapter
 * whose `make_pizza` hands the call on to the calzone it wraps.
 */
module AdapterPattern {

  import opened Outcomes

  /** The adaptee: a calzone has no state of its own. */
  datatype Calzone = Calzone

  /** `Calzone.make_calzone`. */
  function MakeCalzone(calzone: Calzone): string
  {
    "Making Calzone"
  }

  /** The objects that offer `make_pizza`: the abstract base, the two pizzas and the adapter. */
  datatype Pizza = AbstractPizza | MargheritaPizza | PepperoniPizza | CalzoneAdapter(calzone: Calzone)

  /**
   * `make_pizza`: each pizza names itself, the adapter returns whatever its calzone's
   * `make_calzone` returns, and the abstract base raises.
   */
  function MakePizza(pizza: Pizza): (r: Result<string>)
    ensures r.Fail? <==> pizza == AbstractPizza
    ensures r.Fail? ==> r.error == NotImplementedError
    ensures pizza.CalzoneAdapter? ==> r == Ok(MakeCalzone(pizza.calzone))
  {
    match pizza
    case AbstractPizza => Fail(NotImplementedError)
    case MargheritaPizza => Ok("Making Margherita pizza")
    case PepperoniPizza => Ok("Making Pepperoni pizza")
    case CalzoneAdapter(calzone) => Ok(MakeCalzone(calzone))
  }

  /** Every concrete product's message starts with "Making ". */
  lemma MessagesStartWithMaking(pizza: Pizza)
    requires pizza != AbstractPizza
    ensures |MakePizza(pizza).value| >= 7 && MakePizza(pizza).value[..7] == "Making "
  {
    var m := MakePizza(pizza).value;
    assert m[..7] == "Making ";
  }

  /** The three concrete products announce three different things: a sanity fact nothing relies on. */
  lemma MessagesDistinct(a: Pizza, b: Pizza)
    requires a != AbstractPizza && b != AbstractPizza && a != b
    ensures MakePizza(a) != MakePizza(b)
  {
    assert "Making Margherita pizza"[7] == 'M' && "Making Pepperoni pizza"[7] == 'P' && "Making Calzone"[7] == 'C';
  }

  /** The demo: a margherita, a pepperoni pizza and an adapted calzone, made in list order. */
  function DemoOutput(): (lines: seq<Result<string>>)
    ensures |lines| == 3
    ensures forall i :: 0 <= i < 3 ==> lines[i].Ok?
    ensures lines[2] == Ok(MakeCalzone(Calzone))
  {
    var pizzas := [MargheritaPizza, PepperoniPizza, CalzoneAdapter(Calzone)];
    [MakePizza(pizzas[0]), MakePizza(pizzas[1]), MakePizza(pizzas[2])]
  }
}
