/**
 * Facade: one call orders a pizza by running the oven, the cutter and the box in that
 * order, each of which only announces its step, and then marks the pizza ready.
 */
module FacadePattern {

  import Seqs
  import Text

  /** The message of one subsystem step: the verb, then the pizza's size and toppings. */
  function StepLine(verb: string, size: int, toppings: seq<string>): string
  {
    verb + " " + Text.IntToString(size) + "cm pizza with " + Text.Join(toppings, ", ") + " toppings..."
  }

  /** A step's message starts with its verb and a space and ends with " toppings...". */
  lemma StepLineLayout(verb: string, size: int, toppings: seq<string>)
    ensures var line := StepLine(verb, size, toppings);
      |verb| + 1 + 12 <= |line| &&
      line[..|verb| + 1] == verb + " " &&
      line[|line| - 12..] == " toppings..."
  {
    var head := verb + " ";
    var middle := Text.IntToString(size) + "cm pizza with " + Text.Join(toppings, ", ");
    var tail := " toppings...";
    assert StepLine(verb, size, toppings) == head + (middle + tail) == (head + middle) + tail;
    Seqs.ConcatSlices(head, middle + tail);
    Seqs.ConcatSlices(head + middle, tail);
  }

  /** Messages of steps whose verbs start with different letters never coincide. */
  lemma StepLinesDiffer(verb1: string, verb2: string, size: int, toppings: seq<string>)
    requires verb1 != [] && verb2 != [] && verb1[0] != verb2[0]
    ensures StepLine(verb1, size, toppings) != StepLine(verb2, size, toppings)
  {
    StepLineLayout(verb1, size, toppings);
    StepLineLayout(verb2, size, toppings);
    assert StepLine(verb1, size, toppings)[0] == (verb1 + " ")[0] == verb1[0];
    assert StepLine(verb2, size, toppings)[0] == (verb2 + " ")[0] == verb2[0];
  }

  /** The text of `Pizza.__str__` for a pizza of this size, toppings and readiness. */
  function Render(size: int, toppings: seq<string>, ready: bool): string
  {
    (if ready then "Ready to delivery: " else "") + Text.IntToString(size) + "cm pizza with: " + Text.Join(toppings, ", ")
  }

  /** A pizza that is not ready renders starting with its size, a digit or a minus sign, never with 'R'. */
  lemma UnreadyRenderStart(size: int, toppings: seq<string>)
    ensures |Render(size, toppings, false)| > 0 && Render(size, toppings, false)[0] != 'R'
  {
    var digits := Text.IntToString(size);
    var rest := digits + "cm pizza with: " + Text.Join(toppings, ", ");
    assert Render(size, toppings, false) == rest;
    assert rest[0] == digits[0];
  }

  /** The "Ready to delivery: " prefix appears exactly when the pizza is ready. */
  lemma RenderPrefix(size: int, toppings: seq<string>, ready: bool)
    ensures var text := Render(size, toppings, ready);
      ready <==> |text| >= 19 && text[..19] == "Ready to delivery: "
  {
    if ready {
      var rest := Text.IntToString(size) + "cm pizza with: " + Text.Join(toppings, ", ");
      assert Render(size, toppings, ready) == "Ready to delivery: " + rest;
      Seqs.ConcatSlices("Ready to delivery: ", rest);
    } else {
      UnreadyRenderStart(size, toppings);
      assert "Ready to delivery: "[0] == 'R';
    }
  }

  class Pizza {

    var size: int
    var toppings: seq<string>
    var isReady: bool

    /** A new pizza keeps the given size and toppings and is not ready. */
    constructor (size: int, toppings: seq<string>)
      ensures this.size == size && this.toppings == toppings && !isReady
    {
      this.size := size;
      this.toppings := toppings;
      isReady := false;
    }

    /** `__str__`. */
    function Str(): (text: string)
      reads this
      ensures text == Render(size, toppings, isReady)
      ensures isReady <==> |text| >= 19 && text[..19] == "Ready to delivery: "
    {
      RenderPrefix(size, toppings, isReady);
      Render(size, toppings, isReady)
    }
  }

  /** `Oven.bake`: announces the baking and leaves the pizza alone. */
  function Bake(pizza: Pizza): (line: string)
    reads pizza
    ensures |line| >= 19 && line[..7] == "Baking " && line[|line| - 12..] == " toppings..."
  {
    StepLineLayout("Baking", pizza.size, pizza.toppings);
    StepLine("Baking", pizza.size, pizza.toppings)
  }

  /** `Cutter.cut`: announces the cutting and leaves the pizza alone. */
  function Cut(pizza: Pizza): (line: string)
    reads pizza
    ensures |line| >= 20 && line[..8] == "Cutting " && line[|line| - 12..] == " toppings..."
  {
    StepLineLayout("Cutting", pizza.size, pizza.toppings);
    StepLine("Cutting", pizza.size, pizza.toppings)
  }

  /** `Box.package`: announces the packaging and leaves the pizza alone. */
  function Package(pizza: Pizza): (line: string)
    reads pizza
    ensures |line| >= 22 && line[..10] == "Packaging " && line[|line| - 12..] == " toppings..."
  {
    StepLineLayout("Packaging", pizza.size, pizza.toppings);
    StepLine("Packaging", pizza.size, pizza.toppings)
  }

  /** The oven, the cutter and the box announce three different messages for the same pizza. */
  lemma SubsystemLinesDiffer(pizza: Pizza)
    ensures Bake(pizza) != Cut(pizza) && Cut(pizza) != Package(pizza) && Bake(pizza) != Package(pizza)
  {
    assert "Baking"[0] == 'B' && "Cutting"[0] == 'C' && "Packaging"[0] == 'P';
    StepLinesDiffer("Baking", "Cutting", pizza.size, pizza.toppings);
    StepLinesDiffer("Cutting", "Packaging", pizza.size, pizza.toppings);
    StepLinesDiffer("Baking", "Packaging", pizza.size, pizza.toppings);
  }

  class PizzaFacade {

    constructor ()
    {
    }

    /**
     * `order_pizza`: a new pizza with exactly the requested size and toppings, baked, cut and
     * packaged once each and in that order while it is not yet ready, and then marked ready.
     */
    method OrderPizza(size: int, toppings: seq<string>) returns (pizza: Pizza, log: seq<string>, ghost readyAtStep: seq<bool>)
      ensures fresh(pizza)
      ensures pizza.size == size && pizza.toppings == toppings && pizza.isReady
      ensures log == [StepLine("Baking", size, toppings), StepLine("Cutting", size, toppings), StepLine("Packaging", size, toppings)]
      ensures readyAtStep == [false, false, false]
    {
      pizza := new Pizza(size, toppings);
      log := [Bake(pizza)];
      readyAtStep := [pizza.isReady];
      log := log + [Cut(pizza)];
      readyAtStep := readyAtStep + [pizza.isReady];
      log := log + [Package(pizza)];
      readyAtStep := readyAtStep + [pizza.isReady];
      pizza.isReady := true;
    }
  }

  /** The demo: a 12 cm pizza ordered through the facade prints as ready for delivery. */
  method Demo(toppings: seq<string>) returns (log: seq<string>, text: string)
    ensures log == [StepLine("Baking", 12, toppings), StepLine("Cutting", 12, toppings), StepLine("Packaging", 12, toppings)]
    ensures text == Render(12, toppings, true)
    ensures |text| >= 19 && text[..19] == "Ready to delivery: "
  {
    var facade := new PizzaFacade();
    var pizza, steps, _ := facade.OrderPizza(12, toppings);
    log := steps;
    text := pizza.Str();
  }
}
