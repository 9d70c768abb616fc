/**
 * Command: commands capture a receiver pizza and their arguments; the chef queues them,
 * runs them in insertion order and then clears the queue.
 */
module CommandPattern {

  import opened Outcomes
  import Seqs

  /** The receiver: a named pizza whose topping list the commands change in place. */
  class Pizza {
    const name: string
    var toppings: seq<string>

    constructor (name: string)
      ensures this.name == name && toppings == []
    {
      this.name := name;
      toppings := [];
    }

    /** The line `add_topping` prints. */
    function AddedLine(topping: string): string
    {
      topping + " added to " + name + " pizza"
    }

    /** The line `remove_topping` prints. */
    function RemovedLine(topping: string): string
    {
      topping + " removed from " + name + " pizza"
    }

    function BakingLine(): string { name + " pizza is baking" }

    function CuttingLine(): string { name + " pizza is being cut" }

    function BoxingLine(): string { name + " pizza is being boxed" }

    /** Appends the topping at the end; the earlier toppings stay as they were. */
    method AddTopping(topping: string) returns (line: string)
      modifies this
      ensures toppings == old(toppings) + [topping]
      ensures line == AddedLine(topping)
    {
      toppings := toppings + [topping];
      line := AddedLine(topping);
    }

    /** Removes the first occurrence of the topping; an absent topping raises `ValueError`. */
    method RemoveTopping(topping: string) returns (r: Result<string>)
      modifies this
      ensures r.Ok? <==> topping in old(toppings)
      ensures r.Ok? ==> toppings == Seqs.RemoveFirst(old(toppings), topping) && r.value == RemovedLine(topping)
      ensures r.Fail? ==> r.error == ValueError && toppings == old(toppings)
    {
      if topping in toppings {
        toppings := Seqs.RemoveFirst(toppings, topping);
        r := Ok(RemovedLine(topping));
      } else {
        r := Fail(ValueError);
      }
    }

    method GetToppings() returns (ts: seq<string>)
      ensures ts == toppings
    {
      ts := toppings;
    }

    /** Baking, cutting and boxing only announce themselves: they modify nothing. */
    method Bake() returns (line: string)
      ensures line == BakingLine()
    {
      line := BakingLine();
    }

    method Cut() returns (line: string)
      ensures line == CuttingLine()
    {
      line := CuttingLine();
    }

    method Box() returns (line: string)
      ensures line == BoxingLine()
    {
      line := BoxingLine();
    }
  }

  /** The concrete command classes: a receiver and, for the topping commands, a topping. */
  datatype Command =
    | AddToppingCommand(pizza: Pizza, topping: string)
    | RemoveToppingCommand(pizza: Pizza, topping: string)
    | BakePizzaCommand(pizza: Pizza)
    | CutPizzaCommand(pizza: Pizza)
    | BoxPizzaCommand(pizza: Pizza)

  /** What a command does to its receiver's toppings; `None` when it raises. */
  function Apply(command: Command, toppings: seq<string>): (after: Option<seq<string>>)
    ensures after.None? <==> command.RemoveToppingCommand? && command.topping !in toppings
    ensures after.Some? && command.AddToppingCommand? ==> |after.value| == |toppings| + 1
    ensures after.Some? && command.RemoveToppingCommand? ==> |after.value| == |toppings| - 1
    ensures after.Some? && !command.AddToppingCommand? && !command.RemoveToppingCommand? ==> after.value == toppings
  {
    match command
    case AddToppingCommand(_, t) => Some(toppings + [t])
    case RemoveToppingCommand(_, t) =>
      if t in toppings then
        Seqs.RemoveFirstMultiset(toppings, t);
        Some(Seqs.RemoveFirst(toppings, t))
      else None
    case _ => Some(toppings)
  }

  /** The line a command prints when it succeeds. */
  function Line(command: Command): string
  {
    match command
    case AddToppingCommand(p, t) => p.AddedLine(t)
    case RemoveToppingCommand(p, t) => p.RemovedLine(t)
    case BakePizzaCommand(p) => p.BakingLine()
    case CutPizzaCommand(p) => p.CuttingLine()
    case BoxPizzaCommand(p) => p.BoxingLine()
  }

  /** `execute`: the same call on the receiver, with the stored topping. */
  method Execute(command: Command) returns (r: Result<string>)
    modifies command.pizza
    ensures var after := Apply(command, old(command.pizza.toppings));
      (r.Ok? <==> after.Some?) &&
      (r.Ok? ==> command.pizza.toppings == after.value && r.value == Line(command)) &&
      (r.Fail? ==> r.error == ValueError && command.pizza.toppings == old(command.pizza.toppings))
  {
    match command
    case AddToppingCommand(p, t) =>
      var line := p.AddTopping(t);
      r := Ok(line);
    case RemoveToppingCommand(p, t) =>
      r := p.RemoveTopping(t);
    case BakePizzaCommand(p) =>
      var line := p.Bake();
      r := Ok(line);
    case CutPizzaCommand(p) =>
      var line := p.Cut();
      r := Ok(line);
    case BoxPizzaCommand(p) =>
      var line := p.Box();
      r := Ok(line);
  }

  /** The topping lists of the receivers a run has touched or read. */
  type Store = map<Pizza, seq<string>>

  /** A receiver's toppings in a store; a receiver the store does not hold has none recorded. */
  function Get(store: Store, pizza: Pizza): seq<string>
  {
    if pizza in store then store[pizza] else []
  }

  /** The state a run of commands goes through: the receivers' toppings, the lines printed, and whether it stopped on an exception. */
  datatype Trace = Trace(store: Store, output: seq<string>, failed: bool)

  function Receivers(commands: seq<Command>): set<Pizza>
  {
    set i | 0 <= i < |commands| :: commands[i].pizza
  }

  /** The toppings every receiver of `commands` holds now. */
  ghost function Snapshot(commands: seq<Command>): (store: Store)
    reads Receivers(commands)
  {
    map p | p in Receivers(commands) :: p.toppings
  }

  /** One command on a trace: nothing after an exception; otherwise apply it or stop. */
  function Step(command: Command, t: Trace): Trace
  {
    if t.failed then t
    else match Apply(command, Get(t.store, command.pizza))
      case None => t.(failed := true)
      case Some(ts) => Trace(t.store[command.pizza := ts], t.output + [Line(command)], false)
  }

  /** The commands executed one after another, in list order, from the given toppings. */
  function Run(commands: seq<Command>, store: Store): (t: Trace)
    ensures |t.output| <= |commands|
    ensures !t.failed ==> |t.output| == |commands|
    decreases |commands|
  {
    if commands == [] then Trace(store, [], false)
    else Step(commands[|commands| - 1], Run(commands[..|commands| - 1], store))
  }

  /** Running one more command is one more step. */
  lemma RunSnoc(commands: seq<Command>, command: Command, store: Store)
    ensures Run(commands + [command], store) == Step(command, Run(commands, store))
  {
    assert (commands + [command])[..|commands|] == commands;
  }

  lemma RunNext(commands: seq<Command>, i: nat, store: Store)
    requires i < |commands|
    ensures Run(commands[..i + 1], store) == Step(commands[i], Run(commands[..i], store))
  {
    assert commands[..i + 1] == commands[..i] + [commands[i]];
    RunSnoc(commands[..i], commands[i], store);
  }

  /** Once a command has raised, the remaining commands are not run. */
  lemma {:induction false} RunStopsAtFailure(commands: seq<Command>, k: nat, store: Store)
    requires k <= |commands|
    requires Run(commands[..k], store).failed
    ensures Run(commands, store) == Run(commands[..k], store)
    decreases |commands| - k
  {
    if k < |commands| {
      assert commands[..k + 1][..k] == commands[..k];
      RunStopsAtFailure(commands, k + 1, store);
    } else {
      assert commands[..k] == commands;
    }
  }

  /**
   * Insertion order: running `first + second` runs all of `first`, then `second` on
   * the toppings `first` left, and prints the lines of `first` before those of `second`.
   */
  lemma {:induction false} RunConcat(first: seq<Command>, second: seq<Command>, store: Store)
    requires !Run(first, store).failed
    ensures var mid := Run(first, store);
      var rest := Run(second, mid.store);
      Run(first + second, store) == rest.(output := mid.output + rest.output)
    decreases |second|
  {
    if second == [] {
      assert first + second == first;
    } else {
      var init, last := second[..|second| - 1], second[|second| - 1];
      assert second == init + [last];
      assert first + second == (first + init) + [last];
      RunConcat(first, init, store);
      RunSnoc(first + init, last, store);
      RunSnoc(init, last, Run(first, store).store);
      StepShift(last, Run(init, Run(first, store).store), Run(first, store).output);
    }
  }

  /** A step only appends to the output, so the lines printed before it can be anything. */
  lemma StepShift(command: Command, t: Trace, earlier: seq<string>)
    ensures Step(command, t.(output := earlier + t.output)) ==
      Step(command, t).(output := earlier + Step(command, t).output)
  {
    assert forall line :: earlier + (t.output + [line]) == (earlier + t.output) + [line];
  }

  /** The invoker: a queue of commands. */
  class PizzaChef {
    var commands: seq<Command>

    constructor ()
      ensures commands == []
    {
      commands := [];
    }

    method AddCommand(command: Command)
      modifies this
      ensures commands == old(commands) + [command]
    {
      commands := commands + [command];
    }

    /**
     * Runs the queued commands in order and then clears the queue. A command that
     * raises abandons the loop before the queue is cleared, so the queue is kept whole.
     */
    method ExecuteCommands() returns (lines: seq<string>, ok: bool)
      modifies this, Receivers(commands)
      ensures ok == !Run(old(commands), old(Snapshot(commands))).failed
      ensures lines == Run(old(commands), old(Snapshot(commands))).output
      ensures forall p :: p in old(Receivers(commands)) ==>
        p.toppings == Get(Run(old(commands), old(Snapshot(commands))).store, p)
      ensures commands == if ok then [] else old(commands)
    {
      lines, ok := RunQueue(commands);
      if ok {
        commands := [];
      }
    }
  }

  /** The loop of `execute_commands`: each queued command in turn, stopping at the first that raises. */
  method RunQueue(queue: seq<Command>) returns (lines: seq<string>, ok: bool)
    modifies Receivers(queue)
    ensures ok == !Run(queue, old(Snapshot(queue))).failed
    ensures lines == Run(queue, old(Snapshot(queue))).output
    ensures forall p :: p in Receivers(queue) ==> p.toppings == Get(Run(queue, old(Snapshot(queue))).store, p)
  {
    ghost var start := Snapshot(queue);
    ghost var receivers := Receivers(queue);
    ghost var trace := Trace(start, [], false);
    lines := [];
    var i := 0;
    while i < |queue|
      invariant 0 <= i <= |queue|
      invariant trace == Run(queue[..i], start)
      invariant !trace.failed && lines == trace.output
      invariant forall p :: p in receivers ==> p.toppings == Get(trace.store, p)
    {
      assert queue[i].pizza in receivers;
      var r := ExecuteTraced(queue[i], trace, receivers);
      RunNext(queue, i, start);
      if r.Fail? {
        RunStopsAtFailure(queue, i + 1, start);
        ok := false;
        return;
      }
      trace := Step(queue[i], trace);
      lines := lines + [r.value];
      i := i + 1;
    }
    assert queue[..i] == queue;
    ok := true;
  }

  /** `Execute`, seen as one step of a run whose trace matches the receivers' toppings. */
  method ExecuteTraced(command: Command, ghost trace: Trace, ghost receivers: set<Pizza>) returns (r: Result<string>)
    requires command.pizza in receivers && !trace.failed
    requires forall p :: p in receivers ==> p.toppings == Get(trace.store, p)
    modifies command.pizza
    ensures r.Fail? <==> Step(command, trace).failed
    ensures r.Ok? ==> Step(command, trace).output == trace.output + [r.value]
    ensures forall p :: p in receivers ==> p.toppings == Get(Step(command, trace).store, p)
  {
    r := Execute(command);
  }

  /** The commands the demo queues: add a topping, then bake, cut and box. */
  function DemoCommands(pizza: Pizza, topping: string): seq<Command>
  {
    [AddToppingCommand(pizza, topping), BakePizzaCommand(pizza), CutPizzaCommand(pizza), BoxPizzaCommand(pizza)]
  }

  /** The demo's queue on a pizza with no toppings: the topping is added and four lines are printed. */
  lemma DemoRun(pizza: Pizza, topping: string, store: Store)
    requires Get(store, pizza) == []
    ensures var t := Run(DemoCommands(pizza, topping), store);
      !t.failed && Get(t.store, pizza) == [topping] &&
      t.output == [pizza.AddedLine(topping), pizza.BakingLine(), pizza.CuttingLine(), pizza.BoxingLine()]
  {
    var add, bake, cut, box :=
      AddToppingCommand(pizza, topping), BakePizzaCommand(pizza), CutPizzaCommand(pizza), BoxPizzaCommand(pizza);
    var t1 := Run([add], store);
    assert t1 == Trace(store[pizza := [topping]], [pizza.AddedLine(topping)], false) by {
      RunSnoc([], add, store);
      assert [] + [add] == [add];
      assert Get(store, pizza) + [topping] == [topping];
    }
    var t2 := Run([add, bake], store);
    assert t2 == Trace(t1.store[pizza := [topping]], t1.output + [pizza.BakingLine()], false) by {
      RunSnoc([add], bake, store);
      assert [add] + [bake] == [add, bake];
    }
    var t3 := Run([add, bake, cut], store);
    assert t3 == Trace(t2.store[pizza := [topping]], t2.output + [pizza.CuttingLine()], false) by {
      RunSnoc([add, bake], cut, store);
      assert [add, bake] + [cut] == [add, bake, cut];
    }
    assert Run([add, bake, cut, box], store) == Trace(t3.store[pizza := [topping]], t3.output + [pizza.BoxingLine()], false) by {
      RunSnoc([add, bake, cut], box, store);
      assert [add, bake, cut] + [box] == [add, bake, cut, box];
    }
  }

  /**
   * The demo (run there with "Pepperoni" for both): add a topping, bake, cut and box a
   * fresh pizza. A second run of the now empty queue prints nothing.
   */
  method Demo(name: string, topping: string) returns (toppings: seq<string>, lines: seq<string>, again: seq<string>)
    ensures toppings == [topping]
    ensures lines == [
      topping + " added to " + name + " pizza",
      name + " pizza is baking",
      name + " pizza is being cut",
      name + " pizza is being boxed"]
    ensures again == []
  {
    var pizza := new Pizza(name);
    var chef := new PizzaChef();
    chef.AddCommand(AddToppingCommand(pizza, topping));
    chef.AddCommand(BakePizzaCommand(pizza));
    chef.AddCommand(CutPizzaCommand(pizza));
    chef.AddCommand(BoxPizzaCommand(pizza));
    assert chef.commands == DemoCommands(pizza, topping);
    assert Receivers(chef.commands) == {pizza} by {
      assert chef.commands[0].pizza == pizza;
    }
    DemoRun(pizza, topping, Snapshot(chef.commands));
    var ok;
    lines, ok := chef.ExecuteCommands();
    assert ok && chef.commands == [];
    again, ok := chef.ExecuteCommands();
    toppings := pizza.GetToppings();
  }
}
