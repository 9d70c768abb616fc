# Pizza design patterns in Dafny

This project models eight small design-pattern demos that all revolve around pizzas, and
proves what each of them promises:

- **Chain of Responsibility**: a pizza's cost comes from enum values. A chain of discount
  handlers answers with the amount of the first handler whose condition holds.
- **Command**: commands capture a receiver pizza. The chef queues them, runs them in
  insertion order and clears the queue.
- **Observer**: a pizza order keeps an ordered list of observers. Setting its status
  notifies each of them in turn. Customers print the new status and the kitchen records
  the order. A counter hands out order ids.
- **Builder**: chained builder calls set a pizza's base and append toppings and cheeses.
  Each call returns the same builder, and `bake` hands out the builder's own pizza.
- **Strategy**: cost and description come from size and topping objects. Two ordering
  strategies build pizzas of a fixed or a configured size.
- **Facade**: one call bakes, cuts and packages a new pizza in that order and then marks
  it ready.
- **Factory**: a static factory maps each pizza type to its class. Each class announces
  its four preparation steps.
- **Adapter**: a calzone joins the pizzas through an adapter that forwards `make_pizza` to
  `make_calzone`.

Each source file has one Dafny module of the same name (`chain_of_responsibility.dfy`
holds `ChainOfResponsibility`, and so on). `common.dfy` holds the shared parts:

- `Outcomes`: Python exceptions as values. `Result`, `Outcome` and `Error` cover
  `ValueError`, `NotImplementedError`, `AttributeError` and `TypeError`.
- `Seqs`: `list.remove` as `RemoveFirst`.
- `Text`: `str.join`, `str(int)` and ASCII `str.capitalize`.

Printing is modelled by returning the printed lines. Objects that the code changes in
place are Dafny classes with `modifies` frames. Pure lookups and formatting are
functions.

## Model

| member | source | states |
|---|---|---|
| Seqs.RemoveFirst | behavioral/observer_pattern.py:40-41 | `list.remove`: drops the first occurrence of the element; definition, properties in FirstIndex, RemoveFirstSplices, RemoveFirstMultiset and RemoveFirstAbsent |
| Seqs.FirstIndex | behavioral/observer_pattern.py:40-41 | the index `list.remove` acts on holds the element, and no earlier entry does |
| Seqs.RemoveFirstSplices | behavioral/observer_pattern.py:40-41 | removing splices out exactly the first occurrence and keeps the rest in order |
| Seqs.RemoveFirstMultiset | behavioral/command_pattern.py:37-39 | removing a present element shortens the list by one and takes exactly one copy out of its multiset |
| Seqs.RemoveFirstAbsent | behavioral/command_pattern.py:37-39 | removing an absent element leaves the list as it was (the model raises before calling it) |
| Text.Join | structural/facade_pattern.py:37 | `sep.join(parts)`: the parts in order with the separator between neighbours; definition, properties in JoinAppend and JoinLength |
| Text.JoinAppend | creational/builder_pattern.py:25 | joining one more part appends the separator and that part: join keeps order |
| Text.JoinLength | structural/facade_pattern.py:37 | a join's length is the parts' lengths plus one separator between each pair of neighbours; joining no parts gives the empty string |
| Text.NatToString | behavioral/observer_pattern.py:73 | `str(n)` of a natural number is a non-empty string of decimal digits with no leading zero (only `0` itself starts with '0') |
| Text.NatToStringRoundTrip | behavioral/observer_pattern.py:73 | reading the digits of `str(n)` back gives `n` |
| Text.IntToString | structural/facade_pattern.py:37 | `str(i)` is non-empty and starts with a digit exactly when `i >= 0`, and with `-` exactly when `i < 0` |
| Text.IntToStringRoundTrip | structural/facade_pattern.py:37 | `str(i)` is the sign (for negative `i`) followed by `str` of the magnitude, and those digits read back as the magnitude |
| Text.Capitalize | creational/builder_pattern.py:25 | capitalising keeps the length, upper-cases the first character and lower-cases every other one |
| Text.CapitalizeIdempotent | creational/builder_pattern.py:25 | capitalising twice is capitalising once (a sanity fact about the model of `str.capitalize`; nothing relies on it) |
| ChainOfResponsibility.SizeValue | behavioral/chain_of_responsibility.py:23-27 | every size's value, which is its price, is at least 10 |
| ChainOfResponsibility.ToppingValue | behavioral/chain_of_responsibility.py:30-34 | every topping's value lies between 1 and 3 |
| ChainOfResponsibility.ToppingsSum | behavioral/chain_of_responsibility.py:44 | the generator sum of the toppings' values, duplicates included; definition, properties in ToppingsSumBounds and ToppingsSumAppend |
| ChainOfResponsibility.Cost | behavioral/chain_of_responsibility.py:43-44 | `get_cost`: the size value plus the toppings' sum; definition, properties in CostLowerBound and AddToppingRaisesCost |
| ChainOfResponsibility.ToppingsSumBounds | behavioral/chain_of_responsibility.py:43-44 | the toppings' sum lies between their number and three times their number, duplicates counted |
| ChainOfResponsibility.CostLowerBound | behavioral/chain_of_responsibility.py:43-44 | the cost is at least the size value plus one per topping, so at least 10 |
| ChainOfResponsibility.ToppingsSumAppend | behavioral/chain_of_responsibility.py:43-44 | one more topping adds exactly its value to the sum |
| ChainOfResponsibility.AddToppingRaisesCost | behavioral/chain_of_responsibility.py:43-44 | adding a topping raises the cost by its value, so by at least 1 |
| ChainOfResponsibility.Accepts | behavioral/chain_of_responsibility.py:60-79 | the conditions of the three `handle` overrides: a large pizza with extra cheese, three or more toppings, a medium or large pizza; the base handler accepts nothing |
| ChainOfResponsibility.Amount | behavioral/chain_of_responsibility.py:60-79 | the amounts 2, 1 and 3 the overrides return; every amount is at most 3 and only the base handler's is 0 |
| ChainOfResponsibility.Handle | behavioral/chain_of_responsibility.py:52-79 | a chain's discount is at most 3, and a non-zero discount is the amount of an accepting handler on the chain |
| ChainOfResponsibility.Kinds | behavioral/chain_of_responsibility.py:49-50 | the chain's handler kinds start with the head handler's kind |
| ChainOfResponsibility.FirstAccepting | behavioral/chain_of_responsibility.py:52-55 | the position found accepts and no earlier position does; no position is found when none accepts |
| ChainOfResponsibility.HandleIsFirstMatch | behavioral/chain_of_responsibility.py:52-55 | the chain answers with the amount of the first accepting handler along it, and 0 when none accepts |
| ChainOfResponsibility.DeclineDelegates | behavioral/chain_of_responsibility.py:52-55 | a handler that declines returns 0 without a successor and exactly the successor's answer otherwise |
| ChainOfResponsibility.DiscountHandlerDecides | behavioral/chain_of_responsibility.py:60-63 | the discount handler returns 2 exactly for a large pizza with extra cheese, and delegates otherwise |
| ChainOfResponsibility.CouponHandlerDecides | behavioral/chain_of_responsibility.py:68-71 | the coupon handler returns 1 exactly for three or more toppings, and delegates otherwise |
| ChainOfResponsibility.DeliveryHandlerDecides | behavioral/chain_of_responsibility.py:76-79 | the delivery handler returns 3 exactly for a medium or large pizza, and delegates otherwise |
| ChainOfResponsibility.DemoChain | behavioral/chain_of_responsibility.py:85-87 | the demo chain is delivery, then coupon, then discount |
| ChainOfResponsibility.DemoChainOutcomes | behavioral/chain_of_responsibility.py:85-90 | in the demo chain the discount handler never decides; the answer is 3 for medium and large pizzas, 1 for small pizzas with three or more toppings and 0 otherwise |
| ChainOfResponsibility.DiscountedCostPositive | behavioral/chain_of_responsibility.py:89-91 | whatever the chain, the cost less the discount is at least 7 |
| ChainOfResponsibility.DemoTotal | behavioral/chain_of_responsibility.py:82-93 | the demo pizza costs 25, gets 3 off and totals 22 |
| CommandPattern.Pizza.constructor | behavioral/command_pattern.py:29-31 | a new receiver has the given name and no toppings |
| CommandPattern.Pizza.AddedLine | behavioral/command_pattern.py:35 | the "{topping} added to {name} pizza" line; definition |
| CommandPattern.Pizza.RemovedLine | behavioral/command_pattern.py:39 | the "{topping} removed from {name} pizza" line; definition |
| CommandPattern.Pizza.BakingLine | behavioral/command_pattern.py:45 | the "{name} pizza is baking" line; definition |
| CommandPattern.Pizza.CuttingLine | behavioral/command_pattern.py:48 | the "{name} pizza is being cut" line; definition |
| CommandPattern.Pizza.BoxingLine | behavioral/command_pattern.py:51 | the "{name} pizza is being boxed" line; definition |
| CommandPattern.Pizza.AddTopping | behavioral/command_pattern.py:33-35 | appends the topping at the end and returns the "added to" line |
| CommandPattern.Pizza.RemoveTopping | behavioral/command_pattern.py:37-39 | succeeds exactly when the topping is present and then removes its first occurrence; otherwise raises `ValueError` and changes nothing |
| CommandPattern.Pizza.GetToppings | behavioral/command_pattern.py:41-42 | returns the current toppings |
| CommandPattern.Pizza.Bake | behavioral/command_pattern.py:44-45 | only returns the baking line; it changes nothing |
| CommandPattern.Pizza.Cut | behavioral/command_pattern.py:47-48 | only returns the cutting line; it changes nothing |
| CommandPattern.Pizza.Box | behavioral/command_pattern.py:50-51 | only returns the boxing line; it changes nothing |
| CommandPattern.Apply | behavioral/command_pattern.py:61-105 | what each command does to its receiver's toppings: it fails exactly when a remove command's topping is absent; an add grows the list by one, a remove shrinks it by one, and bake, cut and box leave it as it is |
| CommandPattern.Line | behavioral/command_pattern.py:61-105 | the line each command's receiver call prints; definition |
| CommandPattern.Execute | behavioral/command_pattern.py:61-105 | each command does to its own receiver what `Apply` says and prints its line, or raises and leaves the receiver as it was |
| CommandPattern.Step | behavioral/command_pattern.py:118 | one `command.execute()` inside the loop: nothing after an exception, otherwise the command's effect and line or a stop; definition, properties in StepShift |
| CommandPattern.Run | behavioral/command_pattern.py:117-118 | the commands executed in list order: at most one line per command, exactly one per command when none raises; further properties in RunConcat and RunStopsAtFailure |
| CommandPattern.RunSnoc | behavioral/command_pattern.py:117-118 | running one more command is one more step of the run |
| CommandPattern.RunNext | behavioral/command_pattern.py:117-118 | the run of a prefix one command longer is one step after the shorter prefix |
| CommandPattern.RunStopsAtFailure | behavioral/command_pattern.py:117-118 | once a command raises, the commands after it are not run |
| CommandPattern.RunConcat | behavioral/command_pattern.py:117-118 | insertion order: running two queues back to back runs the second on what the first left, and prints the first queue's lines first |
| CommandPattern.StepShift | behavioral/command_pattern.py:117-118 | a step only appends to the output printed so far |
| CommandPattern.PizzaChef.constructor | behavioral/command_pattern.py:110-111 | a new chef has an empty queue |
| CommandPattern.PizzaChef.AddCommand | behavioral/command_pattern.py:113-114 | appends the command to the queue |
| CommandPattern.PizzaChef.ExecuteCommands | behavioral/command_pattern.py:116-119 | the lines, the receivers' new toppings and the success flag are those of `Run` over the queue; the queue is cleared on success and kept when a command raises |
| CommandPattern.RunQueue | behavioral/command_pattern.py:117-118 | the loop over the queue leaves every receiver with the toppings `Run` computes and prints `Run`'s lines |
| CommandPattern.ExecuteTraced | behavioral/command_pattern.py:118 | one execution is one step of the run, given receivers that agree with the run so far |
| CommandPattern.DemoCommands | behavioral/command_pattern.py:123-134 | the demo's queue: add the topping, bake, cut and box, all on one pizza, in insertion order; definition, properties in DemoRun and Demo |
| CommandPattern.DemoRun | behavioral/command_pattern.py:123-136 | the demo queue on a pizza without toppings succeeds, leaves exactly the one topping and prints the add, bake, cut and box lines |
| CommandPattern.Demo | behavioral/command_pattern.py:122-138 | the demo prints the four lines in order and leaves the one topping; running the emptied queue again prints nothing |
| ObserverPattern.StatusValue | behavioral/observer_pattern.py:20-23 | the status values are the strings "Preparing" and "Backing"; the contract only bounds their lengths, a sanity fact nothing relies on |
| ObserverPattern.CustomerLine | behavioral/observer_pattern.py:73 | the f-string a customer prints: name, order id and status value; definition |
| ObserverPattern.BaseObserver.Update | behavioral/observer_pattern.py:28-29 | the base `update` always raises `NotImplementedError` |
| ObserverPattern.Customer.constructor | behavioral/observer_pattern.py:69-70 | a customer keeps its name |
| ObserverPattern.Customer.Update | behavioral/observer_pattern.py:72-73 | prints the order's id and the value of its current status, and raises `AttributeError` when no status was set |
| ObserverPattern.Kitchen.constructor | behavioral/observer_pattern.py:78-79 | a kitchen starts with no orders in progress |
| ObserverPattern.Kitchen.Update | behavioral/observer_pattern.py:81-82 | adds the order to the set of orders in progress; an order already there leaves the set unchanged |
| ObserverPattern.Response | behavioral/observer_pattern.py:28-83 | one `update` call: only the base `Observer`, or a customer before any status is set, raises; a customer contributes one line and the kitchen none |
| ObserverPattern.Printed | behavioral/observer_pattern.py:44-45 | the customer lines of a run of `update` calls, in list order; definition, properties in PrintedNext, PrintedIsCustomerLines and NotificationPrintsCustomerLines |
| ObserverPattern.Reach | behavioral/observer_pattern.py:43-45 | a notification reaches every observer before the first whose `update` raises, and stops at that one |
| ObserverPattern.ReachStep | behavioral/observer_pattern.py:44-45 | past an observer that completes the notification goes on; at one that raises it stops |
| ObserverPattern.PrintedNext | behavioral/observer_pattern.py:44-45 | a prefix one observer longer prints what the shorter one did and then that observer's lines |
| ObserverPattern.StopError | behavioral/observer_pattern.py:28-29 | once a status is set, only `NotImplementedError` can stop a notification |
| ObserverPattern.PizzaOrder.constructor | behavioral/observer_pattern.py:34-35 | a new order has its id, no observers and no status |
| ObserverPattern.PizzaOrder.Attach | behavioral/observer_pattern.py:37-38 | appends the observer, duplicates included |
| ObserverPattern.PizzaOrder.Detach | behavioral/observer_pattern.py:40-41 | removes the first occurrence of an attached observer, and raises `ValueError` and changes nothing for one that is not attached |
| ObserverPattern.PizzaOrder.Notify | behavioral/observer_pattern.py:43-45 | calls `update` in list order until one raises; returns the customer lines of the observers reached (the kitchen's own line is left out), and each kitchen among them now holds the order |
| ObserverPattern.PizzaOrder.SetStatus | behavioral/observer_pattern.py:61-64 | stores the status before notifying, so every observer reached sees the new status |
| ObserverPattern.PizzaOrder.UpdateOne | behavioral/observer_pattern.py:45 | one `update` call returns that observer's response and adds the order to the kitchen it reaches |
| ObserverPattern.PrintedIsCustomerLines | behavioral/observer_pattern.py:72-73 | once a status is set, a run of `update` calls over a list of observers yields one customer line per customer in that list, in list order, naming the order and the new status |
| ObserverPattern.NotificationPrintsCustomerLines | behavioral/observer_pattern.py:43-45 | once a status is set, a notification yields one customer line per customer among the observers it reaches, in list order; with no base `Observer` attached it reaches the whole list, so every attached customer gets exactly one line |
| ObserverPattern.ReachAllWithoutBaseObservers | behavioral/observer_pattern.py:43-45 | once a status is set, a notification without base observers reaches every observer |
| ObserverPattern.UnsetStatusStopsAtCustomer | behavioral/observer_pattern.py:52-73 | before any status is set, a notification stops at the first customer at the latest |
| ObserverPattern.AttachThenDetach | behavioral/observer_pattern.py:37-41 | detaching an observer right after attaching it for the first time restores the list |
| ObserverPattern.OrderIds.constructor | behavioral/observer_pattern.py:50 | the counter starts at 0 |
| ObserverPattern.OrderIds.NewOrder | behavioral/observer_pattern.py:52-55 | a new order gets the next id, which exceeds every earlier id, and no observers or status |
| ObserverPattern.CustomerThenKitchen | behavioral/observer_pattern.py:97-99 | a customer then the kitchen: both are reached and the customer's line is printed |
| ObserverPattern.TwoCustomersThenKitchen | behavioral/observer_pattern.py:92-95 | two customers then the kitchen: all are reached and both customers' lines are printed in order |
| ObserverPattern.PrepareBoth | behavioral/observer_pattern.py:101-102 | order 0 and then order 1 start preparing: three lines, and the kitchen holds both orders |
| ObserverPattern.MoveOnBoth | behavioral/observer_pattern.py:106-107 | order 1 and then order 0 move on: Jack's line, then John's |
| ObserverPattern.Subscribe | behavioral/observer_pattern.py:87-99 | the demo's orders get ids 0 and 1 and their observer lists in attach order |
| ObserverPattern.Demo | behavioral/observer_pattern.py:86-107 | the demo's customer lines are John's, Jane's, Jack's, Jack's and John's in that order (the kitchen's four lines are left out), and the kitchen ends with two orders |
| BuilderPattern.Render | creational/builder_pattern.py:25 | the `__repr__` f-string for a pizza with a base; definition, properties in RenderLayout and RenderLength |
| BuilderPattern.RenderLayout | creational/builder_pattern.py:24-25 | the rendering is the capitalised base, " pizza with ", the joined toppings, " and ", and the joined cheeses |
| BuilderPattern.RenderLength | creational/builder_pattern.py:24-25 | the rendering's length counts every part and every separator, empty topping or cheese lists included |
| BuilderPattern.Pizza.constructor | creational/builder_pattern.py:19-22 | a new pizza has no base and empty topping and cheese lists |
| BuilderPattern.Pizza.Repr | creational/builder_pattern.py:24-25 | rendering fails with `AttributeError` exactly when there is no base; otherwise it is `Render` of the base, toppings and cheeses, so it starts with the capitalised base |
| BuilderPattern.PizzaBuilder.constructor | creational/builder_pattern.py:29-30 | a new builder holds a new, empty pizza |
| BuilderPattern.PizzaBuilder.SetBase | creational/builder_pattern.py:32-34 | overwrites the base, leaves toppings and cheeses alone and returns the same builder |
| BuilderPattern.PizzaBuilder.AddTopping | creational/builder_pattern.py:36-38 | appends the topping, leaves base and cheeses alone and returns the same builder |
| BuilderPattern.PizzaBuilder.AddCheese | creational/builder_pattern.py:40-42 | appends the cheese, leaves base and toppings alone and returns the same builder |
| BuilderPattern.PizzaBuilder.Bake | creational/builder_pattern.py:44-45 | returns the builder's own pizza |
| BuilderPattern.AddAfterBake | creational/builder_pattern.py:36-45 | a topping added after baking shows up in the pizza already handed out |
| BuilderPattern.Demo | creational/builder_pattern.py:48-54 | the chained demo renders "<Base> pizza with <topping> and <cheese>" |
| StrategyPattern.ToppingDescription | behavioral/strategy_pattern.py:37-49 | "Pepperoni" and "Mushroom"; definition |
| StrategyPattern.ToppingCost | behavioral/strategy_pattern.py:37-52 | topping prices lie between 1.5 and 2.0 |
| StrategyPattern.SizeDescription | behavioral/strategy_pattern.py:66-78 | "Small" and "Medium"; definition |
| StrategyPattern.SizeCost | behavioral/strategy_pattern.py:66-81 | size prices lie between 10.0 and 12.0 |
| StrategyPattern.ToppingsCost | behavioral/strategy_pattern.py:106-107 | the sum of the toppings' prices; definition, properties in ToppingsCostAppend and ToppingsCostBounds |
| StrategyPattern.ToppingsCostAppend | behavioral/strategy_pattern.py:106-107 | one more topping adds exactly its price to the sum |
| StrategyPattern.ToppingsCostBounds | behavioral/strategy_pattern.py:106-107 | the toppings' sum lies between 1.5 and 2.0 per topping |
| StrategyPattern.Descriptions | behavioral/strategy_pattern.py:100 | one description per topping, in topping order |
| StrategyPattern.Describe | behavioral/strategy_pattern.py:99-103 | `get_description` for a pizza whose size is set; definition, properties in DescribeLayout |
| StrategyPattern.DescribeLayout | behavioral/strategy_pattern.py:99-103 | the description is the size, " pizza with ", then the joined topping descriptions, with a trailing space when there are no toppings |
| StrategyPattern.Pizza.constructor | behavioral/strategy_pattern.py:86-88 | a missing toppings argument gives an empty list; the size is kept |
| StrategyPattern.Pizza.AddTopping | behavioral/strategy_pattern.py:93-94 | appends the topping, keeping order and duplicates |
| StrategyPattern.Pizza.SetSize | behavioral/strategy_pattern.py:96-97 | overwrites the size and leaves the toppings alone |
| StrategyPattern.Pizza.Description | behavioral/strategy_pattern.py:99-103 | fails with `AttributeError` exactly when there is no size, and is `Describe` of the size and toppings otherwise |
| StrategyPattern.Pizza.Str | behavioral/strategy_pattern.py:90-91 | `__str__` is the description |
| StrategyPattern.Pizza.Cost | behavioral/strategy_pattern.py:105-107 | fails with `AttributeError` exactly when there is no size; otherwise it is the size price plus every topping's price, so between the size price plus 1.5 and plus 2.0 per topping |
| StrategyPattern.StrategySize | behavioral/strategy_pattern.py:117-135 | the size each strategy gives its pizza: always small for the basic strategy (:120), the configured size for the custom one (:132); definition, used by OrderPizza's contract |
| StrategyPattern.OrderPizza | behavioral/strategy_pattern.py:117-135 | a new pizza of the strategy's size with exactly the given toppings in order; a missing list gives none for the custom strategy and raises `TypeError` for the basic one |
| StrategyPattern.Demo | behavioral/strategy_pattern.py:138-151 | the basic pepperoni pizza costs 12.0, and both pizzas are described by their size and toppings |
| StrategyPattern.BasicDemoText | behavioral/strategy_pattern.py:144-145 | the basic demo pizza reads "Small pizza with Pepperoni" |
| FacadePattern.StepLine | structural/facade_pattern.py:57-73 | the message the three subsystem steps share, given the verb; definition, properties in StepLineLayout and StepLinesDiffer |
| FacadePattern.StepLineLayout | structural/facade_pattern.py:57-73 | each step's message starts with its verb and ends with " toppings..." |
| FacadePattern.StepLinesDiffer | structural/facade_pattern.py:57-73 | steps whose verbs start with different letters print different messages |
| FacadePattern.SubsystemLinesDiffer | structural/facade_pattern.py:57-73 | for any pizza, the oven, the cutter and the box print three pairwise different messages |
| FacadePattern.Render | structural/facade_pattern.py:35-37 | the `__str__` f-string for this size, toppings and readiness; definition, properties in RenderPrefix |
| FacadePattern.UnreadyRenderStart | structural/facade_pattern.py:35-37 | a pizza that is not ready renders starting with its size, never with 'R' |
| FacadePattern.RenderPrefix | structural/facade_pattern.py:35-37 | the "Ready to delivery: " prefix appears exactly when the pizza is ready |
| FacadePattern.Pizza.constructor | structural/facade_pattern.py:30-33 | a new pizza keeps the given size and toppings and is not ready |
| FacadePattern.Pizza.Str | structural/facade_pattern.py:35-37 | the text is `Render` of the pizza's size, toppings and readiness, so it starts with "Ready to delivery: " exactly when the pizza is ready |
| FacadePattern.Bake | structural/facade_pattern.py:57-59 | `Oven.bake`: a message that starts with "Baking " and ends with " toppings..." |
| FacadePattern.Cut | structural/facade_pattern.py:64-66 | `Cutter.cut`: a message that starts with "Cutting " and ends with " toppings..." |
| FacadePattern.Package | structural/facade_pattern.py:71-73 | `Box.package`: a message that starts with "Packaging " and ends with " toppings..." |
| FacadePattern.PizzaFacade.OrderPizza | structural/facade_pattern.py:46-52 | a new pizza with exactly the requested size and toppings; bake, cut and package run once each in that order while it is not ready, and then it is ready |
| FacadePattern.Demo | structural/facade_pattern.py:76-79 | the demo prints the three steps for a 12 cm pizza and then its ready text |
| FactoryPattern.Verb | creational/factory_pattern.py:48-73 | the verb that starts each step's message: Preparing, Baking, Cutting, Boxing; definition, properties in StepsOfProducts |
| FactoryPattern.KindName | creational/factory_pattern.py:46-73 | the kind word in a subclass's messages: "cheese" or "pepperoni"; definition, properties in StepsOfProducts |
| FactoryPattern.CreatePizza | creational/factory_pattern.py:76-84 | every type gives a subclass, never the base class, and the product's type is the one asked for |
| FactoryPattern.TypeOf | creational/factory_pattern.py:76-84 | the pizza type a product class belongs to, none for the base class; definition, inverse of CreatePizza |
| FactoryPattern.StepOutput | creational/factory_pattern.py:31-73 | a step prints nothing for the base class and exactly one line for a subclass |
| FactoryPattern.Steps | creational/factory_pattern.py:90-94 | prepare, bake, cut and box called in that order on one pizza; definition, properties in StepsOfProducts and DemoOutput |
| FactoryPattern.StepsOfProducts | creational/factory_pattern.py:46-73 | a factory product prints "Preparing", "Baking", "Cutting" and "Boxing <kind> pizza..." in that order; the base class prints nothing |
| FactoryPattern.DemoOutput | creational/factory_pattern.py:87-101 | the demo prints nine lines, an empty one in the middle |
| AdapterPattern.MakeCalzone | structural/adapter_pattern.py:45-47 | `make_calzone` returns "Making Calzone"; definition |
| AdapterPattern.MakePizza | structural/adapter_pattern.py:24-55 | only the abstract base raises (`NotImplementedError`); the adapter returns exactly its calzone's `make_calzone` result |
| AdapterPattern.MessagesStartWithMaking | structural/adapter_pattern.py:33-47 | every concrete product's message starts with "Making " |
| AdapterPattern.MessagesDistinct | structural/adapter_pattern.py:33-55 | the three concrete products announce three different things (a sanity fact; nothing relies on it) |
| AdapterPattern.DemoOutput | structural/adapter_pattern.py:58-67 | the demo makes three products, all successfully, the last through the adapter |

## Left out

- `print` is not performed. Every printed line is returned instead, in order.
- `Kitchen.update` prints "New order received. Orders in progress: " and the ids of all
  orders in progress, in set iteration order, which is not deterministic. That whole line
  is left out: a kitchen's response prints nothing, so `ObserverPattern.Printed`, `Notify`
  and the observer `Demo` hold the customers' lines only (five in the demo, where the
  program prints nine). Only the set's contents are modelled.
- Python's `abc` checks and dynamic dispatch are not modelled. The abstract `Command`,
  `PizzaTopping`, `PizzaSize` and `PizzaOrderingStrategy` classes become the cases of a
  datatype. The abstract adapter `Pizza` and the base `Observer` are cases whose call
  raises. The factory's base `Pizza`, which has no abstract methods, is a product whose
  steps print nothing.
- `Subject` has one subclass, `PizzaOrder`, so its list and its methods are part of the
  `PizzaOrder` class.
- The process-wide `itertools.count` is modelled by an explicit `OrderIds` object that
  creates the orders.
- Strategy prices are exact `real` values. Every price is a multiple of 0.5, so
  floating-point rounding never applies.
- `str.capitalize` is modelled for ASCII letters only.
- The strategy `Pizza` keeps the caller's list object when it is non-empty; `toppings or
  []` replaces an empty list with a new one. Later appends are then visible through the
  caller's list. The model copies the list as a value and does not capture that sharing.
- The facade `Pizza` also keeps the caller's toppings list object. Nothing in that module
  changes the list, so the model's copy loses nothing observable.
- `CommandPattern.Pizza.GetToppings` returns the list's value. In Python the caller
  receives the live list object.
- The observer list is a sequence of values compared by the identity of the observer
  objects they wrap. Python's `list.remove` uses `==`, which for these classes is also
  identity.
- `PizzaFactory.create_pizza` returns `None` for an argument outside `PizzaType`. The
  model's argument can only be a `PizzaType`, so that case does not arise.
- The demo drivers (`example()`) are modelled as `Demo` methods, lemmas or functions.
  Most take the demo's names and toppings as parameters and state the printed lines
  through the message functions rather than as spelled-out strings.
- `CommandPattern.PizzaChef.ExecuteCommands` runs its loop in `CommandPattern.RunQueue`,
  which takes each step through `CommandPattern.ExecuteTraced`. `Notify` likewise runs
  each `update` through `PizzaOrder.UpdateOne`. These are the same loops split into
  smaller proof units.
- `FacadePattern.PizzaFacade.OrderPizza` records the pizza's readiness at each step in a
  ghost output. The subsystem objects `Oven`, `Cutter` and `Box` have no state and become
  the functions `Bake`, `Cut` and `Package`.
