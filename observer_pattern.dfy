/**
 * Observer: a pizza order keeps an ordered list of observers and calls `update` on each
 * of them, in list order, whenever its status is set. Customers print a message naming
 * the order and its new status; the kitchen records the order among those in progress.
 */
module ObserverPattern {

  import opened Outcomes
  import Seqs
  import Text

  datatype OrderStatus = Preparing | Backing

  /**
   * The enum value of a status, which the customers' messages show. The length bound is
   * only a sanity fact about the two values; nothing relies on it.
   */
  function StatusValue(status: OrderStatus): (v: string)
    ensures |v| == 7 || |v| == 9
  {
    match status
    case Preparing => "Preparing"
    case Backing => "Backing"
  }

  /** The line a customer called `name` prints for order `id` in status `status`. */
  function CustomerLine(name: string, id: nat, status: OrderStatus): string
  {
    name + " received the message: Order " + Text.NatToString(id) + " status change to: " + StatusValue(status)
  }

  /** An instance of the base `Observer` class, whose `update` is a placeholder. */
  class BaseObserver {

    constructor ()
    {
    }

    /** The base `update` always raises, whatever the order. */
    method Update(order: PizzaOrder) returns (r: Outcome)
      ensures r == Raised(NotImplementedError)
    {
      r := Raised(NotImplementedError);
    }
  }

  class Customer {

    const name: string

    constructor (name: string)
      ensures this.name == name
    {
      this.name := name;
    }

    /**
     * Prints the order's id and the value of its current status; an order whose status
     * was never set has none, and looking up `.value` on it raises.
     */
    method Update(order: PizzaOrder) returns (r: Result<string>)
      ensures order.status.None? ==> r == Fail(AttributeError)
      ensures order.status.Some? ==> r == Ok(CustomerLine(name, order.id, order.status.value))
    {
      if order.status.None? {
        r := Fail(AttributeError);
      } else {
        r := Ok(CustomerLine(name, order.id, order.status.value));
      }
    }
  }

  class Kitchen {

    /** The orders in progress, a set of order objects compared by identity. */
    var orders: set<PizzaOrder>

    constructor ()
      ensures orders == {}
    {
      orders := {};
    }

    /** Adds the order to the set; adding an order already there leaves the set as it was. */
    method Update(order: PizzaOrder)
      modifies this
      ensures orders == old(orders) + {order}
      ensures order in old(orders) ==> orders == old(orders)
    {
      orders := orders + {order};
    }
  }

  /** An attached observer: which `update` override it runs, and the object it runs on. */
  datatype Observer =
    | CustomerObserver(customer: Customer)
    | KitchenObserver(kitchen: Kitchen)
    | PlainObserver(base: BaseObserver)

  /** What one observer's `update` does for an order with this id and status: the lines it prints, or what it raises. */
  function Response(observer: Observer, id: nat, status: Option<OrderStatus>): (r: Result<seq<string>>)
    ensures r.Fail? <==> observer.PlainObserver? || (observer.CustomerObserver? && status.None?)
    ensures r.Ok? ==> |r.value| == (if observer.CustomerObserver? then 1 else 0)
  {
    match observer
    case CustomerObserver(c) => if status.None? then Fail(AttributeError) else Ok([CustomerLine(c.name, id, status.value)])
    case KitchenObserver(_) => Ok([])
    case PlainObserver(_) => Fail(NotImplementedError)
  }

  /** How far a notification gets: the index of the first observer whose `update` raises, or the whole list. */
  function Reach(observers: seq<Observer>, id: nat, status: Option<OrderStatus>): (k: nat)
    ensures k <= |observers|
    ensures forall j :: 0 <= j < k ==> Response(observers[j], id, status).Ok?
    ensures k < |observers| ==> Response(observers[k], id, status).Fail?
  {
    if observers == [] then 0
    else if Response(observers[0], id, status).Fail? then 0
    else 1 + Reach(observers[1..], id, status)
  }

  /** The lines printed by a run of `update` calls over `observers`, in list order. */
  function Printed(observers: seq<Observer>, id: nat, status: Option<OrderStatus>): seq<string>
  {
    if observers == [] then []
    else
      var last := Response(observers[|observers| - 1], id, status);
      Printed(observers[..|observers| - 1], id, status) + (if last.Ok? then last.value else [])
  }

  /** Past an observer that completes the notification goes on; at one that raises it stops. */
  lemma ReachStep(observers: seq<Observer>, id: nat, status: Option<OrderStatus>, i: nat)
    requires i <= Reach(observers, id, status) && i < |observers|
    ensures Response(observers[i], id, status).Ok? ==> i + 1 <= Reach(observers, id, status)
    ensures Response(observers[i], id, status).Fail? ==> Reach(observers, id, status) == i
  {
  }

  /** A prefix one observer longer prints what the shorter one did, then that observer's lines. */
  lemma PrintedNext(observers: seq<Observer>, id: nat, status: Option<OrderStatus>, i: nat)
    requires i < |observers| && Response(observers[i], id, status).Ok?
    ensures Printed(observers[..i + 1], id, status) == Printed(observers[..i], id, status) + Response(observers[i], id, status).value
  {
    assert observers[..i + 1][..i] == observers[..i];
  }

  /** The error that stops a notification that does not reach every observer. */
  function StopError(observers: seq<Observer>, id: nat, status: Option<OrderStatus>): (e: Error)
    requires Reach(observers, id, status) < |observers|
    ensures status.Some? ==> e == NotImplementedError
  {
    Response(observers[Reach(observers, id, status)], id, status).error
  }

  /** The kitchens among the observers. */
  function KitchensOf(observers: seq<Observer>): set<Kitchen>
  {
    set o | o in observers && o.KitchenObserver? :: o.kitchen
  }

  /** `PizzaOrder` together with the `Subject` base class it extends. */
  class PizzaOrder {

    /** `id_`, drawn from the order counter when the order is created. */
    const id: nat
    /** `_observers`, in the order they were attached. */
    var observers: seq<Observer>
    /** `_order_status`; `None` until it is first set. */
    var status: Option<OrderStatus>

    /** The kitchens that a notification may update. */
    function Kitchens(): set<Kitchen>
      reads this
    {
      KitchensOf(observers)
    }

    constructor (id: nat)
      ensures this.id == id && observers == [] && status == None
    {
      this.id := id;
      observers := [];
      status := None;
    }

    /** Appends the observer, duplicates included. */
    method Attach(observer: Observer)
      modifies this
      ensures observers == old(observers) + [observer]
      ensures status == old(status)
    {
      observers := observers + [observer];
    }

    /** Removes the first occurrence of the observer; an observer that is not attached raises. */
    method Detach(observer: Observer) returns (r: Outcome)
      modifies this
      ensures r.Done? <==> observer in old(observers)
      ensures r.Done? ==> observers == Seqs.RemoveFirst(old(observers), observer)
      ensures r.Raised? ==> r.error == ValueError && observers == old(observers)
      ensures status == old(status)
    {
      if observer in observers {
        observers := Seqs.RemoveFirst(observers, observer);
        r := Done;
      } else {
        r := Raised(ValueError);
      }
    }

    /**
     * Calls `update` on every observer in list order until one raises: the lines are those
     * of the observers reached, and each kitchen among them now holds this order.
     */
    method Notify() returns (lines: seq<string>, outcome: Outcome)
      modifies Kitchens()
      ensures outcome.Done? <==> Reach(observers, id, status) == |observers|
      ensures outcome.Raised? ==> outcome.error == StopError(observers, id, status)
      ensures lines == Printed(observers[..Reach(observers, id, status)], id, status)
      ensures forall k :: k in old(Kitchens()) ==>
        k.orders == old(k.orders) + (if KitchenObserver(k) in observers[..Reach(observers, id, status)] then {this} else {})
    {
      var list, current := observers, status;
      ghost var kitchens := Kitchens();
      ghost var before := map k | k in kitchens :: k.orders;
      lines := [];
      var i := 0;
      while i < |list|
        invariant i <= Reach(list, id, current)
        invariant lines == Printed(list[..i], id, current)
        invariant forall k :: k in kitchens ==>
          k.orders == before[k] + (if KitchenObserver(k) in list[..i] then {this} else {})
      {
        var r := UpdateOne(list, i, current, kitchens, before);
        ReachStep(list, id, current, i);
        if r.Fail? {
          outcome := Raised(r.error);
          return;
        }
        PrintedNext(list, id, current, i);
        lines := lines + r.value;
        i := i + 1;
      }
      assert list[..i] == list;
      outcome := Done;
    }

    /** The `order_status` setter: stores the new status first, then notifies, so every observer sees it. */
    method SetStatus(s: OrderStatus) returns (lines: seq<string>, outcome: Outcome)
      modifies this, Kitchens()
      ensures status == Some(s) && observers == old(observers)
      ensures outcome.Done? <==> Reach(observers, id, status) == |observers|
      ensures outcome.Raised? ==> outcome.error == StopError(observers, id, status)
      ensures lines == Printed(observers[..Reach(observers, id, status)], id, status)
      ensures forall k :: k in old(Kitchens()) ==>
        k.orders == old(k.orders) + (if KitchenObserver(k) in observers[..Reach(observers, id, status)] then {this} else {})
    {
      status := Some(s);
      lines, outcome := Notify();
    }

    /** One turn of the notification loop: `list[i].update(self)`, where `list` holds the observers. */
    method UpdateOne(list: seq<Observer>, i: nat, ghost current: Option<OrderStatus>,
                     ghost kitchens: set<Kitchen>, ghost before: map<Kitchen, set<PizzaOrder>>)
      returns (r: Result<seq<string>>)
      requires i < |list| && current == status && kitchens == KitchensOf(list)
      requires forall k :: k in kitchens ==> k in before
      requires forall k :: k in kitchens ==>
        k.orders == before[k] + (if KitchenObserver(k) in list[..i] then {this} else {})
      modifies if list[i].KitchenObserver? then {list[i].kitchen} else {}
      ensures r == Response(list[i], id, current)
      ensures forall k :: k in kitchens ==>
        k.orders == before[k] + (if KitchenObserver(k) in list[..i + 1] then {this} else {})
    {
      var observer := list[i];
      assert list[..i + 1] == list[..i] + [observer];
      match observer
      case CustomerObserver(c) =>
        var line := c.Update(this);
        r := if line.Ok? then Ok([line.value]) else Fail(line.error);
      case KitchenObserver(k) =>
        k.Update(this);
        r := Ok([]);
      case PlainObserver(b) =>
        var e := b.Update(this);
        r := Fail(e.error);
    }
  }

  /** The customers among the observers, in list order, repeats included. */
  function Customers(observers: seq<Observer>): seq<Customer>
  {
    if observers == [] then []
    else
      var last := observers[|observers| - 1];
      Customers(observers[..|observers| - 1]) + (if last.CustomerObserver? then [last.customer] else [])
  }

  /**
   * Once a status is set, a run of `update` calls over `observers` prints exactly one line
   * per customer among them, in list order, each naming this order and the new status.
   */
  lemma {:induction false} PrintedIsCustomerLines(observers: seq<Observer>, id: nat, s: OrderStatus)
    ensures |Printed(observers, id, Some(s))| == |Customers(observers)|
    ensures forall j :: 0 <= j < |Customers(observers)| ==>
      Printed(observers, id, Some(s))[j] == CustomerLine(Customers(observers)[j].name, id, s)
  {
    if observers != [] {
      PrintedIsCustomerLines(observers[..|observers| - 1], id, s);
    }
  }

  /** Once a status is set, only an instance of the base `Observer` can stop a notification. */
  lemma {:induction false} ReachAllWithoutBaseObservers(observers: seq<Observer>, id: nat, s: OrderStatus)
    requires forall j :: 0 <= j < |observers| ==> !observers[j].PlainObserver?
    ensures Reach(observers, id, Some(s)) == |observers|
  {
    if observers != [] {
      ReachAllWithoutBaseObservers(observers[1..], id, s);
    }
  }

  /**
   * What a notification prints once a status is set: one line per customer among the
   * observers it reaches, in list order. With no base `Observer` attached it reaches them
   * all, so every attached customer gets exactly one line.
   */
  lemma NotificationPrintsCustomerLines(observers: seq<Observer>, id: nat, s: OrderStatus)
    ensures var reached := observers[..Reach(observers, id, Some(s))];
      |Printed(reached, id, Some(s))| == |Customers(reached)| &&
      forall j :: 0 <= j < |Customers(reached)| ==>
        Printed(reached, id, Some(s))[j] == CustomerLine(Customers(reached)[j].name, id, s)
    ensures (forall j :: 0 <= j < |observers| ==> !observers[j].PlainObserver?) ==>
      observers[..Reach(observers, id, Some(s))] == observers
  {
    PrintedIsCustomerLines(observers[..Reach(observers, id, Some(s))], id, s);
    if forall j :: 0 <= j < |observers| ==> !observers[j].PlainObserver? {
      ReachAllWithoutBaseObservers(observers, id, s);
    }
  }

  /** Before any status is set, a notification stops at the first customer. */
  lemma {:induction false} UnsetStatusStopsAtCustomer(observers: seq<Observer>, id: nat, j: nat)
    requires j < |observers| && observers[j].CustomerObserver?
    ensures Reach(observers, id, None) <= j
  {
    if j > 0 && Response(observers[0], id, None).Ok? {
      UnsetStatusStopsAtCustomer(observers[1..], id, j - 1);
    }
  }

  /** Detaching an observer right after attaching it for the first time restores the list. */
  lemma AttachThenDetach(observers: seq<Observer>, observer: Observer)
    requires observer !in observers
    ensures observer in observers + [observer]
    ensures Seqs.RemoveFirst(observers + [observer], observer) == observers
  {
    var extended := observers + [observer];
    assert extended[|observers|] == observer;
    var i := Seqs.FirstIndex(extended, observer);
    assert i == |observers|;
    Seqs.RemoveFirstSplices(extended, observer);
    assert extended[..i] == observers;
  }

  /** The class-wide `itertools.count()` that numbers new orders, held by one registry object. */
  class OrderIds {

    /** The next id the counter hands out. */
    var next: nat
    /** The orders created so far, oldest first. */
    ghost var issued: seq<PizzaOrder>

    /** The i-th order created carries id i, so ids follow creation order without repeats. */
    ghost predicate Valid()
      reads this
    {
      |issued| == next && forall j :: 0 <= j < |issued| ==> issued[j].id == j
    }

    /** The counter starts at 0. */
    constructor ()
      ensures next == 0 && issued == [] && Valid()
    {
      next := 0;
      issued := [];
    }

    /** `PizzaOrder()`: a new order with no observers, no status and the next id. */
    method NewOrder() returns (order: PizzaOrder)
      requires Valid()
      modifies this
      ensures fresh(order) && order.observers == [] && order.status == None
      ensures order.id == old(next) && next == old(next) + 1
      ensures forall o :: o in old(issued) ==> o.id < order.id
      ensures issued == old(issued) + [order] && Valid()
    {
      order := new PizzaOrder(next);
      next := next + 1;
      issued := issued + [order];
    }
  }

  /** A notification over one customer and then a kitchen, once a status is set. */
  lemma CustomerThenKitchen(c: Customer, k: Kitchen, id: nat, s: OrderStatus)
    ensures var observers := [CustomerObserver(c), KitchenObserver(k)];
      Reach(observers, id, Some(s)) == 2 &&
      Printed(observers, id, Some(s)) == [CustomerLine(c.name, id, s)]
  {
    var observers := [CustomerObserver(c), KitchenObserver(k)];
    var line := CustomerLine(c.name, id, s);
    assert observers[..1] == [CustomerObserver(c)];
    assert observers[..1][..0] == [];
    assert Printed(observers[..1], id, Some(s)) == [] + [line] == [line];
    assert Printed(observers, id, Some(s)) == [line] + [];
  }

  /** A notification over two customers and then a kitchen, once a status is set. */
  lemma TwoCustomersThenKitchen(c1: Customer, c2: Customer, k: Kitchen, id: nat, s: OrderStatus)
    ensures var observers := [CustomerObserver(c1), CustomerObserver(c2), KitchenObserver(k)];
      Reach(observers, id, Some(s)) == 3 &&
      Printed(observers, id, Some(s)) == [CustomerLine(c1.name, id, s), CustomerLine(c2.name, id, s)]
  {
    var observers := [CustomerObserver(c1), CustomerObserver(c2), KitchenObserver(k)];
    assert observers[..2] == [CustomerObserver(c1), CustomerObserver(c2)];
    assert observers[1..] == [CustomerObserver(c2), KitchenObserver(k)];
    assert observers[..2][..1] == [CustomerObserver(c1)];
    assert observers[..2][..1][..0] == [];
    var line1, line2 := CustomerLine(c1.name, id, s), CustomerLine(c2.name, id, s);
    assert Printed(observers[..2][..1], id, Some(s)) == [] + [line1] == [line1];
    assert Printed(observers[..2], id, Some(s)) == [line1] + [line2];
    assert Printed(observers, id, Some(s)) == [line1, line2] + [];
  }

  /** The demo's first two status changes: order 0, then order 1, start preparing. */
  method PrepareBoth(order0: PizzaOrder, order1: PizzaOrder, kitchen: Kitchen, john: Customer, jane: Customer, jack: Customer)
    returns (lines: seq<string>)
    requires order0 != order1 && order0.id == 0 && order1.id == 1 && kitchen.orders == {}
    requires order0.observers == [CustomerObserver(john), CustomerObserver(jane), KitchenObserver(kitchen)]
    requires order1.observers == [CustomerObserver(jack), KitchenObserver(kitchen)]
    modifies order0, order1, kitchen
    ensures lines == [CustomerLine(john.name, 0, Preparing), CustomerLine(jane.name, 0, Preparing),
                      CustomerLine(jack.name, 1, Preparing)]
    ensures kitchen.orders == {order0, order1}
    ensures order0.observers == old(order0.observers) && order1.observers == old(order1.observers)
  {
    assert KitchenObserver(kitchen) in order0.observers;
    assert KitchenObserver(kitchen) in order1.observers;
    TwoCustomersThenKitchen(john, jane, kitchen, 0, Preparing);
    CustomerThenKitchen(jack, kitchen, 1, Preparing);
    var first, _ := order0.SetStatus(Preparing);
    assert order0.observers[..3] == order0.observers;
    var second, _ := order1.SetStatus(Preparing);
    assert order1.observers[..2] == order1.observers;
    lines := first + second;
  }

  /** The demo's last two status changes, after Jane detached: order 1, then order 0, move on. */
  method MoveOnBoth(order0: PizzaOrder, order1: PizzaOrder, kitchen: Kitchen, john: Customer, jack: Customer)
    returns (lines: seq<string>)
    requires order0 != order1 && order0.id == 0 && order1.id == 1 && kitchen.orders == {order0, order1}
    requires order0.observers == [CustomerObserver(john), KitchenObserver(kitchen)]
    requires order1.observers == [CustomerObserver(jack), KitchenObserver(kitchen)]
    modifies order0, order1, kitchen
    ensures lines == [CustomerLine(jack.name, 1, Backing), CustomerLine(john.name, 0, Backing)]
    ensures kitchen.orders == {order0, order1}
  {
    assert KitchenObserver(kitchen) in order0.observers;
    assert KitchenObserver(kitchen) in order1.observers;
    CustomerThenKitchen(jack, kitchen, 1, Backing);
    CustomerThenKitchen(john, kitchen, 0, Backing);
    var third, _ := order1.SetStatus(Backing);
    assert order1.observers[..2] == order1.observers;
    var fourth, _ := order0.SetStatus(Backing);
    assert order0.observers[..2] == order0.observers;
    lines := third + fourth;
  }

  /** The demo's set-up: three customers and a kitchen attached to two new orders. */
  method Subscribe(john: string, jane: string, jack: string)
    returns (order0: PizzaOrder, order1: PizzaOrder, kitchen: Kitchen, customer1: Customer, customer2: Customer, customer3: Customer)
    ensures fresh(order0) && fresh(order1) && fresh(kitchen) && fresh(customer1) && fresh(customer2)
    ensures order0 != order1 && customer1 != customer2
    ensures customer1.name == john && customer2.name == jane && customer3.name == jack
    ensures order0.id == 0 && order1.id == 1 && kitchen.orders == {}
    ensures order0.observers == [CustomerObserver(customer1), CustomerObserver(customer2), KitchenObserver(kitchen)]
    ensures order1.observers == [CustomerObserver(customer3), KitchenObserver(kitchen)]
  {
    customer1 := new Customer(john);
    customer2 := new Customer(jane);
    customer3 := new Customer(jack);
    kitchen := new Kitchen();
    var ids := new OrderIds();

    order0 := ids.NewOrder();
    order0.Attach(CustomerObserver(customer1));
    order0.Attach(CustomerObserver(customer2));
    order0.Attach(KitchenObserver(kitchen));

    order1 := ids.NewOrder();
    order1.Attach(CustomerObserver(customer3));
    order1.Attach(KitchenObserver(kitchen));
  }

  /**
   * The demo: John, Jane and the kitchen watch order 0, Jack and the kitchen watch order 1;
   * both orders start preparing, Jane detaches, then order 1 and order 0 move on. The
   * customers' lines come out in that order and the kitchen ends with both orders.
   */
  method Demo(john: string, jane: string, jack: string) returns (lines: seq<string>, inProgress: nat)
    ensures lines == [CustomerLine(john, 0, Preparing), CustomerLine(jane, 0, Preparing),
                      CustomerLine(jack, 1, Preparing), CustomerLine(jack, 1, Backing),
                      CustomerLine(john, 0, Backing)]
    ensures inProgress == 2
  {
    var order0, order1, kitchen, customer1, customer2, customer3 := Subscribe(john, jane, jack);
    var before := PrepareBoth(order0, order1, kitchen, customer1, customer2, customer3);
    var _ := order0.Detach(CustomerObserver(customer2));
    assert order0.observers == [CustomerObserver(customer1), KitchenObserver(kitchen)];
    var after := MoveOnBoth(order0, order1, kitchen, customer1, customer3);
    lines := before + after;
    inProgress := |kitchen.orders|;
  }
}
