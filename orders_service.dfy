/** The catering service: a fixed menu filtered by day period and category, and
    a list of orders per tent moved through Open -> Preparing -> Paid / Charged. */
module Orders {
  import opened Common
  import opened OrdersModels

  // ---------------------------------------------------------------- menu

  /** The 19 items that SeedMenu puts on the menu, in order (prices in cents). */
  function SeedMenu(): seq<MenuItem>
  {
    [ MenuItem("water", "Εμφιαλωμένο Νερό 500ml", Drink, Anytime, 120),
      MenuItem("nuts", "Ανάμεικτοι Ξηροί Καρποί", Snack, Anytime, 250),
      MenuItem("espresso", "Espresso", Coffee, Breakfast, 180),
      MenuItem("capp", "Cappuccino", Coffee, Breakfast, 220),
      MenuItem("freddo", "Freddo Espresso", Coffee, Breakfast, 230),
      MenuItem("yogurt", "Γιαούρτι με Μέλι", Dessert, Breakfast, 390),
      MenuItem("toast", "Τοστ Ζαμπόν-Τυρί", Meal, Breakfast, 350),
      MenuItem("juice", "Φρεσκοστυμμένος Χυμός", Drink, Lunch, 350),
      MenuItem("icedtea", "Iced Tea", Drink, Lunch, 280),
      MenuItem("salad", "Χωριάτικη Σαλάτα", Meal, Lunch, 690),
      MenuItem("burger", "Burger Κοτόπουλο", Meal, Lunch, 850),
      MenuItem("brownie", "Brownie", Dessert, Lunch, 350),
      MenuItem("chips", "Πατατάκια", Snack, Lunch, 180),
      MenuItem("beer", "Μπύρα 330ml", Drink, Dinner, 350),
      MenuItem("wine", "Κρασί ποτήρι", Drink, Dinner, 400),
      MenuItem("pasta", "Ζυμαρικά Ναπολιτέν", Meal, Dinner, 950),
      MenuItem("souvlaki", "Σουβλάκι Μερίδα", Meal, Dinner, 890),
      MenuItem("pizza", "Pizza Margherita", Meal, Dinner, 920),
      MenuItem("tiramisu", "Τιραμισού", Dessert, Dinner, 420) ]
  }

  /** The seeded menu has 19 items with pairwise distinct ids and positive prices. */
  lemma SeedMenuShape()
    ensures |SeedMenu()| == 19
    ensures forall i, j :: 0 <= i < j < |SeedMenu()| ==> SeedMenu()[i].id != SeedMenu()[j].id
    ensures forall i :: 0 <= i < |SeedMenu()| ==> SeedMenu()[i].price > 0
  {
    var m := SeedMenu();
    forall i, j | 0 <= i < j < |m|
      ensures m[i].id != m[j].id
    {
      assert m[i].id[..2] != m[j].id[..2] || m[i].id != m[j].id;
    }
  }

  /** The two Where clauses of FilterMenu. */
  predicate InFilter(m: MenuItem, period: DayPeriod, cat: Option<MenuCategory>)
  {
    && (period == Anytime || m.period == period || m.period == Anytime)
    && (cat.None? || m.category == cat.value)
  }

  /** FilterMenu: the menu items passing the filter, in menu order. */
  function FilterMenuItems(menu: seq<MenuItem>, period: DayPeriod, cat: Option<MenuCategory>): (r: seq<MenuItem>)
    ensures |r| <= |menu|
  {
    if menu == [] then []
    else (if InFilter(menu[0], period, cat) then [menu[0]] else []) + FilterMenuItems(menu[1..], period, cat)
  }

  /** Filtering commutes with concatenation, so the relative menu order is kept. */
  lemma {:induction false} FilterMenuConcat(a: seq<MenuItem>, b: seq<MenuItem>, period: DayPeriod, cat: Option<MenuCategory>)
    ensures FilterMenuItems(a + b, period, cat) == FilterMenuItems(a, period, cat) + FilterMenuItems(b, period, cat)
  {
    if a == [] {
      assert a + b == b;
    } else {
      assert (a + b)[0] == a[0] && (a + b)[1..] == a[1..] + b;
      FilterMenuConcat(a[1..], b, period, cat);
    }
  }

  /** An item is in the filtered menu exactly when it is on the menu and passes both filters. */
  lemma {:induction false} FilterMenuMembers(menu: seq<MenuItem>, period: DayPeriod, cat: Option<MenuCategory>)
    ensures forall m :: m in FilterMenuItems(menu, period, cat) <==> m in menu && InFilter(m, period, cat)
  {
    if menu != [] {
      FilterMenuMembers(menu[1..], period, cat);
      assert forall m :: m in menu <==> m == menu[0] || m in menu[1..];
    }
  }

  /** With period Anytime and no category the whole menu is returned unchanged. */
  lemma {:induction false} FilterMenuUnfiltered(menu: seq<MenuItem>)
    ensures FilterMenuItems(menu, Anytime, None) == menu
  {
    if menu != [] {
      FilterMenuUnfiltered(menu[1..]);
    }
  }

  // ------------------------------------------------- orders as values

  predicate IsActive(s: OrderStatus) { s == Open || s == Preparing }

  predicate IsOpenFor(o: OrderView, tent: string)
  {
    EqualsIgnoreCase(o.tent, tent) && IsActive(o.status)
  }

  /** The first order of the tent (case-insensitively) that is Open or Preparing. */
  function FindOpenOrder(os: seq<OrderView>, tent: string): (r: Option<nat>)
    ensures r.None? <==> forall i :: 0 <= i < |os| ==> !IsOpenFor(os[i], tent)
    ensures r.Some? ==> r.value < |os| && IsOpenFor(os[r.value], tent)
    ensures r.Some? ==> forall i :: 0 <= i < r.value ==> !IsOpenFor(os[i], tent)
  {
    if os == [] then None
    else if IsOpenFor(os[0], tent) then Some(0)
    else match FindOpenOrder(os[1..], tent)
      case None => None
      case Some(k) => Some(k + 1)
  }

  /** The first order with the given id (GetById). */
  function FindOrder(os: seq<OrderView>, id: nat): (r: Option<nat>)
    ensures r.None? <==> forall i :: 0 <= i < |os| ==> os[i].id != id
    ensures r.Some? ==> r.value < |os| && os[r.value].id == id
    ensures r.Some? ==> forall i :: 0 <= i < r.value ==> os[i].id != id
  {
    if os == [] then None
    else if os[0].id == id then Some(0)
    else match FindOrder(os[1..], id)
      case None => None
      case Some(k) => Some(k + 1)
  }

  ghost predicate UniqueOrderIds(os: seq<OrderView>)
  {
    forall i, j :: 0 <= i < j < |os| ==> os[i].id != os[j].id
  }

  /** Every order keeps one line per menu item and positive quantities. */
  ghost predicate WellFormedLines(os: seq<OrderView>)
  {
    forall i :: 0 <= i < |os| ==> UniqueIds(os[i].lines) && PositiveQty(os[i].lines)
  }

  /** StartOrGetOpenOrder: reuse the tent's active order, or append one new Open order. */
  function StartOrGetSpec(os: seq<OrderView>, tent: string, freshId: nat): (r: seq<OrderView>)
    ensures FindOpenOrder(os, tent).Some? ==> r == os
    ensures FindOpenOrder(os, tent).None? ==> |r| == |os| + 1 && r[..|os|] == os
    ensures FindOpenOrder(os, tent).None? ==> r[|os|].tent == tent && r[|os|].status == Open && r[|os|].lines == []
  {
    match FindOpenOrder(os, tent)
    case Some(_) => os
    case None => os + [OrderView(freshId, tent, Open, [])]
  }

  /** What AddItem does to the order it finds: the line is merged in and an Open
      order starts Preparing. */
  function WithItem(o: OrderView, item: MenuItem, qty: int): OrderView
  {
    o.(lines := AddLine(o.lines, item, qty), status := if o.status == Open then Preparing else o.status)
  }

  /** Paid and Charged orders are settled: ClearOrder does not reopen them. */
  predicate Settled(s: OrderStatus) { s == Paid || s == Charged }

  /** What ClearOrder does to the order it finds. */
  function Cleared(o: OrderView): OrderView
  {
    o.(lines := [], status := if Settled(o.status) then o.status else Open)
  }

  /** AddItem: the found order gets the line and moves Open -> Preparing; every other
      status stays, and an unknown id changes nothing. */
  function AddItemSpec(os: seq<OrderView>, id: nat, item: MenuItem, qty: int): (r: seq<OrderView>)
    ensures |r| == |os|
    ensures FindOrder(os, id).None? ==> r == os
    ensures FindOrder(os, id).Some? ==>
      var k := FindOrder(os, id).value;
      && (forall i :: 0 <= i < |os| && i != k ==> r[i] == os[i])
      && r[k].id == os[k].id && r[k].tent == os[k].tent
      && r[k].lines == AddLine(os[k].lines, item, qty)
      && (os[k].status == Open ==> r[k].status == Preparing)
      && (os[k].status != Open ==> r[k].status == os[k].status)
  {
    match FindOrder(os, id)
    case None => os
    case Some(k) => os[k := WithItem(os[k], item, qty)]
  }

  /** PayOrder / ChargeToTent: the found order gets the status, nothing else changes. */
  function SetStatusSpec(os: seq<OrderView>, id: nat, s: OrderStatus): (r: seq<OrderView>)
    ensures |r| == |os|
    ensures FindOrder(os, id).None? ==> r == os
    ensures FindOrder(os, id).Some? ==>
      var k := FindOrder(os, id).value;
      && (forall i :: 0 <= i < |os| && i != k ==> r[i] == os[i])
      && r[k].id == os[k].id && r[k].tent == os[k].tent && r[k].lines == os[k].lines
      && r[k].status == s
  {
    match FindOrder(os, id)
    case None => os
    case Some(k) => os[k := os[k].(status := s)]
  }

  /** ClearOrder: empty the found order, reopen it unless it is settled, and
      optionally drop it from the list. */
  function ClearSpec(os: seq<OrderView>, id: nat, removeIfEmpty: bool): (r: seq<OrderView>)
    ensures FindOrder(os, id).None? ==> r == os
    ensures !removeIfEmpty ==> |r| == |os|
    ensures removeIfEmpty && FindOrder(os, id).Some? ==> |r| == |os| - 1
    ensures !removeIfEmpty && FindOrder(os, id).Some? ==>
      var k := FindOrder(os, id).value;
      && (forall i :: 0 <= i < |os| && i != k ==> r[i] == os[i])
      && r[k].id == os[k].id && r[k].tent == os[k].tent && r[k].lines == []
      && (Settled(os[k].status) ==> r[k].status == os[k].status)
      && (!Settled(os[k].status) ==> r[k].status == Open)
  {
    match FindOrder(os, id)
    case None => os
    case Some(k) =>
      if removeIfEmpty then RemoveAt(os, k) else os[k := Cleared(os[k])]
  }

  /** List.RemoveAt(k) as a value. */
  function RemoveAt<T>(s: seq<T>, k: nat): (r: seq<T>)
    requires k < |s|
    ensures |r| == |s| - 1
    ensures forall i :: 0 <= i < k ==> r[i] == s[i]
    ensures forall i :: k <= i < |r| ==> r[i] == s[i + 1]
  {
    s[..k] + s[k + 1..]
  }

  /** Removing index k does not depend on what index k held. */
  lemma RemoveAtUpdated<T>(s: seq<T>, k: nat, v: T)
    requires k < |s|
    ensures RemoveAt(s[k := v], k) == RemoveAt(s, k)
  {
  }

  /** ClearOrder with removeIfEmpty removes exactly the order with that id and keeps
      every other order, in the same relative order. */
  lemma ClearRemovesExactly(os: seq<OrderView>, id: nat)
    requires UniqueOrderIds(os)
    requires FindOrder(os, id).Some?
    ensures forall o :: o in ClearSpec(os, id, true) <==> o in os && o.id != id
    ensures UniqueOrderIds(ClearSpec(os, id, true))
  {
    var k := FindOrder(os, id).value;
    var r := ClearSpec(os, id, true);
    forall o | o in os && o.id != id
      ensures o in r
    {
      var i :| 0 <= i < |os| && os[i] == o;
      assert r[if i < k then i else i - 1] == o;
    }
    forall o | o in r
      ensures o in os && o.id != id
    {
      var i :| 0 <= i < |r| && r[i] == o;
      assert o == os[if i < k then i else i + 1];
    }
  }

  /** Every operation but ClearOrder(removeIfEmpty: true) keeps the number of orders or adds one. */
  lemma OnlyClearShrinks(os: seq<OrderView>, id: nat, tent: string, freshId: nat, item: MenuItem, qty: int, s: OrderStatus)
    ensures |StartOrGetSpec(os, tent, freshId)| >= |os|
    ensures |AddItemSpec(os, id, item, qty)| == |os|
    ensures |SetStatusSpec(os, id, s)| == |os|
    ensures |ClearSpec(os, id, false)| == |os|
    ensures |ClearSpec(os, id, true)| < |os| <==> FindOrder(os, id).Some?
  {
  }

  /** The operations keep order ids unique and every order's lines well formed. */
  lemma OperationsKeepInvariants(os: seq<OrderView>, id: nat, item: MenuItem, qty: int, s: OrderStatus, removeIfEmpty: bool)
    requires UniqueOrderIds(os) && WellFormedLines(os)
    ensures UniqueOrderIds(AddItemSpec(os, id, item, qty)) && WellFormedLines(AddItemSpec(os, id, item, qty))
    ensures UniqueOrderIds(SetStatusSpec(os, id, s)) && WellFormedLines(SetStatusSpec(os, id, s))
    ensures UniqueOrderIds(ClearSpec(os, id, removeIfEmpty)) && WellFormedLines(ClearSpec(os, id, removeIfEmpty))
  {
    if FindOrder(os, id).Some? {
      var k := FindOrder(os, id).value;
      AddLineKeepsInvariant(os[k].lines, item, qty);
      if removeIfEmpty {
        ClearRemovesExactly(os, id);
        var r := ClearSpec(os, id, true);
        forall i | 0 <= i < |r|
          ensures UniqueIds(r[i].lines) && PositiveQty(r[i].lines)
        {
          assert r[i] in os;
        }
      }
    }
  }

  // ------------------------------------------------------------ service

  class OrdersService {
    var menu: seq<MenuItem>
    var orders: seq<Order>
    /** Source of fresh order ids, standing for Guid.NewGuid. */
    var nextId: nat
    /** The orders as values, index for index. */
    ghost var Orders: seq<OrderView>
    /** How many times OrdersChanged has been raised. */
    ghost var notifications: nat
    /** The service and its orders. */
    ghost var Repr: set<object>

    ghost predicate Valid()
      reads this`orders, this`Orders, this`nextId, this`Repr, Repr - {this}
    {
      && this in Repr
      && |Orders| == |orders|
      && (forall i :: 0 <= i < |orders| ==> orders[i] in Repr)
      && (forall i :: 0 <= i < |orders| ==> orders[i].Valid() && Orders[i] == orders[i].View())
      && (forall i :: 0 <= i < |orders| ==> orders[i].id < nextId)
      && (forall i, j :: 0 <= i < j < |orders| ==> orders[i].id != orders[j].id)
    }

    /** The values carry the objects' distinct ids. */
    lemma IdsUnique()
      requires Valid()
      ensures UniqueOrderIds(Orders)
    {
    }

    constructor ()
      ensures Valid() && fresh(Repr)
      ensures menu == SeedMenu() && Orders == [] && notifications == 0
    {
      menu := SeedMenu();
      orders := [];
      nextId := 0;
      Orders := [];
      notifications := 0;
      Repr := {this};
    }

    function FilterMenu(period: DayPeriod, cat: Option<MenuCategory>): seq<MenuItem>
      reads this
    {
      FilterMenuItems(menu, period, cat)
    }

    /** The first order with the given id, or null. */
    method GetById(id: nat) returns (o: Order?)
      requires Valid()
      ensures FindOrder(Orders, id).None? ==> o == null
      ensures FindOrder(Orders, id).Some? ==> o == orders[FindOrder(Orders, id).value]
    {
      var k := 0;
      while k < |orders|
        invariant 0 <= k <= |orders|
        invariant forall i :: 0 <= i < k ==> Orders[i].id != id
      {
        if orders[k].id == id {
          assert Orders[k].id == id;
          return orders[k];
        }
        k := k + 1;
      }
      return null;
    }

    method StartOrGetOpenOrder(tent: string) returns (o: Order)
      requires Valid()
      modifies this
      ensures Valid() && fresh(Repr - old(Repr))
      ensures Orders == StartOrGetSpec(old(Orders), tent, old(nextId))
      ensures FindOpenOrder(old(Orders), tent).Some? ==>
        o == orders[FindOpenOrder(old(Orders), tent).value] && notifications == old(notifications)
      ensures FindOpenOrder(old(Orders), tent).None? ==>
        fresh(o) && o == orders[|orders| - 1] && notifications == old(notifications) + 1
    {
      var k := 0;
      while k < |orders|
        invariant 0 <= k <= |orders|
        invariant forall i :: 0 <= i < k ==> !IsOpenFor(Orders[i], tent)
      {
        var cand := orders[k];
        if EqualsIgnoreCase(cand.tent, tent) && (cand.status == Open || cand.status == Preparing) {
          assert IsOpenFor(Orders[k], tent);
          return cand;
        }
        k := k + 1;
      }
      o := AppendOrder(tent);
      notifications := notifications + 1;
    }

    /** new Order { Tent = tent, Status = Open } added at the end of the list. */
    method AppendOrder(tent: string) returns (created: Order)
      requires Valid()
      modifies this
      ensures Valid() && fresh(Repr - old(Repr)) && fresh(created)
      ensures orders == old(orders) + [created]
      ensures Orders == old(Orders) + [OrderView(old(nextId), tent, Open, [])]
      ensures notifications == old(notifications)
    {
      created := new Order(nextId);
      created.tent := tent;
      created.status := Open;
      orders := orders + [created];
      Orders := Orders + [created.View()];
      nextId := nextId + 1;
      Repr := Repr + {created};
    }

    method AddItem(orderId: nat, item: MenuItem, qty: int)
      requires Valid()
      modifies Repr
      ensures Valid() && Repr == old(Repr)
      ensures Orders == AddItemSpec(old(Orders), orderId, item, qty)
      ensures notifications == old(notifications) + (if FindOrder(old(Orders), orderId).Some? then 1 else 0)
    {
      var order := GetById(orderId);
      if order == null {
        return;
      }
      ghost var k := FindOrder(Orders, orderId).value;
      AddLineTo(order, k, item, qty);
      if order.status == Open {
        SetStatusOf(order, k, Preparing);
      }
      notifications := notifications + 1;
    }

    /** order.AddItem(item, qty) for the order at index k. */
    method AddLineTo(order: Order, ghost k: nat, item: MenuItem, qty: int)
      requires Valid() && k < |orders| && orders[k] == order
      modifies this, order
      ensures Valid() && Repr == old(Repr) && orders == old(orders)
      ensures Orders == old(Orders)[k := old(Orders)[k].(lines := AddLine(old(Orders)[k].lines, item, qty))]
      ensures notifications == old(notifications)
    {
      assert forall i :: 0 <= i < |orders| && i != k ==> orders[i] != order;
      order.AddItem(item, qty);
      Orders := Orders[k := order.View()];
    }

    method PayOrder(id: nat)
      requires Valid()
      modifies Repr
      ensures Valid() && Repr == old(Repr)
      ensures Orders == SetStatusSpec(old(Orders), id, Paid)
      ensures notifications == old(notifications) + (if FindOrder(old(Orders), id).Some? then 1 else 0)
    {
      var o := GetById(id);
      if o == null {
        return;
      }
      SetStatusOf(o, FindOrder(Orders, id).value, Paid);
      notifications := notifications + 1;
    }

    method ChargeToTent(id: nat)
      requires Valid()
      modifies Repr
      ensures Valid() && Repr == old(Repr)
      ensures Orders == SetStatusSpec(old(Orders), id, Charged)
      ensures notifications == old(notifications) + (if FindOrder(old(Orders), id).Some? then 1 else 0)
    {
      var o := GetById(id);
      if o == null {
        return;
      }
      SetStatusOf(o, FindOrder(Orders, id).value, Charged);
      notifications := notifications + 1;
    }

    /** o.Status = s for the order at index k. */
    method SetStatusOf(o: Order, ghost k: nat, s: OrderStatus)
      requires Valid() && k < |orders| && orders[k] == o
      modifies this, o
      ensures Valid() && Repr == old(Repr)
      ensures Orders == old(Orders)[k := old(Orders)[k].(status := s)]
      ensures notifications == old(notifications)
    {
      assert forall i :: 0 <= i < |orders| && i != k ==> orders[i] != o;
      o.status := s;
      Orders := Orders[k := o.View()];
    }

    method ClearOrder(orderId: nat, removeIfEmpty: bool)
      requires Valid()
      modifies Repr
      ensures Valid() && Repr == old(Repr)
      ensures Orders == ClearSpec(old(Orders), orderId, removeIfEmpty)
      ensures notifications == old(notifications) + (if FindOrder(old(Orders), orderId).Some? then 1 else 0)
    {
      var order := GetById(orderId);
      if order == null {
        return;
      }
      ghost var k := FindOrder(Orders, orderId).value;
      ClearItems(order, k);
      if removeIfEmpty {
        RemoveOrder(order, k);
        RemoveAtUpdated(old(Orders), k, Cleared(old(Orders)[k]));
      }
      notifications := notifications + 1;
    }

    /** order.Items.Clear() and, unless settled, order.Status = Open, for the order at index k. */
    method ClearItems(order: Order, ghost k: nat)
      requires Valid() && k < |orders| && orders[k] == order
      modifies this, order
      ensures Valid() && Repr == old(Repr) && orders == old(orders)
      ensures Orders == old(Orders)[k := Cleared(old(Orders)[k])]
      ensures notifications == old(notifications)
    {
      assert forall i :: 0 <= i < |orders| && i != k ==> orders[i] != order;
      order.items := [];
      if order.status != Paid && order.status != Charged {
        order.status := Open;
      }
      Orders := Orders[k := order.View()];
    }

    /** _orders.Remove(order): drop the first element equal to `order`, which is index k. */
    method RemoveOrder(order: Order, ghost k: nat)
      requires Valid() && k < |orders| && orders[k] == order
      modifies this
      ensures Valid() && Repr == old(Repr)
      ensures orders == RemoveAt(old(orders), k)
      ensures Orders == RemoveAt(old(Orders), k)
      ensures notifications == old(notifications)
    {
      var j := 0;
      while orders[j] != order
        invariant 0 <= j <= k
        invariant forall i :: 0 <= i < j ==> orders[i] != order
        decreases k - j
      {
        j := j + 1;
      }
      assert Orders[j].id == Orders[k].id;
      orders := RemoveAt(orders, j);
      Orders := RemoveAt(Orders, j);
    }
  }
}
