/** The catering data model: menu items, order lines and orders.
    Prices are decimal euros in the application; here they are integer cents. */
module OrdersModels {
  import opened Common

  datatype DayPeriod = Breakfast | Lunch | Dinner | Anytime

  datatype MenuCategory = Coffee | Drink | Meal | Dessert | Snack

  datatype OrderStatus = Open | Preparing | Ready | Paid | Charged

  /** An immutable menu entry; `price` is in cents. */
  datatype MenuItem = MenuItem(id: string, name: string, category: MenuCategory, period: DayPeriod, price: int)

  /** One order line (OrderItem): a menu item and its quantity. */
  datatype Line = Line(item: MenuItem, qty: int)
  {
    /** Item.Price * Qty */
    function LineTotal(): int { item.price * qty }

    /** OrderItem.Add: the quantity never drops below 1. */
    function Add(q: int): (r: Line)
      ensures r.item == item
      ensures r.qty >= 1
      ensures qty + q >= 1 ==> r.qty == qty + q
      ensures qty + q < 1 ==> r.qty == 1
    {
      Line(item, MaxInt(1, qty + q))
    }
  }

  /** The OrderItem constructor: a quantity below 1 becomes 1. */
  function NewLine(item: MenuItem, qty: int): (r: Line)
    ensures r.item == item
    ensures r.qty >= 1
    ensures qty >= 1 ==> r.qty == qty
    ensures qty < 1 ==> r.qty == 1
  {
    Line(item, MaxInt(1, qty))
  }

  /** Items.Sum(i => i.LineTotal) */
  function LinesTotal(lines: seq<Line>): int
  {
    if lines == [] then 0 else LinesTotal(lines[..|lines| - 1]) + lines[|lines| - 1].LineTotal()
  }

  /** Index of the first line for menu item `id`, as Items.FirstOrDefault(x => x.Item.Id == id) finds it. */
  function FindLine(lines: seq<Line>, id: string): (r: Option<nat>)
    ensures r.None? <==> forall i :: 0 <= i < |lines| ==> lines[i].item.id != id
    ensures r.Some? ==> r.value < |lines| && lines[r.value].item.id == id
    ensures r.Some? ==> forall i :: 0 <= i < r.value ==> lines[i].item.id != id
  {
    if lines == [] then None
    else if lines[0].item.id == id then Some(0)
    else match FindLine(lines[1..], id)
      case None => None
      case Some(k) => Some(k + 1)
  }

  /** The effect of Order.AddItem on the order's lines: bump the quantity of the
      existing line for that menu item (keeping that line's own item), or append a new line. */
  function AddLine(lines: seq<Line>, item: MenuItem, qty: int): seq<Line>
  {
    match FindLine(lines, item.id)
    case None => lines + [NewLine(item, qty)]
    case Some(k) => lines[k := lines[k].Add(qty)]
  }

  /** At most one line per menu-item id. */
  ghost predicate UniqueIds(lines: seq<Line>)
  {
    forall i, j :: 0 <= i < j < |lines| ==> lines[i].item.id != lines[j].item.id
  }

  ghost predicate PositiveQty(lines: seq<Line>)
  {
    forall i :: 0 <= i < |lines| ==> lines[i].qty >= 1
  }

  /** Adding keeps one line per item id and every quantity at least 1. */
  lemma AddLineKeepsInvariant(lines: seq<Line>, item: MenuItem, qty: int)
    requires UniqueIds(lines) && PositiveQty(lines)
    ensures UniqueIds(AddLine(lines, item, qty)) && PositiveQty(AddLine(lines, item, qty))
  {
    var r := AddLine(lines, item, qty);
    match FindLine(lines, item.id)
    case None =>
      assert r == lines + [NewLine(item, qty)];
    case Some(k) =>
      assert forall i :: 0 <= i < |r| ==> r[i].item == lines[i].item;
  }

  /** For an item id already present, only that line's quantity changes. */
  lemma AddLineExisting(lines: seq<Line>, item: MenuItem, qty: int, k: nat)
    requires UniqueIds(lines)
    requires k < |lines| && lines[k].item.id == item.id
    ensures |AddLine(lines, item, qty)| == |lines|
    ensures AddLine(lines, item, qty)[k] == lines[k].Add(qty)
    ensures forall i :: 0 <= i < |lines| && i != k ==> AddLine(lines, item, qty)[i] == lines[i]
  {
    var f := FindLine(lines, item.id);
    assert f.Some?;
  }

  /** For a new item id, exactly one line is appended at the end and the others are kept. */
  lemma AddLineNew(lines: seq<Line>, item: MenuItem, qty: int)
    requires forall i :: 0 <= i < |lines| ==> lines[i].item.id != item.id
    ensures AddLine(lines, item, qty) == lines + [NewLine(item, qty)]
    ensures |AddLine(lines, item, qty)| == |lines| + 1
  {
  }

  lemma {:induction false} LinesTotalAppend(lines: seq<Line>, l: Line)
    ensures LinesTotal(lines + [l]) == LinesTotal(lines) + l.LineTotal()
  {
    assert (lines + [l])[..|lines + [l]| - 1] == lines;
  }

  /** Replacing one line changes the total by exactly the difference of the two line totals. */
  lemma {:induction false} LinesTotalUpdate(lines: seq<Line>, k: nat, l: Line)
    requires k < |lines|
    ensures LinesTotal(lines[k := l]) == LinesTotal(lines) - lines[k].LineTotal() + l.LineTotal()
    decreases |lines|
  {
    var n := |lines| - 1;
    var upd := lines[k := l];
    if k == n {
      assert upd[..n] == lines[..n];
    } else {
      assert upd[..n] == lines[..n][k := l];
      LinesTotalUpdate(lines[..n], k, l);
    }
  }

  /** Order.Total after AddItem: grows by the item price times the quantity actually added. */
  lemma TotalAfterAddLine(lines: seq<Line>, item: MenuItem, qty: int)
    ensures FindLine(lines, item.id).None? ==>
      LinesTotal(AddLine(lines, item, qty)) == LinesTotal(lines) + item.price * MaxInt(1, qty)
    ensures FindLine(lines, item.id).Some? ==>
      var k := FindLine(lines, item.id).value;
      LinesTotal(AddLine(lines, item, qty))
        == LinesTotal(lines) + lines[k].item.price * (MaxInt(1, lines[k].qty + qty) - lines[k].qty)
  {
    match FindLine(lines, item.id)
    case None =>
      LinesTotalAppend(lines, NewLine(item, qty));
    case Some(k) =>
      var l := lines[k].Add(qty);
      LinesTotalUpdate(lines, k, l);
      assert l.LineTotal() - lines[k].LineTotal()
          == lines[k].item.price * (MaxInt(1, lines[k].qty + qty) - lines[k].qty);
  }

  /** With non-negative prices and positive quantities, a total is never negative;
      an order without lines totals 0. */
  lemma {:induction false} TotalNonNegative(lines: seq<Line>)
    requires PositiveQty(lines)
    requires forall i :: 0 <= i < |lines| ==> lines[i].item.price >= 0
    ensures LinesTotal(lines) >= 0
    ensures lines == [] ==> LinesTotal(lines) == 0
  {
    if lines != [] {
      TotalNonNegative(lines[..|lines| - 1]);
      var last := lines[|lines| - 1];
      assert last.qty >= 1 && last.item.price >= 0;
      assert last.LineTotal() >= 0 by {
        assert last.item.price * last.qty >= 0;
      }
    }
  }

  /** The value of an order: what the service's abstract state holds for it. */
  datatype OrderView = OrderView(id: nat, tent: string, status: OrderStatus, lines: seq<Line>)

  /** An order for a tent: status, lines, and the identity that Guid.NewGuid gives it. */
  class Order {
    const id: nat
    var tent: string
    var status: OrderStatus
    var items: seq<Line>

    ghost predicate Valid()
      reads this`items
    {
      UniqueIds(items) && PositiveQty(items)
    }

    /** Items.Sum(i => i.LineTotal) */
    function Total(): int
      reads this`items
    {
      LinesTotal(items)
    }

    ghost function View(): OrderView
      reads this
    {
      OrderView(id, tent, status, items)
    }

    /** A fresh order: tent "A1", status Open, no lines. */
    constructor (id: nat)
      ensures Valid()
      ensures View() == OrderView(id, "A1", Open, [])
    {
      this.id := id;
      tent := "A1";
      status := Open;
      items := [];
    }

    method AddItem(item: MenuItem, qty: int)
      requires Valid()
      modifies this
      ensures Valid()
      ensures items == AddLine(old(items), item, qty)
      ensures tent == old(tent) && status == old(status)
    {
      AddLineKeepsInvariant(items, item, qty);
      var k := 0;
      while k < |items| && items[k].item.id != item.id
        invariant 0 <= k <= |items|
        invariant forall i :: 0 <= i < k ==> items[i].item.id != item.id
      {
        k := k + 1;
      }
      if k == |items| {
        items := items + [NewLine(item, qty)];
      } else {
        assert FindLine(items, item.id) == Some(k);
        items := items[k := items[k].Add(qty)];
      }
    }
  }
}
