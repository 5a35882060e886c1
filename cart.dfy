/**
 * The shopping-cart screen: a list of line items whose quantities are changed
 * with "-" / "+" buttons and whose lines are removed with a trash button, and
 * the order totals derived from the list.
 */
module Cart {

  import opened Pricing
  import Seqs

  /** Every line has a quantity of at least 1. */
  predicate QuantitiesPositive(items: seq<LineItem>)
  {
    forall i :: 0 <= i < |items| ==> items[i].quantity >= 1
  }

  /** The list with quantity `q` on every line whose id is `id` (the `items.map(...)` of the update). */
  function SetQuantity(items: seq<LineItem>, id: int, q: int): (r: seq<LineItem>)
    ensures |r| == |items|
    ensures forall i :: 0 <= i < |items| && items[i].id == id ==> r[i] == items[i].(quantity := q)
    ensures forall i :: 0 <= i < |items| && items[i].id != id ==> r[i] == items[i]
  {
    if items == [] then []
    else [if items[0].id == id then items[0].(quantity := q) else items[0]] + SetQuantity(items[1..], id, q)
  }

  /** The list after `updateQuantity(id, newQuantity)`: a quantity below 1 is refused. */
  function AfterUpdateQuantity(items: seq<LineItem>, id: int, newQuantity: int): (r: seq<LineItem>)
    ensures newQuantity < 1 ==> r == items
    ensures newQuantity >= 1 ==> r == SetQuantity(items, id, newQuantity)
    ensures QuantitiesPositive(items) ==> QuantitiesPositive(r)
  {
    if newQuantity < 1 then items else SetQuantity(items, id, newQuantity)
  }

  /** The list after `removeItem(id)`: the lines whose id differs, in their original order. */
  function WithoutId(items: seq<LineItem>, id: int): (r: seq<LineItem>)
    ensures forall i :: 0 <= i < |r| ==> r[i] in items && r[i].id != id
    ensures forall i :: 0 <= i < |items| && items[i].id != id ==> items[i] in r
    ensures forall x :: multiset(r)[x] == if x.id != id then multiset(items)[x] else 0
    ensures Seqs.IsSubsequence(r, items)
    ensures |r| <= |items|
    ensures QuantitiesPositive(items) ==> QuantitiesPositive(r)
  {
    Seqs.FilterIsSubsequence(items, (x: LineItem) => x.id != id);
    forall x { Seqs.FilterCount(items, (y: LineItem) => y.id != id, x); }
    Seqs.Filter(items, (x: LineItem) => x.id != id)
  }

  /** Setting a quantity on an id that no line has changes nothing. */
  lemma UpdateAbsentIdUnchanged(items: seq<LineItem>, id: int, q: int)
    requires forall i :: 0 <= i < |items| ==> items[i].id != id
    ensures AfterUpdateQuantity(items, id, q) == items
  {
    if q >= 1 {
      assert SetQuantity(items, id, q) == items;
    }
  }

  /** Removing an id no line has changes nothing. */
  lemma RemoveAbsentIdUnchanged(items: seq<LineItem>, id: int)
    requires forall i :: 0 <= i < |items| ==> items[i].id != id
    ensures WithoutId(items, id) == items
  {
    Seqs.FilterKeepsAll(items, (x: LineItem) => x.id != id);
  }

  /** Removing the same id twice is removing it once. */
  lemma RemoveIdempotent(items: seq<LineItem>, id: int)
    ensures WithoutId(WithoutId(items, id), id) == WithoutId(items, id)
  {
    Seqs.FilterIdempotent(items, (x: LineItem) => x.id != id);
  }

  /** A removal takes away from the subtotal exactly the amount of the removed lines. */
  lemma SubtotalAfterRemove(items: seq<LineItem>, id: int)
    ensures Subtotal(items) == Subtotal(WithoutId(items, id)) + Subtotal(Seqs.Filter(items, (x: LineItem) => x.id == id))
  {
    SubtotalPartition(items, (x: LineItem) => x.id != id, (x: LineItem) => x.id == id);
  }

  /** Replacing one line changes the subtotal by the difference of the two line amounts. */
  lemma {:induction false} SubtotalReplace(items: seq<LineItem>, k: nat, y: LineItem)
    requires k < |items|
    ensures Subtotal(items[k := y]) == Subtotal(items) - LineAmount(items[k]) + LineAmount(y)
  {
    var n := |items|;
    var r := items[k := y];
    if k < n - 1 {
      assert r[..n - 1] == items[..n - 1][k := y];
      SubtotalReplace(items[..n - 1], k, y);
    } else {
      assert r[..n - 1] == items[..n - 1];
    }
  }

  /** When exactly one line has the id, setting its quantity replaces that line alone. */
  lemma SetQuantityAtUniqueId(items: seq<LineItem>, k: nat, q: int)
    requires k < |items|
    requires forall j :: 0 <= j < |items| && j != k ==> items[j].id != items[k].id
    ensures SetQuantity(items, items[k].id, q) == items[k := items[k].(quantity := q)]
  {
  }

  /** Changing the quantity of line `k` moves the subtotal by price × (new - old quantity). */
  lemma SubtotalAfterQuantityChange(items: seq<LineItem>, k: nat, q: int)
    requires k < |items|
    ensures Subtotal(items[k := items[k].(quantity := q)])
         == Subtotal(items) + items[k].price * ((q - items[k].quantity) as real)
  {
    var it := items[k];
    SubtotalReplace(items, k, it.(quantity := q));
    assert it.price * (q as real - it.quantity as real) == it.price * (q as real) - it.price * (it.quantity as real);
  }

  /** When exactly one line has the id, an accepted update moves the subtotal by price × (new - old quantity). */
  lemma SubtotalAfterUpdate(items: seq<LineItem>, k: nat, q: int)
    requires k < |items| && q >= 1
    requires forall j :: 0 <= j < |items| && j != k ==> items[j].id != items[k].id
    ensures Subtotal(AfterUpdateQuantity(items, items[k].id, q))
         == Subtotal(items) + items[k].price * ((q - items[k].quantity) as real)
  {
    SetQuantityAtUniqueId(items, k, q);
    SubtotalAfterQuantityChange(items, k, q);
  }

  /** A click on one of the row buttons of the cart; `row` is the line's position on screen. */
  datatype Click = Minus(row: nat) | Plus(row: nat) | Trash(row: nat)

  /** The list after a click: "-" and "+" ask for the displayed quantity minus or plus one. */
  function AfterClick(items: seq<LineItem>, c: Click): (r: seq<LineItem>)
    ensures |r| <= |items|
    ensures QuantitiesPositive(items) ==> QuantitiesPositive(r)
  {
    if c.row >= |items| then items
    else
      var item := items[c.row];
      match c
      case Minus(_) => AfterUpdateQuantity(items, item.id, item.quantity - 1)
      case Plus(_) => AfterUpdateQuantity(items, item.id, item.quantity + 1)
      case Trash(_) => WithoutId(items, item.id)
  }

  /** The list after a sequence of clicks; clicks never add lines. */
  function AfterClicks(items: seq<LineItem>, clicks: seq<Click>): (r: seq<LineItem>)
    ensures |r| <= |items|
    decreases |clicks|
  {
    if clicks == [] then items else AfterClicks(AfterClick(items, clicks[0]), clicks[1..])
  }

  /** From a cart whose quantities are all at least 1, no sequence of clicks brings one below 1. */
  lemma {:induction false} ClicksKeepQuantitiesPositive(items: seq<LineItem>, clicks: seq<Click>)
    requires QuantitiesPositive(items)
    ensures QuantitiesPositive(AfterClicks(items, clicks))
    decreases |clicks|
  {
    if clicks != [] {
      ClicksKeepQuantitiesPositive(AfterClick(items, clicks[0]), clicks[1..]);
    }
  }

  /** The cart page's `cartItems` state. */
  class ShoppingCart {

    var items: seq<LineItem>

    constructor (initial: seq<LineItem>)
      ensures items == initial
    {
      items := initial;
    }

    method UpdateQuantity(id: int, newQuantity: int)
      modifies this
      ensures items == AfterUpdateQuantity(old(items), id, newQuantity)
      ensures old(QuantitiesPositive(items)) ==> QuantitiesPositive(items)
    {
      if newQuantity < 1 {
        return;
      }
      items := SetQuantity(items, id, newQuantity);
    }

    method RemoveItem(id: int)
      modifies this
      ensures items == WithoutId(old(items), id)
      ensures old(QuantitiesPositive(items)) ==> QuantitiesPositive(items)
    {
      items := WithoutId(items, id);
    }

    /** The "-" button of row `row`. */
    method Decrement(row: nat)
      requires row < |items|
      modifies this
      ensures items == AfterClick(old(items), Minus(row))
    {
      UpdateQuantity(items[row].id, items[row].quantity - 1);
    }

    /** The "+" button of row `row`. */
    method Increment(row: nat)
      requires row < |items|
      modifies this
      ensures items == AfterClick(old(items), Plus(row))
    {
      UpdateQuantity(items[row].id, items[row].quantity + 1);
    }

    /** The trash button of row `row`. */
    method Remove(row: nat)
      requires row < |items|
      modifies this
      ensures items == AfterClick(old(items), Trash(row))
    {
      RemoveItem(items[row].id);
    }

    /** The totals shown in the order summary, recomputed from the current lines. */
    function Totals(): (t: OrderTotals)
      reads this
      ensures t.subtotal == Subtotal(items)
      ensures NonNegative(items) ==> t.total >= Shipping
    {
      ComputeTotals(items)
    }
  }

}
