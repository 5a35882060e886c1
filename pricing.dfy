/**
 * Order totals shared by the cart and the checkout screens: a subtotal summed
 * over the line items, a flat shipping charge, a 10% tax and their sum.
 * Money is an exact `real`.
 */
module Pricing {

  import Seqs

  /** One line of a cart: a product, its unit price and how many of it. */
  datatype LineItem = LineItem(id: int, name: string, price: real, quantity: int)

  /** The fixed shipping charge. */
  const Shipping: real := 10.0

  /** The tax rate applied to the subtotal. */
  const TaxRate: real := 0.1

  datatype OrderTotals = OrderTotals(subtotal: real, shipping: real, tax: real, total: real)

  function LineAmount(item: LineItem): real
  {
    item.price * (item.quantity as real)
  }

  /** `items.reduce((sum, item) => sum + item.price * item.quantity, 0)`: a fold from the left. */
  function Subtotal(items: seq<LineItem>): (r: real)
    ensures (forall i :: 0 <= i < |items| ==> items[i].quantity == 0) ==> r == 0.0
  {
    if items == [] then 0.0 else Subtotal(items[..|items| - 1]) + LineAmount(items[|items| - 1])
  }

  /** Every price and every quantity is non-negative. */
  predicate NonNegative(items: seq<LineItem>)
  {
    forall i :: 0 <= i < |items| ==> items[i].price >= 0.0 && items[i].quantity >= 0
  }

  function ComputeTotals(items: seq<LineItem>): (t: OrderTotals)
    ensures t.subtotal == Subtotal(items) && t.shipping == Shipping
    ensures t.total == t.subtotal + t.shipping + t.tax
    ensures t.total == Shipping + t.subtotal * (1.0 + TaxRate)
    ensures NonNegative(items) ==> t.tax >= 0.0 && t.total >= Shipping + t.subtotal
  {
    var subtotal := Subtotal(items);
    SubtotalNonNegative(items);
    OrderTotals(subtotal, Shipping, subtotal * TaxRate, subtotal + Shipping + subtotal * TaxRate)
  }

  /** The subtotal of a concatenation is the sum of the subtotals: the order of the fold does not matter. */
  lemma {:induction false} SubtotalAppend(a: seq<LineItem>, b: seq<LineItem>)
    ensures Subtotal(a + b) == Subtotal(a) + Subtotal(b)
  {
    if b == [] {
      assert a + b == a;
    } else {
      var b' := b[..|b| - 1];
      assert (a + b)[..|a + b| - 1] == a + b';
      SubtotalAppend(a, b');
    }
  }

  /** Summing from the front gives the same subtotal. */
  lemma SubtotalCons(x: LineItem, s: seq<LineItem>)
    ensures Subtotal([x] + s) == LineAmount(x) + Subtotal(s)
  {
    SubtotalAppend([x], s);
    assert [x][..0] == [];
  }

  /** With non-negative prices and quantities the subtotal is non-negative. */
  lemma {:induction false} SubtotalNonNegative(items: seq<LineItem>)
    ensures NonNegative(items) ==> Subtotal(items) >= 0.0
  {
    if items != [] && NonNegative(items) {
      SubtotalNonNegative(items[..|items| - 1]);
      var last := items[|items| - 1];
      assert last.price * (last.quantity as real) >= 0.0;
    }
  }

  /** The subtotal splits over the items a predicate keeps and those it drops. */
  lemma {:induction false} SubtotalPartition(items: seq<LineItem>, keep: LineItem -> bool, drop: LineItem -> bool)
    requires forall x :: drop(x) == !keep(x)
    ensures Subtotal(items) == Subtotal(Seqs.Filter(items, keep)) + Subtotal(Seqs.Filter(items, drop))
  {
    if items != [] {
      var x, rest := items[0], items[1..];
      SubtotalPartition(rest, keep, drop);
      assert items == [x] + rest;
      SubtotalCons(x, rest);
      var kept, dropped := Seqs.Filter(rest, keep), Seqs.Filter(rest, drop);
      if keep(x) {
        assert Seqs.Filter(items, keep) == [x] + kept;
        assert Seqs.Filter(items, drop) == dropped;
        SubtotalCons(x, kept);
      } else {
        assert Seqs.Filter(items, keep) == kept;
        assert Seqs.Filter(items, drop) == [x] + dropped;
        SubtotalCons(x, dropped);
      }
    }
  }

}
