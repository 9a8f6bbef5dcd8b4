/** Order totals and the tax snapshots stored with each order line. */
module Amounts {

  /** One cart line: the product, the quantity and the base price read with the product row. */
  datatype Item = Item(pid: nat, qty: nat, price: nat)

  datatype PayMethod = Upi | Cod

  datatype Totals = Totals(subtotal: nat, tax: nat, shipping: nat, codFee: nat, discount: nat, total: int)

  function Line(it: Item): nat {
    it.price * it.qty
  }

  /** Two per cent, rounded down. */
  function Tax(amount: nat): nat {
    amount / 50
  }

  function Subtotal(items: seq<Item>): nat {
    if items == [] then 0 else Subtotal(items[..|items| - 1]) + Line(items[|items| - 1])
  }

  /** The sum of the per-line tax snapshots written with the order items. */
  function TaxSnapshots(items: seq<Item>): nat {
    if items == [] then 0 else TaxSnapshots(items[..|items| - 1]) + Tax(Line(items[|items| - 1]))
  }

  function FinalTotals(items: seq<Item>, how: PayMethod): Totals {
    var fee := if how == Cod then 50 else 0;
    var sub := Subtotal(items);
    Totals(sub, Tax(sub), 0, fee, 0, sub + Tax(sub) + fee)
  }

  /** compute_order_totals, the totals shown with the summary. */
  function SummaryTotals(items: seq<Item>, how: PayMethod): Totals {
    var fee := if how == Cod then 50 else 0;
    var sub := Subtotal(items);
    Totals(sub, Tax(sub), 50, fee, 0, sub + Tax(sub) + 50 + fee)
  }

  predicate Balanced(t: Totals) {
    t.total == t.subtotal + t.tax + t.shipping + t.codFee - t.discount
  }

  /** compute_final_total: the accumulating loop and the fixed charges. */
  method ComputeFinalTotal(items: seq<Item>, how: PayMethod) returns (t: Totals)
    ensures t == FinalTotals(items, how)
    ensures Balanced(t) && 50 * t.tax <= t.subtotal < 50 * t.tax + 50
    ensures t.shipping == 0 && t.discount == 0 && t.codFee == if how == Cod then 50 else 0
  {
    var subtotal: nat := 0;
    for i := 0 to |items|
      invariant subtotal == Subtotal(items[..i])
    {
      assert items[..i + 1][..i] == items[..i];
      subtotal := subtotal + items[i].price * items[i].qty;
    }
    assert items[..|items|] == items;
    var tax := subtotal / 50;
    var shipping, discount := 0, 0;
    var codFee := if how == Cod then 50 else 0;
    t := Totals(subtotal, tax, shipping, codFee, discount, subtotal + tax + shipping + codFee - discount);
  }

  /** A line counts with its price for every piece of it. */
  lemma SubtotalMeaning(items: seq<Item>, it: Item)
    ensures Subtotal([]) == 0 && TaxSnapshots([]) == 0
    ensures Subtotal(items + [it]) == Subtotal(items) + it.price * it.qty
    ensures TaxSnapshots(items + [it]) == TaxSnapshots(items) + it.price * it.qty / 50
  {
    assert (items + [it])[..|items|] == items;
  }

  function WithMore(items: seq<Item>, k: nat, d: nat): seq<Item>
    requires k < |items|
  {
    items[k := items[k].(qty := items[k].qty + d)]
  }

  /** d more pieces of one line, whichever it is, cost d times its price. */
  lemma {:induction false} MorePieces(items: seq<Item>, k: nat, d: nat)
    requires k < |items|
    ensures Subtotal(WithMore(items, k, d)) == Subtotal(items) + items[k].price * d
  {
    var n, more := |items| - 1, WithMore(items, k, d);
    if k < n {
      MorePieces(items[..n], k, d);
      assert more[..n] == WithMore(items[..n], k, d);
    } else {
      assert more[..n] == items[..n];
    }
  }

  /** The quote is the same for cash but for the fee of 50, its parts add up, and its tax is the two per cent of the
      subtotal that the line snapshots may fall short of by rounding only. */
  lemma QuoteMeaning(items: seq<Item>, it: Item, how: PayMethod)
    ensures var upi := SummaryTotals(items, Upi);
            SummaryTotals(items, Cod) == upi.(codFee := 50, total := upi.total + 50)
    ensures var t := SummaryTotals(items, how);
            && Balanced(t) && t.shipping == 50 && t.discount == 0 && t.codFee == (if how == Cod then 50 else 0)
            && t.subtotal == Subtotal(items) && 50 * t.tax <= t.subtotal < 50 * t.tax + 50
            && TaxSnapshots(items) <= t.tax <= TaxSnapshots(items) + 49 * |items| / 50
    ensures SummaryTotals(items + [it], how).subtotal == SummaryTotals(items, how).subtotal + it.price * it.qty
  {
    TaxRounding(items);
    SubtotalMeaning(items, it);
  }

  /** Rounding each line down loses at most 49 fiftieths of a unit a line: the order tax exceeds the snapshots by at most
      49 n / 50, which is n - 1 for up to 50 lines and less beyond. */
  lemma {:induction false} TaxRounding(items: seq<Item>)
    ensures TaxSnapshots(items) <= Tax(Subtotal(items)) <= TaxSnapshots(items) + 49 * |items| / 50
    ensures |items| >= 1 ==> Tax(Subtotal(items)) <= TaxSnapshots(items) + |items| - 1
  {
    TaxLoss(items);
  }

  lemma {:induction false} TaxLoss(items: seq<Item>)
    ensures 50 * TaxSnapshots(items) <= Subtotal(items) <= 50 * TaxSnapshots(items) + 49 * |items|
  {
    if items != [] {
      TaxLoss(items[..|items| - 1]);
    }
  }

  /** n lines of 49 each lose all there is to lose. */
  lemma {:induction false} TaxRoundingReached(n: nat)
    ensures var items := seq(n, i => Item(0, 1, 49));
            TaxSnapshots(items) == 0 && Tax(Subtotal(items)) == 49 * n / 50 && Subtotal(items) == 49 * n
  {
    var items := seq(n, i => Item(0, 1, 49));
    if n > 0 {
      TaxRoundingReached(n - 1);
      assert items[..n - 1] == seq(n - 1, i => Item(0, 1, 49));
    }
  }
}
