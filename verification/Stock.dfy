/** The commit-intent worker's stock draw: one locked row at a time, all or nothing. */
module Stock {
  import opened Amounts

  type Shelf = map<nat, int>

  /** The uncommitted product updates of one transaction, and whether an error was collected. */
  datatype Draft = Draft(writes: Shelf, failed: bool)

  function Pids(items: seq<Item>): set<nat> {
    set it | it in items :: it.pid
  }

  ghost predicate Stocked(stock: Shelf, items: seq<Item>) {
    Pids(items) <= stock.Keys
  }

  ghost predicate Distinct(items: seq<Item>) {
    forall i, j :: 0 <= i < j < |items| ==> items[i].pid != items[j].pid
  }

  /** How much of one product a list of lines asks for in all. */
  function Demand(items: seq<Item>, pid: nat): nat {
    if items == [] then 0
    else
      var it := items[|items| - 1];
      Demand(items[..|items| - 1], pid) + if it.pid == pid then it.qty else 0
  }

  /** A row as the transaction reads it: its own write if there is one. */
  function Current(stock: Shelf, writes: Shelf, pid: nat): int
    requires pid in stock
  {
    if pid in writes then writes[pid] else stock[pid]
  }

  function DrawRow(stock: Shelf, d: Draft, it: Item): Draft
    requires it.pid in stock
  {
    var cur := Current(stock, d.writes, it.pid);
    if cur < it.qty then d.(failed := true) else d.(writes := d.writes[it.pid := cur - it.qty])
  }

  ghost function DrawRows(stock: Shelf, items: seq<Item>): Draft
    requires Stocked(stock, items)
  {
    if items == [] then Draft(map[], false)
    else
      var n := |items| - 1;
      PidsSnoc(items);
      DrawRow(stock, DrawRows(stock, items[..n]), items[n])
  }

  ghost predicate Covers(stock: Shelf, items: seq<Item>) {
    Stocked(stock, items) && forall pid :: pid in Pids(items) ==> Demand(items, pid) <= stock[pid]
  }

  lemma PidsSnoc(items: seq<Item>)
    requires items != []
    ensures Pids(items) == Pids(items[..|items| - 1]) + {items[|items| - 1].pid}
  {
    var n := |items| - 1;
    assert items == items[..n] + [items[n]];
    forall it | it in items ensures it in items[..n] || it == items[n] {}
  }

  lemma PidsPrefix(items: seq<Item>, k: nat)
    requires k < |items|
    ensures items[..k + 1][..k] == items[..k]
    ensures Pids(items[..k + 1]) == Pids(items[..k]) + {items[k].pid}
    ensures Pids(items[..k + 1]) <= Pids(items)
  {
    assert items[..k + 1][..k] == items[..k];
    PidsSnoc(items[..k + 1]);
    forall it | it in items[..k + 1] ensures it in items {}
  }

  lemma {:induction false} DemandZero(items: seq<Item>, pid: nat)
    requires pid !in Pids(items)
    ensures Demand(items, pid) == 0
  {
    if items != [] {
      PidsSnoc(items);
      DemandZero(items[..|items| - 1], pid);
    }
  }

  /** With no product listed twice, a product's demand is its one line's quantity. */
  lemma {:induction false} DemandOfLine(items: seq<Item>, k: nat)
    requires Distinct(items) && k < |items|
    ensures Demand(items, items[k].pid) == items[k].qty
  {
    var n := |items| - 1;
    if k < n {
      DemandOfLine(items[..n], k);
    } else {
      forall it | it in items[..n] ensures it.pid != items[n].pid {}
      DemandZero(items[..n], items[n].pid);
    }
  }

  /** The draft after any list of lines: exact subtraction while nothing failed, and a failure always has a culprit. */
  lemma {:induction false} DrawRowsExact(stock: Shelf, items: seq<Item>)
    requires Stocked(stock, items)
    ensures var d := DrawRows(stock, items);
            && d.writes.Keys <= Pids(items)
            && (!d.failed ==> d.writes.Keys == Pids(items))
            && (!d.failed ==> forall pid :: pid in Pids(items) ==> 0 <= d.writes[pid] == stock[pid] - Demand(items, pid))
    ensures DrawRows(stock, items).failed <==> !Covers(stock, items)
  {
    if items != [] {
      var n := |items| - 1;
      PidsSnoc(items);
      DrawRowsExact(stock, items[..n]);
      var d0 := DrawRows(stock, items[..n]);
      var it := items[n];
      if it.pid !in Pids(items[..n]) {
        DemandZero(items[..n], it.pid);
      }
      if d0.failed {
        var pid :| pid in Pids(items[..n]) && Demand(items[..n], pid) > stock[pid];
        assert Demand(items, pid) > stock[pid];
      } else if Current(stock, d0.writes, it.pid) < it.qty {
        assert Demand(items, it.pid) > stock[it.pid];
      }
    }
  }

  /** Only the rows of the listed products matter. */
  lemma {:induction false} DrawRowsFrame(stock: Shelf, other: Shelf, items: seq<Item>)
    requires Stocked(stock, items) && Stocked(other, items)
    requires forall pid :: pid in Pids(items) ==> stock[pid] == other[pid]
    ensures DrawRows(stock, items) == DrawRows(other, items)
  {
    if items != [] {
      PidsSnoc(items);
      DrawRowsFrame(stock, other, items[..|items| - 1]);
    }
  }

  /** The products found short, in the order of the lines. */
  ghost function ErrorsOf(stock: Shelf, items: seq<Item>): seq<nat>
    requires Stocked(stock, items)
  {
    if items == [] then []
    else
      var n := |items| - 1;
      PidsSnoc(items);
      var before := ErrorsOf(stock, items[..n]);
      if Current(stock, DrawRows(stock, items[..n]).writes, items[n].pid) < items[n].qty then before + [items[n].pid] else before
  }

  lemma OneLineMore(stock: Shelf, items: seq<Item>, k: nat)
    requires k < |items| && Stocked(stock, items[..k]) && items[k].pid in stock
    ensures Stocked(stock, items[..k + 1])
    ensures DrawRows(stock, items[..k + 1]) == DrawRow(stock, DrawRows(stock, items[..k]), items[k])
    ensures ErrorsOf(stock, items[..k + 1]) ==
            if Current(stock, DrawRows(stock, items[..k]).writes, items[k].pid) < items[k].qty
            then ErrorsOf(stock, items[..k]) + [items[k].pid] else ErrorsOf(stock, items[..k])
  {
    PidsPrefix(items, k);
  }

  /** What a row has left is its stock less the demand so far, unless a line was too much for it. */
  ghost predicate LeftOf(stock: Shelf, items: seq<Item>, pid: nat)
    requires Stocked(stock, items) && pid in stock
  {
    var left := Current(stock, DrawRows(stock, items).writes, pid);
    if pid in ErrorsOf(stock, items) then stock[pid] - Demand(items, pid) < 0 && left >= stock[pid] - Demand(items, pid)
    else left == stock[pid] - Demand(items, pid) && (pid in Pids(items) ==> left >= 0)
  }

  lemma {:induction false} ErrorsExact(stock: Shelf, items: seq<Item>, pid: nat)
    requires Stocked(stock, items) && pid in stock
    ensures LeftOf(stock, items, pid)
  {
    if items != [] {
      var n := |items| - 1;
      PidsSnoc(items);
      ErrorsExact(stock, items[..n], pid);
      if pid !in Pids(items[..n]) {
        DemandZero(items[..n], pid);
      }
    }
  }

  lemma {:induction false} ErrorsAreLines(stock: Shelf, items: seq<Item>)
    requires Stocked(stock, items)
    ensures forall pid :: pid in ErrorsOf(stock, items) ==> pid in Pids(items)
    ensures DrawRows(stock, items).failed <==> ErrorsOf(stock, items) != []
  {
    if items != [] {
      PidsSnoc(items);
      ErrorsAreLines(stock, items[..|items| - 1]);
    }
  }

  /** The collected errors are exactly the products whose demand exceeds their stock, and without any the draft is the draw. */
  lemma ErrorsDecide(stock: Shelf, items: seq<Item>)
    requires Stocked(stock, items)
    ensures ErrorsOf(stock, items) == [] <==> Covers(stock, items)
    ensures ErrorsOf(stock, items) == [] ==> Drawn(stock, items, stock + DrawRows(stock, items).writes)
    ensures forall pid :: pid in Pids(items) ==> (pid in ErrorsOf(stock, items) <==> Demand(items, pid) > stock[pid])
  {
    DrawRowsExact(stock, items);
    ErrorsAreLines(stock, items);
    forall pid | pid in Pids(items) ensures pid in ErrorsOf(stock, items) <==> Demand(items, pid) > stock[pid] {
      ErrorsExact(stock, items, pid);
    }
    forall pid | pid in stock && pid !in Pids(items) ensures Demand(items, pid) == 0 {
      DemandZero(items, pid);
    }
  }

  /** Every product lowered by exactly what the lines ask of it. */
  ghost predicate Drawn(before: Shelf, items: seq<Item>, after: Shelf) {
    after.Keys == before.Keys && forall pid :: pid in before ==> after[pid] == before[pid] - Demand(items, pid)
  }

  datatype Outcome = Committed | MissingProduct(pid: nat) | Insufficient(errors: seq<nat>)

  class ProductTable {
    var stock: Shelf

    constructor (rows: Shelf)
      ensures stock == rows
    {
      stock := rows;
    }

    /** The worker's second transaction on the product rows. */
    method Draw(items: seq<Item>) returns (r: Outcome)
      modifies this
      ensures r.Committed? <==> Covers(old(stock), items)
      ensures r.Committed? ==> Drawn(old(stock), items, stock)
      ensures !r.Committed? ==> stock == old(stock)
      ensures r.MissingProduct? ==> r.pid in Pids(items) && r.pid !in stock
      ensures r.MissingProduct? <==> !Stocked(old(stock), items)
      ensures r.Insufficient? ==> r.errors != [] && Stocked(old(stock), items)
      ensures r.Insufficient? ==> forall pid :: pid in Pids(items) ==> (pid in r.errors <==> Demand(items, pid) > old(stock)[pid])
    {
      var writes: Shelf := map[];
      var errors: seq<nat> := [];
      for i := 0 to |items|
        invariant stock == old(stock)
        invariant Stocked(stock, items[..i])
        invariant errors == ErrorsOf(stock, items[..i]) && writes == DrawRows(stock, items[..i]).writes
      {
        var pid, qty := items[i].pid, items[i].qty;
        if pid !in stock {
          assert items[i] in items;
          assert pid in Pids(items);
          return MissingProduct(pid);
        }
        OneLineMore(stock, items, i);
        var have := Current(stock, writes, pid);
        if have < qty {
          errors := errors + [pid];
          continue;
        }
        writes := writes[pid := have - qty];
      }
      assert items[..|items|] == items;
      ErrorsDecide(stock, items);
      if errors != [] {
        return Insufficient(errors);
      }
      stock := stock + writes;
      return Committed;
    }
  }
}
