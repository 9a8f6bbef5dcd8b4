/** Inventory reservations: the availability check and the conflict-ignoring insert. */
module Reservations {
  import opened Amounts
  import opened Stock

  /** A reservation row; the only status the running code ever writes is ACTIVE. */
  datatype Reservation = Reservation(pid: nat, cs: nat, qty: nat, until: int)

  /** The quantity of a product held by unexpired reservations, those of the released checkouts left out. */
  function Held(rows: seq<Reservation>, pid: nat, now: int, released: set<nat>): nat {
    if rows == [] then 0
    else
      var r := rows[|rows| - 1];
      Held(rows[..|rows| - 1], pid, now, released) +
      if r.pid == pid && r.until > now && r.cs !in released then r.qty else 0
  }

  predicate HasRow(rows: seq<Reservation>, pid: nat, cs: nat) {
    exists i :: 0 <= i < |rows| && rows[i].pid == pid && rows[i].cs == cs
  }

  /** The unique constraint on (product, checkout). */
  ghost predicate UniqueRows(rows: seq<Reservation>) {
    forall i, j :: 0 <= i < j < |rows| ==> rows[i].pid != rows[j].pid || rows[i].cs != rows[j].cs
  }

  /** INSERT ... ON CONFLICT (product, checkout) DO NOTHING, for every line. */
  function Reserve(rows: seq<Reservation>, items: seq<Item>, cs: nat, until: int): seq<Reservation> {
    if items == [] then rows
    else
      var done := Reserve(rows, items[..|items| - 1], cs, until);
      var it := items[|items| - 1];
      if HasRow(done, it.pid, cs) then done else done + [Reservation(it.pid, cs, it.qty, until)]
  }

  function Max0(x: int): nat {
    if x < 0 then 0 else x
  }

  /** items_avblty accepts exactly when every line fits what the reservations leave of the stock it read. */
  predicate Available(rows: seq<Reservation>, items: seq<Item>, seen: seq<int>, now: int)
    requires |seen| == |items|
  {
    forall i :: 0 <= i < |items| ==> items[i].qty <= Max0(seen[i] - Held(rows, items[i].pid, now, {}))
  }

  /** Some line of the product asks for a piece that the stock read for it does not have left. */
  ghost predicate Short(rows: seq<Reservation>, items: seq<Item>, seen: seq<int>, now: int, pid: nat)
    requires |seen| == |items|
  {
    exists i :: 0 <= i < |items| && items[i].pid == pid
                && items[i].qty >= 1 && Held(rows, pid, now, {}) + items[i].qty > seen[i]
  }

  method ItemsAvblty(rows: seq<Reservation>, items: seq<Item>, seen: seq<int>, now: int) returns (errors: seq<nat>)
    requires |seen| == |items|
    ensures errors == [] <==> Available(rows, items, seen, now)
    ensures forall pid :: pid in errors <==> Short(rows, items, seen, now, pid)
  {
    errors := [];
    for i := 0 to |items|
      invariant errors == [] <==> forall j :: 0 <= j < i ==>
                  items[j].qty <= Max0(seen[j] - Held(rows, items[j].pid, now, {}))
      invariant forall pid :: pid in errors <==>
                  exists j :: 0 <= j < i && items[j].pid == pid
                              && items[j].qty >= 1 && Held(rows, pid, now, {}) + items[j].qty > seen[j]
    {
      var reserved := Held(rows, items[i].pid, now, {});
      var left := if seen[i] - reserved < 0 then 0 else seen[i] - reserved;
      if items[i].qty > left {
        errors := errors + [items[i].pid];
      }
    }
  }

  /** Time only frees stock, and so does releasing a checkout. */
  lemma {:induction false} HeldShrinks(rows: seq<Reservation>, pid: nat, now: int, later: int, released: set<nat>, more: set<nat>)
    requires now <= later && released <= more
    ensures Held(rows, pid, later, more) <= Held(rows, pid, now, released)
  {
    if rows != [] {
      HeldShrinks(rows[..|rows| - 1], pid, now, later, released, more);
    }
  }

  /** A live reservation of an unreleased checkout is part of the sum, on top of everybody else's. */
  lemma {:induction false} HeldIncludes(rows: seq<Reservation>, k: nat, now: int, released: set<nat>)
    requires k < |rows| && rows[k].until > now && rows[k].cs !in released
    ensures Held(rows, rows[k].pid, now, released + {rows[k].cs}) + rows[k].qty <= Held(rows, rows[k].pid, now, released)
  {
    var n := |rows| - 1;
    if k < n {
      HeldIncludes(rows[..n], k, now, released);
    } else {
      HeldShrinks(rows[..n], rows[k].pid, now, now, released, released + {rows[k].cs});
    }
  }

  /** Only a reserved product is held. */
  lemma {:induction false} HeldZero(rows: seq<Reservation>, pid: nat, now: int, released: set<nat>)
    requires forall i :: 0 <= i < |rows| ==> rows[i].pid != pid
    ensures Held(rows, pid, now, released) == 0
  {
    if rows != [] {
      HeldZero(rows[..|rows| - 1], pid, now, released);
    }
  }

  /** Reserving adds at most what the lines ask for, keeps every old row and the unique constraint. */
  lemma {:induction false} ReserveAdds(rows: seq<Reservation>, items: seq<Item>, cs: nat, until: int)
    ensures rows <= Reserve(rows, items, cs, until)
    ensures UniqueRows(rows) ==> UniqueRows(Reserve(rows, items, cs, until))
    ensures forall pid, now, released :: Held(Reserve(rows, items, cs, until), pid, now, released)
                                         <= Held(rows, pid, now, released) + Demand(items, pid)
    ensures forall i :: |rows| <= i < |Reserve(rows, items, cs, until)| ==>
              var r := Reserve(rows, items, cs, until)[i]; r.cs == cs && r.until == until && r.pid in Pids(items)
  {
    if items != [] {
      PidsSnoc(items);
      var n := |items| - 1;
      ReserveAdds(rows, items[..n], cs, until);
      var done := Reserve(rows, items[..n], cs, until);
      if !HasRow(done, items[n].pid, cs) {
        var all := Reserve(rows, items, cs, until);
        assert all[..|all| - 1] == done;
      }
    }
  }

  /** For a checkout without rows, reserving distinct lines inserts one exact row for each. */
  lemma {:induction false} ReserveExact(rows: seq<Reservation>, items: seq<Item>, cs: nat, until: int)
    requires Distinct(items)
    requires forall i :: 0 <= i < |rows| ==> rows[i].cs != cs
    ensures Reserve(rows, items, cs, until) == rows + seq(|items|, i requires 0 <= i < |items| => Reservation(items[i].pid, cs, items[i].qty, until))
  {
    if items != [] {
      var n := |items| - 1;
      ReserveExact(rows, items[..n], cs, until);
      var done := Reserve(rows, items[..n], cs, until);
      assert !HasRow(done, items[n].pid, cs) by {
        forall i | 0 <= i < |done| ensures done[i].pid != items[n].pid || done[i].cs != cs {
          if i >= |rows| {
            assert items[..n][i - |rows|] == items[i - |rows|];
          }
        }
      }
    }
  }

  lemma {:induction false} HeldByLines(rows: seq<Reservation>, items: seq<Item>, cs: nat, until: int, pid: nat, now: int)
    ensures var more := seq(|items|, i requires 0 <= i < |items| => Reservation(items[i].pid, cs, items[i].qty, until));
            Held(rows + more, pid, now, {}) == Held(rows, pid, now, {}) + if until > now then Demand(items, pid) else 0
  {
    var more := seq(|items|, i requires 0 <= i < |items| => Reservation(items[i].pid, cs, items[i].qty, until));
    if items == [] {
      assert rows + more == rows;
    } else {
      var n := |items| - 1;
      HeldByLines(rows, items[..n], cs, until, pid, now);
      assert (rows + more)[..|rows| + n]
          == rows + seq(n, i requires 0 <= i < n => Reservation(items[..n][i].pid, cs, items[..n][i].qty, until));
    }
  }

  /** A new reservation holds exactly the lines' quantities, up to but not at the moment it runs out. */
  lemma ReserveHolds(rows: seq<Reservation>, items: seq<Item>, cs: nat, until: int, pid: nat, now: int)
    requires Distinct(items)
    requires forall i :: 0 <= i < |rows| ==> rows[i].cs != cs
    ensures Held(Reserve(rows, items, cs, until), pid, now, {})
            == Held(rows, pid, now, {}) + if now < until then Demand(items, pid) else 0
  {
    ReserveExact(rows, items, cs, until);
    HeldByLines(rows, items, cs, until, pid, now);
  }
}
