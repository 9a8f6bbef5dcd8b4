/** The discipline under which reservations are a guarantee, rule by rule. */
module Rules {
  import opened Payments
  import opened Shop

  datatype Rule = OneSummary | OneCapture | NotLowered | DrawnInTime

  const ALL: set<Rule> := {OneSummary, OneCapture, NotLowered, DrawnInTime}

  predicate SameCheckout(b: Book, o: nat, q: nat) {
    o < |b.iks| && q < |b.iks| && b.iks[o].cs == b.iks[q].cs
  }

  /** The reservations of the order's checkout are still live. */
  predicate InTime(s: State, o: nat) {
    o < |s.book.iks| && s.book.iks[o].cs < |s.checkouts| && s.now < s.checkouts[s.book.iks[o].cs].expires
  }

  /** One order-summary and at most one captured order per checkout, stock never lowered by hand, and
      every row of a draw locked before the reservation runs out. */
  predicate Keeps(s: State, a: Action, rules: set<Rule>)
    requires Enabled(s, a)
  {
    var b := s.book;
    match a
    case SumCommit(t) => OneSummary in rules ==> s.checkouts[s.sums[t].cs].snapshot.NoSnapshot?
    case WhCommit(t) =>
      OneCapture in rules && VerdictOf(b, s.whs[t].ev).pay == CAPTURED ==>
        forall q :: 0 <= q < |b.payments| && b.payments[q].status == CAPTURED ==> !SameCheckout(b, q, s.whs[t].pay)
    case SetStock(pid, qty) => NotLowered in rules && pid in s.stock ==> s.stock[pid] <= qty
    case DrawNext(t) => DrawnInTime in rules ==> InTime(s, s.book.intents[s.draws[t].intent].order)
    case _ => true
  }

  ghost predicate RunKeeps(s0: State, run: seq<Action>, rules: set<Rule>)
    requires Legal(s0, run)
  {
    run == [] ||
    var n := |run| - 1;
    RunKeeps(s0, run[..n], rules) && Keeps(Exec(s0, run[..n]), run[n], rules)
  }

  predicate ByTheRules(s: State, a: Action)
    requires Enabled(s, a)
  {
    Keeps(s, a, ALL)
  }
}
