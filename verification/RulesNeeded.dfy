/** Each rule of the reservation guarantee is needed: a run that breaks only that one leaves a worker short of stock. */
module RulesNeeded {
  import opened Options
  import opened Amounts
  import opened Payments
  import opened Stock
  import opened Reservations
  import opened Shop
  import opened Rules
  import opened SerialRuns
  import opened Stranding

  ghost predicate WorkerShort(s: State) {
    exists t :: t in s.draws && !s.draws[t].failing && s.draws[t].draft.failed
  }

  /** Some run from an initial state keeps all other rules and meets a shortage. */
  ghost predicate FailsWithout(rule: Rule) {
    exists s, t :: Init(s) && ReachesBy(s, t, ALL - {rule}) && WorkerShort(t)
  }

  const CAPTURE := PspEvent(0, "captured", "payment.captured")
  const FEED: map<nat, PspEvent> := map[0 := CAPTURE, 1 := CAPTURE.(order := 1)]

  function Start(stock: nat): State {
    State(0, [], [], map[0 := stock], map[0 := stock], Book(FEED, [], [], [], [], {}, {}, {}, {}), map[], map[], map[], map[])
  }

  /** The first n orders have been placed with keys, payments and provider orders 0 to n - 1, captured and queued. */
  ghost predicate Sold(s: State, n: nat) {
    var b := s.book;
    && Quiet(s) && b.feed == FEED && |b.iks| == |b.orders| == |b.payments| == |b.intents| == n
    && (forall i :: 0 <= i < n ==> b.iks[i].key == i && b.orders[i].ik == i && b.intents[i].order == i)
    && (forall i :: 0 <= i < n ==> b.payments[i].provider == Some(i) && b.payments[i].order == i)
    && (forall e :: e in b.events ==> e < n)
  }

  lemma CapturesAreValid(b: Book, e: nat)
    requires b.feed == FEED && e < 2
    ensures e in b.feed && b.feed[e].order == e && VerdictOf(b, e).valid && VerdictOf(b, e).pay == CAPTURED
  {
    ClassifyMeaning("captured", "payment.captured");
  }

  function Bought(s: State, user: nat, qty: nat): State {
    var items, cs, until := [Item(0, qty, 1)], |s.checkouts|, s.now + CHECKOUT_TTL;
    s.(checkouts := s.checkouts + [Checkout(user, until, true, Taken(items, Upi))],
       reservations := s.reservations + [Reservation(0, cs, qty, until)])
  }

  lemma ReserveOne(rows: seq<Reservation>, it: Item, cs: nat, until: int)
    requires forall i :: 0 <= i < |rows| ==> rows[i].cs != cs
    ensures Reserve(rows, [it], cs, until) == rows + [Reservation(it.pid, cs, it.qty, until)]
  {
    assert [it][..0] == [];
    assert !HasRow(rows, it.pid, cs);
  }

  /** A user's checkout and summary for some of product 0. */
  lemma Buys(s0: State, s: State, user: nat, qty: nat, rules: set<Rule>)
    requires ReachesBy(s0, s, rules) && Quiet(s) && 0 in s.stock && qty >= 1
    requires Held(s.reservations, 0, s.now, {}) + qty <= s.stock[0]
    requires forall c :: 0 <= c < |s.checkouts| ==> s.checkouts[c].user != user
    requires forall i :: 0 <= i < |s.reservations| ==> s.reservations[i].cs < |s.checkouts|
    ensures ReachesBy(s0, Bought(s, user, qty), rules)
  {
    var cs := |s.checkouts|;
    var t := DoInitiate(s, user);
    TakesInitiate(s0, s, user, t, rules);
    BoughtByOne(s, user, qty);
    SummaryRun(t, cs, [Item(0, qty, 1)], Upi, rules);
    ReachesOn(s0, t, Bought(s, user, qty), rules);
  }

  lemma BoughtByOne(s: State, user: nat, qty: nat)
    requires 0 in s.stock && qty >= 1 && Held(s.reservations, 0, s.now, {}) + qty <= s.stock[0]
    requires forall i :: 0 <= i < |s.reservations| ==> s.reservations[i].cs < |s.checkouts|
    ensures var t, items := DoInitiate(s, user), [Item(0, qty, 1)];
            && CanSummarise(t, |s.checkouts|, items) && Available(t.reservations, items, Seen(t.stock, items), t.now)
            && Summarised(t, |s.checkouts|, items, Upi) == Bought(s, user, qty)
  {
    var t, items, cs := DoInitiate(s, user), [Item(0, qty, 1)], |s.checkouts|;
    OneLine(items);
    ReserveOne(t.reservations, items[0], cs, t.checkouts[cs].expires);
    assert Summarised(t, cs, items, Upi).checkouts == Bought(s, user, qty).checkouts;
  }

  /** The next order of a checkout, with the provider's answer. */
  function Awaiting(s: State, n: nat, cs: nat): State
    requires Sold(s, n) && CanConfirm(s, cs, n)
  {
    var u := Ordered(s, cs, n);
    u.(book := DoPspAccept(u.book, n, n))
  }

  lemma AwaitingReached(s0: State, s: State, n: nat, cs: nat, rules: set<Rule>)
    requires ReachesBy(s0, s, rules) && Sold(s, n) && CanConfirm(s, cs, n)
    ensures ReachesBy(s0, Awaiting(s, n, cs), rules)
  {
    var u := Ordered(s, cs, n);
    ConfirmRun(s, cs, n, rules);
    ReachesOn(s0, s, u, rules);
    TakesPspAccept(s0, u, n, n, Awaiting(s, n, cs), rules);
  }

  lemma AwaitingCapture(s: State, n: nat, cs: nat)
    requires Sold(s, n) && n < 2 && CanConfirm(s, cs, n)
    ensures var v := Awaiting(s, n, cs);
            && Quiet(v) && CanProcess(v.book, n, n) && v.book.payments[n].status < VerdictOf(v.book, n).pay == CAPTURED
            && ((forall q :: 0 <= q < n ==> s.book.iks[q].cs != cs) ==> FirstCapture(v.book, n))
  {
    CapturesAreValid(s.book, n);
  }

  lemma CaptureQueues(s: State, n: nat, cs: nat)
    requires Sold(s, n) && n < 2 && CanConfirm(s, cs, n) && CanProcess(Awaiting(s, n, cs).book, n, n)
    ensures var t := Processed(Awaiting(s, n, cs), n, n);
            && Sold(t, n + 1) && t == s.(book := t.book)
            && t.book.intents == s.book.intents + [Intent(n, s.checkouts[cs].snapshot.items, Pending, 0, 0, 0)]
            && t.book.iks[n].cs == cs && forall q :: 0 <= q < n ==> t.book.iks[q].cs == s.book.iks[q].cs
  {
    CapturesAreValid(s.book, n);
  }

  /** The checkout's order is placed with the next key, accepted and captured. */
  lemma Sells(s0: State, s: State, n: nat, cs: nat, rules: set<Rule>) returns (t: State)
    requires ReachesBy(s0, s, rules) && Sold(s, n) && n < 2 && CanConfirm(s, cs, n)
    requires OneCapture in rules ==> forall q :: 0 <= q < n ==> s.book.iks[q].cs != cs
    ensures ReachesBy(s0, t, rules) && Sold(t, n + 1) && t == s.(book := t.book)
    ensures t.book.intents == s.book.intents + [Intent(n, s.checkouts[cs].snapshot.items, Pending, 0, 0, 0)]
    ensures t.book.iks[n].cs == cs && forall q :: 0 <= q < n ==> t.book.iks[q].cs == s.book.iks[q].cs
  {
    var v := Awaiting(s, n, cs);
    AwaitingReached(s0, s, n, cs, rules);
    AwaitingCapture(s, n, cs);
    WebhookRun(v, n, n, rules);
    CaptureQueues(s, n, cs);
    t := Processed(v, n, n);
    ReachesOn(s0, v, t, rules);
  }

  ghost predicate Fulfillable(s: State, i: nat, rules: set<Rule>) {
    && Quiet(s) && i < |s.book.intents| && s.book.intents[i].status.Pending? && 0 in s.stock
    && |s.book.intents[i].items| == 1 && s.book.intents[i].items[0].pid == 0
    && s.book.intents[i].items[0].qty <= s.stock[0]
    && (DrawnInTime in rules ==> InTime(s, s.book.intents[i].order))
  }

  function Fulfilled(s: State, i: nat): State
    requires i < |s.book.intents| && |s.book.intents[i].items| == 1 && 0 in s.stock
  {
    s.(stock := s.stock[0 := s.stock[0] - s.book.intents[i].items[0].qty], book := Finished(s.book, i))
  }

  lemma FulfilRun(s: State, i: nat, rules: set<Rule>)
    requires Fulfillable(s, i, rules)
    ensures ReachesBy(s, Fulfilled(s, i), rules)
  {
    OneLineDrawn(s.stock, s.book.intents[i].items);
    DrawRun(s, i, Fulfilled(s, i).stock, rules);
  }

  /** A worker draws order i, of one line of product 0. */
  lemma Fulfils(s0: State, s: State, i: nat, rules: set<Rule>) returns (t: State)
    requires ReachesBy(s0, s, rules) && Fulfillable(s, i, rules)
    ensures ReachesBy(s0, t, rules) && t == Fulfilled(s, i)
  {
    t := Fulfilled(s, i);
    FulfilRun(s, i, rules);
    ReachesOn(s0, s, t, rules);
  }

  lemma OneLineDrawn(stock: Shelf, items: seq<Item>)
    requires |items| == 1 && items[0].pid == 0 && 0 in stock && items[0].qty <= stock[0]
    ensures Covers(stock, items) && Drawn(stock, items, stock[0 := stock[0] - items[0].qty])
  {
    OneLine(items);
  }

  lemma OneLine(items: seq<Item>)
    requires |items| == 1
    ensures Pids(items) == {items[0].pid}
    ensures forall pid :: Demand(items, pid) == if pid == items[0].pid then items[0].qty else 0
  {
    assert items == [items[0]];
    assert items[..0] == [];
  }

  lemma ShortDraw(s: State, i: nat)
    requires Quiet(s) && i < |s.book.intents| && |s.book.intents[i].items| == 1
    requires var it := s.book.intents[i].items[0]; it.pid in s.stock && s.stock[it.pid] < it.qty
    ensures var t, u := Claimed(s, i, DrawTx(i, 0, Draft(map[], false), false)), Claimed(s, i, DrawTx(i, 1, Draft(map[], true), false));
            CanDrawNext(t, 0) && DoDrawNext(t, 0) == u && WorkerShort(u)
  {
    DrawStep(s, i, 0, Draft(map[], false));
    assert 0 in Claimed(s, i, DrawTx(i, 1, Draft(map[], true), false)).draws;
  }

  /** A worker comes to order i and finds too little. */
  lemma RunsShort(s0: State, s: State, i: nat, rules: set<Rule>)
    requires ReachesBy(s0, s, rules) && Quiet(s) && i < |s.book.intents| && s.book.intents[i].status.Pending?
    requires |s.book.intents[i].items| == 1 && s.book.intents[i].items[0].pid in s.stock
    requires s.stock[s.book.intents[i].items[0].pid] < s.book.intents[i].items[0].qty
    requires DrawnInTime in rules ==> InTime(s, s.book.intents[i].order)
    ensures exists t :: ReachesBy(s0, t, rules) && WorkerShort(t)
  {
    var t, u := Claimed(s, i, DrawTx(i, 0, Draft(map[], false), false)), Claimed(s, i, DrawTx(i, 1, Draft(map[], true), false));
    ClaimStep(s, i);
    ShortDraw(s, i);
    TakesClaim(s0, s, 0, i, t, rules);
    TakesDrawNext(s0, t, 0, u, rules);
  }

  // ---- one run for each rule

  /** User 1 buys the only piece; the order is captured and queued. */
  lemma LastPieceSold(rules: set<Rule>) returns (s: State)
    ensures Init(Start(1)) && ReachesBy(Start(1), s, rules) && Sold(s, 1)
    ensures s == Bought(Start(1), 1, 1).(book := s.book)
    ensures s.book.intents == [Intent(0, [Item(0, 1, 1)], Pending, 0, 0, 0)] && s.book.iks[0].cs == 0
  {
    var s0 := Start(1);
    ReachesSelf(s0, rules);
    Buys(s0, s0, 1, 1, rules);
    s := Sells(s0, Bought(s0, 1, 1), 0, 0, rules);
  }

  lemma LoweredStockRunsShort()
    ensures FailsWithout(NotLowered)
  {
    var rules := ALL - {NotLowered};
    var s := LastPieceSold(rules);
    var t := DoSetStock(s, 0, 0);
    TakesSetStock(Start(1), s, 0, 0, t, rules);
    RunsShort(Start(1), t, 0, rules);
  }

  lemma Expired(rules: set<Rule>) returns (s: State)
    ensures Init(Start(1)) && ReachesBy(Start(1), s, rules) && Sold(s, 1)
    ensures s == Bought(Start(1), 1, 1).(now := CHECKOUT_TTL, book := s.book)
    ensures s.book.intents == [Intent(0, [Item(0, 1, 1)], Pending, 0, 0, 0)] && s.book.iks[0].cs == 0
  {
    var sold := LastPieceSold(rules);
    s := sold.(now := CHECKOUT_TTL);
    TakesTick(Start(1), sold, CHECKOUT_TTL, s, rules);
  }

  /** The reservation has run out, and a second user buys the piece. */
  lemma SoldToSecond(rules: set<Rule>) returns (t: State)
    ensures Init(Start(1)) && ReachesBy(Start(1), t, rules) && Sold(t, 2) && t.stock == map[0 := 1]
    ensures t.book.intents == [Intent(0, [Item(0, 1, 1)], Pending, 0, 0, 0), Intent(1, [Item(0, 1, 1)], Pending, 0, 0, 0)]
    ensures InTime(t, 1)
  {
    var late := Expired(rules);
    assert late.reservations[..0] == [];
    Buys(Start(1), late, 2, 1, rules);
    t := Sells(Start(1), Bought(late, 2, 1), 1, 1, rules);
  }

  /** The first user's reservation runs out, a second user buys the piece and gets it. */
  lemma SoldAgain(rules: set<Rule>) returns (t: State)
    requires DrawnInTime !in rules
    ensures Init(Start(1)) && ReachesBy(Start(1), t, rules) && Quiet(t) && t.stock == map[0 := 0]
    ensures |t.book.intents| == 2 && t.book.intents[0] == Intent(0, [Item(0, 1, 1)], Pending, 0, 0, 0)
  {
    var u := SoldToSecond(rules);
    t := Fulfils(Start(1), u, 1, rules);
  }

  /** The first order is then drawn too late. */
  lemma LateDrawRunsShort()
    ensures FailsWithout(DrawnInTime)
  {
    var rules := ALL - {DrawnInTime};
    var t := SoldAgain(rules);
    RunsShort(Start(1), t, 0, rules);
  }

  /** Two orders of one checkout share its one reservation. */
  lemma SecondCaptureRunsShort()
    ensures FailsWithout(OneCapture)
  {
    var rules := ALL - {OneCapture};
    var s := LastPieceSold(rules);
    var u := Sells(Start(1), s, 1, 0, rules);
    var t := Fulfils(Start(1), u, 0, rules);
    RunsShort(Start(1), t, 1, rules);
  }

  function Summary(qty: nat, seen: seq<int>, checked: bool): SumTx {
    SumTx(0, [Item(0, qty, 1)], Upi, seen, checked)
  }

  /** User 1's checkout, three pieces in stock, with these summaries in flight. */
  function Summing(sums: map<nat, SumTx>): State {
    Start(3).(checkouts := [Checkout(1, CHECKOUT_TTL, true, NoSnapshot)], sums := sums)
  }

  /** The first summary has committed: one piece is reserved. */
  function Reserved(qty: nat, sums: map<nat, SumTx>): State {
    Start(3).(checkouts := [Checkout(1, CHECKOUT_TTL, true, Taken([Item(0, qty, 1)], Upi))],
              reservations := [Reservation(0, 0, 1, CHECKOUT_TTL)], sums := sums)
  }

  lemma StartSteps()
    ensures CanInitiate(Start(3), 1)
    ensures DoInitiate(Start(3), 1) == Summing(map[])
    ensures CanSumStart(Summing(map[]), 0, 0, [Item(0, 1, 1)])
    ensures DoSumStart(Summing(map[]), 0, 0, [Item(0, 1, 1)], Upi) == Summing(map[0 := Summary(1, [], false)])
  {
    OneLine([Item(0, 1, 1)]);
  }

  lemma SecondStartStep()
    ensures CanSumStart(Summing(map[0 := Summary(1, [], false)]), 1, 0, [Item(0, 2, 1)])
    ensures DoSumStart(Summing(map[0 := Summary(1, [], false)]), 1, 0, [Item(0, 2, 1)], Upi) == Summing(map[0 := Summary(1, [], false), 1 := Summary(2, [], false)])
  {
    OneLine([Item(0, 2, 1)]);
  }

  lemma FirstLockStep()
    ensures CanSumLock(Summing(map[0 := Summary(1, [], false), 1 := Summary(2, [], false)]), 0)
    ensures DoSumLock(Summing(map[0 := Summary(1, [], false), 1 := Summary(2, [], false)]), 0) == Summing(map[0 := Summary(1, [3], false), 1 := Summary(2, [], false)])
  {
    var s := Summing(map[0 := Summary(1, [], false), 1 := Summary(2, [], false)]);
    assert SumLocks(s.sums[1]) == {};
    assert RowFree(s, 0, Some(0), None);
    assert s.sums[0].seen + [s.stock[0]] == [3];
  }

  lemma FirstCheckStep()
    ensures CanSumCheck(Summing(map[0 := Summary(1, [3], false), 1 := Summary(2, [], false)]), 0)
    ensures DoSumCheck(Summing(map[0 := Summary(1, [3], false), 1 := Summary(2, [], false)]), 0) == Summing(map[0 := Summary(1, [3], true), 1 := Summary(2, [], false)])
  {
  }

  lemma FirstCommitStep()
    ensures CanSumCommit(Summing(map[0 := Summary(1, [3], true), 1 := Summary(2, [], false)]), 0)
    ensures DoSumCommit(Summing(map[0 := Summary(1, [3], true), 1 := Summary(2, [], false)]), 0) == Reserved(1, map[1 := Summary(2, [], false)])
  {
    ReserveOne([], Item(0, 1, 1), 0, CHECKOUT_TTL);
  }

  lemma SecondLockStep()
    ensures CanSumLock(Reserved(1, map[1 := Summary(2, [], false)]), 1)
    ensures DoSumLock(Reserved(1, map[1 := Summary(2, [], false)]), 1) == Reserved(1, map[1 := Summary(2, [3], false)])
  {
    var s := Reserved(1, map[1 := Summary(2, [], false)]);
    assert s.sums[1].seen + [s.stock[0]] == [3];
  }

  /** It finds enough for two more. */
  lemma SecondCheckStep()
    ensures CanSumCheck(Reserved(1, map[1 := Summary(2, [3], false)]), 1)
    ensures DoSumCheck(Reserved(1, map[1 := Summary(2, [3], false)]), 1) == Reserved(1, map[1 := Summary(2, [3], true)])
  {
    var s := Reserved(1, map[1 := Summary(2, [3], false)]);
    assert s.reservations[..0] == [];
  }

  /** It keeps the reservation of one and writes a snapshot of two. */
  lemma SecondCommitStep()
    ensures CanSumCommit(Reserved(1, map[1 := Summary(2, [3], true)]), 1)
    ensures DoSumCommit(Reserved(1, map[1 := Summary(2, [3], true)]), 1) == Reserved(2, map[])
  {
    ReserveNothing(Reserved(1, map[]).reservations, Item(0, 2, 1), 0, CHECKOUT_TTL);
  }

  lemma ReserveNothing(rows: seq<Reservation>, it: Item, cs: nat, until: int)
    requires |rows| == 1 && rows[0].pid == it.pid && rows[0].cs == cs
    ensures Reserve(rows, [it], cs, until) == rows
  {
    assert [it][..0] == [];
    assert HasRow(rows, it.pid, cs);
  }

  lemma BothStarted(rules: set<Rule>)
    ensures ReachesBy(Start(3), Summing(map[0 := Summary(1, [], false), 1 := Summary(2, [], false)]), rules)
  {
    var s0, a, b := Start(3), Summary(1, [], false), Summary(2, [], false);
    ReachesSelf(s0, rules);
    StartSteps();
    SecondStartStep();
    TakesInitiate(s0, s0, 1, Summing(map[]), rules);
    TakesSumStart(s0, Summing(map[]), 0, 0, [Item(0, 1, 1)], Upi, Summing(map[0 := a]), rules);
    TakesSumStart(s0, Summing(map[0 := a]), 1, 0, [Item(0, 2, 1)], Upi, Summing(map[0 := a, 1 := b]), rules);
  }

  lemma FirstSummarised(rules: set<Rule>)
    ensures ReachesBy(Start(3), Reserved(1, map[1 := Summary(2, [], false)]), rules)
  {
    BothStarted(rules);
    FirstLockStep();
    FirstCheckStep();
    FirstCommitStep();
    var s0, a, b, c := Start(3), Summary(1, [], false), Summary(2, [], false), Summary(1, [3], false);
    TakesSumLock(s0, Summing(map[0 := a, 1 := b]), 0, Summing(map[0 := c, 1 := b]), rules);
    TakesSumCheck(s0, Summing(map[0 := c, 1 := b]), 0, Summing(map[0 := Summary(1, [3], true), 1 := b]), rules);
    TakesSumCommit(s0, Summing(map[0 := Summary(1, [3], true), 1 := b]), 0, Reserved(1, map[1 := b]), rules);
  }

  lemma SecondSummarised(rules: set<Rule>)
    requires OneSummary !in rules
    ensures ReachesBy(Start(3), Reserved(2, map[]), rules)
  {
    var s0 := Start(3);
    FirstSummarised(rules);
    SecondLockStep();
    SecondCheckStep();
    SecondCommitStep();
    var b, c, d := Summary(2, [], false), Summary(2, [3], false), Summary(2, [3], true);
    TakesSumLock(s0, Reserved(1, map[1 := b]), 1, Reserved(1, map[1 := c]), rules);
    TakesSumCheck(s0, Reserved(1, map[1 := c]), 1, Reserved(1, map[1 := d]), rules);
    TakesSumCommit(s0, Reserved(1, map[1 := d]), 1, Reserved(2, map[]), rules);
  }

  /** A second user buys the two pieces left. */
  lemma RestSold(rules: set<Rule>) returns (t: State)
    requires OneSummary !in rules
    ensures ReachesBy(Start(3), t, rules) && Sold(t, 1) && t == Bought(Reserved(2, map[]), 2, 2).(book := t.book)
    ensures t.book.intents == [Intent(0, [Item(0, 2, 1)], Pending, 0, 0, 0)] && t.book.iks[0].cs == 1
  {
    var s := Reserved(2, map[]);
    SecondSummarised(rules);
    assert s.reservations[..0] == [];
    Buys(Start(3), s, 2, 2, rules);
    t := Sells(Start(3), Bought(s, 2, 2), 0, 1, rules);
  }

  /** The first one's order for two is captured as well. */
  lemma BothSold(rules: set<Rule>) returns (t: State)
    requires OneSummary !in rules
    ensures ReachesBy(Start(3), t, rules) && Sold(t, 2) && t == Bought(Reserved(2, map[]), 2, 2).(book := t.book)
    ensures t.book.intents == [Intent(0, [Item(0, 2, 1)], Pending, 0, 0, 0), Intent(1, [Item(0, 2, 1)], Pending, 0, 0, 0)]
    ensures t.book.iks[0].cs == 1 && t.book.iks[1].cs == 0
  {
    var u := RestSold(rules);
    t := Sells(Start(3), u, 1, 0, rules);
  }

  /** Two summaries of one checkout at once promise two pieces and reserve one. */
  lemma SecondSummaryRunsShort()
    ensures FailsWithout(OneSummary)
  {
    var rules := ALL - {OneSummary};
    var s := BothSold(rules);
    var t := Fulfils(Start(3), s, 0, rules);
    RunsShort(Start(3), t, 1, rules);
    assert Init(Start(3));
  }

  /** No rule can be left out. */
  lemma EveryRuleNeeded(rule: Rule)
    ensures FailsWithout(rule)
  {
    match rule
    case OneSummary => SecondSummaryRunsShort();
    case OneCapture => SecondCaptureRunsShort();
    case NotLowered => LoweredStockRunsShort();
    case DrawnInTime => LateDrawRunsShort();
  }

  // ---- a claim that is lost

  lemma CrashAfterClaim(s: State, i: nat)
    requires Quiet(s) && CanClaim(s, 0, i)
    ensures Quiet(DoDrawCrash(DoClaiming(s, 0, i), 0)) && Stranded(DoDrawCrash(DoClaiming(s, 0, i), 0), i)
  {
  }

  /** A run from an initial state that ends with an order paid for and its claim lost. */
  ghost predicate PaidAndLost(s: State, t: State) {
    Init(s) && Reaches(s, t) && Quiet(t) && Stranded(t, 0)
  }

  /** A crash right after the claim: user 1 has paid for the only piece, and nobody will ever draw it. */
  lemma StrandedReached()
    ensures exists s, t :: PaidAndLost(s, t)
  {
    var s := LastPieceSold({});
    CrashAfterClaim(s, 0);
    var t := DoClaiming(s, 0, 0);
    TakesClaim(Start(1), s, 0, 0, t, {});
    TakesDrawCrash(Start(1), t, 0, DoDrawCrash(t, 0), {});
    assert PaidAndLost(Start(1), DoDrawCrash(t, 0));
  }
}
