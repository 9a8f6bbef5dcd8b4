/** Product listings: keyset filter, ordered query with one extra row, and pages chained by cursor. */
module Pagination {
  import opened Options

  /** A product row; ids are unique in a table, prices may be null. */
  datatype Row = Row(id: int, publicId: int, name: string, price: Option<nat>, created: int)

  /** The two values a cursor carries. */
  datatype Mark = Mark(created: int, id: int)

  datatype Listing = Listing(id: int, publicId: int, name: string, price: nat, created: int)

  datatype Response = Response(items: seq<Listing>, next: Option<Mark>, more: bool)

  function KeyOf(r: Row): Mark {
    Mark(r.created, r.id)
  }

  function KeyOfListing(l: Listing): Mark {
    Mark(l.created, l.id)
  }

  predicate KeysetFilter(r: Row, last: Mark) {
    r.created < last.created || (r.created == last.created && r.id > last.id)
  }

  predicate Selected(r: Row, after: Option<Mark>) {
    after.Some? ==> KeysetFilter(r, after.value)
  }

  /** ORDER BY created_at DESC, id. */
  predicate Precedes(a: Mark, b: Mark) {
    a.created > b.created || (a.created == b.created && a.id < b.id)
  }

  ghost predicate UniqueIds(table: seq<Row>) {
    forall i, j :: 0 <= i < j < |table| ==> table[i].id != table[j].id
  }

  ghost predicate Sorted(rows: seq<Row>) {
    forall i, j :: 0 <= i < j < |rows| ==> Precedes(KeyOf(rows[i]), KeyOf(rows[j]))
  }

  function Where(table: seq<Row>, after: Option<Mark>): (r: seq<Row>)
    ensures forall x :: x in r <==> x in table && Selected(x, after)
    ensures |r| <= |table|
  {
    if table == [] then []
    else (if Selected(table[0], after) then [table[0]] else []) + Where(table[1..], after)
  }

  function Insert(x: Row, rows: seq<Row>): (r: seq<Row>)
    ensures forall y :: y in r <==> y == x || y in rows
    ensures |r| == |rows| + 1
  {
    if rows == [] || Precedes(KeyOf(x), KeyOf(rows[0])) then [x] + rows
    else [rows[0]] + Insert(x, rows[1..])
  }

  function OrderBy(rows: seq<Row>): (r: seq<Row>)
    ensures forall y :: y in r <==> y in rows
    ensures |r| == |rows|
  {
    if rows == [] then [] else Insert(rows[0], OrderBy(rows[1..]))
  }

  /** The query: one row more than the page shows. */
  function FetchProds(table: seq<Row>, after: Option<Mark>, limit: nat): seq<Row> {
    var rows := OrderBy(Where(table, after));
    if |rows| <= limit + 1 then rows else rows[..limit + 1]
  }

  // ---- the query's order

  lemma {:induction false} InsertSorted(x: Row, rows: seq<Row>)
    requires Sorted(rows) && forall y :: y in rows ==> y.id != x.id
    ensures Sorted(Insert(x, rows))
  {
    if rows != [] && !Precedes(KeyOf(x), KeyOf(rows[0])) {
      InsertSorted(x, rows[1..]);
      var rest := Insert(x, rows[1..]);
      forall j | 0 <= j < |rest| ensures Precedes(KeyOf(rows[0]), KeyOf(rest[j])) {
        assert rest[j] in rest;
        assert rest[j] == x || rest[j] in rows[1..];
      }
    }
  }

  lemma {:induction false} WhereUnique(table: seq<Row>, after: Option<Mark>)
    requires UniqueIds(table)
    ensures UniqueIds(Where(table, after))
  {
    if table != [] {
      WhereUnique(table[1..], after);
      var rest := Where(table[1..], after);
      forall j | 0 <= j < |rest| ensures table[0].id != rest[j].id {
        assert rest[j] in table[1..];
      }
    }
  }

  lemma {:induction false} OrderBySorted(rows: seq<Row>)
    requires UniqueIds(rows)
    ensures Sorted(OrderBy(rows))
  {
    if rows != [] {
      OrderBySorted(rows[1..]);
      forall y | y in OrderBy(rows[1..]) ensures y.id != rows[0].id {
        assert y in rows[1..];
      }
      InsertSorted(rows[0], OrderBy(rows[1..]));
    }
  }

  lemma SomeMember(b: seq<Row>)
    ensures b != [] ==> exists x :: x in b
  {
    if b != [] {
      assert b[0] in b;
    }
  }

  lemma TailMembers(a: seq<Row>, b: seq<Row>)
    requires a != [] && b != [] && a[0] == b[0] && Sorted(a) && forall x :: x in a ==> x in b
    ensures forall x :: x in a[1..] ==> x in b[1..]
  {
    forall x | x in a[1..] ensures x in b[1..] {
      var i :| 1 <= i < |a| && a[i] == x;
      assert Precedes(KeyOf(a[0]), KeyOf(a[i]));
      assert x in b;
    }
  }

  /** A sorted sequence is determined by its rows. */
  lemma {:induction false} SortedUnique(a: seq<Row>, b: seq<Row>)
    requires Sorted(a) && Sorted(b) && forall x :: x in a <==> x in b
    ensures a == b
  {
    if a == [] {
      SomeMember(b);
    } else {
      assert a[0] in b;
      assert b[0] in a;
      assert a[0] == b[0];
      TailMembers(a, b);
      TailMembers(b, a);
      SortedUnique(a[1..], b[1..]);
    }
  }

  // ---- one page

  function Show(r: Row): Listing {
    Listing(r.id, r.publicId, r.name, if r.price.Some? then r.price.value else 0, r.created)
  }

  /** A listing carries the row's own values; a missing price is shown as 0. */
  ghost predicate Shows(item: Listing, r: Row) {
    && item.id == r.id && item.publicId == r.publicId && item.name == r.name && item.created == r.created
    && r.price == (if item.price == 0 && r.price.None? then None else Some(item.price))
  }

  function Shown(rows: seq<Row>): (r: seq<Listing>)
    ensures |r| == |rows| && forall i :: 0 <= i < |r| ==> r[i] == Show(rows[i]) && Shows(r[i], rows[i])
  {
    seq(|rows|, i requires 0 <= i < |rows| => Show(rows[i]))
  }

  /** What a page means, without the query: the first rows after the cursor, and the last one's key if more follow. */
  ghost predicate IsPage(table: seq<Row>, after: Option<Mark>, limit: nat, page: Response, all: seq<Row>) {
    && Sorted(all) && (forall x :: x in all <==> x in table && Selected(x, after))
    && page.more == (|all| > limit) && page.next.Some? == page.more
    && page.items == Shown(if page.more then all[..limit] else all)
    && (page.more && limit > 0 ==> page.next == Some(KeyOf(all[limit - 1])))
  }

  method Loader(table: seq<Row>, after: Option<Mark>, limit: nat) returns (page: Response)
    requires limit >= 1
    ensures page == PageOf(table, after, limit)
  {
    var rows := FetchProds(table, after, limit);
    var more := |rows| > limit;
    var pageRows := if more then rows[..limit] else rows;
    var items: seq<Listing> := [];
    for i := 0 to |pageRows|
      invariant items == Shown(pageRows[..i])
    {
      var m := pageRows[i];
      assert pageRows[..i + 1] == pageRows[..i] + [m];
      items := items + [Listing(m.id, m.publicId, m.name, if m.price == None then 0 else m.price.value, m.created)];
    }
    assert pageRows[..|pageRows|] == pageRows;
    var next := None;
    if more {
      var last := pageRows[|pageRows| - 1];
      next := Some(Mark(last.created, last.id));
    }
    return Response(items, next, more);
  }

  function PageOf(table: seq<Row>, after: Option<Mark>, limit: nat): Response
    requires limit >= 1
  {
    var rows := FetchProds(table, after, limit);
    if |rows| > limit then Response(Shown(rows[..limit]), Some(KeyOf(rows[limit - 1])), true)
    else Response(Shown(rows), None, false)
  }

  lemma PageCuts(table: seq<Row>, after: Option<Mark>, limit: nat, all: seq<Row>)
    requires limit >= 1 && all == OrderBy(Where(table, after))
    ensures PageOf(table, after, limit) ==
            if |all| > limit then Response(Shown(all[..limit]), Some(KeyOf(all[limit - 1])), true)
            else Response(Shown(all), None, false)
  {
    if |all| > limit {
      assert all[..limit + 1][..limit] == all[..limit];
    }
  }

  lemma PageMeaning(table: seq<Row>, after: Option<Mark>, limit: nat)
    requires limit >= 1 && UniqueIds(table)
    ensures IsPage(table, after, limit, PageOf(table, after, limit), OrderBy(Where(table, after)))
  {
    WhereUnique(table, after);
    OrderBySorted(Where(table, after));
    PageCuts(table, after, limit, OrderBy(Where(table, after)));
  }

  // ---- following the cursor while the table changes

  /** The listings a client collects; tables[k] is what page k's query saw. */
  function Follow(tables: seq<seq<Row>>, after: Option<Mark>, limit: nat): seq<Listing>
    requires limit >= 1
  {
    if tables == [] then []
    else
      var page := PageOf(tables[0], after, limit);
      if page.next.None? then page.items else page.items + Follow(tables[1..], page.next, limit)
  }

  /** The client reached a page without a next cursor. */
  predicate Ends(tables: seq<seq<Row>>, after: Option<Mark>, limit: nat)
    requires limit >= 1
  {
    tables != [] &&
    var page := PageOf(tables[0], after, limit);
    page.next.None? || Ends(tables[1..], page.next, limit)
  }

  ghost predicate Ascending(items: seq<Listing>, after: Option<Mark>) {
    && (forall i :: 0 <= i < |items| && after.Some? ==> Precedes(after.value, KeyOfListing(items[i])))
    && (forall i, j :: 0 <= i < j < |items| ==> Precedes(KeyOfListing(items[i]), KeyOfListing(items[j])))
  }

  lemma ShownAscends(rows: seq<Row>, after: Option<Mark>)
    requires Sorted(rows) && forall i :: 0 <= i < |rows| ==> Selected(rows[i], after)
    ensures Ascending(Shown(rows), after)
  {
    forall i | 0 <= i < |rows| && after.Some? ensures Precedes(after.value, KeyOf(rows[i])) {
      assert KeysetFilter(rows[i], after.value);
    }
  }

  /** Everything the page's query could show, in order. */
  lemma QueryOrdered(table: seq<Row>, after: Option<Mark>)
    requires UniqueIds(table)
    ensures var all := OrderBy(Where(table, after));
            Sorted(all) && forall i :: 0 <= i < |all| ==> Selected(all[i], after)
  {
    WhereUnique(table, after);
    OrderBySorted(Where(table, after));
    var all := OrderBy(Where(table, after));
    forall i | 0 <= i < |all| ensures Selected(all[i], after) {
      assert all[i] in all;
    }
  }

  lemma PageAscends(table: seq<Row>, after: Option<Mark>, limit: nat)
    requires limit >= 1 && UniqueIds(table)
    ensures var page := PageOf(table, after, limit);
            && Ascending(page.items, after)
            && (page.next.Some? ==> page.items != [] && page.next.value == KeyOfListing(page.items[|page.items| - 1]))
  {
    var all := OrderBy(Where(table, after));
    QueryOrdered(table, after);
    PageCuts(table, after, limit, all);
    ShownAscends(if |all| > limit then all[..limit] else all, after);
  }

  /** Newest first, and by id among those of one moment. */
  ghost predicate NewestFirst(items: seq<Listing>) {
    forall i, j :: 0 <= i < j < |items| ==>
      items[i].created > items[j].created || (items[i].created == items[j].created && items[i].id < items[j].id)
  }

  /** However rows come and go between pages, the listings collected are strictly in order: none is repeated. */
  lemma NoRepeats(tables: seq<seq<Row>>, after: Option<Mark>, limit: nat)
    requires limit >= 1 && forall k :: 0 <= k < |tables| ==> UniqueIds(tables[k])
    ensures NewestFirst(Follow(tables, after, limit)) && Ascending(Follow(tables, after, limit), after)
  {
    FollowAscends(tables, after, limit);
    var items := Follow(tables, after, limit);
    forall i, j | 0 <= i < j < |items|
      ensures items[i].created > items[j].created || (items[i].created == items[j].created && items[i].id < items[j].id)
    {
      assert Precedes(KeyOfListing(items[i]), KeyOfListing(items[j]));
    }
  }

  lemma {:induction false} FollowAscends(tables: seq<seq<Row>>, after: Option<Mark>, limit: nat)
    requires limit >= 1 && forall k :: 0 <= k < |tables| ==> UniqueIds(tables[k])
    ensures Ascending(Follow(tables, after, limit), after)
    decreases |tables|
  {
    if tables != [] {
      PageAscends(tables[0], after, limit);
      var page := PageOf(tables[0], after, limit);
      if page.next.Some? {
        FollowAscends(tables[1..], page.next, limit);
        AscendingJoin(page.items, Follow(tables[1..], page.next, limit), after);
      }
    }
  }

  lemma AscendingJoin(a: seq<Listing>, b: seq<Listing>, after: Option<Mark>)
    requires a != [] && Ascending(a, after) && Ascending(b, Some(KeyOfListing(a[|a| - 1])))
    ensures Ascending(a + b, after)
  {
    var last := KeyOfListing(a[|a| - 1]);
    forall i, j | 0 <= i < j < |a + b| ensures Precedes(KeyOfListing((a + b)[i]), KeyOfListing((a + b)[j])) {
      if i < |a| <= j {
        assert i == |a| - 1 || Precedes(KeyOfListing(a[i]), last);
        assert Precedes(last, KeyOfListing(b[j - |a|]));
      } else if j >= |a| {
        assert Precedes(KeyOfListing(b[i - |a|]), KeyOfListing(b[j - |a|]));
      }
    }
    forall j | 0 <= j < |a + b| && after.Some? ensures Precedes(after.value, KeyOfListing((a + b)[j])) {
      if j >= |a| {
        assert Precedes(after.value, last);
        assert Precedes(last, KeyOfListing(b[j - |a|]));
      }
    }
  }

  ghost predicate Holds(table: seq<Row>, key: Mark) {
    exists x :: x in table && KeyOf(x) == key
  }

  ghost predicate Listed(items: seq<Listing>, key: Mark) {
    exists i :: 0 <= i < |items| && KeyOfListing(items[i]) == key
  }

  lemma RowOrLater(all: seq<Row>, limit: nat, key: Mark)
    requires limit >= 1 && Sorted(all) && Holds(all, key)
    ensures if |all| > limit then Listed(Shown(all[..limit]), key) || Precedes(KeyOf(all[limit - 1]), key)
            else Listed(Shown(all), key)
  {
    var x :| x in all && KeyOf(x) == key;
    var i :| 0 <= i < |all| && all[i] == x;
    if |all| <= limit {
      assert KeyOfListing(Shown(all)[i]) == key;
    } else if i < limit {
      assert KeyOfListing(Shown(all[..limit])[i]) == key;
    } else {
      assert Precedes(KeyOf(all[limit - 1]), KeyOf(all[i]));
    }
  }

  /** A row that is in the table after the cursor is on the page, or comes after the page's last row. */
  lemma PageOrLater(table: seq<Row>, after: Option<Mark>, limit: nat, key: Mark)
    requires limit >= 1 && UniqueIds(table) && Holds(table, key) && (after.Some? ==> Precedes(after.value, key))
    ensures var page := PageOf(table, after, limit);
            Listed(page.items, key) || (page.next.Some? && Precedes(page.next.value, key))
  {
    var all := OrderBy(Where(table, after));
    QueryOrdered(table, after);
    var x :| x in table && KeyOf(x) == key;
    assert x in all;
    RowOrLater(all, limit, key);
    PageCuts(table, after, limit, all);
  }

  lemma {:induction false} Reached(tables: seq<seq<Row>>, after: Option<Mark>, limit: nat, key: Mark)
    requires limit >= 1 && Ends(tables, after, limit) && (after.Some? ==> Precedes(after.value, key))
    requires forall k :: 0 <= k < |tables| ==> UniqueIds(tables[k]) && Holds(tables[k], key)
    ensures Listed(Follow(tables, after, limit), key)
    decreases |tables|
  {
    PageOrLater(tables[0], after, limit, key);
    var page := PageOf(tables[0], after, limit);
    var all := Follow(tables, after, limit);
    if Listed(page.items, key) {
      var i :| 0 <= i < |page.items| && KeyOfListing(page.items[i]) == key;
      assert KeyOfListing(all[i]) == key;
    } else {
      Reached(tables[1..], page.next, limit, key);
      var rest := Follow(tables[1..], page.next, limit);
      var i :| 0 <= i < |rest| && KeyOfListing(rest[i]) == key;
      assert KeyOfListing(all[|page.items| + i]) == key;
    }
  }

  ghost predicate OnlyAt(items: seq<Listing>, key: Mark, i: nat) {
    i < |items| && forall j :: 0 <= j < |items| ==> (KeyOfListing(items[j]) == key <==> j == i)
  }

  ghost predicate ListedOnce(items: seq<Listing>, key: Mark) {
    exists i :: OnlyAt(items, key, i)
  }

  /** A client that starts without a cursor and reaches the end gets every row that was there throughout exactly once. */
  lemma PresentThroughoutOnce(tables: seq<seq<Row>>, limit: nat, key: Mark)
    requires limit >= 1 && Ends(tables, None, limit)
    requires forall k :: 0 <= k < |tables| ==> UniqueIds(tables[k]) && Holds(tables[k], key)
    ensures ListedOnce(Follow(tables, None, limit), key)
  {
    Reached(tables, None, limit, key);
    NoRepeats(tables, None, limit);
    OnceWhenAscending(Follow(tables, None, limit), key);
  }

  lemma OnceWhenAscending(items: seq<Listing>, key: Mark)
    requires Ascending(items, None) && Listed(items, key)
    ensures ListedOnce(items, key)
  {
    var i: nat :| i < |items| && KeyOfListing(items[i]) == key;
    forall j | 0 <= j < |items| ensures KeyOfListing(items[j]) == key <==> j == i {
      assert j < i ==> Precedes(KeyOfListing(items[j]), KeyOfListing(items[i]));
      assert i < j ==> Precedes(KeyOfListing(items[i]), KeyOfListing(items[j]));
    }
    assert OnlyAt(items, key, i);
  }

  /** Nothing is invented: every listing collected shows a row some page's query saw. */
  lemma {:induction false} ListedWasThere(tables: seq<seq<Row>>, after: Option<Mark>, limit: nat, item: Listing)
    requires limit >= 1 && item in Follow(tables, after, limit)
    requires forall k :: 0 <= k < |tables| ==> UniqueIds(tables[k])
    ensures exists k, x :: 0 <= k < |tables| && x in tables[k] && Shows(item, x)
    decreases |tables|
  {
    var page := PageOf(tables[0], after, limit);
    PageMeaning(tables[0], after, limit);
    if item in page.items {
      var i :| 0 <= i < |page.items| && page.items[i] == item;
      var x := OrderBy(Where(tables[0], after))[i];
      assert x in OrderBy(Where(tables[0], after));
      assert x in tables[0] && Shows(item, x);
    } else {
      ListedWasThere(tables[1..], page.next, limit, item);
      var k, x :| 0 <= k < |tables[1..]| && x in tables[1..][k] && Shows(item, x);
      assert x in tables[k + 1];
    }
  }

  // ---- a table that stays the same

  lemma AfterMark(all: seq<Row>, at: nat, i: nat)
    requires Sorted(all) && at < |all| && i < |all|
    ensures KeysetFilter(all[i], KeyOf(all[at])) <==> at < i
  {
    assert i < at ==> Precedes(KeyOf(all[i]), KeyOf(all[at]));
    assert at < i ==> Precedes(KeyOf(all[at]), KeyOf(all[i]));
  }

  lemma RestMembers(all: seq<Row>, at: nat, x: Row)
    requires at < |all| && Sorted(all)
    ensures x in all[at + 1..] <==> x in all && KeysetFilter(x, KeyOf(all[at]))
  {
    if x in all[at + 1..] {
      var i: nat :| at < i < |all| && all[i] == x;
      AfterMark(all, at, i);
    }
    if x in all && KeysetFilter(x, KeyOf(all[at])) {
      var i: nat :| i < |all| && all[i] == x;
      AfterMark(all, at, i);
      assert all[at + 1..][i - at - 1] == x;
    }
  }

  /** What follows a full page is exactly the rest of the ordered table. */
  lemma RestAfterPage(table: seq<Row>, after: Option<Mark>, at: nat)
    requires UniqueIds(table) && at < |OrderBy(Where(table, after))|
    ensures var all := OrderBy(Where(table, after));
            OrderBy(Where(table, Some(KeyOf(all[at])))) == all[at + 1..]
  {
    WhereUnique(table, after);
    OrderBySorted(Where(table, after));
    var all := OrderBy(Where(table, after));
    assert all[at] in all;
    var mark := Some(KeyOf(all[at]));
    WhereUnique(table, mark);
    OrderBySorted(Where(table, mark));
    var rest := OrderBy(Where(table, mark));
    forall x ensures x in rest <==> x in all[at + 1..] {
      RestMembers(all, at, x);
    }
    SortedUnique(rest, all[at + 1..]);
  }

  /** The pages for n rows. */
  function PagesFor(n: nat, limit: nat): nat
    requires limit >= 1
  {
    if n <= limit then 1 else 1 + PagesFor(n - limit, limit)
  }

  lemma {:induction false} PagesForFits(n: nat, limit: nat)
    requires limit >= 1 && n >= 1
    ensures (PagesFor(n, limit) - 1) * limit < n <= PagesFor(n, limit) * limit
  {
    if n > limit {
      PagesForFits(n - limit, limit);
      OneMore(PagesFor(n - limit, limit), limit);
    }
  }

  lemma OneMore(p: int, limit: nat)
    ensures p * limit == (p - 1) * limit + limit && (p + 1) * limit == p * limit + limit
  {
  }

  /** The same table seen by every page's query. */
  function Same(table: seq<Row>, pages: nat): (r: seq<seq<Row>>)
    ensures |r| == pages && forall k :: 0 <= k < pages ==> r[k] == table
  {
    if pages == 0 then [] else [table] + Same(table, pages - 1)
  }

  lemma SameTail(table: seq<Row>, pages: nat)
    requires pages >= 1
    ensures Same(table, pages)[0] == table && Same(table, pages)[1..] == Same(table, pages - 1)
  {
  }

  lemma ShownSplit(rows: seq<Row>, k: nat)
    requires k <= |rows|
    ensures Shown(rows[..k]) + Shown(rows[k..]) == Shown(rows)
  {
  }

  lemma FollowUnfolds(tables: seq<seq<Row>>, after: Option<Mark>, limit: nat, page: Response)
    requires limit >= 1 && tables != [] && page == PageOf(tables[0], after, limit)
    ensures Ends(tables, after, limit) == (page.next.None? || Ends(tables[1..], page.next, limit))
    ensures Follow(tables, after, limit) ==
            if page.next.None? then page.items else page.items + Follow(tables[1..], page.next, limit)
  {
  }

  lemma FollowSame(table: seq<Row>, after: Option<Mark>, limit: nat, pages: nat)
    requires limit >= 1 && pages >= 1
    ensures var page, rest := PageOf(table, after, limit), Same(table, pages - 1);
            && Ends(Same(table, pages), after, limit) == (page.next.None? || Ends(rest, page.next, limit))
            && Follow(Same(table, pages), after, limit) ==
               if page.next.None? then page.items else page.items + Follow(rest, page.next, limit)
  {
    SameTail(table, pages);
    FollowUnfolds(Same(table, pages), after, limit, PageOf(table, after, limit));
  }

  /** With no change between pages the client collects everything after its cursor, in order. */
  lemma {:induction false} StaticIsExact(table: seq<Row>, after: Option<Mark>, limit: nat, all: seq<Row>)
    requires limit >= 1 && UniqueIds(table) && all == OrderBy(Where(table, after))
    ensures Ends(Same(table, PagesFor(|all|, limit)), after, limit)
    ensures Follow(Same(table, PagesFor(|all|, limit)), after, limit) == Shown(all)
    decreases |all|
  {
    PageCuts(table, after, limit, all);
    var pages := PagesFor(|all|, limit);
    FollowSame(table, after, limit, pages);
    if |all| > limit {
      RestAfterPage(table, after, limit - 1);
      StaticIsExact(table, Some(KeyOf(all[limit - 1])), limit, all[limit..]);
      ShownSplit(all, limit);
    }
  }

  /** From the first page: all rows, in order, in as many pages as the rows need. */
  lemma WholeTable(table: seq<Row>, limit: nat)
    requires limit >= 1 && UniqueIds(table)
    ensures Ends(Same(table, PagesFor(|table|, limit)), None, limit)
    ensures Follow(Same(table, PagesFor(|table|, limit)), None, limit) == Shown(OrderBy(table))
    ensures Sorted(OrderBy(table)) && multiset(OrderBy(table)) == multiset(table)
    ensures table != [] ==> (PagesFor(|table|, limit) - 1) * limit < |table| <= PagesFor(|table|, limit) * limit
  {
    if table != [] {
      PagesForFits(|table|, limit);
    }
    WhereAll(table);
    StaticIsExact(table, None, limit, OrderBy(table));
    OrderBySorted(table);
    OrderByPermutes(table);
  }

  lemma {:induction false} InsertPermutes(x: Row, rows: seq<Row>)
    ensures multiset(Insert(x, rows)) == multiset(rows) + multiset{x}
  {
    if rows != [] && !Precedes(KeyOf(x), KeyOf(rows[0])) {
      InsertPermutes(x, rows[1..]);
      assert rows == [rows[0]] + rows[1..];
    }
  }

  lemma {:induction false} OrderByPermutes(rows: seq<Row>)
    ensures multiset(OrderBy(rows)) == multiset(rows)
  {
    if rows != [] {
      InsertPermutes(rows[0], OrderBy(rows[1..]));
      OrderByPermutes(rows[1..]);
      assert rows == [rows[0]] + rows[1..];
    }
  }

  lemma {:induction false} WhereAll(table: seq<Row>)
    ensures Where(table, None) == table
  {
    if table != [] {
      WhereAll(table[1..]);
    }
  }
}
