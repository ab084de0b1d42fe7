/** Keyset pagination: rows in (value, nulls last, primary key) order, one page after another. */
module Pagination {
  import opened Prelude
  import opened Text

  const DEFAULT_PAGE_SIZE := 25
  const MAX_PAGE_SIZE := 100
  const NULL_MARKER := "\0"

  /** A row as the listing sees it: its key and its sort value, printed. */
  datatype Row = Row(pk: nat, value: Option<string>)

  /** A table with its database order on values, listed one way or the other. */
  datatype Listing = Listing(table: seq<Row>, rank: string -> int, descending: bool)

  datatype Page = Page(items: seq<Row>, hasNext: bool, endCursor: string, total: nat)

  // ----- Cursors

  function Serialise(value: Option<string>): string {
    if value.None? then NULL_MARKER else value.value
  }

  function EncodeCursor(value: Option<string>, id: nat): string {
    Serialise(value) + "::" + Decimal(id)
  }

  function DecodeCursor(cursor: string): Result<(Option<string>, nat)> {
    match LastSeparator(cursor)
    case None => Err(InvalidCursor)
    case Some(k) =>
      var id := cursor[k + 2..];
      if id == "" || !AllDigits(id) then Err(InvalidCursor)
      else Ok((if cursor[..k] == NULL_MARKER then None else Some(cursor[..k]), ParseDecimal(id)))
  }

  /** Decoding gives back value and key, separators inside the value included, unless the value is the null marker itself. */
  lemma {:induction false} CursorRoundTrip(value: Option<string>, id: nat)
    ensures DecodeCursor(EncodeCursor(value, id)) == Ok((value, id)) <==> value != Some(NULL_MARKER)
    ensures value == Some(NULL_MARKER) ==> DecodeCursor(EncodeCursor(value, id)) == Ok((None, id))
  {
    var head := Serialise(value);
    var cursor := EncodeCursor(value, id);
    DecimalParses(id);
    assert ':' !in Decimal(id);
    SeparatorFound(head, Decimal(id));
    assert cursor[..|head|] == head && cursor[|head| + 2..] == Decimal(id);
  }

  // ----- Order

  predicate Before(l: Listing, a: Row, b: Row) {
    if a.value.None? then b.value.None? && a.pk < b.pk
    else if b.value.None? then true
    else if l.rank(a.value.value) == l.rank(b.value.value) then a.pk < b.pk
    else l.descending == (l.rank(a.value.value) > l.rank(b.value.value))
  }

  /** The filter for rows after a cursor, branch by branch. */
  predicate KeysetFilter(l: Listing, value: Option<string>, id: nat, row: Row) {
    match value
    case None => row.value.None? && row.pk > id
    case Some(v) =>
      || (row.value.Some? && if l.descending then l.rank(row.value.value) < l.rank(v) else l.rank(row.value.value) > l.rank(v))
      || (row.value.Some? && l.rank(row.value.value) == l.rank(v) && row.pk > id)
      || row.value.None?
  }

  /** The filter keeps exactly the rows that the order puts after the cursor's row. */
  lemma {:induction false} FilterIsAfter(l: Listing, a: Row, b: Row)
    ensures KeysetFilter(l, a.value, a.pk, b) <==> Before(l, a, b)
  {
  }

  function Insert(l: Listing, x: Row, s: seq<Row>): seq<Row> {
    if s == [] then [x]
    else if Before(l, x, s[0]) then [x] + s
    else [s[0]] + Insert(l, x, s[1..])
  }

  /** ORDER BY. */
  function Ordered(l: Listing, rows: seq<Row>): seq<Row> {
    if rows == [] then [] else Insert(l, rows[0], Ordered(l, rows[1..]))
  }

  function Where(rows: seq<Row>, keep: Row -> bool): seq<Row> {
    if rows == [] then []
    else (if keep(rows[0]) then [rows[0]] else []) + Where(rows[1..], keep)
  }

  ghost predicate Sorted(l: Listing, s: seq<Row>) {
    forall i, j :: 0 <= i < j < |s| ==> Before(l, s[i], s[j])
  }

  /** Primary keys are unique. */
  predicate Keyed(rows: seq<Row>) {
    forall i, j :: 0 <= i < j < |rows| ==> rows[i].pk != rows[j].pk
  }

  lemma {:induction false} InsertContents(l: Listing, x: Row, s: seq<Row>)
    ensures multiset(Insert(l, x, s)) == multiset(s) + multiset{x}
  {
    hide Before;
    if s == [] {
      assert s + [x] == [x];
    } else if Before(l, x, s[0]) {
      assert multiset([x] + s) == multiset{x} + multiset(s);
    } else {
      var rest := Insert(l, x, s[1..]);
      InsertContents(l, x, s[1..]);
      assert multiset([s[0]] + rest) == multiset{s[0]} + multiset(rest);
      assert multiset([s[0]] + s[1..]) == multiset{s[0]} + multiset(s[1..]);
      assert s == [s[0]] + s[1..];
    }
  }

  lemma {:induction false} InsertSorted(l: Listing, x: Row, s: seq<Row>)
    requires Sorted(l, s) && forall i :: 0 <= i < |s| ==> s[i].pk != x.pk
    ensures Sorted(l, Insert(l, x, s))
  {
    if s != [] && !Before(l, x, s[0]) {
      InsertSorted(l, x, s[1..]);
      InsertContents(l, x, s[1..]);
      var r := Insert(l, x, s[1..]);
      forall j | 0 <= j < |r| ensures Before(l, s[0], r[j]) {
        assert r[j] in multiset(r);
        if r[j] != x {
          assert r[j] in s[1..];
        }
      }
    }
  }

  /** The listing is the table itself, in strict order. */
  lemma {:induction false} OrderedMeaning(l: Listing, rows: seq<Row>)
    requires Keyed(rows)
    ensures Sorted(l, Ordered(l, rows)) && multiset(Ordered(l, rows)) == multiset(rows)
  {
    if rows != [] {
      OrderedMeaning(l, rows[1..]);
      assert rows == [rows[0]] + rows[1..];
      var s := Ordered(l, rows[1..]);
      forall i | 0 <= i < |s| ensures s[i].pk != rows[0].pk {
        assert s[i] in multiset(s);
        assert s[i] in rows[1..];
      }
      InsertSorted(l, rows[0], s);
      InsertContents(l, rows[0], s);
    }
  }

  // ----- Filtering and ordering commute

  lemma {:induction false} WhereContents(rows: seq<Row>, keep: Row -> bool)
    ensures forall r :: r in Where(rows, keep) <==> r in rows && keep(r)
  {
    if rows != [] {
      WhereContents(rows[1..], keep);
      assert rows == [rows[0]] + rows[1..];
    }
  }

  lemma {:induction false} InsertFirst(l: Listing, x: Row, s: seq<Row>)
    requires forall r :: r in s ==> Before(l, x, r)
    ensures Insert(l, x, s) == [x] + s
  {
    assert s != [] ==> s[0] in s;
  }

  lemma {:induction false} BeforeTransitive(l: Listing, a: Row, b: Row, c: Row)
    requires Before(l, a, b) && Before(l, b, c)
    ensures Before(l, a, c)
  {
  }

  lemma {:induction false} WhereInsert(l: Listing, x: Row, s: seq<Row>, keep: Row -> bool)
    requires Sorted(l, s)
    ensures Where(Insert(l, x, s), keep) == if keep(x) then Insert(l, x, Where(s, keep)) else Where(s, keep)
  {
    if s == [] {
    } else if Before(l, x, s[0]) {
      assert ([x] + s)[1..] == s;
      if keep(x) {
        WhereContents(s, keep);
        forall r | r in Where(s, keep) ensures Before(l, x, r) {
          var i :| 0 <= i < |s| && s[i] == r;
          if i > 0 {
            BeforeTransitive(l, x, s[0], s[i]);
          }
        }
        InsertFirst(l, x, Where(s, keep));
      }
    } else {
      WhereInsert(l, x, s[1..], keep);
      assert ([s[0]] + Insert(l, x, s[1..]))[1..] == Insert(l, x, s[1..]);
      var rest := Where(s[1..], keep);
      if keep(s[0]) {
        assert ([s[0]] + rest)[1..] == rest;
      } else {
        assert [] + rest == rest && [] + Insert(l, x, rest) == Insert(l, x, rest);
      }
    }
  }

  lemma {:induction false} WhereOrdered(l: Listing, rows: seq<Row>, keep: Row -> bool)
    requires Keyed(rows)
    ensures Ordered(l, Where(rows, keep)) == Where(Ordered(l, rows), keep)
  {
    if rows != [] {
      WhereOrdered(l, rows[1..], keep);
      OrderedMeaning(l, rows[1..]);
      WhereInsert(l, rows[0], Ordered(l, rows[1..]), keep);
      if keep(rows[0]) {
        assert ([rows[0]] + Where(rows[1..], keep))[1..] == Where(rows[1..], keep);
      } else {
        assert [] + Where(rows[1..], keep) == Where(rows[1..], keep);
      }
    }
  }

  lemma {:induction false} WhereAll(s: seq<Row>, keep: Row -> bool)
    requires forall r :: r in s ==> keep(r)
    ensures Where(s, keep) == s
  {
    if s != [] {
      assert s[0] in s && forall r :: r in s[1..] ==> r in s;
      WhereAll(s[1..], keep);
    }
  }

  /** In a sorted listing the rows after row k are the rest of it. */
  lemma {:induction false} WhereAfter(l: Listing, s: seq<Row>, k: nat, keep: Row -> bool)
    requires Sorted(l, s) && k < |s| && forall r {:trigger keep(r)} :: r in s ==> (keep(r) <==> Before(l, s[k], r))
    ensures Where(s, keep) == s[k + 1..]
  {
    assert s[0] in s;
    if k == 0 {
      forall r | r in s[1..] ensures keep(r) {
        var i :| 1 <= i < |s| && s[i] == r;
        assert s[i] in s;
      }
      WhereAll(s[1..], keep);
    } else {
      assert Before(l, s[0], s[k]);
      var rest := s[1..];
      forall r | r in rest ensures keep(r) <==> Before(l, rest[k - 1], r) {
        assert r in s;
      }
      WhereAfter(l, rest, k - 1, keep);
      assert rest[k..] == s[k + 1..];
    }
  }

  // ----- Pages

  function CleanPageSize(first: Option<int>): (r: Result<nat>)
    ensures r.Ok? ==> 1 <= r.value <= MAX_PAGE_SIZE
    ensures r.Err? <==> first.Some? && first.value <= 0
    ensures first.None? ==> r == Ok(DEFAULT_PAGE_SIZE)
    ensures first.Some? && 1 <= first.value <= MAX_PAGE_SIZE ==> r == Ok(first.value)
    ensures first.Some? && first.value > MAX_PAGE_SIZE ==> r == Ok(MAX_PAGE_SIZE)
  {
    if first.None? then Ok(DEFAULT_PAGE_SIZE)
    else if first.value <= 0 then Err(ValidationError)
    else Ok(Min(first.value, MAX_PAGE_SIZE))
  }

  /** The rows a request looks at: all of them, or those after its cursor. */
  function Candidates(l: Listing, after: string): Result<seq<Row>> {
    if after == "" then Ok(l.table)
    else
      var c :- DecodeCursor(after);
      Ok(Where(l.table, row => KeysetFilter(l, c.0, c.1, row)))
  }

  function Prefix(s: seq<Row>, n: nat): seq<Row> {
    if |s| <= n then s else s[..n]
  }

  function Paginate(l: Listing, after: string, first: Option<int>): Result<Page> {
    var size :- CleanPageSize(first);
    var rows :- Candidates(l, after);
    var window := Prefix(Ordered(l, rows), size + 1);
    var items := Prefix(window, size);
    var endCursor := if items == [] then "" else EncodeCursor(items[|items| - 1].value, items[|items| - 1].pk);
    Ok(Page(items, |window| > size, endCursor, |l.table|))
  }

  /** Values a cursor can carry. */
  predicate Printable(rows: seq<Row>) {
    forall i :: 0 <= i < |rows| ==> rows[i].value != Some(NULL_MARKER)
  }

  /** The page that starts at position `from` of the listing. */
  ghost predicate IsPage(l: Listing, p: Page, from: nat, size: nat) {
    var all := Ordered(l, l.table);
    && from <= |all| && size > 0
    && p.items == all[from..Min(from + size, |all|)]
    && (p.hasNext <==> from + size < |all|)
    && p.total == |l.table| == |all|
    && (from < |all| ==> p.endCursor == EncodeCursor(all[Min(from + size, |all|) - 1].value, all[Min(from + size, |all|) - 1].pk))
  }

  /** A request that starts at position `from` gets the page there. */
  ghost predicate StartsAt(l: Listing, after: string, first: Option<int>, from: nat) {
    && CleanPageSize(first).Ok?
    && Paginate(l, after, first).Ok?
    && IsPage(l, Paginate(l, after, first).value, from, CleanPageSize(first).value)
  }

  /** A page over the right candidates is the right page. */
  lemma {:induction false} WindowIsPage(l: Listing, after: string, first: Option<int>, from: nat)
    requires Keyed(l.table) && from <= |Ordered(l, l.table)| && CleanPageSize(first).Ok?
    requires Candidates(l, after).Ok? && Ordered(l, Candidates(l, after).value) == Ordered(l, l.table)[from..]
    ensures StartsAt(l, after, first, from)
  {
    hide DecodeCursor, EncodeCursor, Ordered, Candidates, Sorted, CleanPageSize, Prefix, Keyed;
    OrderedLength(l);
    WindowItems(Ordered(l, l.table), from, CleanPageSize(first).value);
  }

  lemma {:induction false} OrderedLength(l: Listing)
    requires Keyed(l.table)
    ensures |Ordered(l, l.table)| == |l.table|
  {
    OrderedMeaning(l, l.table);
    assert |multiset(Ordered(l, l.table))| == |multiset(l.table)|;
  }

  lemma {:induction false} PageThere(l: Listing, after: string, first: Option<int>, from: nat, size: nat) returns (p: Page)
    requires StartsAt(l, after, first, from) && CleanPageSize(first) == Ok(size)
    ensures Paginate(l, after, first) == Ok(p) && IsPage(l, p, from, size)
  {
    p := Paginate(l, after, first).value;
    hide Paginate, IsPage;
  }

  /** One row more than a page is fetched, to see whether there is a next page. */
  lemma {:induction false} WindowItems(all: seq<Row>, from: nat, size: nat)
    requires from <= |all| && size > 0
    ensures var window := Prefix(all[from..], size + 1);
            && Prefix(window, size) == all[from..Min(from + size, |all|)]
            && (|window| > size <==> from + size < |all|)
  {
    var window := Prefix(all[from..], size + 1);
    if |all| - from > size {
      assert window == all[from..from + size + 1];
      assert window[..size] == all[from..from + size];
    }
  }

  lemma {:induction false} FirstPage(l: Listing, first: Option<int>)
    requires Keyed(l.table) && CleanPageSize(first).Ok?
    ensures StartsAt(l, "", first, 0)
  {
    assert Ordered(l, l.table)[0..] == Ordered(l, l.table);
    WindowIsPage(l, "", first, 0);
  }

  /** The rows after the cursor of row k are the listing from k + 1 on. */
  lemma {:induction false} CandidatesAfter(l: Listing, k: nat)
    requires Keyed(l.table) && Printable(l.table) && k < |Ordered(l, l.table)|
    ensures var r := Ordered(l, l.table)[k];
            var c := Candidates(l, EncodeCursor(r.value, r.pk));
            c.Ok? && Ordered(l, c.value) == Ordered(l, l.table)[k + 1..]
  {
    var all := Ordered(l, l.table);
    var r := all[k];
    OrderedMeaning(l, l.table);
    assert r in multiset(all);
    assert r in l.table;
    CursorRoundTrip(r.value, r.pk);
    var keep := (row: Row) => KeysetFilter(l, r.value, r.pk, row);
    WhereOrdered(l, l.table, keep);
    forall row | row in all ensures keep(row) <==> Before(l, all[k], row) {
      FilterIsAfter(l, r, row);
    }
    WhereAfter(l, all, k, keep);
  }

  lemma {:induction false} NextPage(l: Listing, p: Page, from: nat, first: Option<int>)
    requires Keyed(l.table) && Printable(l.table) && CleanPageSize(first).Ok?
    requires IsPage(l, p, from, CleanPageSize(first).value) && p.hasNext
    ensures StartsAt(l, p.endCursor, first, from + CleanPageSize(first).value)
  {
    hide Keyed, Printable, Candidates, StartsAt, Ordered, Sorted;
    var last := from + CleanPageSize(first).value - 1;
    CandidatesAfter(l, last);
    WindowIsPage(l, p.endCursor, first, last + 1);
  }

  // ----- The walk

  /** The pages a client gets by following end cursors while there is a next page, at most n of them. */
  function Walk(l: Listing, after: string, first: Option<int>, n: nat): seq<Page>
    decreases n
  {
    if n == 0 then []
    else
      var p := Paginate(l, after, first);
      if p.Err? then []
      else if !p.value.hasNext then [p.value]
      else [p.value] + Walk(l, p.value.endCursor, first, n - 1)
  }

  function Items(pages: seq<Page>): seq<Row> {
    if pages == [] then [] else pages[0].items + Items(pages[1..])
  }

  function PageCount(rows: nat, size: nat): nat
    requires size > 0
  {
    if rows == 0 then 1 else (rows + size - 1) / size
  }

  lemma {:induction false} DivNext(a: nat, size: nat)
    requires size > 0
    ensures (a + size) / size == a / size + 1
  {
    var q, r := a / size, a % size;
    assert a + size == size * (q + 1) + r;
    DivUnique(a + size, size, q + 1, r);
  }

  lemma {:induction false} DivUnique(a: nat, size: nat, q: nat, r: nat)
    requires r < size && a == size * q + r
    ensures a / size == q
  {
    var p, s := a / size, a % size;
    assert size * p + s == size * q + r;
    MulGap(size, p, q);
    MulGap(size, q, p);
  }

  lemma {:induction false} MulGap(size: nat, p: nat, q: nat)
    ensures p > q ==> size * p >= size * q + size
    decreases p
  {
    if p > q + 1 {
      MulGap(size, p - 1, q);
    }
  }

  lemma {:induction false} CountStep(rest: nat, size: nat)
    requires 0 < size < rest
    ensures PageCount(rest, size) == 1 + PageCount(rest - size, size)
  {
    DivNext(rest - 1, size);
  }

  lemma {:induction false} CountLast(rest: nat, size: nat)
    requires rest <= size && size > 0
    ensures PageCount(rest, size) == 1
  {
    if rest > 0 {
      DivUnique(rest + size - 1, size, 1, rest - 1);
    }
  }

  /** The pages list the rows from position `from` on, and the last one says so. */
  ghost predicate ListsFrom(l: Listing, pages: seq<Page>, from: nat, size: nat) {
    && size > 0 && from <= |Ordered(l, l.table)|
    && Items(pages) == Ordered(l, l.table)[from..]
    && |pages| == PageCount(|Ordered(l, l.table)| - from, size) > 0
    && !pages[|pages| - 1].hasNext
  }

  lemma {:induction false} ListsLast(l: Listing, p: Page, from: nat, size: nat)
    requires IsPage(l, p, from, size) && !p.hasNext
    ensures ListsFrom(l, [p], from, size)
  {
    CountLast(|Ordered(l, l.table)| - from, size);
    ItemsMore(p, []);
    hide Ordered, PageCount;
  }

  lemma {:induction false} ListsMore(l: Listing, p: Page, rest: seq<Page>, from: nat, size: nat)
    requires IsPage(l, p, from, size) && p.hasNext && ListsFrom(l, rest, from + size, size)
    ensures ListsFrom(l, [p] + rest, from, size)
  {
    hide Ordered, PageCount, Items;
    var all := Ordered(l, l.table);
    CountStep(|all| - from, size);
    ItemsMore(p, rest);
    Splice(all, from, from + size);
  }

  lemma {:induction false} WalkNext(l: Listing, after: string, first: Option<int>, n: nat)
    requires n > 0 && Paginate(l, after, first).Ok?
    ensures var p := Paginate(l, after, first).value;
            Walk(l, after, first, n) == if p.hasNext then [p] + Walk(l, p.endCursor, first, n - 1) else [p]
  {
    hide Paginate;
  }

  lemma {:induction false} PagesLeft(l: Listing, p: Page, from: nat, size: nat, n: nat)
    requires IsPage(l, p, from, size) && n >= PageCount(|Ordered(l, l.table)| - from, size)
    ensures n > 0 && |Ordered(l, l.table)| - from >= 0
    ensures p.hasNext ==> |Ordered(l, l.table)| - (from + size) >= 0
                          && n - 1 >= PageCount(|Ordered(l, l.table)| - (from + size), size)
  {
    var rest := |Ordered(l, l.table)| - from;
    PageCountPositive(rest, size);
    if p.hasNext {
      CountStep(rest, size);
    }
    hide Ordered, PageCount;
  }

  /** From any page on, the walk lists the rest of the listing and then stops by itself. */
  lemma {:induction false} WalkRest(l: Listing, after: string, first: Option<int>, n: nat, from: nat, size: nat)
    requires Keyed(l.table) && Printable(l.table) && CleanPageSize(first) == Ok(size)
    requires StartsAt(l, after, first, from) && from <= |Ordered(l, l.table)| && size > 0
    requires n >= PageCount(|Ordered(l, l.table)| - from, size)
    ensures ListsFrom(l, Walk(l, after, first, n), from, size)
    decreases n
  {
    hide *;
    var p := PageThere(l, after, first, from, size);
    PagesLeft(l, p, from, size, n);
    WalkNext(l, after, first, n);
    if p.hasNext {
      NextPage(l, p, from, first);
      WalkRest(l, p.endCursor, first, n - 1, from + size, size);
      ListsMore(l, p, Walk(l, p.endCursor, first, n - 1), from, size);
    } else {
      ListsLast(l, p, from, size);
    }
  }

  lemma {:induction false} PageCountPositive(rest: nat, size: nat)
    requires size > 0
    ensures PageCount(rest, size) >= 1
  {
    if rest > 0 {
      DivNext(rest - 1, size);
    }
  }

  lemma {:induction false} ItemsMore(p: Page, rest: seq<Page>)
    ensures Items([p] + rest) == p.items + Items(rest)
    ensures Items([p]) == p.items
  {
    assert ([p] + rest)[1..] == rest;
    assert [p][1..] == [];
  }

  /**
   * Following end cursors from the first page lists every row of the table exactly once, in
   * (value, nulls last, key) order, in max(1, ceil(n / size)) pages; asking for more gives no more.
   */
  lemma {:induction false} WalkListsAll(l: Listing, first: Option<int>, n: nat)
    requires Keyed(l.table) && Printable(l.table) && CleanPageSize(first).Ok?
    requires n >= PageCount(|l.table|, CleanPageSize(first).value)
    ensures var pages := Walk(l, "", first, n);
            && multiset(Items(pages)) == multiset(l.table)
            && Sorted(l, Items(pages))
            && |pages| == PageCount(|l.table|, CleanPageSize(first).value)
            && !pages[|pages| - 1].hasNext
  {
    hide Keyed, Printable, Sorted, Ordered, Paginate, StartsAt, Walk, Items, PageCount, IsPage;
    var size := CleanPageSize(first).value;
    hide CleanPageSize;
    OrderedMeaning(l, l.table);
    OrderedLength(l);
    FirstPage(l, first);
    WalkRest(l, "", first, n, 0, size);
    assert Ordered(l, l.table)[0..] == Ordered(l, l.table);
  }
}
