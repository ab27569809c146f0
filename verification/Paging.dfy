/** Keyset paging of the document listing: newest first, ties broken by document id, each page resuming strictly
    below the last row of the page before. */
module Paging {
  import opened Wrappers
  import C = Cursor

  const MAX_LIST_LIMIT := 200

  /** The columns of a document row that the listing reads; `version` stands for the rest. */
  datatype Row = Row(tenant: string, documentId: Bytes, updatedAt: int, version: nat)

  function At(r: Row): C.Cursor {
    C.Cursor(r.updatedAt, r.documentId)
  }

  // ------------------------------------------------------------------ the order

  /** Bytewise, a proper prefix first. */
  predicate BytesLess(a: Bytes, b: Bytes) {
    b != [] && (a == [] || a[0] < b[0] || (a[0] == b[0] && BytesLess(a[1..], b[1..])))
  }

  predicate Less(x: C.Cursor, y: C.Cursor) {
    x.updatedAt < y.updatedAt || (x.updatedAt == y.updatedAt && BytesLess(x.documentId, y.documentId))
  }

  lemma {:induction false} BytesTotal(a: Bytes, b: Bytes)
    ensures !(BytesLess(a, b) && BytesLess(b, a))
    ensures BytesLess(a, b) || BytesLess(b, a) <==> a != b
  {
    if a != [] && b != [] {
      BytesTotal(a[1..], b[1..]);
      assert a == [a[0]] + a[1..] && b == [b[0]] + b[1..];
    }
  }

  /** Two ids are in order when one is a proper prefix of the other, or at the first byte in which they differ. */
  lemma {:induction false} BytesLessIs(a: Bytes, b: Bytes)
    ensures BytesLess(a, b) <==> exists k: nat :: FirstDiffers(a, b, k)
  {
    if a == [] || b == [] {
      assert a == [] && b != [] ==> FirstDiffers(a, b, 0);
    } else {
      BytesLessIs(a[1..], b[1..]);
      if a[0] < b[0] {
        assert FirstDiffers(a, b, 0);
      } else if a[0] == b[0] {
        if exists k: nat :: FirstDiffers(a[1..], b[1..], k) {
          var k: nat :| FirstDiffers(a[1..], b[1..], k);
          assert a[..k + 1] == [a[0]] + a[1..][..k] && b[..k + 1] == [b[0]] + b[1..][..k];
          assert FirstDiffers(a, b, k + 1);
        }
        if exists k: nat :: FirstDiffers(a, b, k) {
          var k: nat :| FirstDiffers(a, b, k);
          assert k > 0 && a[1..][..k - 1] == a[..k][1..] && b[1..][..k - 1] == b[..k][1..];
          assert FirstDiffers(a[1..], b[1..], k - 1);
        }
      } else {
        assert forall k: nat :: FirstDiffers(a, b, k) ==> k == 0 || a[..k][0] == b[..k][0];
      }
    }
  }

  predicate FirstDiffers(a: Bytes, b: Bytes, k: nat) {
    && k <= |a| && k < |b| && a[..k] == b[..k]
    && (k == |a| || a[k] < b[k])
  }

  lemma {:induction false} BytesTransitive(a: Bytes, b: Bytes, c: Bytes)
    ensures BytesLess(a, b) && BytesLess(b, c) ==> BytesLess(a, c)
  {
    if a != [] && b != [] && c != [] {
      BytesTransitive(a[1..], b[1..], c[1..]);
    }
  }

  /** `(updated_at, document_id)` totally orders the listing. */
  lemma LessIsTotal(x: C.Cursor, y: C.Cursor)
    ensures !(Less(x, y) && Less(y, x))
    ensures Less(x, y) || Less(y, x) <==> x != y
  {
    BytesTotal(x.documentId, y.documentId);
  }

  lemma LessIsTransitive(x: C.Cursor, y: C.Cursor, z: C.Cursor)
    ensures Less(x, y) && Less(y, z) ==> Less(x, z)
  {
    BytesTransitive(x.documentId, y.documentId, z.documentId);
  }

  // ------------------------------------------------------------------ the read model

  predicate Wanted(r: Row, tenant: string, after: Option<C.Cursor>) {
    r.tenant == tenant && (after.Some? ==> Less(At(r), after.value))
  }

  function Filter(rows: seq<Row>, tenant: string, after: Option<C.Cursor>): seq<Row> {
    if rows == [] then []
    else (if Wanted(rows[0], tenant, after) then [rows[0]] else []) + Filter(rows[1..], tenant, after)
  }

  function Insert(r: Row, sorted: seq<Row>): seq<Row> {
    if sorted == [] || Less(At(sorted[0]), At(r)) then [r] + sorted else [sorted[0]] + Insert(r, sorted[1..])
  }

  function SortDescending(rows: seq<Row>): seq<Row> {
    if rows == [] then [] else Insert(rows[0], SortDescending(rows[1..]))
  }

  function Truncate(rows: seq<Row>, limit: nat): seq<Row> {
    if |rows| <= limit then rows else rows[..limit]
  }

  /** `rows` enumerates the table in any order. */
  function List(rows: seq<Row>, tenant: string, limit: nat, after: Option<C.Cursor>): seq<Row> {
    Truncate(SortDescending(Filter(rows, tenant, after)), limit)
  }

  // ------------------------------------------------------------------ the service and the endpoint

  datatype Page = Page(items: seq<Row>, next: Option<C.Cursor>)

  function ClampLimit(limit: nat): nat {
    if limit < 1 then 1 else if limit > MAX_LIST_LIMIT then MAX_LIST_LIMIT else limit
  }

  /** A cursor is offered only on a full page. */
  function ListDocuments(rows: seq<Row>, tenant: string, limit: nat, after: Option<C.Cursor>): Page {
    var items := List(rows, tenant, ClampLimit(limit), after);
    Page(items, if |items| == ClampLimit(limit) then Some(At(items[|items| - 1])) else None)
  }

  datatype Body = Body(items: seq<Row>, next: Option<string>)

  datatype BadRequest = InvalidCursor

  /** A token that does not decode is refused, never read as the beginning. */
  function Endpoint(rows: seq<Row>, tenant: string, limit: nat, token: Option<string>): Result<Body, BadRequest> {
    if token.Some? && C.Decode(token.value).None? then Err(InvalidCursor)
    else
      var page := ListDocuments(rows, tenant, limit, if token.Some? then C.Decode(token.value) else None);
      Ok(ToBody(page))
  }

  function ToBody(page: Page): Body {
    Body(page.items, if page.next.Some? then Some(C.Encode(page.next.value)) else None)
  }

  // ------------------------------------------------------------------ sorting and filtering

  ghost predicate AllBelow(s: seq<Row>, c: C.Cursor) {
    forall x <- s :: Less(At(x), c)
  }

  ghost predicate Descending(s: seq<Row>) {
    s == [] || (AllBelow(s[1..], At(s[0])) && Descending(s[1..]))
  }

  ghost predicate SameRows(a: seq<Row>, b: seq<Row>) {
    forall x :: x in a <==> x in b
  }

  /** No two rows share a place in the order. */
  ghost predicate Apart(rows: seq<Row>) {
    rows == [] || ((forall x <- rows[1..] :: At(x) != At(rows[0])) && Apart(rows[1..]))
  }

  lemma {:induction false} InsertPlaces(r: Row, s: seq<Row>)
    requires Descending(s) && forall x <- s :: At(x) != At(r)
    ensures Descending(Insert(r, s))
    ensures forall x :: x in Insert(r, s) <==> x == r || x in s
  {
    if s != [] {
      LessIsTotal(At(s[0]), At(r));
      assert s == [s[0]] + s[1..];
      if Less(At(s[0]), At(r)) {
        BelowWeakens(s[1..], At(s[0]), At(r));
        assert ([r] + s)[1..] == s;
      } else {
        InsertPlaces(r, s[1..]);
        var t := Insert(r, s[1..]);
        assert ([s[0]] + t)[1..] == t;
      }
    }
  }

  lemma BelowWeakens(s: seq<Row>, c: C.Cursor, d: C.Cursor)
    requires AllBelow(s, c) && Less(c, d)
    ensures AllBelow(s, d)
  {
    forall x | x in s
      ensures Less(At(x), d)
    {
      LessIsTransitive(At(x), c, d);
    }
  }

  lemma {:induction false} SortPlaces(rows: seq<Row>)
    requires Apart(rows)
    ensures Descending(SortDescending(rows)) && SameRows(SortDescending(rows), rows)
  {
    if rows != [] {
      SortPlaces(rows[1..]);
      InsertPlaces(rows[0], SortDescending(rows[1..]));
      assert rows == [rows[0]] + rows[1..];
    }
  }

  /** The primary key of the table, and what the types of its columns promise. */
  ghost predicate Table(rows: seq<Row>) {
    rows == []
    || (&& (forall x <- rows[1..] :: x.tenant == rows[0].tenant ==> x.documentId != rows[0].documentId)
        && C.Typed(At(rows[0])) && rows[0].documentId != []
        && Table(rows[1..]))
  }

  lemma {:induction false} FilterKeeps(rows: seq<Row>, tenant: string, after: Option<C.Cursor>)
    ensures forall x :: x in Filter(rows, tenant, after) <==> x in rows && Wanted(x, tenant, after)
    ensures Table(rows) ==> Apart(Filter(rows, tenant, after))
  {
    if rows != [] {
      FilterKeeps(rows[1..], tenant, after);
      assert rows == [rows[0]] + rows[1..];
      var rest := Filter(rows[1..], tenant, after);
      assert ([rows[0]] + rest)[1..] == rest;
      assert [] + rest == rest;
    }
  }

  lemma {:induction false} TypedRows(rows: seq<Row>, r: Row)
    requires Table(rows) && r in rows
    ensures C.Typed(At(r)) && r.documentId != []
  {
    if r != rows[0] {
      TypedRows(rows[1..], r);
    }
  }

  /** The whole listing of a tenant. */
  function Listing(rows: seq<Row>, tenant: string): seq<Row> {
    SortDescending(Filter(rows, tenant, None))
  }

  /** What the listing after a cursor holds: exactly the tenant's rows below it, in descending order. */
  lemma ListingIs(rows: seq<Row>, tenant: string, after: Option<C.Cursor>)
    requires Table(rows)
    ensures Descending(SortDescending(Filter(rows, tenant, after)))
    ensures forall x :: x in SortDescending(Filter(rows, tenant, after)) <==> x in rows && Wanted(x, tenant, after)
  {
    FilterKeeps(rows, tenant, after);
    SortPlaces(Filter(rows, tenant, after));
  }

  lemma {:induction false} DescendingApart(s: seq<Row>, i: nat, j: nat)
    requires Descending(s) && i < j < |s|
    ensures Less(At(s[j]), At(s[i]))
  {
    if i == 0 {
      assert s[j] == s[1..][j - 1];
    } else {
      DescendingApart(s[1..], i - 1, j - 1);
    }
  }

  lemma {:induction false} DescendingIsUnique(a: seq<Row>, b: seq<Row>)
    requires Descending(a) && Descending(b) && SameRows(a, b)
    ensures a == b
  {
    assert (a != [] ==> a[0] in b) && (b != [] ==> b[0] in a);
    if a != [] && b != [] {
      LessIsTotal(At(a[0]), At(b[0]));
      assert a == [a[0]] + a[1..] && b == [b[0]] + b[1..];
      assert a[0] == b[0];
      NotInOwnTail(a);
      NotInOwnTail(b);
      assert forall x :: x in a[1..] <==> x in a && x != a[0];
      assert forall x :: x in b[1..] <==> x in b && x != b[0];
      DescendingIsUnique(a[1..], b[1..]);
    }
  }

  lemma NotInOwnTail(a: seq<Row>)
    requires a != [] && Descending(a)
    ensures a[0] !in a[1..]
  {
    LessIsTotal(At(a[0]), At(a[0]));
  }

  lemma {:induction false} DescendingTail(s: seq<Row>, k: nat)
    requires Descending(s) && k <= |s|
    ensures Descending(s[k..])
  {
    if k > 0 {
      DescendingTail(s[1..], k - 1);
      assert s[1..][k - 1..] == s[k..];
    }
  }

  /** Below its `k`-th row, a descending sequence holds exactly its tail. */
  lemma TailIsBelow(s: seq<Row>, k: nat, x: Row)
    requires Descending(s) && 0 < k <= |s|
    ensures x in s[k..] <==> x in s && Less(At(x), At(s[k - 1]))
  {
    if x in s[k..] {
      var j :| k <= j < |s| && s[j] == x;
      DescendingApart(s, k - 1, j);
    } else if x in s {
      assert s == s[..k] + s[k..];
      var j :| 0 <= j < k && s[j] == x;
      LessIsTotal(At(s[j]), At(s[k - 1]));
      if j < k - 1 {
        DescendingApart(s, j, k - 1);
      }
    }
  }

  /** The cursor left by the first `k` rows of the listing. */
  ghost function Resume(all: seq<Row>, k: nat): Option<C.Cursor>
    requires k <= |all|
  {
    if k == 0 then None else Some(At(all[k - 1]))
  }

  /** Resuming below the `k`-th row lists exactly the rows from there on. */
  lemma ResumeIsTail(rows: seq<Row>, tenant: string, k: nat)
    requires Table(rows) && k <= |Listing(rows, tenant)|
    ensures SortDescending(Filter(rows, tenant, Resume(Listing(rows, tenant), k))) == Listing(rows, tenant)[k..]
  {
    var all := Listing(rows, tenant);
    var below := SortDescending(Filter(rows, tenant, Resume(all, k)));
    ListingIs(rows, tenant, None);
    ListingIs(rows, tenant, Resume(all, k));
    DescendingTail(all, k);
    if k > 0 {
      forall x
        ensures x in all[k..] <==> x in all && Less(At(x), At(all[k - 1]))
      {
        TailIsBelow(all, k, x);
      }
    }
    DescendingIsUnique(below, all[k..]);
  }

  /** The token left by the first `k` rows of the listing. */
  ghost function Token(all: seq<Row>, k: nat): Option<string>
    requires k <= |all|
  {
    if k == 0 then None else Some(C.Encode(At(all[k - 1])))
  }

  /** The next `size` rows after the first `k` with the token they leave; when fewer are left, all of them and none. */
  ghost function NextBody(all: seq<Row>, k: nat, size: nat): Body
    requires k <= |all|
  {
    if k + size <= |all| then Body(all[k..k + size], Token(all, k + size)) else Body(all[k..], None)
  }

  /** What the endpoint answers to the token left by the first `k` rows. */
  lemma PageIs(rows: seq<Row>, tenant: string, limit: nat, all: seq<Row>, k: nat)
    requires Table(rows) && all == Listing(rows, tenant) && k <= |all|
    ensures Endpoint(rows, tenant, limit, Token(all, k)) == Ok(NextBody(all, k, ClampLimit(limit)))
  {
    if k > 0 {
      ListingIs(rows, tenant, None);
      assert all[k - 1] in all;
      TypedRows(rows, all[k - 1]);
      C.CursorRoundTrip(At(all[k - 1]));
    }
    ResumeIsTail(rows, tenant, k);
    var page := ListDocuments(rows, tenant, limit, Resume(all, k));
    PageFrom(rows, tenant, limit, Resume(all, k), all, k, k + ClampLimit(limit));
    assert ToBody(page) == NextBody(all, k, ClampLimit(limit));
    TokenReads(rows, tenant, limit, all, k, page);
  }

  lemma TokenReads(rows: seq<Row>, tenant: string, limit: nat, all: seq<Row>, k: nat, page: Page)
    requires k <= |all| && page == ListDocuments(rows, tenant, limit, Resume(all, k))
    requires k > 0 ==> C.Decode(C.Encode(At(all[k - 1]))) == Some(At(all[k - 1]))
    ensures Endpoint(rows, tenant, limit, Token(all, k)) == Ok(ToBody(page))
  {
  }

  /** How many rows a page holds: what was asked for, at least 1 and at most 200, or fewer when fewer are left. */
  lemma PageSize(rows: seq<Row>, tenant: string, limit: nat, all: seq<Row>, k: nat)
    requires Table(rows) && all == Listing(rows, tenant) && k <= |all|
    ensures var page := Endpoint(rows, tenant, limit, Token(all, k));
            var asked := if limit == 0 then 1 else if limit <= 200 then limit else 200;
            && page.Ok? && |page.value.items| == (if asked <= |all| - k then asked else |all| - k)
            && (page.value.next.Some? <==> asked <= |all| - k)
  {
    PageIs(rows, tenant, limit, all, k);
  }

  /** A request is refused exactly when its token is not the hexadecimal form of a cursor: UTF-8 text that is a
      microsecond of the calendar in decimal, a colon, and a non-empty id. */
  lemma RefusedExactlyForJunk(rows: seq<Row>, tenant: string, limit: nat, token: string)
    ensures Endpoint(rows, tenant, limit, None).Ok?
    ensures Endpoint(rows, tenant, limit, Some(token)).Err? <==> !IsToken(token)
  {
    if C.HexDecode(token).Some? {
      var text := C.HexDecode(token).value;
      if IsToken(token) {
        var numeral, id :| IsText(text, numeral, id);
        C.SplitOnceIs(text, numeral, id);
      } else if C.SplitOnce(text).Some? {
        var parts := C.SplitOnce(text).value;
        C.SplitOnceIs(text, parts.0, parts.1);
        assert !IsText(text, parts.0, parts.1);
      }
    }
  }

  ghost predicate IsToken(token: string) {
    C.HexDecode(token).Some? && exists numeral, id :: IsText(C.HexDecode(token).value, numeral, id)
  }

  predicate IsText(text: Bytes, numeral: Bytes, id: Bytes) {
    && C.Utf8(text) && text == numeral + [C.COLON] + id && C.COLON !in numeral && id != []
    && C.ParseI64(numeral).Some? && C.MIN_MICROS <= C.ParseI64(numeral).value <= C.MAX_MICROS
  }

  lemma PageFrom(rows: seq<Row>, tenant: string, limit: nat, after: Option<C.Cursor>, all: seq<Row>, k: nat, n: nat)
    requires k <= |all| && SortDescending(Filter(rows, tenant, after)) == all[k..] && n == k + ClampLimit(limit)
    ensures ListDocuments(rows, tenant, limit, after)
            == if n <= |all| then Page(all[k..n], Some(At(all[n - 1]))) else Page(all[k..], None)
  {
    if n <= |all| {
      assert all[k..][..n - k] == all[k..n];
    }
  }

  /** A client that follows `next` until there is none. It stops, and has visited the tenant's whole listing. */
  method Crawl(rows: seq<Row>, tenant: string, limit: nat) returns (visited: seq<Row>)
    requires Table(rows)
    ensures visited == Listing(rows, tenant)
  {
    var token: Option<string> := None;
    var more := true;
    visited := [];
    ghost var all := Listing(rows, tenant);
    while more
      invariant visited <= all
      invariant more ==> token == Token(all, |visited|)
      invariant !more ==> visited == all
      decreases |all| - |visited|, more
    {
      PageIs(rows, tenant, limit, all, |visited|);
      var page := Endpoint(rows, tenant, limit, token).value;
      Advance(all, |visited|, ClampLimit(limit));
      visited := visited + page.items;
      token := page.next;
      more := token.Some?;
    }
  }

  lemma Advance(all: seq<Row>, k: nat, size: nat)
    requires k <= |all| && size > 0
    ensures var page := NextBody(all, k, size);
            && all[..k] + page.items <= all
            && (page.next.Some? ==> |page.items| == size && page.next == Token(all, k + size))
            && (page.next.None? ==> all[..k] + page.items == all)
  {
    if k + size <= |all| {
      assert all[..k] + all[k..k + size] == all[..k + size];
    }
  }

  /** That listing holds each row of the tenant exactly once, newest first. */
  lemma ListingVisitsOnce(rows: seq<Row>, tenant: string)
    requires Table(rows)
    ensures forall x :: x in Listing(rows, tenant) <==> x in rows && x.tenant == tenant
    ensures var all := Listing(rows, tenant);
            forall i, j :: 0 <= i < j < |all| ==>
              || all[j].updatedAt < all[i].updatedAt
              || (all[j].updatedAt == all[i].updatedAt && BytesLess(all[j].documentId, all[i].documentId))
    ensures var all := Listing(rows, tenant);
            forall i, j :: 0 <= i < j < |all| ==> all[j].documentId != all[i].documentId
  {
    var all := Listing(rows, tenant);
    ListingIs(rows, tenant, None);
    forall i, j | 0 <= i < j < |all|
      ensures Less(At(all[j]), At(all[i])) && all[j].documentId != all[i].documentId
    {
      DescendingApart(all, i, j);
      LessIsTotal(At(all[i]), At(all[j]));
      assert all[i] in all && all[j] in all;
      KeyApart(rows, all[i], all[j]);
    }
  }

  lemma {:induction false} KeyApart(rows: seq<Row>, x: Row, y: Row)
    requires Table(rows) && x in rows && y in rows && x != y && x.tenant == y.tenant
    ensures x.documentId != y.documentId
  {
    if rows[0] != x && rows[0] != y {
      KeyApart(rows[1..], x, y);
    }
  }

  // ------------------------------------------------------------------ a table that changes between pages

  /** Pages served from `tables`, one table a page, until a page offers no cursor or the tables run out: the rows
      visited, and whether the listing ended. */
  function Visit(tables: seq<seq<Row>>, tenant: string, limit: nat, after: Option<C.Cursor>): (seq<Row>, bool) {
    if tables == [] then ([], false)
    else
      var page := ListDocuments(tables[0], tenant, limit, after);
      if page.next.None? then (page.items, true)
      else
        var rest := Visit(tables[1..], tenant, limit, page.next);
        (page.items + rest.0, rest.1)
  }

  /** However the table changes between pages, places are visited in strictly descending order, and a row that stays
      as it is throughout a listing that ended has been visited. */
  lemma {:induction false} ChangingTable(tables: seq<seq<Row>>, tenant: string, limit: nat, after: Option<C.Cursor>,
                                         r: Row)
    requires forall t <- tables :: Table(t)
    ensures Descending(Visit(tables, tenant, limit, after).0)
    ensures after.Some? ==> AllBelow(Visit(tables, tenant, limit, after).0, after.value)
    ensures Visit(tables, tenant, limit, after).1 && (forall t <- tables :: r in t) && Wanted(r, tenant, after)
            ==> r in Visit(tables, tenant, limit, after).0
  {
    if tables != [] {
      var page := ListDocuments(tables[0], tenant, limit, after);
      PageHolds(tables[0], tenant, limit, after, page, r);
      if page.next.Some? {
        ChangingTable(tables[1..], tenant, limit, page.next, r);
        DescendingJoin(page.items, Visit(tables[1..], tenant, limit, page.next).0);
        if after.Some? {
          BelowWeakens(Visit(tables[1..], tenant, limit, page.next).0, page.next.value, after.value);
        }
      }
    }
  }

  lemma {:induction false} DescendingJoin(a: seq<Row>, b: seq<Row>)
    requires a != [] && Descending(a) && Descending(b) && AllBelow(b, At(a[|a| - 1]))
    ensures Descending(a + b)
  {
    assert (a + b)[1..] == a[1..] + b;
    if |a| > 1 {
      DescendingJoin(a[1..], b);
      DescendingApart(a, 0, |a| - 1);
      BelowWeakens(b, At(a[|a| - 1]), At(a[0]));
    }
  }

  lemma PageHolds(rows: seq<Row>, tenant: string, limit: nat, after: Option<C.Cursor>, page: Page, r: Row)
    requires Table(rows) && page == ListDocuments(rows, tenant, limit, after)
    ensures Descending(page.items) && (after.Some? ==> AllBelow(page.items, after.value))
    ensures page.next.Some? ==> page.items != [] && page.next.value == At(page.items[|page.items| - 1])
    ensures page.next.Some? && after.Some? ==> Less(page.next.value, after.value)
    ensures r in rows && Wanted(r, tenant, after) ==>
              r in page.items || (page.next.Some? && Less(At(r), page.next.value))
  {
    var all := SortDescending(Filter(rows, tenant, after));
    ListingIs(rows, tenant, after);
    PageFrom(rows, tenant, limit, after, all, 0, ClampLimit(limit));
    HeadHolds(all, |page.items|, r);
  }

  /** The first `n` of descending rows, and where any other row lies. */
  lemma HeadHolds(all: seq<Row>, n: nat, r: Row)
    requires Descending(all) && n <= |all|
    ensures Descending(all[..n]) && forall x <- all[..n] :: x in all
    ensures n > 0 && r in all ==> r in all[..n] || Less(At(r), At(all[n - 1]))
    ensures n == |all| ==> all[..n] == all
  {
    DescendingHead(all, n);
    assert all == all[..n] + all[n..];
    if n > 0 {
      TailIsBelow(all, n, r);
    }
  }

  lemma {:induction false} DescendingHead(s: seq<Row>, n: nat)
    requires Descending(s) && n <= |s|
    ensures Descending(s[..n])
  {
    if n > 0 {
      DescendingHead(s[1..], n - 1);
      assert s[..n][1..] == s[1..][..n - 1];
      assert forall x :: x in s[1..][..n - 1] ==> x in s[1..];
    }
  }
}
