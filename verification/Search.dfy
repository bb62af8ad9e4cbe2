// list_pages and search_pages as queries over the tables: filter, join, ORDER BY, OFFSET/LIMIT.
module Search {
  import opened Domain
  import opened PageTables
  import Like
  import Paging

  /* ORDER BY updated_at DESC, id DESC */

  // Binary collation on text.
  predicate StringLess(a: string, b: string) {
    if b == "" then false
    else if a == "" then true
    else a[0] < b[0] || (a[0] == b[0] && StringLess(a[1..], b[1..]))
  }

  predicate Before(p: Page, q: Page) {
    p.updatedAt > q.updatedAt || (p.updatedAt == q.updatedAt && StringLess(q.id, p.id))
  }

  function InsertByRecency<T>(page: T -> Page, x: T, s: seq<T>): seq<T> {
    if s == [] || Before(page(x), page(s[0])) then [x] + s
    else [s[0]] + InsertByRecency(page, x, s[1..])
  }

  function SortByRecency<T>(page: T -> Page, s: seq<T>): seq<T> {
    if s == [] then [] else InsertByRecency(page, s[0], SortByRecency(page, s[1..]))
  }

  function Map<T, U>(f: T -> U, s: seq<T>): (r: seq<U>)
    ensures |r| == |s| && forall i :: 0 <= i < |s| ==> r[i] == f(s[i])
  {
    seq(|s|, i requires 0 <= i < |s| => f(s[i]))
  }

  lemma {:induction false} StringLessTotal(a: string, b: string)
    ensures a != b ==> StringLess(a, b) != StringLess(b, a)
    ensures a == b ==> !StringLess(a, b)
  {
    if a != "" && b != "" {
      StringLessTotal(a[1..], b[1..]);
      assert a == [a[0]] + a[1..] && b == [b[0]] + b[1..];
    }
  }

  lemma {:induction false} StringLessTransitive(a: string, b: string, c: string)
    requires StringLess(a, b) && StringLess(b, c)
    ensures StringLess(a, c)
  {
    if a != "" && a[0] == b[0] == c[0] {
      StringLessTransitive(a[1..], b[1..], c[1..]);
    }
  }

  ghost predicate Sorted<T>(page: T -> Page, s: seq<T>) {
    forall i, j :: 0 <= i < j < |s| ==> !Before(page(s[j]), page(s[i]))
  }

  lemma BeforeWeaklyTransitive(p: Page, q: Page, r: Page)
    requires Before(p, q) && !Before(r, q)
    ensures !Before(r, p)
  {
    StringLessTotal(p.id, r.id);
    StringLessTotal(r.id, q.id);
    if StringLess(q.id, p.id) && StringLess(p.id, r.id) {
      StringLessTransitive(q.id, p.id, r.id);
    }
  }

  lemma {:induction false} InsertedMultiset<T>(page: T -> Page, x: T, s: seq<T>)
    ensures multiset(InsertByRecency(page, x, s)) == multiset(s) + multiset{x}
  {
    if s != [] && !Before(page(x), page(s[0])) {
      InsertedMultiset(page, x, s[1..]);
      assert s == [s[0]] + s[1..];
    }
  }

  lemma FrontBeforeAll<T>(page: T -> Page, x: T, s: seq<T>, j: nat)
    requires Sorted(page, s) && j < |s| && Before(page(x), page(s[0]))
    ensures !Before(page(s[j]), page(x))
  {
    if j == 0 {
      StringLessTotal(page(x).id, page(s[0]).id);
    } else {
      BeforeWeaklyTransitive(page(x), page(s[0]), page(s[j]));
    }
  }

  lemma {:induction false} InsertKeepsSorted<T>(page: T -> Page, x: T, s: seq<T>)
    requires Sorted(page, s)
    ensures Sorted(page, InsertByRecency(page, x, s))
    ensures multiset(InsertByRecency(page, x, s)) == multiset(s) + multiset{x}
  {
    InsertedMultiset(page, x, s);
    if s == [] {
    } else if Before(page(x), page(s[0])) {
      forall j | 0 <= j < |s|
        ensures !Before(page(s[j]), page(x))
      {
        FrontBeforeAll(page, x, s, j);
      }
    } else {
      var rest := InsertByRecency(page, x, s[1..]);
      InsertKeepsSorted(page, x, s[1..]);
      forall j | 0 <= j < |rest|
        ensures !Before(page(rest[j]), page(s[0]))
      {
        assert rest[j] in multiset(rest);
        assert rest[j] == x || rest[j] in s[1..];
      }
    }
  }

  // The sort is an ORDER BY: a permutation of its input in recency order.
  lemma {:induction false} SortSorts<T>(page: T -> Page, s: seq<T>)
    ensures Sorted(page, SortByRecency(page, s))
    ensures multiset(SortByRecency(page, s)) == multiset(s)
  {
    if s != [] {
      SortSorts(page, s[1..]);
      InsertKeepsSorted(page, s[0], SortByRecency(page, s[1..]));
      assert s == [s[0]] + s[1..];
    }
  }

  lemma {:induction false} InsertCommutes<T>(page: T -> Page, self: Page -> Page, x: T, s: seq<T>)
    requires forall p :: self(p) == p
    ensures Map(page, InsertByRecency(page, x, s)) == InsertByRecency(self, page(x), Map(page, s))
  {
    if s != [] && !Before(page(x), page(s[0])) {
      InsertCommutes(page, self, x, s[1..]);
      assert Map(page, s)[1..] == Map(page, s[1..]);
    }
  }

  // Sorting joined rows by their page sorts the pages.
  lemma {:induction false} SortCommutes<T>(page: T -> Page, self: Page -> Page, s: seq<T>)
    requires forall p :: self(p) == p
    ensures Map(page, SortByRecency(page, s)) == SortByRecency(self, Map(page, s))
  {
    if s != [] {
      SortCommutes(page, self, s[1..]);
      InsertCommutes(page, self, s[0], SortByRecency(page, s[1..]));
      assert Map(page, s)[1..] == Map(page, s[1..]);
    }
  }

  /* The two queries */

  // `query` is the lowercased search text; `lower` is SQL's lower().
  datatype PageQuery = PageQuery(actor: Actor, workspaceId: string, query: Option<string>)

  predicate TextHit(query: Option<string>, lower: string -> string, text: string) {
    query.Some? && Like.Matches(Like.ContainsPattern(query.value), lower(text))
  }

  predicate InScope(q: PageQuery, p: Page) {
    Visible(p, q.actor) && p.workspaceId == q.workspaceId
  }

  predicate ListHit(q: PageQuery, lower: string -> string, p: Page) {
    InScope(q, p) && (q.query.None? || TextHit(q.query, lower, p.title) || TextHit(q.query, lower, p.snippet.GetOr("")))
  }

  function PageRows(db: Db, order: seq<string>): seq<Page> {
    if order == [] then []
    else (if order[0] in db.pages then [db.pages[order[0]]] else []) + PageRows(db, order[1..])
  }

  function ListHits(q: PageQuery, lower: string -> string, rows: seq<Page>): seq<Page> {
    if rows == [] then []
    else (if ListHit(q, lower, rows[0]) then [rows[0]] else []) + ListHits(q, lower, rows[1..])
  }

  function ListPages(db: Db, q: PageQuery, lower: string -> string, page: int, size: int): seq<Page>
    requires page >= 1 && size >= 1
  {
    Paging.Fetch(SortByRecency(p => p, ListHits(q, lower, PageRows(db, db.order))), page, size)
  }

  // A row of the LEFT JOIN of pages with projections.
  datatype Joined = Joined(page: Page, projection: Option<Projection>)

  predicate Joins(sp: Projection, p: Page) {
    SameKey(sp, p) && sp.workspaceId == p.workspaceId && sp.versionNo == p.versionNo
  }

  function Matching(sps: seq<Projection>, p: Page): seq<Joined> {
    if sps == [] then []
    else (if Joins(sps[0], p) then [Joined(p, Some(sps[0]))] else []) + Matching(sps[1..], p)
  }

  function LeftJoin(sps: seq<Projection>, rows: seq<Page>): seq<Joined> {
    if rows == [] then []
    else
      var matching := Matching(sps, rows[0]);
      (if matching == [] then [Joined(rows[0], None)] else matching) + LeftJoin(sps, rows[1..])
  }

  predicate SearchHit(q: PageQuery, lower: string -> string, j: Joined) {
    InScope(q, j.page) && (
      || q.query.None?
      || TextHit(q.query, lower, j.page.title)
      || TextHit(q.query, lower, j.page.snippet.GetOr(""))
      || TextHit(q.query, lower, if j.projection.Some? then j.projection.value.title else "")
      || TextHit(q.query, lower, if j.projection.Some? then j.projection.value.plainText else "")
      || TextHit(q.query, lower, if j.projection.Some? then j.projection.value.snippet else ""))
  }

  function SearchHits(q: PageQuery, lower: string -> string, rows: seq<Joined>): seq<Joined> {
    if rows == [] then []
    else (if SearchHit(q, lower, rows[0]) then [rows[0]] else []) + SearchHits(q, lower, rows[1..])
  }

  // The selected columns: the page, with COALESCE(sp.snippet, p.snippet) as its snippet.
  function Selected(j: Joined): Page {
    if j.projection.Some? then j.page.(snippet := Some(j.projection.value.snippet)) else j.page
  }

  function SearchPages(db: Db, q: PageQuery, lower: string -> string, page: int, size: int): seq<Page>
    requires page >= 1 && size >= 1
  {
    var joined := LeftJoin(db.projections, PageRows(db, db.order));
    Map(Selected, Paging.Fetch(SortByRecency((j: Joined) => j.page, SearchHits(q, lower, joined)), page, size))
  }

  function PageIds(pages: seq<Page>): seq<string> {
    Map((p: Page) => p.id, pages)
  }
}
