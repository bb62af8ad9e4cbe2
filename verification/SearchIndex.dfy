// The search projection as an index: in every reachable state it agrees with the page rows for
// every current version, although one writer never refreshes it.
module SearchIndex {
  import opened Domain
  import opened Ids
  import opened Drive
  import opened PageTables
  import opened PageCommands
  import opened PageProtocol
  import opened PageInvariant
  import opened Search
  import Paging

  predicate Mirrors(sp: Projection, p: Page) {
    sp.title == p.title && sp.plainText == p.snippet.GetOr("") && sp.snippet == p.snippet.GetOr("")
  }

  // A projection row belongs to a live page and to a version that was current at some time; if
  // that version is current now, the row mirrors the page.
  ghost predicate ProjectionOk(pages: map<string, Page>, sp: Projection) {
    && sp.pageId in pages
    && var p := pages[sp.pageId];
      && !p.deleted
      && sp.tenant == p.tenant && sp.organization == p.organization && sp.workspaceId == p.workspaceId
      && 1 <= sp.versionNo <= p.versionNo
      && sp.versionId == VersionId(sp.pageId, sp.versionNo)
      && sp.id == ProjectionId(sp.pageId, sp.versionId)
      && (sp.versionNo == p.versionNo ==> Mirrors(sp, p))
  }

  ghost predicate KeysDistinct(sps: seq<Projection>) {
    forall i, j :: 0 <= i < j < |sps| ==> !(sps[i].pageId == sps[j].pageId && sps[i].versionNo == sps[j].versionNo)
  }

  ghost predicate OrderOk(db: Db) {
    && (forall i, j :: 0 <= i < j < |db.order| ==> db.order[i] != db.order[j])
    && (forall id :: id in db.order <==> id in db.pages)
  }

  ghost predicate IndexInv(db: Db) {
    && OrderOk(db)
    && KeysDistinct(db.projections)
    && forall sp :: sp in db.projections ==> ProjectionOk(db.pages, sp)
  }

  // The pointer of every row is a formatted version id, as PagesInv and DriveInv give it.
  ghost predicate PointersFormatted(db: Db) {
    forall id :: id in db.pages ==>
      db.pages[id].id == id && db.pages[id].versionNo >= 1
      && db.pages[id].versionId == VersionId(id, db.pages[id].versionNo)
  }

  lemma InvFormatsPointers(w: World)
    requires TablesInv(w)
    ensures PointersFormatted(w.db)
  {
    forall id | id in w.db.pages
      ensures w.db.pages[id].id == id && w.db.pages[id].versionNo >= 1
        && w.db.pages[id].versionId == VersionId(id, w.db.pages[id].versionNo)
    {
      EntryIsValid(w, w.db.pages[id]);
    }
  }

  /* The upsert */

  // Rows of other pages and of earlier versions of p.
  ghost predicate BehindPage(sps: seq<Projection>, p: Page) {
    forall sp :: sp in sps && sp.pageId == p.id ==>
      && sp.tenant == p.tenant && sp.organization == p.organization && sp.workspaceId == p.workspaceId
      && 1 <= sp.versionNo <= p.versionNo
      && sp.versionId == VersionId(sp.pageId, sp.versionNo)
      && sp.id == ProjectionId(sp.pageId, sp.versionId)
  }

  lemma SameKeyIsCurrent(sps: seq<Projection>, p: Page, sp: Projection)
    requires BehindPage(sps, p) && sp in sps
    requires p.versionNo >= 1 && p.versionId == VersionId(p.id, p.versionNo)
    ensures SameKey(sp, p) <==> sp.pageId == p.id && sp.versionNo == p.versionNo
  {
    if sp.pageId == p.id {
      VersionIdInjective(p.id, sp.versionNo, p.id, p.versionNo);
    }
  }

  // Two rows share a primary key only if they share the key the upsert is declared on, so the
  // upsert never fails.
  lemma PrimaryKeyNeverTaken(pages: map<string, Page>, sps: seq<Projection>, p: Page)
    requires BehindPage(sps, p) && p.versionNo >= 1 && p.versionId == VersionId(p.id, p.versionNo)
    requires forall sp :: sp in sps && sp.pageId != p.id ==> ProjectionOk(pages, sp)
    ensures !PrimaryKeyTaken(sps, p)
  {
    forall i | 0 <= i < |sps| && sps[i].id == ProjectionId(p.id, p.versionId)
      ensures SameKey(sps[i], p)
    {
      var sp := sps[i];
      assert sp in sps;
      assert sp.id == ProjectionId(sp.pageId, VersionId(sp.pageId, sp.versionNo));
      ProjectionIdInjective(sp.pageId, sp.versionNo, p.id, p.versionNo);
    }
  }

  // The upsert touches the one row with the page's current version, or appends it.
  lemma UpsertShape(sps: seq<Projection>, p: Page)
    requires KeysDistinct(sps) && BehindPage(sps, p) && !PrimaryKeyTaken(sps, p)
    requires p.versionNo >= 1 && p.versionId == VersionId(p.id, p.versionNo)
    ensures UpsertProjection(sps, p).Ok?
    ensures var sps' := UpsertProjection(sps, p).value;
      && KeysDistinct(sps')
      && forall i :: 0 <= i < |sps'| ==>
        sps'[i] == NewProjection(p)
        || (i < |sps| && sps'[i] == sps[i] && !(sps[i].pageId == p.id && sps[i].versionNo == p.versionNo))
  {
    var k := KeyIndex(sps, p);
    forall i | 0 <= i < |sps|
      ensures sps[i].pageId == p.id && sps[i].versionNo == p.versionNo <==> i == k
    {
      SameKeyIsCurrent(sps, p, sps[i]);
      if k < |sps| {
        SameKeyIsCurrent(sps, p, sps[k]);
      }
    }
  }

  // The upsert for a live page row that has not moved back succeeds and restores the agreement.
  lemma UpsertRestores(db: Db, p: Page)
    requires OrderOk(db.(pages := db.pages[p.id := p]))
    requires KeysDistinct(db.projections) && BehindPage(db.projections, p)
    requires forall sp :: sp in db.projections && sp.pageId != p.id ==> ProjectionOk(db.pages, sp)
    requires !p.deleted && p.versionNo >= 1 && p.versionId == VersionId(p.id, p.versionNo)
    ensures StoreAndProject(db, p).1 == Ok(p)
    ensures IndexInv(StoreAndProject(db, p).0)
  {
    PrimaryKeyNeverTaken(db.pages, db.projections, p);
    UpsertShape(db.projections, p);
    var db' := StoreAndProject(db, p).0;
    forall i | 0 <= i < |db'.projections|
      ensures ProjectionOk(db'.pages, db'.projections[i])
    {
      if db'.projections[i] != NewProjection(p) {
        assert db.projections[i] in db.projections;
      }
    }
  }

  /* Every writer keeps the index */

  lemma UpdateKeepsIndex(db: Db, p: Page)
    requires IndexInv(db) && p.id in db.pages && RowStep(db.pages[p.id], p)
    requires !p.deleted && p.versionNo >= 1 && p.versionId == VersionId(p.id, p.versionNo)
    ensures StoreAndProject(db, p).1 == Ok(p)
    ensures IndexInv(StoreAndProject(db, p).0)
  {
    UpsertRestores(db, p);
  }

  lemma InsertKeepsIndex(db: Db, draft: PageDraft, s: Snapshot, now: int)
    requires IndexInv(db) && s.versionNo >= 1 && s.versionId == VersionId(draft.id, s.versionNo)
    ensures IndexInv(InsertPage(db, draft, s, now).0)
    ensures draft.id !in db.pages && !NodeTaken(db, draft.actor.tenant, s.nodeId) ==>
      InsertPage(db, draft, s, now).1 == Ok(NewPage(draft, s, now))
  {
    if draft.id !in db.pages {
      UpsertRestores(db.(order := db.order + [draft.id]), NewPage(draft, s, now));
    }
  }

  // An apply moves the pointer to a version that was never current, so the index holds no row for
  // it that could disagree: skipping the upsert leaves older rows behind, and nothing stale joins.
  lemma SkippedUpsertKeepsIndex(db: Db, db': Db, p: Page)
    requires IndexInv(db) && p.id in db.pages && RowStep(db.pages[p.id], p)
    requires !p.deleted && p.versionNo > db.pages[p.id].versionNo
    requires db'.pages == db.pages[p.id := p] && db'.order == db.order && db'.projections == db.projections
    ensures IndexInv(db')
  {
  }

  lemma {:induction false} WithoutPageShape(sps: seq<Projection>, actor: Actor, id: string)
    ensures forall sp :: sp in WithoutPage(sps, actor, id) <==>
      sp in sps && !(sp.tenant == actor.tenant && sp.organization == actor.organization && sp.pageId == id)
    ensures KeysDistinct(sps) ==> KeysDistinct(WithoutPage(sps, actor, id))
  {
    if sps != [] {
      WithoutPageShape(sps[1..], actor, id);
      assert KeysDistinct(sps) ==> KeysDistinct(sps[1..]);
      assert sps == [sps[0]] + sps[1..];
    }
  }

  lemma DeleteKeepsIndex(db: Db, actor: Actor, id: string, now: int)
    requires IndexInv(db) && PointersFormatted(db)
    ensures IndexInv(DeletePage(db, actor, id, now).0)
    ensures DeletePage(db, actor, id, now).1.Ok? ==>
      forall sp :: sp in DeletePage(db, actor, id, now).0.projections ==> sp.pageId != id
  {
    WithoutPageShape(db.projections, actor, id);
  }

  // The row a commit writes when it finds the pointer its client read.
  lemma CommittedRow(w: World, c: Client, now: int)
    requires TablesInv(w) && c.CommitReady? && ClientOk(w, c)
    requires w.db.pages[c.page.id].versionId == c.page.versionId
    ensures var cur := w.db.pages[c.page.id];
      var p := Repointed(cur, c.snapshot, c.actor, now);
      && RowStep(cur, p) && p.versionNo > cur.versionNo && p.versionNo >= 1
      && p.versionId == VersionId(p.id, p.versionNo)
  {
    var cur := w.db.pages[c.page.id];
    SameVersionSameNumber(w, c.page);
    RepointedRow(w, cur, c.snapshot, c.actor, now);
    EntryIsValid(w, Repointed(cur, c.snapshot, c.actor, now));
  }

  lemma CommitKeepsIndex(w: World, c: Client, now: int)
    requires TablesInv(w) && IndexInv(w.db) && c.CommitReady? && ClientOk(w, c)
    ensures IndexInv(CommitStep(w.db, c, now).0)
  {
    var page, s := c.page, c.snapshot;
    var cur := w.db.pages[page.id];
    if FindPage(w.db, c.actor, page.id).Ok? && cur.versionId == page.versionId {
      CommittedRow(w, c, now);
      var p := Repointed(cur, s, c.actor, now);
      if c.goal.None? {
        UpdateKeepsIndex(w.db, p);
      } else if ApplySuggestion(w.db, c.actor, c.goal.value.id, page.id, s, page.versionId, now).1.Ok? {
        SkippedUpsertKeepsIndex(w.db, CommitStep(w.db, c, now).0, p);
      }
    }
  }

  lemma PatchKeepsIndex(w: World, c: Client, now: int)
    requires TablesInv(w) && IndexInv(w.db) && c.Patching? && ClientOk(w, c)
    ensures IndexInv(PatchStep(w.db, c, now).0)
  {
    InvFormatsPointers(w);
    if FindPage(w.db, c.actor, c.page.id).Ok? {
      UpdateKeepsIndex(w.db, Patched(w.db.pages[c.page.id], c.patch, c.actor, now));
    }
  }

  lemma CreatingKeepsIndex(w: World, c: Client, now: int)
    requires TablesInv(w) && IndexInv(w.db) && c.Creating? && ClientOk(w, c)
    ensures IndexInv(InsertPage(w.db, c.draft, c.snapshot, now).0)
  {
    assert HistoryOk(c.draft.id, w.drive.versions[c.draft.id]);
    assert EntryOk(c.draft.id, History(w.drive, c.draft.id), 0);
    InsertKeepsIndex(w.db, c.draft, c.snapshot, now);
  }

  lemma StepKeepsIndex(w: World, step: Step)
    requires Inv(w) && IndexInv(w.db)
    ensures IndexInv(Next(w, step).db)
  {
    match step
    case StepInsertPage(c, now) =>
      if c in w.clients && w.clients[c].Creating? { CreatingKeepsIndex(w, w.clients[c], now); }
    case StepCommit(c, now) =>
      if c in w.clients && w.clients[c].CommitReady? { CommitKeepsIndex(w, w.clients[c], now); }
    case StepPatch(c, now) =>
      if c in w.clients && w.clients[c].Patching? { PatchKeepsIndex(w, w.clients[c], now); }
    case StepDelete(actor, id, now) => InvFormatsPointers(w); DeleteKeepsIndex(w.db, actor, id, now);
    case _ => SameIndex(w, step);
  }

  lemma SameIndex(w: World, step: Step)
    requires IndexInv(w.db) && !step.StepInsertPage? && !step.StepCommit? && !step.StepPatch? && !step.StepDelete?
    ensures IndexInv(Next(w, step).db)
  {
    var db := Next(w, step).db;
    assert db.pages == w.db.pages && db.order == w.db.order && db.projections == w.db.projections;
  }

  /* Agreement of the two queries */

  // A live page has at most one joining projection row, and that row mirrors the page.
  lemma {:induction false} AtMostOneMatch(db: Db, sps: seq<Projection>, p: Page)
    requires IndexInv(db) && PointersFormatted(db) && p.id in db.pages && p == db.pages[p.id]
    requires KeysDistinct(sps) && forall sp :: sp in sps ==> sp in db.projections
    ensures |Matching(sps, p)| <= 1
    ensures forall j :: j in Matching(sps, p) ==>
      j.page == p && j.projection.Some? && j.projection.value in sps
      && Mirrors(j.projection.value, p) && j.projection.value.versionNo == p.versionNo && j.projection.value.pageId == p.id
  {
    if sps != [] {
      assert KeysDistinct(sps[1..]);
      AtMostOneMatch(db, sps[1..], p);
      assert ProjectionOk(db.pages, sps[0]);
      forall j | j in Matching(sps[1..], p)
        ensures !Joins(sps[0], p)
      {
        var i :| 0 <= i < |sps[1..]| && sps[1..][i] == j.projection.value;
        assert sps[i + 1] == j.projection.value;
      }
      if Matching(sps[1..], p) != [] {
        assert Matching(sps[1..], p)[0] in Matching(sps[1..], p);
      }
    }
  }

  // COALESCE of a missing projection to the empty text adds no hit of its own: the empty text
  // contains only the empty query, which the title contains too.
  lemma EmptyTextAddsNothing(query: Option<string>, lower: string -> string, title: string)
    requires lower("") == "" && TextHit(query, lower, "")
    ensures TextHit(query, lower, title)
  {
    Like.ContainsPatternIsSubstring(query.value, "");
    Like.ContainsPatternIsSubstring(query.value, lower(title));
    assert query.value == "";
    assert query.value <= lower(title)[0..];
  }

  lemma HitAgrees(q: PageQuery, lower: string -> string, j: Joined)
    requires lower("") == ""
    requires j.projection.Some? ==> Mirrors(j.projection.value, j.page)
    ensures SearchHit(q, lower, j) == ListHit(q, lower, j.page)
  {
    if TextHit(q.query, lower, "") {
      EmptyTextAddsNothing(q.query, lower, j.page.title);
    }
  }

  // The join of one live page: the page itself, once.
  lemma JoinOfPage(db: Db, q: PageQuery, lower: string -> string, p: Page, rest: seq<Page>) returns (j: Joined)
    requires IndexInv(db) && PointersFormatted(db) && lower("") == ""
    requires p.id in db.pages && p == db.pages[p.id]
    ensures LeftJoin(db.projections, [p] + rest) == [j] + LeftJoin(db.projections, rest)
    ensures j.page == p && SearchHit(q, lower, j) == ListHit(q, lower, p)
  {
    var matching := Matching(db.projections, p);
    AtMostOneMatch(db, db.projections, p);
    assert ([p] + rest)[1..] == rest;
    if matching == [] {
      j := Joined(p, None);
    } else {
      j := matching[0];
      assert j in matching;
      assert matching == [j];
    }
    HitAgrees(q, lower, j);
  }

  lemma {:induction false} JoinAgrees(db: Db, q: PageQuery, lower: string -> string, rows: seq<Page>)
    requires IndexInv(db) && PointersFormatted(db) && lower("") == ""
    requires forall p :: p in rows ==> p.id in db.pages && p == db.pages[p.id]
    ensures Map((j: Joined) => j.page, SearchHits(q, lower, LeftJoin(db.projections, rows))) == ListHits(q, lower, rows)
  {
    if rows != [] {
      JoinAgrees(db, q, lower, rows[1..]);
      assert rows == [rows[0]] + rows[1..];
      var j := JoinOfPage(db, q, lower, rows[0], rows[1..]);
      var rest := LeftJoin(db.projections, rows[1..]);
      assert ([j] + rest)[1..] == rest;
    }
  }

  lemma {:induction false} PageRowsAreRows(db: Db, order: seq<string>)
    requires PointersFormatted(db)
    ensures forall p :: p in PageRows(db, order) ==> p.id in db.pages && p == db.pages[p.id] && p.id in order
  {
    if order != [] {
      PageRowsAreRows(db, order[1..]);
    }
  }

  lemma FetchCommutes<T, U>(f: T -> U, rows: seq<T>, page: int, size: int)
    requires page >= 1 && size >= 1
    ensures Map(f, Paging.Fetch(rows, page, size)) == Paging.Fetch(Map(f, rows), page, size)
  {
  }

  /* Every page at most once */

  ghost predicate EachOnce<T(!new)>(m: multiset<T>) {
    forall x :: m[x] <= 1
  }

  lemma {:induction false} RowsOnce(db: Db, order: seq<string>)
    requires PointersFormatted(db)
    requires forall i, j :: 0 <= i < j < |order| ==> order[i] != order[j]
    ensures EachOnce(multiset(PageRows(db, order)))
  {
    if order != [] {
      RowsOnce(db, order[1..]);
      PageRowsAreRows(db, order[1..]);
    }
  }

  lemma {:induction false} HitsAreSome(q: PageQuery, lower: string -> string, rows: seq<Page>)
    ensures multiset(ListHits(q, lower, rows)) <= multiset(rows)
  {
    if rows != [] {
      HitsAreSome(q, lower, rows[1..]);
      assert rows == [rows[0]] + rows[1..];
    }
  }

  lemma OnceIsDistinct<T(!new)>(s: seq<T>, i: nat, j: nat)
    requires EachOnce(multiset(s)) && i < j < |s|
    ensures s[i] != s[j]
  {
    var rest := s[..i] + s[i + 1..];
    assert s == s[..i] + [s[i]] + s[i + 1..];
    assert multiset(s) == multiset(rest) + multiset{s[i]};
    assert rest[j - 1] == s[j] && s[j] in multiset(rest);
    assert multiset(s)[s[i]] == multiset(rest)[s[i]] + 1;
  }

  lemma HitsAreOnce(db: Db, q: PageQuery, lower: string -> string)
    requires IndexInv(db) && PointersFormatted(db)
    ensures var sorted := SortByRecency((p: Page) => p, ListHits(q, lower, PageRows(db, db.order)));
      && EachOnce(multiset(sorted))
      && forall p :: p in sorted ==> p.id in db.pages && p == db.pages[p.id]
  {
    var rows := PageRows(db, db.order);
    PageRowsAreRows(db, db.order);
    RowsOnce(db, db.order);
    HitsAreSome(q, lower, rows);
    SortSorts((p: Page) => p, ListHits(q, lower, rows));
    var sorted := SortByRecency((p: Page) => p, ListHits(q, lower, rows));
    forall p | p in sorted
      ensures p.id in db.pages && p == db.pages[p.id]
    {
      assert p in multiset(sorted);
      assert p in multiset(rows);
    }
  }

  lemma ListedOnce(db: Db, q: PageQuery, lower: string -> string, page: int, size: int)
    requires IndexInv(db) && PointersFormatted(db) && page >= 1 && size >= 1
    ensures var ids := PageIds(ListPages(db, q, lower, page, size));
      forall i, j :: 0 <= i < j < |ids| ==> ids[i] != ids[j]
  {
    var sorted := SortByRecency((p: Page) => p, ListHits(q, lower, PageRows(db, db.order)));
    HitsAreOnce(db, q, lower);
    DistinctRows(db, sorted);
    FetchedOnce(sorted, page, size);
  }

  lemma FetchedOnce(rows: seq<Page>, page: int, size: int)
    requires page >= 1 && size >= 1 && forall i, j :: 0 <= i < j < |rows| ==> rows[i].id != rows[j].id
    ensures var ids := PageIds(Paging.Fetch(rows, page, size)); forall i, j :: 0 <= i < j < |ids| ==> ids[i] != ids[j]
  {
    var fetched := Paging.Fetch(rows, page, size);
    var from := Paging.Min(Paging.Offset(page, size), |rows|);
    assert forall i :: 0 <= i < |fetched| ==> fetched[i] == rows[from + i];
  }

  // Rows of the table without repetition have different ids.
  lemma DistinctRows(db: Db, rows: seq<Page>)
    requires EachOnce(multiset(rows)) && forall p :: p in rows ==> p.id in db.pages && p == db.pages[p.id]
    ensures forall i, j :: 0 <= i < j < |rows| ==> rows[i].id != rows[j].id
  {
    forall i, j | 0 <= i < j < |rows|
      ensures rows[i].id != rows[j].id
    {
      OnceIsDistinct(rows, i, j);
      assert rows[i] in rows && rows[j] in rows;
    }
  }

  // What a listed page is, without the query's own terms: a live page of the workspace that the actor
  // sees and whose title or snippet, lowercased, contains the lowercased query.
  predicate Listed(db: Db, q: PageQuery, lower: string -> string, p: Page) {
    && p.id in db.pages && p == db.pages[p.id] && !p.deleted
    && p.tenant == q.actor.tenant && p.organization == q.actor.organization && p.workspaceId == q.workspaceId
    && (q.query.Some? ==>
          Like.Contains(lower(p.title), q.query.value)
          || Like.Contains(lower(if p.snippet.Some? then p.snippet.value else ""), q.query.value))
  }

  lemma {:induction false} RowsAreListed(db: Db, order: seq<string>, p: Page)
    requires PointersFormatted(db)
    ensures p in PageRows(db, order) <==> p.id in order && p.id in db.pages && p == db.pages[p.id]
  {
    if order != [] {
      RowsAreListed(db, order[1..], p);
    }
  }

  lemma {:induction false} HitsAreFiltered(q: PageQuery, lower: string -> string, rows: seq<Page>, p: Page)
    ensures p in ListHits(q, lower, rows) <==> p in rows && ListHit(q, lower, p)
  {
    if rows != [] {
      HitsAreFiltered(q, lower, rows[1..], p);
    }
  }

  // The later update comes first; of two at one time, the greater id.
  predicate LatestFirst(p: Page, q: Page) {
    p.updatedAt > q.updatedAt || (p.updatedAt == q.updatedAt && StringLess(q.id, p.id))
  }

  // list_pages pages through exactly the pages it should, each once, latest first.
  lemma ListFindsExactly(db: Db, q: PageQuery, lower: string -> string, page: int, size: int)
    requires IndexInv(db) && PointersFormatted(db) && page >= 1 && size >= 1
    ensures var all := SortByRecency((p: Page) => p, ListHits(q, lower, PageRows(db, db.order)));
      && ListPages(db, q, lower, page, size) == Paging.Fetch(all, page, size)
      && (forall i, j :: 0 <= i < j < |all| ==> LatestFirst(all[i], all[j]))
      && (forall p :: p in all <==> Listed(db, q, lower, p))
      && (forall i, j :: 0 <= i < j < |all| ==> all[i].id != all[j].id)
  {
    var hits := ListHits(q, lower, PageRows(db, db.order));
    var all := SortByRecency((p: Page) => p, hits);
    SortSorts((p: Page) => p, hits);
    HitsAreOnce(db, q, lower);
    DistinctRows(db, all);
    forall i, j | 0 <= i < j < |all| ensures LatestFirst(all[i], all[j]) {
      StringLessTotal(all[i].id, all[j].id);
    }
    forall p ensures p in all <==> Listed(db, q, lower, p) {
      assert p in all <==> p in multiset(all);
      HitsAreFiltered(q, lower, PageRows(db, db.order), p);
      RowsAreListed(db, db.order, p);
      HitIsListed(db, q, lower, p);
    }
  }

  lemma HitIsListed(db: Db, q: PageQuery, lower: string -> string, p: Page)
    requires OrderOk(db)
    ensures p.id in db.order && p.id in db.pages && p == db.pages[p.id] && ListHit(q, lower, p) <==> Listed(db, q, lower, p)
  {
    if q.query.Some? {
      Like.ContainsPatternIsSubstring(q.query.value, lower(p.title));
      Like.ContainsPatternIsSubstring(q.query.value, lower(p.snippet.GetOr("")));
    }
  }

  // Joined rows whose projection, if any, mirrors the page.
  ghost predicate AllMirror(rows: seq<Joined>) {
    forall j :: j in rows ==> (j.projection.Some? ==> Mirrors(j.projection.value, j.page))
  }

  lemma {:induction false} JoinMirrors(db: Db, rows: seq<Page>)
    requires IndexInv(db) && PointersFormatted(db)
    requires forall p :: p in rows ==> p.id in db.pages && p == db.pages[p.id]
    ensures AllMirror(LeftJoin(db.projections, rows))
  {
    if rows != [] {
      JoinMirrors(db, rows[1..]);
      AtMostOneMatch(db, db.projections, rows[0]);
    }
  }

  lemma {:induction false} HitsMirror(q: PageQuery, lower: string -> string, rows: seq<Joined>)
    requires AllMirror(rows)
    ensures AllMirror(SearchHits(q, lower, rows))
  {
    if rows != [] {
      assert AllMirror(rows[1..]);
      HitsMirror(q, lower, rows[1..]);
    }
  }

  lemma SortedMirror(page: Joined -> Page, rows: seq<Joined>)
    requires AllMirror(rows)
    ensures AllMirror(SortByRecency(page, rows))
  {
    SortSorts(page, rows);
    forall j | j in SortByRecency(page, rows) ensures j in rows {
      assert j in multiset(SortByRecency(page, rows));
    }
  }

  // The page row with its snippet, a missing one possibly as an empty text.
  predicate SameAsRow(found: Page, row: Page) {
    found == row.(snippet := found.snippet) && found.snippet.GetOr("") == row.snippet.GetOr("")
  }

  // search_pages returns the rows that list_pages returns, with the same snippets.
  lemma SearchReturnsRows(db: Db, q: PageQuery, lower: string -> string, page: int, size: int)
    requires IndexInv(db) && PointersFormatted(db) && lower("") == "" && page >= 1 && size >= 1
    ensures var found, listed := SearchPages(db, q, lower, page, size), ListPages(db, q, lower, page, size);
      |found| == |listed| && forall i :: 0 <= i < |found| ==> SameAsRow(found[i], listed[i])
  {
    var rows := PageRows(db, db.order);
    var joined := LeftJoin(db.projections, rows);
    var pageOf := (j: Joined) => j.page;
    var sorted := SortByRecency(pageOf, SearchHits(q, lower, joined));
    var fetched := Paging.Fetch(sorted, page, size);
    PageRowsAreRows(db, db.order);
    JoinMirrors(db, rows);
    HitsMirror(q, lower, joined);
    SortedMirror(pageOf, SearchHits(q, lower, joined));
    JoinAgrees(db, q, lower, rows);
    SortCommutes(pageOf, (p: Page) => p, SearchHits(q, lower, joined));
    FetchCommutes(pageOf, sorted, page, size);
    forall i | 0 <= i < |fetched| ensures SameAsRow(Selected(fetched[i]), fetched[i].page) {
      assert fetched[i] in sorted;
    }
  }

  // search_pages in a workspace returns the pages that list_pages returns, in the same order: the
  // join neither adds, drops nor repeats a page.
  lemma SearchListsSamePages(db: Db, q: PageQuery, lower: string -> string, page: int, size: int)
    requires IndexInv(db) && PointersFormatted(db) && lower("") == ""
    requires page >= 1 && size >= 1
    ensures PageIds(SearchPages(db, q, lower, page, size)) == PageIds(ListPages(db, q, lower, page, size))
  {
    var rows := PageRows(db, db.order);
    var hits := SearchHits(q, lower, LeftJoin(db.projections, rows));
    var pageOf := (j: Joined) => j.page;
    var self := (p: Page) => p;
    PageRowsAreRows(db, db.order);
    JoinAgrees(db, q, lower, rows);
    SortCommutes(pageOf, self, hits);
    FetchCommutes(pageOf, SortByRecency(pageOf, hits), page, size);
  }
}
