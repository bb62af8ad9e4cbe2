// MemoryDrivePageContentPort: the versioned content store. The functions describe what one
// call does to the two maps; the class performs the same calls by updating its fields.
module Drive {
  import opened Domain
  import opened Ids
  import opened Validation

  datatype DriveState = DriveState(
    records: map<string, Snapshot>,
    versions: map<string, seq<Snapshot>>)

  function History(d: DriveState, page: string): seq<Snapshot> {
    if page in d.versions then d.versions[page] else []
  }

  function MaxVersionNo(h: seq<Snapshot>): int
    requires h != []
  {
    var last := h[|h| - 1].versionNo;
    if |h| == 1 then last
    else
      var rest := MaxVersionNo(h[..|h| - 1]);
      if last > rest then last else rest
  }

  function NextVersionNo(h: seq<Snapshot>): int {
    (if h == [] then 0 else MaxVersionNo(h)) + 1
  }

  function FindVersion(h: seq<Snapshot>, versionId: string): (r: Option<Snapshot>)
    ensures r.Some? ==> r.value in h && r.value.versionId == versionId
    ensures r.None? ==> forall s :: s in h ==> s.versionId != versionId
  {
    if h == [] then None
    else if h[0].versionId == versionId then Some(h[0])
    else FindVersion(h[1..], versionId)
  }

  // Every write stores the snapshot as the head and appends it to the history.
  function Stored(d: DriveState, page: string, s: Snapshot): DriveState {
    DriveState(d.records[page := s], d.versions[page := History(d, page) + [s]])
  }

  function FirstSnapshot(page: string, spaceId: string, contentType: string, schemaVersion: string,
                         content: Json): Snapshot {
    Snapshot(spaceId, NodeId(page), DriveUri(spaceId, NodeId(page)), VersionId(page, 1), 1,
             contentType, schemaVersion, Some("sha256:first"), Some("hello"), 1, 0, content)
  }

  function UpdatedSnapshot(d: DriveState, page: string, spaceId: string, nodeId: string, uri: string,
                           contentType: string, schemaVersion: string, content: Json): Snapshot {
    var n := NextVersionNo(History(d, page));
    Snapshot(spaceId, nodeId, uri, VersionId(page, n), n, contentType, schemaVersion,
             Some("sha256:v" + Decimal(n)), Some("hello v" + Decimal(n)), n, 0, content)
  }

  function RestoredSnapshot(d: DriveState, page: string, versionId: string): Result<Snapshot> {
    var source := FindVersion(History(d, page), versionId);
    if source.None? then Err(NotFound)
    else
      var n := NextVersionNo(History(d, page));
      Ok(source.value.(versionId := VersionId(page, n), versionNo := n))
  }

  function Read(d: DriveState, page: string): Result<Snapshot> {
    if page in d.records then Ok(d.records[page]) else Err(NotFound)
  }

  class MemoryDrivePageContentPort {
    var records: map<string, Snapshot>
    var versions: map<string, seq<Snapshot>>

    ghost function State(): DriveState
      reads this
    {
      DriveState(records, versions)
    }

    constructor ()
      ensures State() == DriveState(map[], map[])
    {
      records, versions := map[], map[];
    }

    method Store(page: string, snapshot: Snapshot)
      modifies this
      ensures State() == Stored(old(State()), page, snapshot)
    {
      records := records[page := snapshot];
      var history := if page in versions then versions[page] else [];
      versions := versions[page := history + [snapshot]];
    }

    method NextVersion(page: string) returns (n: int)
      ensures n == NextVersionNo(History(State(), page))
    {
      n := 0;
      if page in versions {
        var history := versions[page];
        for i := 0 to |history|
          invariant n == if i == 0 then 0 else MaxVersionNo(history[..i])
        {
          assert history[..i + 1][..i] == history[..i];
          if i == 0 || history[i].versionNo > n {
            n := history[i].versionNo;
          }
        }
        assert history[..|history|] == history;
      }
      n := n + 1;
    }

    method CreatePageContent(page: string, spaceId: string, contentType: string, schemaVersion: string,
                             content: Json) returns (snapshot: Snapshot)
      modifies this
      ensures snapshot == FirstSnapshot(page, spaceId, contentType, schemaVersion, content)
      ensures State() == Stored(old(State()), page, snapshot)
    {
      snapshot := FirstSnapshot(page, spaceId, contentType, schemaVersion, content);
      Store(page, snapshot);
    }

    method UpdatePageContent(page: string, spaceId: string, nodeId: string, uri: string,
                             contentType: string, schemaVersion: string, content: Json)
      returns (snapshot: Snapshot)
      modifies this
      ensures snapshot == UpdatedSnapshot(old(State()), page, spaceId, nodeId, uri,
                                          contentType, schemaVersion, content)
      ensures State() == Stored(old(State()), page, snapshot)
    {
      var n := NextVersion(page);
      snapshot := Snapshot(spaceId, nodeId, uri, VersionId(page, n), n, contentType, schemaVersion,
                           Some("sha256:v" + Decimal(n)), Some("hello v" + Decimal(n)), n, 0, content);
      Store(page, snapshot);
    }

    method ReadPageContent(page: string) returns (r: Result<Snapshot>)
      ensures r == Read(State(), page)
    {
      r := if page in records then Ok(records[page]) else Err(NotFound);
    }

    method RestorePageContentVersion(page: string, versionId: string) returns (r: Result<Snapshot>)
      modifies this
      ensures r == RestoredSnapshot(old(State()), page, versionId)
      ensures State() == if r.Ok? then Stored(old(State()), page, r.value) else old(State())
    {
      var source := FindVersion(if page in versions then versions[page] else [], versionId);
      if source.None? {
        return Err(NotFound);
      }
      var n := NextVersion(page);
      var snapshot := source.value.(versionId := VersionId(page, n), versionNo := n);
      Store(page, snapshot);
      r := Ok(snapshot);
    }
  }

  // What every stored history looks like: entry i is version i + 1, and all entries of a page
  // share one space, node and URI and pass the service's snapshot validation.
  ghost predicate HistoryOk(page: string, h: seq<Snapshot>) {
    && h != []
    && forall i :: 0 <= i < |h| ==> EntryOk(page, h, i)
  }

  ghost predicate EntryOk(page: string, h: seq<Snapshot>, i: nat)
    requires i < |h|
  {
    && h[i].versionNo == i + 1
    && h[i].versionId == VersionId(page, i + 1)
    && h[i].spaceId == h[0].spaceId
    && h[i].nodeId == NodeId(page)
    && SnapshotValid(h[i])
  }

  ghost predicate DriveInv(d: DriveState) {
    && d.records.Keys == d.versions.Keys
    && forall page :: page in d.versions ==>
      HistoryOk(page, d.versions[page]) && d.records[page] == d.versions[page][|d.versions[page]| - 1]
  }

  lemma {:induction false} NumberedMax(page: string, h: seq<Snapshot>)
    requires HistoryOk(page, h)
    ensures MaxVersionNo(h) == |h|
  {
    assert EntryOk(page, h, |h| - 1);
    if |h| > 1 {
      var p := h[..|h| - 1];
      forall i | 0 <= i < |p|
        ensures EntryOk(page, p, i)
      {
        assert EntryOk(page, h, i);
      }
      NumberedMax(page, p);
    }
  }

  // Storing a valid snapshot under the next number, with the page's own references, keeps the
  // invariant, whichever client stores it.
  lemma StoreKeepsInv(d: DriveState, page: string, s: Snapshot)
    requires DriveInv(d) && SnapshotValid(s)
    requires s.versionNo == NextVersionNo(History(d, page)) && s.versionId == VersionId(page, s.versionNo)
    requires s.nodeId == NodeId(page)
    requires page in d.versions ==> s.spaceId == d.versions[page][0].spaceId
    ensures DriveInv(Stored(d, page, s))
    ensures s.versionNo == |History(d, page)| + 1
  {
    var h := History(d, page);
    NextNumber(page, h);
    AppendedHistoryOk(page, h, s);
    StoredInv(d, page, s);
  }

  lemma NextNumber(page: string, h: seq<Snapshot>)
    requires h == [] || HistoryOk(page, h)
    ensures NextVersionNo(h) == |h| + 1
  {
    if h != [] {
      NumberedMax(page, h);
    }
  }

  lemma StoredInv(d: DriveState, page: string, s: Snapshot)
    requires DriveInv(d) && HistoryOk(page, History(d, page) + [s])
    ensures DriveInv(Stored(d, page, s))
  {
    var next := Stored(d, page, s);
    forall p | p in next.versions
      ensures HistoryOk(p, next.versions[p]) && next.records[p] == next.versions[p][|next.versions[p]| - 1]
    {
      if p != page {
        assert next.versions[p] == d.versions[p];
      }
    }
  }

  lemma AppendedHistoryOk(page: string, h: seq<Snapshot>, s: Snapshot)
    requires h == [] || HistoryOk(page, h)
    requires s.versionNo == |h| + 1 && s.versionId == VersionId(page, |h| + 1) && s.nodeId == NodeId(page)
    requires SnapshotValid(s)
    requires h != [] ==> s.spaceId == h[0].spaceId
    ensures HistoryOk(page, h + [s])
  {
    forall i | 0 <= i < |h + [s]|
      ensures EntryOk(page, h + [s], i)
    {
      if i < |h| {
        assert EntryOk(page, h, i);
      }
    }
  }

  // In a well-formed history a version id is found exactly at the position its number names.
  lemma FindVersionAt(page: string, h: seq<Snapshot>, i: nat)
    requires HistoryOk(page, h) && i < |h|
    ensures FindVersion(h, h[i].versionId) == Some(h[i])
  {
    var r := FindVersion(h, h[i].versionId);
    assert h[i] in h;
    assert r.Some?;
    var j :| 0 <= j < |h| && h[j] == r.value;
    assert EntryOk(page, h, i) && EntryOk(page, h, j);
    VersionIdInjective(page, i + 1, page, j + 1);
  }
}
