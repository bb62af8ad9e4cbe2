// Values shared by every part of the model: results, actors, Drive snapshots and page rows,
// with the string normalisation that the service applies to every command.
module Domain {

  datatype Option<+T> = None | Some(value: T) {
    function GetOr(default: T): T {
      match this
      case Some(v) => v
      case None => default
    }
  }

  // The error kinds of CanvasProductError; the free-text messages are not modelled.
  datatype Error = Validation | Conflict | NotFound | Internal

  datatype Result<+T> = Ok(value: T) | Err(error: Error) {
    predicate IsFailure() {
      Err?
    }

    function PropagateFailure<U>(): Result<U>
      requires Err?
    {
      Err(error)
    }

    function Extract(): T
      requires Ok?
    {
      value
    }
  }

  // A check that either passes or names its error.
  function Need(condition: bool, error: Error): Result<()> {
    if condition then Ok(()) else Err(error)
  }

  // A JSON value, of which the service only asks whether it is an object.
  datatype Json = Json(isObject: bool, text: string)

  datatype Actor = Actor(tenant: string, organization: string, operator: string)

  datatype PageKind = Doc | Article | Code | Log | Database | Canvas | Folder

  datatype Snapshot = Snapshot(
    spaceId: string,
    nodeId: string,
    uri: string,
    versionId: string,
    versionNo: int,
    contentType: string,
    schemaVersion: string,
    contentHash: Option<string>,
    snippet: Option<string>,
    wordCount: int,
    taskCount: int,
    content: Json)

  // A row of canvas_page, without the columns that no statement ever writes.
  datatype Page = Page(
    id: string,
    tenant: string,
    organization: string,
    workspaceId: string,
    title: string,
    kind: PageKind,
    parentId: Option<string>,
    folderNodeId: Option<string>,
    spaceId: string,
    nodeId: string,
    uri: string,
    versionId: string,
    versionNo: int,
    contentType: string,
    schemaVersion: string,
    contentHash: Option<string>,
    snippet: Option<string>,
    favorite: bool,
    archiveStatus: string,
    publishStatus: string,
    wordCount: int,
    taskCount: int,
    deleted: bool,
    version: nat,
    updatedBy: string,
    updatedAt: int)

  predicate IsSpace(c: char) {
    c == ' ' || c == '\t' || c == '\n' || c == '\r'
  }

  function Trim(s: string): (r: string)
    ensures r != "" ==> !IsSpace(r[0]) && !IsSpace(r[|r| - 1])
    ensures |r| <= |s|
  {
    if s == "" then ""
    else if IsSpace(s[0]) then Trim(s[1..])
    else if IsSpace(s[|s| - 1]) then Trim(s[..|s| - 1])
    else s
  }

  predicate AllSpace(s: string) {
    forall i :: 0 <= i < |s| ==> IsSpace(s[i])
  }

  // The text with white space around it.
  predicate Around(s: string, a: string, t: string, b: string) {
    s == a + t + b && AllSpace(a) && AllSpace(b)
  }

  lemma AroundFront(c: char, s: string, a: string, t: string, b: string)
    requires IsSpace(c) && Around(s, a, t, b)
    ensures Around([c] + s, [c] + a, t, b)
  {
  }

  lemma AroundBack(c: char, s: string, a: string, t: string, b: string)
    requires IsSpace(c) && Around(s, a, t, b)
    ensures Around(s + [c], a, t, b + [c])
  {
  }

  // Only surrounding white space goes.
  lemma {:induction false} TrimSplits(s: string) returns (a: string, b: string)
    ensures Around(s, a, Trim(s), b)
  {
    if s != "" && IsSpace(s[0]) {
      a, b := TrimSplits(s[1..]);
      AroundFront(s[0], s[1..], a, Trim(s[1..]), b);
      a := [s[0]] + a;
      assert s == [s[0]] + s[1..];
    } else if s != "" && IsSpace(s[|s| - 1]) {
      var last := |s| - 1;
      a, b := TrimSplits(s[..last]);
      AroundBack(s[last], s[..last], a, Trim(s[..last]), b);
      b := b + [s[last]];
      assert s == s[..last] + [s[last]];
    } else {
      a, b := "", "";
    }
  }

  predicate IsBlank(s: string) {
    Trim(s) == ""
  }

  function NormalizeRequired(s: string): (r: Result<string>)
    ensures r.Ok? <==> !IsBlank(s)
    ensures r.Ok? ==> !IsBlank(r.value) && Trim(r.value) == r.value
  {
    if IsBlank(s) then Err(Validation) else Ok(Trim(s))
  }

  function NormalizeOptional(s: Option<string>): (r: Option<string>)
    ensures r.Some? ==> !IsBlank(r.value) && Trim(r.value) == r.value
  {
    if s.Some? && !IsBlank(s.value) then Some(Trim(s.value)) else None
  }

  function NormalizeActor(a: Actor): Result<Actor> {
    var tenant :- NormalizeRequired(a.tenant);
    var organization :- NormalizeRequired(a.organization);
    var operator :- NormalizeRequired(a.operator);
    Ok(Actor(tenant, organization, operator))
  }
}
