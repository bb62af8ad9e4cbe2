// The route manifest generators: one tool prints a manifest, the other scans manifests with a
// regular expression and prints the combined one.
module Routes {
  import opened Domain
  import opened Regex

  /* Route entries */

  datatype Entry = Entry(auth: string, verb: string, path: string, tag: string, op: string)

  predicate Quotable(s: string) {
    s != "" && AllIn(s, NonQuote)
  }

  predicate RouteFits(e: Entry) {
    && e.auth != "" && AllIn(e.auth, Word) && e.verb != "" && AllIn(e.verb, Word)
    && Quotable(e.path) && Quotable(e.tag) && Quotable(e.op)
  }

  function Groups(e: Entry): seq<string> {
    [e.auth, e.verb, e.path, e.tag, e.op]
  }

  const I4 := "    "
  const I8 := "        "

  // The six lines printed for a route.
  function BlockLines(e: Entry): seq<string> {
    [I4 + ("HttpRoute::" + e.auth + "("),
     I8 + ("HttpMethod::" + e.verb + ","),
     I8 + ("\"" + e.path + "\","),
     I8 + ("\"" + e.tag + "\","),
     I8 + ("\"" + e.op + "\","),
     I4 + "),"]
  }

  // Each line behind a line break.
  function Tail(lines: seq<string>): string {
    if lines == [] then "" else "\n" + lines[0] + Tail(lines[1..])
  }

  // "\n".join
  function Join(lines: seq<string>): string {
    if lines == [] then "" else lines[0] + Tail(lines[1..])
  }

  /* The reader's pattern */

  // open, a captured run of the class, close, white space.
  function Piece(opening: string, cls: CharClass, close: string): seq<Atom> {
    [Lit(opening), Capture(cls), Lit(close), Star(Space)]
  }

  const QUOTED: seq<Atom> := Piece("\"", NonQuote, "\",")

  const ROUTE_ENTRY: seq<Atom> :=
    Piece("HttpRoute::", Word, "(") + (Piece("HttpMethod::", Word, ",") + (QUOTED + (QUOTED + (QUOTED + [Lit("),")]))))

  lemma PieceDeterministic(opening: string, cls: CharClass, close: string, rest: seq<Atom>)
    requires close != "" && !In(close[0], cls)
    requires Deterministic(rest) && rest != [] && rest[0].Lit? && rest[0].text != "" && !In(rest[0].text[0], Space)
    ensures Deterministic(Piece(opening, cls, close) + rest)
  {
    DeterministicCons(Star(Space), rest);
    DeterministicCons(Lit(close), [Star(Space)] + rest);
    DeterministicCons(Capture(cls), [Lit(close)] + ([Star(Space)] + rest));
    DeterministicCons(Lit(opening), [Capture(cls)] + ([Lit(close)] + ([Star(Space)] + rest)));
    assert Piece(opening, cls, close) + rest == [Lit(opening)] + ([Capture(cls)] + ([Lit(close)] + ([Star(Space)] + rest)));
  }

  lemma DeterministicCons(atom: Atom, rest: seq<Atom>)
    requires Deterministic(rest)
    requires !atom.Lit? ==> rest != [] && rest[0].Lit? && rest[0].text != "" && !In(rest[0].text[0], atom.cls)
    ensures Deterministic([atom] + rest)
  {
    assert ([atom] + rest)[1..] == rest;
  }

  // The reader's pattern needs no backtracking.
  lemma RouteEntryIsDeterministic()
    ensures Deterministic(ROUTE_ENTRY)
  {
    var end := [Lit("),")];
    assert Deterministic(end);
    PieceDeterministic("\"", NonQuote, "\",", end);
    PieceDeterministic("\"", NonQuote, "\",", QUOTED + end);
    PieceDeterministic("\"", NonQuote, "\",", QUOTED + (QUOTED + end));
    PieceDeterministic("HttpMethod::", Word, ",", QUOTED + (QUOTED + (QUOTED + end)));
    PieceDeterministic("HttpRoute::", Word, "(", Piece("HttpMethod::", Word, ",") + (QUOTED + (QUOTED + (QUOTED + end))));
  }

  /* A printed block is one match */

  function PieceText(opening: string, x: string, close: string, gap: string): string {
    opening + x + close + gap
  }

  // A block without its indentation.
  function Body(e: Entry): string {
    PieceText("HttpRoute::", e.auth, "(", "\n" + I8)
    + (PieceText("HttpMethod::", e.verb, ",", "\n" + I8)
       + (PieceText("\"", e.path, "\",", "\n" + I8)
          + (PieceText("\"", e.tag, "\",", "\n" + I8)
             + (PieceText("\"", e.op, "\",", "\n" + I4) + "),"))))
  }

  lemma PieceDerives(opening: string, cls: CharClass, close: string, x: string, gap: string)
    requires x != "" && AllIn(x, cls) && AllIn(gap, Space)
    ensures Derives(Piece(opening, cls, close), PieceText(opening, x, close, gap), [x])
  {
    DerivesOne(Lit(opening), opening);
    DerivesOne(Capture(cls), x);
    DerivesOne(Lit(close), close);
    DerivesOne(Star(Space), gap);
    DerivesConcat([Lit(opening)], opening, [], [Capture(cls)], x, [x]);
    DerivesConcat([Lit(opening)] + [Capture(cls)], opening + x, [] + [x], [Lit(close)], close, []);
    DerivesConcat([Lit(opening)] + [Capture(cls)] + [Lit(close)], opening + x + close, [] + [x] + [], [Star(Space)], gap, []);
    assert [Lit(opening)] + [Capture(cls)] + [Lit(close)] + [Star(Space)] == Piece(opening, cls, close);
    assert [] + [x] + [] + [] == [x];
  }

  lemma PieceThen(opening: string, cls: CharClass, close: string, x: string, gap: string,
                  atoms: seq<Atom>, t: string, captures: seq<string>)
    requires x != "" && AllIn(x, cls) && AllIn(gap, Space) && Derives(atoms, t, captures)
    ensures Derives(Piece(opening, cls, close) + atoms, PieceText(opening, x, close, gap) + t, [x] + captures)
  {
    PieceDerives(opening, cls, close, x, gap);
    DerivesConcat(Piece(opening, cls, close), PieceText(opening, x, close, gap), [x], atoms, t, captures);
  }

  lemma QuotedDerive(path: string, tag: string, op: string)
    requires Quotable(path) && Quotable(tag) && Quotable(op)
    ensures Derives(QUOTED + (QUOTED + (QUOTED + [Lit("),")])),
                    PieceText("\"", path, "\",", "\n" + I8)
                    + (PieceText("\"", tag, "\",", "\n" + I8) + (PieceText("\"", op, "\",", "\n" + I4) + "),")),
                    [path] + ([tag] + ([op] + [])))
  {
    DerivesOne(Lit("),"), "),");
    PieceThen("\"", NonQuote, "\",", op, "\n" + I4, [Lit("),")], "),", []);
    PieceThen("\"", NonQuote, "\",", tag, "\n" + I8, QUOTED + [Lit("),")], PieceText("\"", op, "\",", "\n" + I4) + "),", [op] + []);
    PieceThen("\"", NonQuote, "\",", path, "\n" + I8, QUOTED + (QUOTED + [Lit("),")]),
              PieceText("\"", tag, "\",", "\n" + I8) + (PieceText("\"", op, "\",", "\n" + I4) + "),"), [tag] + ([op] + []));
  }

  // The printed block is a text the pattern describes, with the route's five fields as its groups.
  lemma BodyDerives(e: Entry)
    requires RouteFits(e)
    ensures Derives(ROUTE_ENTRY, Body(e), Groups(e))
  {
    var atoms := QUOTED + (QUOTED + (QUOTED + [Lit("),")]));
    var t := PieceText("\"", e.path, "\",", "\n" + I8)
             + (PieceText("\"", e.tag, "\",", "\n" + I8) + (PieceText("\"", e.op, "\",", "\n" + I4) + "),"));
    var captures := [e.path] + ([e.tag] + ([e.op] + []));
    QuotedDerive(e.path, e.tag, e.op);
    PieceThen("HttpMethod::", Word, ",", e.verb, "\n" + I8, atoms, t, captures);
    PieceThen("HttpRoute::", Word, "(", e.auth, "\n" + I8, Piece("HttpMethod::", Word, ",") + atoms,
              PieceText("HttpMethod::", e.verb, ",", "\n" + I8) + t, [e.verb] + captures);
    assert [e.auth] + ([e.verb] + captures) == Groups(e);
  }

  /* Texts without a match */

  lemma NoStart(t: string)
    requires !("HttpRoute::" <= t)
    ensures Match(ROUTE_ENTRY, t).None?
  {
    assert ROUTE_ENTRY[0] == Lit("HttpRoute::");
  }

  lemma QuietWithoutH(p: string)
    requires 'H' !in p
    ensures Quiet(ROUTE_ENTRY, p)
  {
    forall i, t: string | 0 <= i < |p| ensures Match(ROUTE_ENTRY, p[i..] + t).None? {
      assert (p[i..] + t)[0] == p[i] && "HttpRoute::"[0] == 'H';
      NoStart(p[i..] + t);
    }
  }

  // One 'H', at the front, and a character that differs from the literal's at its place.
  lemma QuietAfterH(p: string, k: nat)
    requires 0 < k < |p| && k < 11 && 'H' !in p[1..] && p[k] != "HttpRoute::"[k]
    ensures Quiet(ROUTE_ENTRY, p)
  {
    forall i, t: string | 0 <= i < |p| ensures Match(ROUTE_ENTRY, p[i..] + t).None? {
      if i == 0 {
        assert (p[0..] + t)[k] == p[k];
      } else {
        assert p[i] in p[1..] && (p[i..] + t)[0] == p[i] && "HttpRoute::"[0] == 'H';
      }
      NoStart(p[i..] + t);
    }
  }

  // A name and an opening bracket: after the name's letters the pattern would need a colon.
  lemma QuietName(name: string)
    requires AllIn(name, Word)
    ensures Quiet(ROUTE_ENTRY, name + "(")
  {
    var p := name + "(";
    forall i, t: string | 0 <= i < |p| ensures Match(ROUTE_ENTRY, p[i..] + t).None? {
      var u, k := p[i..] + t, |name| - i;
      if k <= 9 {
        assert u[k] == '(' && "HttpRoute::"[k] != '(';
      } else {
        assert u[9] == name[i + 9] && "HttpRoute::"[9] == ':';
      }
      NoStart(u);
    }
  }

  lemma {:induction false} QuietLines(lines: seq<string>)
    requires forall i :: 0 <= i < |lines| ==> Quiet(ROUTE_ENTRY, lines[i])
    ensures Quiet(ROUTE_ENTRY, Tail(lines))
  {
    if lines != [] {
      QuietLines(lines[1..]);
      QuietWithoutH("\n");
      QuietConcat(ROUTE_ENTRY, "\n", lines[0]);
      QuietConcat(ROUTE_ENTRY, "\n" + lines[0], Tail(lines[1..]));
    }
  }

  lemma {:induction false} TailConcat(a: seq<string>, b: seq<string>)
    ensures Tail(a + b) == Tail(a) + Tail(b)
  {
    if a == [] {
      assert a + b == b;
    } else {
      assert (a + b)[1..] == a[1..] + b;
      TailConcat(a[1..], b);
    }
  }

  /* Scanning a manifest */

  // The routes' blocks, one after the other.
  function Routed(entries: seq<Entry>): string {
    if entries == [] then "" else "\n" + I4 + Body(entries[0]) + Routed(entries[1..])
  }

  function GroupsOfAll(entries: seq<Entry>): seq<seq<string>> {
    if entries == [] then [] else [Groups(entries[0])] + GroupsOfAll(entries[1..])
  }

  // A block is found whole and the scan goes on behind it.
  lemma ScanBlock(e: Entry, rest: string)
    requires RouteFits(e)
    ensures FindAll(ROUTE_ENTRY, "\n" + I4 + (Body(e) + rest)) == [Groups(e)] + FindAll(ROUTE_ENTRY, rest)
  {
    QuietWithoutH("\n" + I4);
    SkipQuiet(ROUTE_ENTRY, "\n" + I4, Body(e) + rest);
    BodyDerives(e);
    RouteEntryIsDeterministic();
    MatchIsComplete(ROUTE_ENTRY, Body(e), Groups(e), rest);
  }

  lemma Regroup(a: string, b: string, c: string, d: string)
    ensures a + b + c + d == a + (b + (c + d))
  {
  }

  lemma {:induction false} ScanRouted(entries: seq<Entry>, end: string)
    requires forall i :: 0 <= i < |entries| ==> RouteFits(entries[i])
    ensures FindAll(ROUTE_ENTRY, Routed(entries) + end) == GroupsOfAll(entries) + FindAll(ROUTE_ENTRY, end)
  {
    if entries == [] {
      assert Routed(entries) + end == end;
    } else {
      Regroup("\n" + I4, Body(entries[0]), Routed(entries[1..]), end);
      ScanBlock(entries[0], Routed(entries[1..]) + end);
      ScanRouted(entries[1..], end);
      var g, more, rest := [Groups(entries[0])], GroupsOfAll(entries[1..]), FindAll(ROUTE_ENTRY, end);
      assert g + (more + rest) == g + more + rest;
    }
  }

  // A quiet preamble, printed routes and a quiet trailer: the scan finds the routes and nothing else.
  lemma ScanManifest(preamble: seq<string>, entries: seq<Entry>, trailer: seq<string>)
    requires preamble != [] && forall i :: 0 <= i < |entries| ==> RouteFits(entries[i])
    requires forall i :: 0 <= i < |preamble| ==> Quiet(ROUTE_ENTRY, preamble[i])
    requires forall i :: 0 <= i < |trailer| ==> Quiet(ROUTE_ENTRY, trailer[i])
    ensures FindAll(ROUTE_ENTRY, Join(preamble) + Routed(entries) + Tail(trailer)) == GroupsOfAll(entries)
  {
    QuietLines(preamble[1..]);
    QuietLines(trailer);
    QuietConcat(ROUTE_ENTRY, preamble[0], Tail(preamble[1..]));
    assert Join(preamble) + Routed(entries) + Tail(trailer) == Join(preamble) + (Routed(entries) + Tail(trailer));
    SkipQuiet(ROUTE_ENTRY, Join(preamble), Routed(entries) + Tail(trailer));
    ScanRouted(entries, Tail(trailer));
    assert Tail(trailer) + "" == Tail(trailer);
    SkipQuiet(ROUTE_ENTRY, Tail(trailer), "");
    assert GroupsOfAll(entries) + [] == GroupsOfAll(entries);
  }

  lemma JoinCons(line: string, rest: seq<string>)
    ensures Join([line] + rest) == line + Tail(rest)
  {
    assert ([line] + rest)[1..] == rest;
  }

  lemma JoinParts(preamble: seq<string>, blocks: seq<string>, trailer: seq<string>)
    requires preamble != []
    ensures Join(preamble + blocks + trailer) == Join(preamble) + Tail(blocks) + Tail(trailer)
  {
    var first, more := preamble[0], preamble[1..];
    assert preamble == [first] + more;
    assert preamble + blocks + trailer == [first] + (more + blocks + trailer);
    JoinCons(first, more);
    JoinCons(first, more + blocks + trailer);
    TailConcat(more + blocks, trailer);
    TailConcat(more, blocks);
    Regroup(first, Tail(more), Tail(blocks), Tail(trailer));
    RegroupThree(Tail(more), Tail(blocks), Tail(trailer));
  }

  lemma RegroupThree(a: string, b: string, c: string)
    ensures a + b + c == a + (b + c)
  {
  }

  /* The printer */

  // A route of the JSON manifest, its path already in axum's notation.
  datatype RouteSpec = RouteSpec(httpMethod: string, path: string, tag: string, operationId: string, authMode: Option<string>)

  // METHOD_MAP; a missing key fails the run.
  function MethodName(httpMethod: string): Option<string> {
    if httpMethod == "GET" then Some("Get")
    else if httpMethod == "POST" then Some("Post")
    else if httpMethod == "PATCH" then Some("Patch")
    else if httpMethod == "DELETE" then Some("Delete")
    else if httpMethod == "PUT" then Some("Put")
    else None
  }

  // AUTH_MAP, with its two defaults.
  function AuthName(mode: Option<string>): string {
    if mode == Some("api-key") then "api_key"
    else if mode == Some("public") then "public"
    else "dual_token"
  }

  function EntryOf(r: RouteSpec): Option<Entry> {
    var m := MethodName(r.httpMethod);
    if m.None? then None else Some(Entry(AuthName(r.authMode), m.value, r.path, r.tag, r.operationId))
  }

  function Entries(routes: seq<RouteSpec>): Option<seq<Entry>> {
    if routes == [] then Some([])
    else
      var last := |routes| - 1;
      var before, e := Entries(routes[..last]), EntryOf(routes[last]);
      if before.None? || e.None? then None else Some(before.value + [e.value])
  }

  function AllLines(entries: seq<Entry>): seq<string> {
    if entries == [] then [] else BlockLines(entries[0]) + AllLines(entries[1..])
  }

  const USE_LINE := "use sdkwork_web_core::{" + "HttpMethod, " + "HttpRoute, " + "HttpRouteManifest};"
  const TABLE_LINE := "const " + "HTTP_ROUTES: &[" + "HttpRoute] = &["
  const NEW_LINE := "    " + "HttpRouteManifest::new(" + "HTTP_ROUTES)"

  const PRINTED_BY := "// @generated by " + "tools/gen_http_route" + "_manifest_from_json.py" + " \U{2014} do not edit"

  const PREAMBLE: seq<string> :=
    [PRINTED_BY, "", USE_LINE, "", TABLE_LINE]

  function FnLine(name: string): string {
    "pub fn " + (name + "(") + ") -> " + "HttpRouteManifest {"
  }

  function Trailer(fnName: string): seq<string> {
    ["];", "", FnLine(fnName), NEW_LINE, "}", ""]
  }

  function RenderText(routes: seq<RouteSpec>, fnName: string): Option<string> {
    var entries := Entries(routes);
    if entries.None? then None else Some(Join(PREAMBLE + AllLines(entries.value) + Trailer(fnName)))
  }

  lemma {:induction false} AllLinesAppend(entries: seq<Entry>, e: Entry)
    ensures AllLines(entries + [e]) == AllLines(entries) + BlockLines(e)
  {
    if entries == [] {
      assert [] + [e] == [e] && [e][1..] == [] && BlockLines(e) + [] == BlockLines(e);
    } else {
      assert (entries + [e])[1..] == entries[1..] + [e];
      AllLinesAppend(entries[1..], e);
    }
  }

  lemma {:induction false} EntriesFail(routes: seq<RouteSpec>, i: nat)
    requires i < |routes| && EntryOf(routes[i]).None?
    ensures Entries(routes).None?
  {
    var last := |routes| - 1;
    if i < last {
      EntriesFail(routes[..last], i);
    }
  }

  method Render(routes: seq<RouteSpec>, fnName: string) returns (r: Option<string>)
    ensures r == RenderText(routes, fnName)
  {
    var lines := PREAMBLE;
    for i := 0 to |routes|
      invariant Entries(routes[..i]).Some? && lines == PREAMBLE + AllLines(Entries(routes[..i]).value)
    {
      var e := EntryOf(routes[i]);
      if e.None? {
        EntriesFail(routes, i);
        return None;
      }
      assert routes[..i + 1][..i] == routes[..i];
      AllLinesAppend(Entries(routes[..i]).value, e.value);
      lines := lines + BlockLines(e.value);
    }
    assert routes[..|routes|] == routes;
    lines := lines + Trailer(fnName);
    r := Some(Join(lines));
  }

  lemma TailCons(line: string, rest: seq<string>)
    ensures Tail([line] + rest) == "\n" + line + Tail(rest)
  {
    assert ([line] + rest)[1..] == rest;
  }

  // A printed line and the indentation of the next one make a piece of the pattern's text.
  lemma LineIsPiece(indent: string, opening: string, x: string, close: string, next: string, rest: string)
    ensures "\n" + (indent + (opening + x + close)) + ("\n" + next + rest)
         == "\n" + indent + (PieceText(opening, x, close, "\n" + next) + rest)
  {
  }

  lemma BlockIsBody(e: Entry)
    ensures Tail(BlockLines(e)) == "\n" + I4 + Body(e)
  {
    var l := BlockLines(e);
    TailCons(l[5], []);
    TailCons(l[4], [l[5]]);
    TailCons(l[3], [l[4]] + [l[5]]);
    TailCons(l[2], [l[3]] + ([l[4]] + [l[5]]));
    TailCons(l[1], [l[2]] + ([l[3]] + ([l[4]] + [l[5]])));
    TailCons(l[0], [l[1]] + ([l[2]] + ([l[3]] + ([l[4]] + [l[5]]))));
    assert [l[5]] + [] == [l[5]];
    assert l == [l[0]] + ([l[1]] + ([l[2]] + ([l[3]] + ([l[4]] + [l[5]]))));
    assert "\n" + l[5] + Tail([]) == "\n" + I4 + "),";
    var t5 := PieceText("\"", e.op, "\",", "\n" + I4) + "),";
    LineIsPiece(I8, "\"", e.op, "\",", I4, "),");
    var t4 := PieceText("\"", e.tag, "\",", "\n" + I8) + t5;
    LineIsPiece(I8, "\"", e.tag, "\",", I8, t5);
    var t3 := PieceText("\"", e.path, "\",", "\n" + I8) + t4;
    LineIsPiece(I8, "\"", e.path, "\",", I8, t4);
    LineIsPiece(I8, "HttpMethod::", e.verb, ",", I8, t3);
    LineIsPiece(I4, "HttpRoute::", e.auth, "(", I8, PieceText("HttpMethod::", e.verb, ",", "\n" + I8) + t3);
  }

  lemma {:induction false} LinesAreRouted(entries: seq<Entry>)
    ensures Tail(AllLines(entries)) == Routed(entries)
  {
    if entries != [] {
      LinesAreRouted(entries[1..]);
      BlockIsBody(entries[0]);
      TailConcat(BlockLines(entries[0]), AllLines(entries[1..]));
    }
  }

  lemma UseLineIsQuiet()
    ensures Quiet(ROUTE_ENTRY, USE_LINE)
  {
    QuietWithoutH("use sdkwork_web_core::{");
    QuietAfterH("HttpMethod, ", 4);
    QuietAfterH("HttpRoute, ", 9);
    QuietAfterH("HttpRouteManifest};", 9);
    QuietConcat(ROUTE_ENTRY, "use sdkwork_web_core::{", "HttpMethod, ");
    QuietConcat(ROUTE_ENTRY, "use sdkwork_web_core::{" + "HttpMethod, ", "HttpRoute, ");
    QuietConcat(ROUTE_ENTRY, "use sdkwork_web_core::{" + "HttpMethod, " + "HttpRoute, ", "HttpRouteManifest};");
  }

  lemma TableLineIsQuiet()
    ensures Quiet(ROUTE_ENTRY, TABLE_LINE)
  {
    QuietWithoutH("const ");
    assert "HTTP_ROUTES: &["[1..] == "TTP_ROUTES: &[" && "HttpRoute] = &["[1..] == "ttpRoute] = &[";
    QuietAfterH("HTTP_ROUTES: &[", 1);
    QuietAfterH("HttpRoute] = &[", 9);
    QuietConcat(ROUTE_ENTRY, "const ", "HTTP_ROUTES: &[");
    QuietConcat(ROUTE_ENTRY, "const " + "HTTP_ROUTES: &[", "HttpRoute] = &[");
  }

  lemma NewLineIsQuiet()
    ensures Quiet(ROUTE_ENTRY, NEW_LINE)
  {
    QuietWithoutH("    ");
    QuietAfterH("HttpRouteManifest::new(", 9);
    QuietAfterH("HTTP_ROUTES)", 1);
    QuietConcat(ROUTE_ENTRY, "    ", "HttpRouteManifest::new(");
    QuietConcat(ROUTE_ENTRY, "    " + "HttpRouteManifest::new(", "HTTP_ROUTES)");
  }

  lemma FnLineIsQuiet(name: string)
    requires AllIn(name, Word)
    ensures Quiet(ROUTE_ENTRY, FnLine(name))
  {
    QuietWithoutH("pub fn ");
    QuietName(name);
    QuietWithoutH(") -> ");
    QuietAfterH("HttpRouteManifest {", 9);
    QuietConcat(ROUTE_ENTRY, "pub fn ", name + "(");
    QuietConcat(ROUTE_ENTRY, "pub fn " + (name + "("), ") -> ");
    QuietConcat(ROUTE_ENTRY, "pub fn " + (name + "(") + ") -> ", "HttpRouteManifest {");
  }

  lemma PlainLinesAreQuiet()
    ensures Quiet(ROUTE_ENTRY, "") && Quiet(ROUTE_ENTRY, "];") && Quiet(ROUTE_ENTRY, "}")
  {
    QuietWithoutH("");
    QuietWithoutH("];");
    QuietWithoutH("}");
  }

  lemma PrintedByIsQuiet()
    ensures Quiet(ROUTE_ENTRY, PRINTED_BY)
  {
    assert 'H' !in "// @generated by " && 'H' !in "tools/gen_http_route";
    assert 'H' !in "_manifest_from_json.py" && 'H' !in " \U{2014} do not edit";
    QuietWithoutH(PRINTED_BY);
  }

  lemma PreambleIsQuiet()
    ensures forall i :: 0 <= i < |PREAMBLE| ==> Quiet(ROUTE_ENTRY, PREAMBLE[i])
  {
    PrintedByIsQuiet();
    PlainLinesAreQuiet();
    UseLineIsQuiet();
    TableLineIsQuiet();
  }

  lemma TrailerIsQuiet(fnName: string)
    requires AllIn(fnName, Word)
    ensures forall i :: 0 <= i < |Trailer(fnName)| ==> Quiet(ROUTE_ENTRY, Trailer(fnName)[i])
  {
    PlainLinesAreQuiet();
    FnLineIsQuiet(fnName);
    NewLineIsQuiet();
  }

  predicate FieldsQuotable(r: RouteSpec) {
    Quotable(r.path) && Quotable(r.tag) && Quotable(r.operationId)
  }

  // The five groups that stand for a route.
  predicate StandsFor(groups: seq<string>, r: RouteSpec) {
    && |groups| == 5 && groups[2] == r.path && groups[3] == r.tag && groups[4] == r.operationId
    && (r.httpMethod, groups[1]) in {("GET", "Get"), ("POST", "Post"), ("PATCH", "Patch"), ("DELETE", "Delete"), ("PUT", "Put")}
    && (r.authMode == Some("api-key") ==> groups[0] == "api_key") && (r.authMode == Some("public") ==> groups[0] == "public")
    && (r.authMode != Some("api-key") && r.authMode != Some("public") ==> groups[0] == "dual_token")
  }

  // The groups stand for the routes, one for one and in order.
  predicate AllStandFor(found: seq<seq<string>>, routes: seq<RouteSpec>) {
    |found| == |routes| && forall i :: 0 <= i < |routes| ==> StandsFor(found[i], routes[i])
  }

  lemma EntryStands(r: RouteSpec, groups: seq<string>)
    requires EntryOf(r).Some?
    ensures StandsFor(groups, r) <==> groups == Groups(EntryOf(r).value)
  {
  }

  lemma EntriesStand(routes: seq<RouteSpec>, found: seq<seq<string>>)
    requires Entries(routes).Some?
    ensures AllStandFor(found, routes) <==> found == GroupsOfAll(Entries(routes).value)
  {
    var entries := Entries(routes).value;
    EntriesAreOk(routes);
    forall i | 0 <= i < |entries|
      ensures |GroupsOfAll(entries)| == |entries| && GroupsOfAll(entries)[i] == Groups(entries[i])
    {
      GroupsAt(entries, i);
    }
    assert entries == [] ==> GroupsOfAll(entries) == [];
    if |found| == |routes| {
      forall i | 0 <= i < |routes|
        ensures StandsFor(found[i], routes[i]) <==> found[i] == GroupsOfAll(entries)[i]
      {
        EntryStands(routes[i], found[i]);
      }
    }
  }

  // The printer fails exactly on a method it does not know.
  lemma RenderFailsExactly(routes: seq<RouteSpec>, fnName: string)
    ensures RenderText(routes, fnName).None? <==>
              exists i :: 0 <= i < |routes| && routes[i].httpMethod !in {"GET", "POST", "PATCH", "DELETE", "PUT"}
  {
    if i :| 0 <= i < |routes| && routes[i].httpMethod !in {"GET", "POST", "PATCH", "DELETE", "PUT"} {
      assert EntryOf(routes[i]).None?;
      EntriesFail(routes, i);
    } else {
      EntriesSucceed(routes);
    }
  }

  lemma {:induction false} EntriesSucceed(routes: seq<RouteSpec>)
    requires forall i :: 0 <= i < |routes| ==> routes[i].httpMethod in {"GET", "POST", "PATCH", "DELETE", "PUT"}
    ensures Entries(routes).Some?
  {
    if routes != [] {
      EntriesSucceed(routes[..|routes| - 1]);
      assert EntryOf(routes[|routes| - 1]).Some?;
    }
  }

  // Scanning the printed manifest gives back its routes, in order, and nothing from the preamble or
  // the trailer.
  lemma ScanInvertsRender(routes: seq<RouteSpec>, fnName: string)
    requires RenderText(routes, fnName).Some? && AllIn(fnName, Word)
    requires forall i :: 0 <= i < |routes| ==> FieldsQuotable(routes[i])
    ensures AllStandFor(FindAll(ROUTE_ENTRY, RenderText(routes, fnName).value), routes)
  {
    EntriesStand(routes, FindAll(ROUTE_ENTRY, RenderText(routes, fnName).value));
    ScanFindsEntries(routes, fnName);
  }

  lemma ScanFindsEntries(routes: seq<RouteSpec>, fnName: string)
    requires RenderText(routes, fnName).Some? && AllIn(fnName, Word)
    requires forall i :: 0 <= i < |routes| ==> FieldsQuotable(routes[i])
    ensures FindAll(ROUTE_ENTRY, RenderText(routes, fnName).value) == GroupsOfAll(Entries(routes).value)
  {
    var entries := Entries(routes).value;
    EntriesAreOk(routes);
    JoinParts(PREAMBLE, AllLines(entries), Trailer(fnName));
    LinesAreRouted(entries);
    PreambleIsQuiet();
    TrailerIsQuiet(fnName);
    ScanManifest(PREAMBLE, entries, Trailer(fnName));
  }

  lemma {:induction false} EntriesAreOk(routes: seq<RouteSpec>)
    requires Entries(routes).Some?
    ensures |Entries(routes).value| == |routes|
    ensures forall i :: 0 <= i < |routes| ==> EntryOf(routes[i]) == Some(Entries(routes).value[i])
    ensures forall i :: 0 <= i < |routes| ==> (RouteFits(Entries(routes).value[i]) <==> FieldsQuotable(routes[i]))
  {
    if routes != [] {
      var last := |routes| - 1;
      EntriesAreOk(routes[..last]);
      EntryIsOk(routes[last]);
      assert forall i :: 0 <= i < last ==> routes[..last][i] == routes[i];
    }
  }

  lemma EntryIsOk(r: RouteSpec)
    ensures EntryOf(r).Some? ==> (RouteFits(EntryOf(r).value) <==> FieldsQuotable(r))
  {
    NamesAreWords(r);
  }

  lemma NamesAreWords(r: RouteSpec)
    ensures AuthName(r.authMode) != "" && AllIn(AuthName(r.authMode), Word)
    ensures MethodName(r.httpMethod).Some? ==> MethodName(r.httpMethod).value != "" && AllIn(MethodName(r.httpMethod).value, Word)
  {
  }

  /* The reader */

  predicate IsRoute(groups: seq<string>) {
    |groups| == 5
  }

  function EntryFrom(groups: seq<string>): Entry
    requires IsRoute(groups)
  {
    Entry(groups[0], groups[1], groups[2], groups[3], groups[4])
  }

  function EntriesFrom(found: seq<seq<string>>): seq<Entry>
    requires forall i :: 0 <= i < |found| ==> IsRoute(found[i])
  {
    if found == [] then [] else [EntryFrom(found[0])] + EntriesFrom(found[1..])
  }

  function Blocks(entries: seq<Entry>): seq<string> {
    if entries == [] then [] else [Join(BlockLines(entries[0]))] + Blocks(entries[1..])
  }

  lemma RouteClasses()
    ensures Classes(ROUTE_ENTRY) == [Word, Word, NonQuote, NonQuote, NonQuote]
  {
    var end := [Lit("),")];
    assert Classes(end) == [];
    PieceClasses("\"", NonQuote, "\",", end);
    PieceClasses("\"", NonQuote, "\",", QUOTED + end);
    PieceClasses("\"", NonQuote, "\",", QUOTED + (QUOTED + end));
    PieceClasses("HttpMethod::", Word, ",", QUOTED + (QUOTED + (QUOTED + end)));
    PieceClasses("HttpRoute::", Word, "(", Piece("HttpMethod::", Word, ",") + (QUOTED + (QUOTED + (QUOTED + end))));
  }

  lemma PieceClasses(opening: string, cls: CharClass, close: string, rest: seq<Atom>)
    ensures Classes(Piece(opening, cls, close) + rest) == [cls] + Classes(rest)
  {
    ClassesCons(Star(Space), rest);
    ClassesCons(Lit(close), [Star(Space)] + rest);
    ClassesCons(Capture(cls), [Lit(close)] + ([Star(Space)] + rest));
    ClassesCons(Lit(opening), [Capture(cls)] + ([Lit(close)] + ([Star(Space)] + rest)));
    assert Piece(opening, cls, close) + rest == [Lit(opening)] + ([Capture(cls)] + ([Lit(close)] + ([Star(Space)] + rest)));
  }

  lemma ClassesCons(atom: Atom, rest: seq<Atom>)
    ensures Classes([atom] + rest) == (if atom.Capture? then [atom.cls] else []) + Classes(rest)
  {
    assert ([atom] + rest)[1..] == rest;
  }

  // Every match names a route with well-formed fields.
  lemma {:induction false} FoundAreRoutes(t: string)
    ensures var found := FindAll(ROUTE_ENTRY, t);
            && (forall i :: 0 <= i < |found| ==> IsRoute(found[i]))
            && GroupsOfAll(EntriesFrom(found)) == found
            && (forall i :: 0 <= i < |EntriesFrom(found)| ==> RouteFits(EntriesFrom(found)[i]))
    decreases |t|
  {
    if t != "" {
      match Match(ROUTE_ENTRY, t) {
        case Some(m) =>
          MatchedGroups(ROUTE_ENTRY, t);
          RouteClasses();
          FoundAreRoutes(m.rest);
          assert Groups(EntryFrom(m.captures)) == m.captures && RouteFits(EntryFrom(m.captures));
        case None => FoundAreRoutes(t[1..]);
      }
    }
  }

  lemma {:induction false} GroupsAt(entries: seq<Entry>, i: nat)
    requires i < |entries|
    ensures |GroupsOfAll(entries)| == |entries| && GroupsOfAll(entries)[i] == Groups(entries[i])
  {
    if i == 0 {
      if |entries| > 1 {
        GroupsAt(entries[1..], 0);
      }
    } else {
      GroupsAt(entries[1..], i - 1);
    }
  }

  lemma {:induction false} EntriesAt(found: seq<seq<string>>, i: nat)
    requires i < |found| && forall k :: 0 <= k < |found| ==> IsRoute(found[k])
    ensures |EntriesFrom(found)| == |found| && EntriesFrom(found)[i] == EntryFrom(found[i])
  {
    if i == 0 {
      if |found| > 1 {
        EntriesAt(found[1..], 0);
      }
    } else {
      EntriesAt(found[1..], i - 1);
    }
  }

  // The scan gives the routes back exactly when no field is empty or holds a quote: the generator
  // itself accepts every text.
  lemma ScanInvertsExactly(routes: seq<RouteSpec>, fnName: string)
    requires RenderText(routes, fnName).Some? && AllIn(fnName, Word)
    ensures AllStandFor(FindAll(ROUTE_ENTRY, RenderText(routes, fnName).value), routes)
            <==> forall i :: 0 <= i < |routes| ==> FieldsQuotable(routes[i])
  {
    var entries := Entries(routes).value;
    EntriesAreOk(routes);
    EntriesStand(routes, FindAll(ROUTE_ENTRY, RenderText(routes, fnName).value));
    if forall i :: 0 <= i < |routes| ==> FieldsQuotable(routes[i]) {
      ScanInvertsRender(routes, fnName);
    } else if FindAll(ROUTE_ENTRY, RenderText(routes, fnName).value) == GroupsOfAll(entries) {
      var i :| 0 <= i < |routes| && !FieldsQuotable(routes[i]);
      FoundEntryIsOk(RenderText(routes, fnName).value, entries, i);
    }
  }

  lemma FoundEntryIsOk(t: string, entries: seq<Entry>, i: nat)
    requires FindAll(ROUTE_ENTRY, t) == GroupsOfAll(entries) && i < |entries|
    ensures RouteFits(entries[i])
  {
    FoundAreRoutes(t);
    GroupsAt(entries, i);
    EntriesAt(FindAll(ROUTE_ENTRY, t), i);
  }

  function Extracted(text: string): seq<Entry> {
    FoundAreRoutes(text);
    EntriesFrom(FindAll(ROUTE_ENTRY, text))
  }

  lemma {:induction false} BlocksConcat(a: seq<Entry>, b: seq<Entry>)
    ensures Blocks(a + b) == Blocks(a) + Blocks(b)
  {
    if a == [] {
      assert a + b == b;
    } else {
      assert (a + b)[1..] == a[1..] + b;
      BlocksConcat(a[1..], b);
    }
  }

  lemma {:induction false} EntriesFromConcat(a: seq<seq<string>>, b: seq<seq<string>>)
    requires forall i :: 0 <= i < |a| ==> IsRoute(a[i])
    requires forall i :: 0 <= i < |b| ==> IsRoute(b[i])
    ensures EntriesFrom(a + b) == EntriesFrom(a) + EntriesFrom(b)
  {
    if a == [] {
      assert a + b == b;
    } else {
      assert (a + b)[1..] == a[1..] + b;
      EntriesFromConcat(a[1..], b);
    }
  }

  method ExtractHttpRoutes(text: string) returns (blocks: seq<string>)
    ensures blocks == Blocks(Extracted(text))
  {
    var found := FindAll(ROUTE_ENTRY, text);
    FoundAreRoutes(text);
    blocks := [];
    for i := 0 to |found|
      invariant blocks == Blocks(EntriesFrom(found[..i]))
    {
      var e := EntryFrom(found[i]);
      assert found[..i + 1] == found[..i] + [found[i]];
      EntriesFromConcat(found[..i], [found[i]]);
      BlocksConcat(EntriesFrom(found[..i]), [e]);
      assert EntriesFrom([found[i]]) == [e] && Blocks([e]) == [Join(BlockLines(e))];
      blocks := blocks + [Join(BlockLines(e))];
    }
    assert found[..|found|] == found;
  }

  const COMBINED_BY := "// @generated by " + "tools/gen_canvas_combined" + "_http_route_manifest.py" + " \U{2014} do not edit"
  const PREFIXES_LINE := "pub fn canvas_public" + "_path_prefixes()" + " -> Vec<String> {"
  const HEALTH_LINE := "    vec![\"/health\"" + ".to_string(), " + "\"/healthz\".to_string()]"

  const COMBINED_PREAMBLE: seq<string> :=
    [COMBINED_BY, "", USE_LINE, "", TABLE_LINE]

  const COMBINED_TRAILER: seq<string> :=
    ["];", "", FnLine("canvas_route_manifest"), NEW_LINE, "}", "",
     PREFIXES_LINE, HEALTH_LINE, "}", ""]

  function AllExtracted(texts: seq<string>): seq<Entry> {
    if texts == [] then [] else AllExtracted(texts[..|texts| - 1]) + Extracted(texts[|texts| - 1])
  }

  // No route at all ends the run.
  function CombinedText(texts: seq<string>): Option<string> {
    var entries := AllExtracted(texts);
    if entries == [] then None else Some(Join(COMBINED_PREAMBLE + Blocks(entries) + COMBINED_TRAILER))
  }

  // main, over the texts of the crates' manifests.
  method Combine(texts: seq<string>) returns (output: Option<string>)
    ensures output == CombinedText(texts)
  {
    var blocks: seq<string> := [];
    for i := 0 to |texts|
      invariant blocks == Blocks(AllExtracted(texts[..i]))
    {
      var more := ExtractHttpRoutes(texts[i]);
      assert texts[..i + 1][..i] == texts[..i];
      BlocksConcat(AllExtracted(texts[..i]), Extracted(texts[i]));
      blocks := blocks + more;
    }
    assert texts[..|texts|] == texts;
    if blocks == [] {
      return None;
    }
    output := Some(Join(COMBINED_PREAMBLE + blocks + COMBINED_TRAILER));
  }

  /* Scanning the combined manifest */

  lemma TailIsJoin(lines: seq<string>)
    requires lines != []
    ensures Tail(lines) == "\n" + Join(lines)
  {
  }

  lemma {:induction false} BlocksAreRouted(entries: seq<Entry>)
    ensures Tail(Blocks(entries)) == Routed(entries)
  {
    if entries != [] {
      BlocksAreRouted(entries[1..]);
      BlockIsBody(entries[0]);
      TailIsJoin(BlockLines(entries[0]));
      TailCons(Join(BlockLines(entries[0])), Blocks(entries[1..]));
    }
  }

  lemma CombinedByIsQuiet()
    ensures Quiet(ROUTE_ENTRY, COMBINED_BY)
  {
    assert 'H' !in "// @generated by " && 'H' !in "tools/gen_canvas_combined";
    assert 'H' !in "_http_route_manifest.py" && 'H' !in " \U{2014} do not edit";
    QuietWithoutH(COMBINED_BY);
  }

  lemma PrefixLinesAreQuiet()
    ensures Quiet(ROUTE_ENTRY, PREFIXES_LINE) && Quiet(ROUTE_ENTRY, HEALTH_LINE)
  {
    assert 'H' !in "pub fn canvas_public" && 'H' !in "_path_prefixes()" && 'H' !in " -> Vec<String> {";
    QuietWithoutH(PREFIXES_LINE);
    assert 'H' !in "    vec![\"/health\"" && 'H' !in ".to_string(), " && 'H' !in "\"/healthz\".to_string()]";
    QuietWithoutH(HEALTH_LINE);
  }

  lemma CombinedLinesAreQuiet()
    ensures forall i :: 0 <= i < |COMBINED_PREAMBLE| ==> Quiet(ROUTE_ENTRY, COMBINED_PREAMBLE[i])
    ensures forall i :: 0 <= i < |COMBINED_TRAILER| ==> Quiet(ROUTE_ENTRY, COMBINED_TRAILER[i])
  {
    CombinedByIsQuiet();
    PlainLinesAreQuiet();
    UseLineIsQuiet();
    TableLineIsQuiet();
    FnLineIsQuiet("canvas_route_manifest");
    NewLineIsQuiet();
    PrefixLinesAreQuiet();
  }

  lemma {:induction false} AllExtractedOk(texts: seq<string>)
    ensures forall i :: 0 <= i < |AllExtracted(texts)| ==> RouteFits(AllExtracted(texts)[i])
  {
    if texts != [] {
      AllExtractedOk(texts[..|texts| - 1]);
      FoundAreRoutes(texts[|texts| - 1]);
    }
  }

  // Whatever texts it was made from, scanning the combined manifest finds exactly the routes that
  // were extracted from them, in order.
  lemma CombinedRescans(texts: seq<string>)
    requires CombinedText(texts).Some?
    ensures FindAll(ROUTE_ENTRY, CombinedText(texts).value) == GroupsOfAll(AllExtracted(texts))
  {
    var entries := AllExtracted(texts);
    AllExtractedOk(texts);
    JoinParts(COMBINED_PREAMBLE, Blocks(entries), COMBINED_TRAILER);
    BlocksAreRouted(entries);
    CombinedLinesAreQuiet();
    ScanManifest(COMBINED_PREAMBLE, entries, COMBINED_TRAILER);
  }
}
