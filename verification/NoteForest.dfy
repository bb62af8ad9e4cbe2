// The note list over time: under every sequence of the client's transitions the parent relation
// has no cycle, so the walks up to the root end.
module NoteForest {
  import opened Domain
  import opened NoteList

  /* The transitions */

  // Ids are uuids, drawn when the service answers; the log of births keeps them in order.
  datatype Birth = Birth(id: string, isCollection: bool)

  // A createNote call that waits for the service.
  datatype Draft = Draft(title: string, content: string, isCollection: bool, parentId: Option<string>)

  datatype NotesWorld = NotesWorld(canvas: seq<Note>, births: seq<Birth>, pending: map<nat, Draft>)

  datatype NotesStep =
    | Ask(call: nat, draft: Draft)
    | Land(call: nat, id: string, now: int)
    | Edit(id: string, title: Option<string>, content: Option<string>, now: int)
    | MoveIn(id: string, collection: string, now: int)
    | Detach(id: string, now: int)
    | Delete(id: string)
    | Move(shown: seq<Note>, id: string, direction: Direction)

  function Rank(births: seq<Birth>, id: string): (r: nat)
    ensures r <= |births|
    ensures r < |births| ==> births[r].id == id
    ensures r == |births| ==> forall i :: 0 <= i < |births| ==> births[i].id != id
  {
    if births == [] then 0 else if births[0].id == id then 0 else 1 + Rank(births[1..], id)
  }

  predicate Born(births: seq<Birth>, id: string, isCollection: bool) {
    Rank(births, id) < |births| && births[Rank(births, id)].isCollection == isCollection
  }

  // The handlers check a list that may be older than the one they update; what they check and what
  // no transition changes is which ids are collections. Notes are created only under collections,
  // and only notes that are not collections are moved, only into collections.
  function NextNotes(w: NotesWorld, step: NotesStep): NotesWorld {
    match step
    case Ask(call, draft) =>
      if call in w.pending || (draft.parentId.Some? && !Born(w.births, draft.parentId.value, true)) then w
      else w.(pending := w.pending[call := draft])
    case Land(call, id, now) =>
      if call !in w.pending || Rank(w.births, id) < |w.births| then w
      else
        var d := w.pending[call];
        NotesWorld(Landed(w.canvas, Note(id, d.title, d.content, now, d.isCollection, d.parentId)),
                   w.births + [Birth(id, d.isCollection)], w.pending - {call})
    case Edit(id, title, content, now) => w.(canvas := Updated(w.canvas, id, NotePatch(title, content, None), now))
    case MoveIn(id, collection, now) =>
      if Born(w.births, id, false) && Born(w.births, collection, true)
      then w.(canvas := Updated(w.canvas, id, NotePatch(None, None, Some(Some(collection))), now))
      else w
    case Detach(id, now) => w.(canvas := Updated(w.canvas, id, NotePatch(None, None, Some(None)), now))
    case Delete(id) => w.(canvas := Without(w.canvas, id))
    case Move(shown, id, direction) => w.(canvas := MovedCollection(w.canvas, shown, id, direction))
  }

  function RunNotes(w: NotesWorld, steps: seq<NotesStep>): NotesWorld {
    if steps == [] then w else NextNotes(RunNotes(w, steps[..|steps| - 1]), steps[|steps| - 1])
  }

  // What the transitions that change one note leave at its place.
  lemma TransitionsStore(w: NotesWorld, id: string, title: Option<string>, content: Option<string>, collection: string, now: int, i: nat)
    requires i < |w.canvas| && w.canvas[i].id == id
    ensures NextNotes(w, Edit(id, title, content, now)).canvas[i]
         == w.canvas[i].(title := if title.Some? then title.value else w.canvas[i].title,
                         content := if content.Some? then content.value else w.canvas[i].content, updatedAt := now)
    ensures Born(w.births, id, false) && Born(w.births, collection, true) ==>
              NextNotes(w, MoveIn(id, collection, now)).canvas[i] == w.canvas[i].(parentId := Some(collection), updatedAt := now)
    ensures NextNotes(w, Detach(id, now)).canvas[i] == w.canvas[i].(parentId := None, updatedAt := now)
  {
  }

  // A landed note is listed with the title, text, kind and parent it was asked for, after which its call
  // is over and its birth recorded.
  lemma LandedAsAsked(w: NotesWorld, call: nat, id: string, now: int)
    requires call in w.pending && Rank(w.births, id) == |w.births|
    ensures var d := w.pending[call];
            var next := NextNotes(w, Land(call, id, now));
            && Note(id, d.title, d.content, now, d.isCollection, d.parentId) in next.canvas
            && call !in next.pending && next.births == w.births + [Birth(id, d.isCollection)]
  {
    var d := w.pending[call];
    var note := Note(id, d.title, d.content, now, d.isCollection, d.parentId);
    CreateAppends(w.canvas, note, GroupOf(note));
    assert note in Members(Landed(w.canvas, note), GroupOf(note));
  }

  /* The invariant */

  // A parent is a collection; the parent of a collection was born before it.
  predicate NoteOk(births: seq<Birth>, n: Note) {
    && Born(births, n.id, n.isCollection)
    && (n.parentId.Some? ==>
          (&& Born(births, n.parentId.value, true)
           && (n.isCollection ==> Rank(births, n.parentId.value) < Rank(births, n.id))))
  }

  predicate Forest(canvas: seq<Note>, births: seq<Birth>) {
    DistinctIds(canvas) && forall n :: n in canvas ==> NoteOk(births, n)
  }

  predicate DraftOk(births: seq<Birth>, d: Draft) {
    d.parentId.Some? ==> Born(births, d.parentId.value, true)
  }

  predicate NotesInv(w: NotesWorld) {
    Forest(w.canvas, w.births) && forall c :: c in w.pending ==> DraftOk(w.births, w.pending[c])
  }

  lemma {:induction false} RankStays(births: seq<Birth>, b: Birth, id: string)
    ensures Rank(births, id) < |births| ==> Rank(births + [b], id) == Rank(births, id)
    ensures Rank(births, id) == |births| && b.id == id ==> Rank(births + [b], id) == |births|
  {
    if births != [] {
      assert (births + [b])[1..] == births[1..] + [b];
      RankStays(births[1..], b, id);
    }
  }

  lemma BornStays(births: seq<Birth>, b: Birth, id: string, isCollection: bool)
    requires Born(births, id, isCollection)
    ensures Born(births + [b], id, isCollection) && Rank(births + [b], id) == Rank(births, id)
  {
    RankStays(births, b, id);
  }

  lemma NoteStaysOk(births: seq<Birth>, b: Birth, n: Note)
    requires NoteOk(births, n)
    ensures NoteOk(births + [b], n)
  {
    BornStays(births, b, n.id, n.isCollection);
    if n.parentId.Some? {
      BornStays(births, b, n.parentId.value, true);
    }
  }

  lemma InsertedAt(a: seq<Note>, note: Note, b: seq<Note>, i: nat)
    requires i < |a + [note] + b| && i != |a|
    ensures (a + [note] + b)[i] == (a + b)[if i < |a| then i else i - 1]
    ensures (a + [note] + b)[i] in a + b
  {
  }

  lemma InsertedNotes(a: seq<Note>, note: Note, b: seq<Note>)
    requires forall n :: n in a + b ==> n.id != note.id
    ensures forall n :: n in a + [note] + b <==> n == note || n in a + b
    ensures DistinctIds(a + b) ==> DistinctIds(a + [note] + b)
  {
    if DistinctIds(a + b) {
      var s := a + [note] + b;
      forall i, k | 0 <= i < k < |s| ensures s[i].id != s[k].id {
        if i != |a| {
          InsertedAt(a, note, b, i);
        }
        if k != |a| {
          InsertedAt(a, note, b, k);
        }
      }
    }
  }

  lemma LandedNotes(canvas: seq<Note>, note: Note)
    requires forall n :: n in canvas ==> n.id != note.id
    ensures forall n :: n in Landed(canvas, note) <==> n == note || n in canvas
    ensures DistinctIds(canvas) ==> DistinctIds(Landed(canvas, note))
  {
    var at := 0;
    if note.parentId.Some? {
      at := LandingPlace(canvas, note);
    }
    assert canvas == canvas[..at] + canvas[at..];
    InsertedNotes(canvas[..at], note, canvas[at..]);
    assert Landed(canvas, note) == canvas[..at] + [note] + canvas[at..];
  }

  lemma {:induction false} WithoutDistinct(canvas: seq<Note>, id: string)
    requires DistinctIds(canvas)
    ensures DistinctIds(Without(canvas, id))
  {
    if canvas != [] {
      WithoutDistinct(canvas[1..], id);
      forall n | n in Without(canvas[1..], id) ensures n.id != canvas[0].id {
        assert n in canvas[1..];
      }
    }
  }

  lemma LandKeeps(w: NotesWorld, call: nat, id: string, now: int)
    requires NotesInv(w) && call in w.pending && Rank(w.births, id) == |w.births|
    ensures NotesInv(NextNotes(w, Land(call, id, now)))
  {
    var d := w.pending[call];
    var b := Birth(id, d.isCollection);
    var note := Note(id, d.title, d.content, now, d.isCollection, d.parentId);
    RankStays(w.births, b, id);
    if d.parentId.Some? {
      BornStays(w.births, b, d.parentId.value, true);
    }
    forall n | n in w.canvas ensures n.id != id && NoteOk(w.births + [b], n) {
      NoteStaysOk(w.births, b, n);
    }
    LandedNotes(w.canvas, note);
    forall c | c in w.pending - {call} ensures DraftOk(w.births + [b], w.pending[c]) {
      if w.pending[c].parentId.Some? {
        BornStays(w.births, b, w.pending[c].parentId.value, true);
      }
    }
  }

  lemma UpdateKeeps(canvas: seq<Note>, births: seq<Birth>, id: string, patch: NotePatch, now: int)
    requires Forest(canvas, births)
    requires patch.parentId.Some? && patch.parentId.value.Some? ==> Born(births, id, false) && Born(births, patch.parentId.value.value, true)
    ensures Forest(Updated(canvas, id, patch, now), births)
  {
    var next := Updated(canvas, id, patch, now);
    forall i | 0 <= i < |next| ensures NoteOk(births, next[i]) {
      assert NoteOk(births, canvas[i]);
    }
  }

  lemma MoveKeeps(canvas: seq<Note>, births: seq<Birth>, pair: Option<(string, string)>)
    requires Forest(canvas, births)
    ensures Forest(Exchanged(canvas, pair), births)
  {
    var next := Exchanged(canvas, pair);
    forall n | n in next ensures NoteOk(births, n) {
      assert n in canvas;
    }
  }

  lemma StepKeepsForest(w: NotesWorld, step: NotesStep)
    requires NotesInv(w)
    ensures NotesInv(NextNotes(w, step))
  {
    match step {
      case Ask(_, _) =>
      case Land(call, id, now) => if call in w.pending && Rank(w.births, id) == |w.births| { LandKeeps(w, call, id, now); }
      case Edit(id, title, content, now) => UpdateKeeps(w.canvas, w.births, id, NotePatch(title, content, None), now);
      case MoveIn(id, collection, now) =>
        if Born(w.births, id, false) && Born(w.births, collection, true) {
          UpdateKeeps(w.canvas, w.births, id, NotePatch(None, None, Some(Some(collection))), now);
        }
      case Detach(id, now) => UpdateKeeps(w.canvas, w.births, id, NotePatch(None, None, Some(None)), now);
      case Delete(id) => WithoutDistinct(w.canvas, id);
      case Move(shown, id, direction) => MoveKeeps(w.canvas, w.births, PickSwap(shown, id, direction));
    }
  }

  lemma {:induction false} RunKeepsForest(w: NotesWorld, steps: seq<NotesStep>)
    requires NotesInv(w)
    ensures NotesInv(RunNotes(w, steps))
  {
    if steps != [] {
      RunKeepsForest(w, steps[..|steps| - 1]);
      StepKeepsForest(RunNotes(w, steps[..|steps| - 1]), steps[|steps| - 1]);
    }
  }

  /* Ancestors */

  function Height(births: seq<Birth>, p: Option<string>): nat {
    if p.None? then 0 else Rank(births, p.value) + 1
  }

  predicate ParentOk(births: seq<Birth>, p: Option<string>) {
    p.Some? ==> Born(births, p.value, true)
  }

  // The listed notes above a parent id, nearest first.
  function Ancestors(canvas: seq<Note>, births: seq<Birth>, p: Option<string>): (r: seq<Note>)
    requires Forest(canvas, births) && ParentOk(births, p)
    ensures forall a :: a in r ==> a in canvas && a.isCollection && Rank(births, a.id) < Height(births, p)
    ensures DistinctIds(r)
    decreases Height(births, p)
  {
    if p.None? then []
    else
      var at := IndexOf(canvas, p.value);
      if at < 0 then []
      else
        assert canvas[at] in canvas;
        [canvas[at]] + Ancestors(canvas, births, canvas[at].parentId)
  }

  // The ids above a note, nearest first: those of its ancestors and, if the topmost one's parent
  // is not listed any more, that id too.
  function ParentChain(canvas: seq<Note>, births: seq<Birth>, p: Option<string>): (r: seq<string>)
    requires Forest(canvas, births) && ParentOk(births, p)
    ensures |r| <= |Ancestors(canvas, births, p)| + 1
    decreases Height(births, p)
  {
    if p.None? then []
    else
      var at := IndexOf(canvas, p.value);
      if at < 0 then [p.value]
      else
        assert canvas[at] in canvas;
        [p.value] + ParentChain(canvas, births, canvas[at].parentId)
  }

  // No note is above itself.
  lemma NoCycle(canvas: seq<Note>, births: seq<Birth>, n: Note)
    requires Forest(canvas, births) && n in canvas
    ensures forall a :: a in Ancestors(canvas, births, n.parentId) ==> a.id != n.id
  {
  }

  function Ids(s: seq<Note>): set<string> {
    set n | n in s :: n.id
  }

  lemma {:induction false} IdCount(s: seq<Note>)
    ensures |Ids(s)| <= |s| && (DistinctIds(s) ==> |Ids(s)| == |s|)
  {
    if s != [] {
      var last := |s| - 1;
      IdCount(s[..last]);
      assert s == s[..last] + [s[last]];
      assert Ids(s) == Ids(s[..last]) + {s[last].id};
    }
  }

  lemma SubsetSize(a: set<string>, b: set<string>)
    requires a <= b
    ensures |a| <= |b|
  {
    assert b == a + (b - a);
  }

  // A note has fewer ancestors than there are notes.
  lemma AncestorsAreFewer(canvas: seq<Note>, births: seq<Birth>, n: Note)
    requires Forest(canvas, births) && n in canvas
    ensures |Ancestors(canvas, births, n.parentId)| < |canvas|
  {
    var above := Ancestors(canvas, births, n.parentId);
    NoCycle(canvas, births, n);
    IdCount(above);
    IdCount(canvas);
    assert n.id !in Ids(above);
    SubsetSize(Ids(above) + {n.id}, Ids(canvas));
  }

  // From a loaded list that is a forest, whatever the client does: no note is above itself, and the
  // walk up from any note meets fewer notes than there are.
  lemma WalksEndInEveryRun(w: NotesWorld, steps: seq<NotesStep>, n: Note)
    requires NotesInv(w) && n in RunNotes(w, steps).canvas
    ensures var after := RunNotes(w, steps);
            && Forest(after.canvas, after.births)
            && (forall a :: a in Ancestors(after.canvas, after.births, n.parentId) ==> a.id != n.id)
            && |Ancestors(after.canvas, after.births, n.parentId)| < |after.canvas|
  {
    RunKeepsForest(w, steps);
    NoCycle(RunNotes(w, steps).canvas, RunNotes(w, steps).births, n);
    AncestorsAreFewer(RunNotes(w, steps).canvas, RunNotes(w, steps).births, n);
  }

  // The ancestors are the parents, one after the other, as far as they are listed.
  lemma {:induction false} AncestorsAreParents(canvas: seq<Note>, births: seq<Birth>, p: Option<string>)
    requires Forest(canvas, births) && ParentOk(births, p)
    ensures var above := Ancestors(canvas, births, p);
            && (above == [] <==> p.None? || forall n :: n in canvas ==> n.id != p.value)
            && (above != [] ==> p == Some(above[0].id))
            && (forall i :: 0 <= i < |above| - 1 ==> above[i].parentId == Some(above[i + 1].id))
            && (above != [] ==>
                  (var top := above[|above| - 1].parentId; top.None? || forall n :: n in canvas ==> n.id != top.value))
    decreases Height(births, p)
  {
    if p.Some? {
      var at := IndexOf(canvas, p.value);
      if at >= 0 {
        assert canvas[at] in canvas;
        var up, rest := canvas[at].parentId, Ancestors(canvas, births, canvas[at].parentId);
        AncestorsAreParents(canvas, births, up);
        var above := Ancestors(canvas, births, p);
        assert above == [canvas[at]] + rest;
      }
    }
  }

  /* The walks */

  function Shown(n: Note, untitled: string): string {
    if n.title == "" then untitled else n.title
  }

  // The titles from the root down to the text, separated by slashes.
  function PathText(above: seq<Note>, untitled: string, text: string): string {
    if above == [] then text else PathText(above[1..], untitled, Shown(above[0], untitled) + " / " + text)
  }

  // One round of a walk: from a listed parent to its own parent, which lies lower.
  lemma StepUp(canvas: seq<Note>, births: seq<Birth>, p: Option<string>)
    requires Forest(canvas, births) && ParentOk(births, p) && p.Some?
    ensures var at := IndexOf(canvas, p.value);
            if at < 0 then Ancestors(canvas, births, p) == [] && ParentChain(canvas, births, p) == [p.value]
            else
              var up := canvas[at].parentId;
              && ParentOk(births, up) && Height(births, up) < Height(births, p)
              && Ancestors(canvas, births, p) == [canvas[at]] + Ancestors(canvas, births, up)
              && ParentChain(canvas, births, p) == [p.value] + ParentChain(canvas, births, up)
  {
    var at := IndexOf(canvas, p.value);
    if at >= 0 {
      assert canvas[at] in canvas;
    }
  }

  // Read from the root: its title, a slash, and the path below it.
  lemma {:induction false} PathFromRoot(above: seq<Note>, root: Note, untitled: string, text: string)
    ensures PathText(above + [root], untitled, text)
         == (if root.title == "" then untitled else root.title) + " / " + PathText(above, untitled, text)
  {
    if above == [] {
      assert [] + [root] == [root] && [root][1..] == [];
    } else {
      assert (above + [root])[1..] == above[1..] + [root];
      PathFromRoot(above[1..], root, untitled, Shown(above[0], untitled) + " / " + text);
    }
  }

  // The ids above a note are those of its ancestors, and of a parent that is not listed any more.
  lemma {:induction false} ChainIsAncestors(canvas: seq<Note>, births: seq<Birth>, p: Option<string>)
    requires Forest(canvas, births) && ParentOk(births, p)
    ensures var above, chain := Ancestors(canvas, births, p), ParentChain(canvas, births, p);
            && |above| <= |chain| <= |above| + 1 && (forall i :: 0 <= i < |above| ==> chain[i] == above[i].id)
            && (var top := if above == [] then p else above[|above| - 1].parentId;
                (|chain| == |above| <==> top.None?) && (|chain| > |above| ==> top == Some(chain[|above|])))
    decreases Height(births, p)
  {
    if p.Some? {
      StepUp(canvas, births, p);
      var at := IndexOf(canvas, p.value);
      if at >= 0 {
        ChainIsAncestors(canvas, births, canvas[at].parentId);
      }
    }
  }

  lemma PathTextStep(above: seq<Note>, untitled: string, text: string)
    requires above != []
    ensures PathText(above, untitled, text) == PathText(above[1..], untitled, Shown(above[0], untitled) + " / " + text)
  {
  }

  // The path shown for a collection in the list of move targets. The loop runs at most once per note.
  method PathTitle(canvas: seq<Note>, coll: Note, untitled: string, ghost births: seq<Birth>)
    returns (pathTitle: string, ghost rounds: nat)
    requires Forest(canvas, births) && coll in canvas
    ensures pathTitle == PathText(Ancestors(canvas, births, coll.parentId), untitled, Shown(coll, untitled))
    ensures rounds <= |canvas|
  {
    pathTitle, rounds := Shown(coll, untitled), 0;
    var currentParentId := coll.parentId;
    ghost var above := Ancestors(canvas, births, coll.parentId);
    AncestorsAreFewer(canvas, births, coll);
    while currentParentId.Some?
      invariant ParentOk(births, currentParentId) && above == Ancestors(canvas, births, currentParentId)
      invariant PathText(above, untitled, pathTitle)
             == PathText(Ancestors(canvas, births, coll.parentId), untitled, Shown(coll, untitled))
      invariant rounds + |above| < |canvas|
      decreases Height(births, currentParentId)
    {
      StepUp(canvas, births, currentParentId);
      rounds := rounds + 1;
      var at := IndexOf(canvas, currentParentId.value);
      if at < 0 {
        break;
      }
      PathTextStep(above, untitled, pathTitle);
      pathTitle := Shown(canvas[at], untitled) + " / " + pathTitle;
      currentParentId := canvas[at].parentId;
      above := above[1..];
    }
  }

  predicate Open(expanded: map<string, bool>, id: string) {
    id in expanded && expanded[id]
  }

  // The ids that selecting a note opens: itself if it is a collection, and everything above it.
  function Opened(canvas: seq<Note>, births: seq<Birth>, n: Note): (r: seq<string>)
    requires Forest(canvas, births) && n in canvas
  {
    (if n.isCollection then [n.id] else []) + ParentChain(canvas, births, n.parentId)
  }

  // What is open now, and still to open on the way up, is what was open and what is to be toOpen.
  ghost predicate Opening(expanded: map<string, bool>, next: map<string, bool>, rest: seq<string>, toOpen: seq<string>) {
    forall id :: Open(next, id) || id in rest <==> Open(expanded, id) || id in toOpen
  }

  lemma OpeningStep(expanded: map<string, bool>, next: map<string, bool>, rest: seq<string>, toOpen: seq<string>)
    requires rest != [] && Opening(expanded, next, rest, toOpen)
    ensures Opening(expanded, if Open(next, rest[0]) then next else next[rest[0] := true], rest[1..], toOpen)
  {
    assert rest == [rest[0]] + rest[1..];
  }

  lemma OpeningStarts(canvas: seq<Note>, births: seq<Birth>, n: Note, expanded: map<string, bool>)
    requires Forest(canvas, births) && n in canvas
    ensures Opening(expanded, if n.isCollection && !Open(expanded, n.id) then expanded[n.id := true] else expanded,
                    ParentChain(canvas, births, n.parentId), Opened(canvas, births, n))
  {
  }

  // The effect that opens the folders around the active note. The loop runs at most once per note.
  method ExpandAncestors(canvas: seq<Note>, activeNoteId: string, expanded: map<string, bool>, ghost births: seq<Birth>)
    returns (next: map<string, bool>, madeChanges: bool, ghost rounds: nat)
    requires Forest(canvas, births)
    ensures var at := IndexOf(canvas, activeNoteId);
            if at < 0 then next == expanded
            else assert canvas[at] in canvas; Opening(expanded, next, [], Opened(canvas, births, canvas[at]))
    ensures !madeChanges ==> next == expanded
    ensures madeChanges ==> exists id :: Open(next, id) && !Open(expanded, id)
    ensures rounds <= |canvas|
  {
    next, madeChanges, rounds := expanded, false, 0;
    var at := IndexOf(canvas, activeNoteId);
    if at < 0 {
      return;
    }
    var current := canvas[at];
    assert current in canvas;
    AncestorsAreFewer(canvas, births, current);
    OpeningStarts(canvas, births, current, expanded);
    ghost var changed := current.id;
    if current.isCollection && !Open(next, current.id) {
      next, madeChanges := next[current.id := true], true;
    }
    var parentId := current.parentId;
    ghost var rest, toOpen := ParentChain(canvas, births, parentId), Opened(canvas, births, current);
    while parentId.Some?
      invariant ParentOk(births, parentId) && rest == ParentChain(canvas, births, parentId)
      invariant Opening(expanded, next, rest, toOpen)
      invariant madeChanges ==> Open(next, changed) && !Open(expanded, changed)
      invariant !madeChanges ==> next == expanded
      invariant rounds + |rest| <= |canvas|
      decreases Height(births, parentId)
    {
      StepUp(canvas, births, parentId);
      OpeningStep(expanded, next, rest, toOpen);
      if !Open(next, parentId.value) {
        changed := if madeChanges then changed else parentId.value;
        next, madeChanges := next[parentId.value := true], true;
      }
      var parentNode := IndexOf(canvas, parentId.value);
      parentId := if parentNode >= 0 then canvas[parentNode].parentId else None;
      rounds, rest := rounds + 1, rest[1..];
    }
  }
}
