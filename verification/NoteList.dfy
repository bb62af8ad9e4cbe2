// The client's note list: a forest kept in one flat array, whose order is the order of siblings.
module NoteList {
  import opened Domain

  // A missing parentId and an absent isCollection read as None and false.
  datatype Note = Note(
    id: string,
    title: string,
    content: string,
    updatedAt: int,
    isCollection: bool,
    parentId: Option<string>)

  datatype NotePatch = NotePatch(title: Option<string>, content: Option<string>, parentId: Option<Option<string>>)

  datatype Direction = Up | Down

  // The lists in which the sidebar shows notes: the children of a note, the top-level collections
  // and the individual notes. Every note is in exactly one.
  datatype Group = ChildrenOf(parent: string) | Collections | Singles

  function GroupOf(n: Note): Group {
    if n.parentId.Some? then ChildrenOf(n.parentId.value) else if n.isCollection then Collections else Singles
  }

  // The notes of a group in list order: canvas.filter.
  function Members(canvas: seq<Note>, g: Group): (r: seq<Note>)
    ensures forall n :: n in r <==> n in canvas && GroupOf(n) == g
  {
    if canvas == [] then []
    else (if GroupOf(canvas[0]) == g then [canvas[0]] else []) + Members(canvas[1..], g)
  }

  // canvas.findIndex by id.
  function IndexOf(canvas: seq<Note>, id: string): (r: int)
    ensures -1 <= r < |canvas|
    ensures r >= 0 ==> canvas[r].id == id
    ensures forall i :: 0 <= i < |canvas| && (r < 0 || i < r) ==> canvas[i].id != id
  {
    if canvas == [] then -1
    else if canvas[0].id == id then 0
    else
      var rest := IndexOf(canvas[1..], id);
      if rest < 0 then -1 else rest + 1
  }

  predicate DistinctIds(canvas: seq<Note>) {
    forall i, k :: 0 <= i < k < |canvas| ==> canvas[i].id != canvas[k].id
  }

  lemma {:induction false} MembersConcat(a: seq<Note>, b: seq<Note>, g: Group)
    ensures Members(a + b, g) == Members(a, g) + Members(b, g)
  {
    if a == [] {
      assert a + b == b;
    } else {
      assert (a + b)[1..] == a[1..] + b;
      MembersConcat(a[1..], b, g);
    }
  }

  lemma MembersAround(a: seq<Note>, x: Note, b: seq<Note>, g: Group)
    ensures Members(a + [x] + b, g) == Members(a, g) + (if GroupOf(x) == g then [x] else []) + Members(b, g)
  {
    MembersConcat(a + [x], b, g);
    MembersConcat(a, [x], g);
    assert Members([x], g) == if GroupOf(x) == g then [x] else [];
  }

  /* createNote */

  // The last sibling, by a search from the end.
  function LastChild(canvas: seq<Note>, parent: string): (r: int)
    ensures -1 <= r < |canvas|
    ensures r >= 0 ==> canvas[r].parentId == Some(parent)
    ensures forall i :: r < i < |canvas| ==> canvas[i].parentId != Some(parent)
  {
    if canvas == [] then -1
    else if canvas[|canvas| - 1].parentId == Some(parent) then |canvas| - 1
    else LastChild(canvas[..|canvas| - 1], parent)
  }

  lemma LastChildIs(canvas: seq<Note>, parent: string, k: int)
    requires -1 <= k < |canvas| && (k >= 0 ==> canvas[k].parentId == Some(parent))
    requires forall i :: k < i < |canvas| ==> canvas[i].parentId != Some(parent)
    ensures k == LastChild(canvas, parent)
  {
  }

  // The search from the end, as a loop.
  method FindLastChild(canvas: seq<Note>, parent: string) returns (actualIndex: int)
    ensures actualIndex == LastChild(canvas, parent)
  {
    actualIndex := |canvas| - 1;
    while actualIndex >= 0 && canvas[actualIndex].parentId != Some(parent)
      invariant -1 <= actualIndex < |canvas|
      invariant forall i :: actualIndex < i < |canvas| ==> canvas[i].parentId != Some(parent)
    {
      actualIndex := actualIndex - 1;
    }
    LastChildIs(canvas, parent, actualIndex);
  }

  // The list after the new note has come back from the service.
  function Landed(canvas: seq<Note>, note: Note): seq<Note> {
    if note.parentId.None? then [note] + canvas
    else
      var last, parent := LastChild(canvas, note.parentId.value), IndexOf(canvas, note.parentId.value);
      if last >= 0 then canvas[..last + 1] + [note] + canvas[last + 1..]
      else if parent >= 0 then canvas[..parent + 1] + [note] + canvas[parent + 1..]
      else canvas + [note]
  }

  lemma {:induction false} NoMembers(canvas: seq<Note>, g: Group)
    requires forall i :: 0 <= i < |canvas| ==> GroupOf(canvas[i]) != g
    ensures Members(canvas, g) == []
  {
    if canvas != [] {
      NoMembers(canvas[1..], g);
    }
  }

  lemma InsertedBehind(a: seq<Note>, note: Note, b: seq<Note>, g: Group)
    requires Members(b, GroupOf(note)) == []
    ensures Members(a + [note] + b, g) == Members(a + b, g) + if GroupOf(note) == g then [note] else []
  {
    MembersAround(a, note, b, g);
    MembersConcat(a, b, g);
  }

  // A created note goes to the end of its parent's children, or to the front of its top-level
  // group; all other groups keep their order.
  lemma CreateAppends(canvas: seq<Note>, note: Note, g: Group)
    ensures Members(Landed(canvas, note), g)
         == if GroupOf(note) != g then Members(canvas, g)
            else if note.parentId.Some? then Members(canvas, g) + [note]
            else [note] + Members(canvas, g)
  {
    if note.parentId.None? {
      MembersConcat([note], canvas, g);
    } else {
      var at := LandingPlace(canvas, note);
      NoMembers(canvas[at..], GroupOf(note));
      InsertedBehind(canvas[..at], note, canvas[at..], g);
      SplitAt(canvas, at);
    }
  }

  lemma SplitAt(canvas: seq<Note>, at: nat)
    requires at <= |canvas|
    ensures canvas[..at] + canvas[at..] == canvas
  {
  }

  // Behind the place where a child note lands there is no sibling of it.
  lemma LandingPlace(canvas: seq<Note>, note: Note) returns (at: nat)
    requires note.parentId.Some?
    ensures at <= |canvas| && Landed(canvas, note) == canvas[..at] + [note] + canvas[at..]
    ensures forall i :: at <= i < |canvas| ==> GroupOf(canvas[i]) != GroupOf(note)
  {
    var last, parent := LastChild(canvas, note.parentId.value), IndexOf(canvas, note.parentId.value);
    if last >= 0 {
      at := last + 1;
    } else if parent >= 0 {
      at := parent + 1;
    } else {
      at := |canvas|;
      assert canvas[..at] == canvas && canvas[at..] == [];
    }
  }

  /* updateNote, deleteNote */

  function PatchedNote(n: Note, patch: NotePatch, now: int): Note {
    n.(title := patch.title.GetOr(n.title), content := patch.content.GetOr(n.content),
       parentId := patch.parentId.GetOr(n.parentId), updatedAt := now)
  }

  function Updated(canvas: seq<Note>, id: string, patch: NotePatch, now: int): (r: seq<Note>)
    ensures |r| == |canvas|
    ensures forall i :: 0 <= i < |r| ==> r[i] == if canvas[i].id == id then PatchedNote(canvas[i], patch, now) else canvas[i]
  {
    seq(|canvas|, i requires 0 <= i < |canvas| => if canvas[i].id == id then PatchedNote(canvas[i], patch, now) else canvas[i])
  }

  // An edit stores the text and the parent it is given, and the time; all other notes stay, and every
  // note keeps its place.
  lemma UpdateSets(canvas: seq<Note>, id: string, patch: NotePatch, now: int, i: nat)
    requires i < |canvas|
    ensures var n, m := canvas[i], Updated(canvas, id, patch, now)[i];
            if n.id != id then m == n
            else
              && m.id == n.id && m.isCollection == n.isCollection && m.updatedAt == now
              && (patch.title.Some? ==> m.title == patch.title.value) && (patch.title.None? ==> m.title == n.title)
              && (patch.content.Some? ==> m.content == patch.content.value) && (patch.content.None? ==> m.content == n.content)
              && (patch.parentId.Some? ==> m.parentId == patch.parentId.value) && (patch.parentId.None? ==> m.parentId == n.parentId)
  {
  }

  // The lists of the sidebar: the children of a note, the top-level collections, the other top-level notes.
  lemma SidebarLists(canvas: seq<Note>, n: Note, parent: string)
    ensures n in Members(canvas, ChildrenOf(parent)) <==> n in canvas && n.parentId == Some(parent)
    ensures n in Members(canvas, Collections) <==> n in canvas && n.parentId == None && n.isCollection
    ensures n in Members(canvas, Singles) <==> n in canvas && n.parentId == None && !n.isCollection
  {
  }

  function Without(canvas: seq<Note>, id: string): (r: seq<Note>)
    ensures forall n :: n in r <==> n in canvas && n.id != id
  {
    if canvas == [] then []
    else (if canvas[0].id != id then [canvas[0]] else []) + Without(canvas[1..], id)
  }

  function WithoutAll(canvas: seq<Note>, ids: seq<Note>): seq<Note> {
    if ids == [] then canvas else Without(WithoutAll(canvas, ids[..|ids| - 1]), ids[|ids| - 1].id)
  }

  // The confirmed delete of the sidebar: a collection goes with its direct children.
  function DeletedWithChildren(canvas: seq<Note>, shown: seq<Note>, id: string): seq<Note> {
    var at := IndexOf(shown, id);
    if at < 0 then canvas
    else if shown[at].isCollection then Without(WithoutAll(canvas, Members(shown, ChildrenOf(id))), id)
    else Without(canvas, id)
  }

  lemma {:induction false} WithoutCommutes(canvas: seq<Note>, id: string, g: Group)
    ensures Members(Without(canvas, id), g) == Without(Members(canvas, g), id)
  {
    if canvas != [] {
      WithoutCommutes(canvas[1..], id, g);
      WithoutConcat(if GroupOf(canvas[0]) == g then [canvas[0]] else [], Members(canvas[1..], g), id);
      MembersConcat(if canvas[0].id != id then [canvas[0]] else [], Without(canvas[1..], id), g);
    }
  }

  lemma {:induction false} WithoutConcat(a: seq<Note>, b: seq<Note>, id: string)
    ensures Without(a + b, id) == Without(a, id) + Without(b, id)
  {
    if a == [] {
      assert a + b == b;
    } else {
      assert (a + b)[1..] == a[1..] + b;
      WithoutConcat(a[1..], b, id);
    }
  }

  lemma {:induction false} WithoutAllRemoves(canvas: seq<Note>, ids: seq<Note>)
    ensures forall n :: n in WithoutAll(canvas, ids) <==> n in canvas && forall d :: d in ids ==> d.id != n.id
  {
    if ids != [] {
      WithoutAllRemoves(canvas, ids[..|ids| - 1]);
      assert ids == ids[..|ids| - 1] + [ids[|ids| - 1]];
    }
  }

  lemma ChildIsListed(canvas: seq<Note>, n: Note, id: string)
    requires DistinctIds(canvas) && n in canvas
    ensures (exists d :: d in Members(canvas, ChildrenOf(id)) && d.id == n.id) <==> n.parentId == Some(id)
  {
    var children := Members(canvas, ChildrenOf(id));
    if n.parentId == Some(id) {
      assert n in children;
    }
    if d :| d in children && d.id == n.id {
      var i :| 0 <= i < |canvas| && canvas[i] == n;
      var k :| 0 <= k < |canvas| && canvas[k] == d;
      assert i == k;
    }
  }

  // Deleting a collection removes it and its direct children, and nothing below them.
  lemma DeleteRemoves(canvas: seq<Note>, id: string)
    requires DistinctIds(canvas)
    ensures var at := IndexOf(canvas, id);
            forall n :: n in DeletedWithChildren(canvas, canvas, id) <==>
              (n in canvas && n.id != id && (at >= 0 && canvas[at].isCollection ==> n.parentId != Some(id)))
  {
    WithoutAllRemoves(canvas, Members(canvas, ChildrenOf(id)));
    forall n | n in canvas
      ensures (exists d :: d in Members(canvas, ChildrenOf(id)) && d.id == n.id) <==> n.parentId == Some(id)
    {
      ChildIsListed(canvas, n, id);
    }
  }

  /* moveCollection and moveChildNote */

  function Swapped<T>(s: seq<T>, i: nat, k: nat): seq<T>
    requires i < |s| && k < |s|
  {
    s[i := s[k]][k := s[i]]
  }

  // The list a note moves in: its parent's children, or the top-level collections.
  function SiblingGroup(n: Note): Group {
    if n.parentId.Some? then ChildrenOf(n.parentId.value) else Collections
  }

  // The two ids that a move exchanges, chosen in the list as it is shown.
  function PickSwap(shown: seq<Note>, id: string, direction: Direction): Option<(string, string)> {
    var at := IndexOf(shown, id);
    if at < 0 then None
    else
      var siblings := Members(shown, SiblingGroup(shown[at]));
      var index := IndexOf(siblings, id);
      var target := if direction == Up then index - 1 else index + 1;
      if index < 0 || target < 0 || target >= |siblings| then None
      else Some((siblings[index].id, siblings[target].id))
  }

  // The exchange, in the list as it is by then.
  function Exchanged(canvas: seq<Note>, pair: Option<(string, string)>): seq<Note> {
    if pair.None? then canvas
    else
      var i, k := IndexOf(canvas, pair.value.0), IndexOf(canvas, pair.value.1);
      if i < 0 || k < 0 then canvas else Swapped(canvas, i, k)
  }

  function MovedCollection(canvas: seq<Note>, shown: seq<Note>, id: string, direction: Direction): seq<Note> {
    Exchanged(canvas, PickSwap(shown, id, direction))
  }

  function MovedChild(canvas: seq<Note>, shown: seq<Note>, id: string, direction: Direction): seq<Note> {
    var at := IndexOf(shown, id);
    if at < 0 || shown[at].parentId.None? then canvas else Exchanged(canvas, PickSwap(shown, id, direction))
  }

  // Whatever list was shown, a move only reorders the notes.
  lemma ExchangeReorders(canvas: seq<Note>, pair: Option<(string, string)>)
    ensures multiset(Exchanged(canvas, pair)) == multiset(canvas)
    ensures |Exchanged(canvas, pair)| == |canvas|
  {
  }

  lemma {:induction false} MembersDistinct(canvas: seq<Note>, g: Group)
    requires DistinctIds(canvas)
    ensures DistinctIds(Members(canvas, g))
  {
    if canvas != [] {
      MembersDistinct(canvas[1..], g);
      forall n | n in Members(canvas[1..], g) ensures n.id != canvas[0].id {
        assert n in canvas[1..];
      }
    }
  }

  lemma SamePosition(s: seq<Note>, i: nat, k: nat)
    requires DistinctIds(s) && i < |s| && k < |s| && s[i].id == s[k].id
    ensures i == k
  {
  }

  lemma MembersAroundTwo(a: seq<Note>, x: Note, b: seq<Note>, y: Note, c: seq<Note>, g: Group)
    ensures Members(a + [x] + b + [y] + c, g)
         == Members(a, g) + (if GroupOf(x) == g then [x] else []) + Members(b, g) + (if GroupOf(y) == g then [y] else []) + Members(c, g)
  {
    MembersAround(a + [x] + b, y, c, g);
    MembersAround(a, x, b, g);
  }

  lemma SwappedParts(a: seq<Note>, x: Note, b: seq<Note>, y: Note, c: seq<Note>, p: nat, q: nat)
    requires var m := a + [x] + b + [y] + c;
             DistinctIds(m) && p < q < |m| && m[p] == x && m[q] == y
    ensures a + [y] + b + [x] + c == Swapped(a + [x] + b + [y] + c, p, q)
  {
    var m := a + [x] + b + [y] + c;
    SamePosition(m, p, |a|);
    SamePosition(m, q, |a| + 1 + |b|);
  }

  lemma FirstIsOnly(s: seq<Note>, p: nat)
    requires DistinctIds(s) && p < |s|
    ensures IndexOf(s, s[p].id) == p
  {
    SamePosition(s, IndexOf(s, s[p].id), p);
  }

  // Exchanging two notes of one group exchanges them there.
  lemma SwapInGroup(a: seq<Note>, x: Note, b: seq<Note>, y: Note, c: seq<Note>, g: Group, p: nat, q: nat)
    requires GroupOf(x) == g && GroupOf(y) == g
    requires var m := Members(a + [x] + b + [y] + c, g); DistinctIds(m) && p < q < |m| && m[p] == x && m[q] == y
    ensures Members(a + [y] + b + [x] + c, g) == Swapped(Members(a + [x] + b + [y] + c, g), p, q)
  {
    MembersAroundTwo(a, x, b, y, c, g);
    MembersAroundTwo(a, y, b, x, c, g);
    SwappedParts(Members(a, g), x, Members(b, g), y, Members(c, g), p, q);
  }

  lemma OtherGroups(a: seq<Note>, x: Note, b: seq<Note>, y: Note, c: seq<Note>, h: Group)
    ensures GroupOf(x) != h && GroupOf(y) != h ==> Members(a + [y] + b + [x] + c, h) == Members(a + [x] + b + [y] + c, h)
  {
    MembersAroundTwo(a, x, b, y, c, h);
    MembersAroundTwo(a, y, b, x, c, h);
  }

  // Two places of a sibling list are exchanged, and nothing else changes in any.
  ghost predicate SwapsPlaces(canvas: seq<Note>, next: seq<Note>, g: Group, p: nat, q: nat) {
    && p < |Members(canvas, g)| && q < |Members(canvas, g)|
    && Members(next, g) == Swapped(Members(canvas, g), p, q)
    && (forall h :: h != g ==> Members(next, h) == Members(canvas, h))
    && multiset(next) == multiset(canvas)
  }

  // The position that findIndex gives for a listed note.
  lemma PositionOf(canvas: seq<Note>, n: Note) returns (r: nat)
    requires DistinctIds(canvas) && n in canvas
    ensures r < |canvas| && canvas[r] == n && IndexOf(canvas, n.id) == r
  {
    r :| 0 <= r < |canvas| && canvas[r] == n;
  }

  lemma SplitAtTwo(canvas: seq<Note>, i: nat, j: nat)
    requires i < j < |canvas|
    ensures canvas == canvas[..i] + [canvas[i]] + canvas[i + 1..j] + [canvas[j]] + canvas[j + 1..]
    ensures Swapped(canvas, i, j) == canvas[..i] + [canvas[j]] + canvas[i + 1..j] + [canvas[i]] + canvas[j + 1..]
    ensures Swapped(canvas, j, i) == Swapped(canvas, i, j)
  {
  }

  lemma ExchangeSwaps(canvas: seq<Note>, g: Group, p: nat, q: nat, pair: (string, string))
    requires DistinctIds(canvas) && p < q < |Members(canvas, g)|
    requires var m := Members(canvas, g); pair == (m[p].id, m[q].id) || pair == (m[q].id, m[p].id)
    ensures SwapsPlaces(canvas, Exchanged(canvas, Some(pair)), g, p, q)
  {
    var i, j := OrderKept(canvas, g, p, q);
    var x, y := canvas[i], canvas[j];
    FirstIsOnly(canvas, i);
    FirstIsOnly(canvas, j);
    SplitAtTwo(canvas, i, j);
    MembersDistinct(canvas, g);
    AllGroups(canvas[..i], x, canvas[i + 1..j], y, canvas[j + 1..], g, p, q);
    ExchangeReorders(canvas, Some(pair));
  }

  lemma AllGroups(a: seq<Note>, x: Note, b: seq<Note>, y: Note, c: seq<Note>, g: Group, p: nat, q: nat)
    requires GroupOf(x) == g && GroupOf(y) == g
    requires var m := Members(a + [x] + b + [y] + c, g); DistinctIds(m) && p < q < |m| && m[p] == x && m[q] == y
    ensures Members(a + [y] + b + [x] + c, g) == Swapped(Members(a + [x] + b + [y] + c, g), p, q)
    ensures forall h :: h != g ==> Members(a + [y] + b + [x] + c, h) == Members(a + [x] + b + [y] + c, h)
  {
    SwapInGroup(a, x, b, y, c, g, p, q);
    forall h | h != g ensures Members(a + [y] + b + [x] + c, h) == Members(a + [x] + b + [y] + c, h) {
      OtherGroups(a, x, b, y, c, h);
    }
  }

  lemma PlaceOfMember(canvas: seq<Note>, g: Group, p: nat) returns (i: nat)
    requires p < |Members(canvas, g)|
    ensures i < |canvas| && canvas[i] == Members(canvas, g)[p]
  {
    assert Members(canvas, g)[p] in Members(canvas, g);
    i :| 0 <= i < |canvas| && canvas[i] == Members(canvas, g)[p];
  }

  lemma FirstMember(canvas: seq<Note>, g: Group, p: nat)
    requires canvas != [] && p < |Members(canvas, g)|
    ensures GroupOf(canvas[0]) != g ==> p < |Members(canvas[1..], g)| && Members(canvas, g)[p] == Members(canvas[1..], g)[p]
    ensures GroupOf(canvas[0]) == g && p == 0 ==> Members(canvas, g)[p] == canvas[0]
    ensures GroupOf(canvas[0]) == g && p > 0 ==>
              p - 1 < |Members(canvas[1..], g)| && Members(canvas, g)[p] == Members(canvas[1..], g)[p - 1]
  {
  }

  // Notes come in the same order in a group as in the list.
  lemma {:induction false} OrderKept(canvas: seq<Note>, g: Group, p: nat, q: nat) returns (i: nat, j: nat)
    requires p < q < |Members(canvas, g)|
    ensures i < j < |canvas| && canvas[i] == Members(canvas, g)[p] && canvas[j] == Members(canvas, g)[q]
  {
    FirstMember(canvas, g, p);
    FirstMember(canvas, g, q);
    if GroupOf(canvas[0]) != g {
      i, j := OrderKept(canvas[1..], g, p, q);
      i, j := i + 1, j + 1;
    } else if p > 0 {
      i, j := OrderKept(canvas[1..], g, p - 1, q - 1);
      i, j := i + 1, j + 1;
    } else {
      var k := PlaceOfMember(canvas[1..], g, q - 1);
      i, j := 0, k + 1;
    }
  }

  // The note at place p of its group, which is a sibling list.
  ghost predicate At(canvas: seq<Note>, n: Note, p: nat) {
    && DistinctIds(canvas) && n in canvas && GroupOf(n) != Singles
    && p < |Members(canvas, GroupOf(n))| && Members(canvas, GroupOf(n))[p] == n
  }

  // What a move picks: the note and its neighbour, if it has one on that side.
  lemma PicksAt(canvas: seq<Note>, n: Note, p: nat, direction: Direction)
    requires At(canvas, n, p)
    ensures var m := Members(canvas, GroupOf(n));
            PickSwap(canvas, n.id, direction)
            == if direction == Up then (if p == 0 then None else Some((m[p].id, m[p - 1].id)))
               else (if p + 1 == |m| then None else Some((m[p].id, m[p + 1].id)))
  {
    var at := PositionOf(canvas, n);
    PlaceOf(canvas, GroupOf(n), p);
    PicksNeighbour(canvas, at, p, direction);
  }

  lemma PickedMoves(canvas: seq<Note>, shown: seq<Note>, id: string, direction: Direction, g: Group, p: nat, q: nat, pair: (string, string))
    requires DistinctIds(canvas) && PickSwap(shown, id, direction) == Some(pair) && p < q < |Members(canvas, g)|
    requires var m := Members(canvas, g); pair == (m[p].id, m[q].id) || pair == (m[q].id, m[p].id)
    ensures SwapsPlaces(canvas, MovedCollection(canvas, shown, id, direction), g, p, q)
  {
    ExchangeSwaps(canvas, g, p, q, pair);
  }

  // A move up exchanges a note with its neighbour in its own group and changes nothing else.
  lemma MoveUpSwaps(canvas: seq<Note>, n: Note, p: nat)
    requires At(canvas, n, p + 1)
    ensures SwapsPlaces(canvas, MovedCollection(canvas, canvas, n.id, Up), GroupOf(n), p, p + 1)
  {
    PicksUp(canvas, n, p);
    var m := Members(canvas, GroupOf(n));
    PickedMoves(canvas, canvas, n.id, Up, GroupOf(n), p, p + 1, (m[p + 1].id, m[p].id));
  }

  lemma MoveDownSwaps(canvas: seq<Note>, n: Note, p: nat)
    requires At(canvas, n, p) && p + 1 < |Members(canvas, GroupOf(n))|
    ensures SwapsPlaces(canvas, MovedCollection(canvas, canvas, n.id, Down), GroupOf(n), p, p + 1)
  {
    PicksDown(canvas, n, p);
    var m := Members(canvas, GroupOf(n));
    PickedMoves(canvas, canvas, n.id, Down, GroupOf(n), p, p + 1, (m[p].id, m[p + 1].id));
  }

  lemma PicksDown(canvas: seq<Note>, n: Note, p: nat)
    requires At(canvas, n, p) && p + 1 < |Members(canvas, GroupOf(n))|
    ensures PickSwap(canvas, n.id, Down) == Some((Members(canvas, GroupOf(n))[p].id, Members(canvas, GroupOf(n))[p + 1].id))
  {
    PicksAt(canvas, n, p, Down);
  }

  lemma PicksUp(canvas: seq<Note>, n: Note, p: nat)
    requires At(canvas, n, p + 1)
    ensures PickSwap(canvas, n.id, Up) == Some((Members(canvas, GroupOf(n))[p + 1].id, Members(canvas, GroupOf(n))[p].id))
  {
    PicksAt(canvas, n, p + 1, Up);
  }

  // A move picked in an older list exchanges the places of the two picked notes in the list it meets,
  // if they are still in one sibling list, and does nothing if one of them is gone.
  lemma MoveFromOlderList(canvas: seq<Note>, shown: seq<Note>, id: string, direction: Direction, pair: (string, string))
    requires DistinctIds(canvas) && PickSwap(shown, id, direction) == Some(pair)
    ensures (IndexOf(canvas, pair.0) < 0 || IndexOf(canvas, pair.1) < 0) ==> MovedCollection(canvas, shown, id, direction) == canvas
    ensures forall g, p: nat, q: nat :: p < q < |Members(canvas, g)| && {Members(canvas, g)[p].id, Members(canvas, g)[q].id} == {pair.0, pair.1}
              ==> SwapsPlaces(canvas, MovedCollection(canvas, shown, id, direction), g, p, q)
  {
    forall g, p: nat, q: nat | p < q < |Members(canvas, g)| && {Members(canvas, g)[p].id, Members(canvas, g)[q].id} == {pair.0, pair.1}
      ensures SwapsPlaces(canvas, MovedCollection(canvas, shown, id, direction), g, p, q)
    {
      MembersDistinct(canvas, g);
      PickedMoves(canvas, shown, id, direction, g, p, q, pair);
    }
  }

  // At the end of its group, and for an individual note, a move does nothing.
  lemma MoveAtEnd(canvas: seq<Note>, n: Note, p: nat, direction: Direction)
    requires At(canvas, n, p) && (if direction == Up then p == 0 else p + 1 == |Members(canvas, GroupOf(n))|)
    ensures MovedCollection(canvas, canvas, n.id, direction) == canvas
  {
    PicksAt(canvas, n, p, direction);
  }

  lemma MoveSingle(canvas: seq<Note>, n: Note, direction: Direction)
    requires DistinctIds(canvas) && n in canvas && GroupOf(n) == Singles
    ensures MovedCollection(canvas, canvas, n.id, direction) == canvas
  {
    var at := PositionOf(canvas, n);
    NotAmongCollections(canvas, n);
  }

  // moveChildNote is the same move, for child notes only.
  lemma MoveChildIsMove(canvas: seq<Note>, n: Note, direction: Direction)
    requires DistinctIds(canvas) && n in canvas
    ensures MovedChild(canvas, canvas, n.id, direction)
         == if n.parentId.Some? then MovedCollection(canvas, canvas, n.id, direction) else canvas
  {
    var at := PositionOf(canvas, n);
  }

  lemma PicksNeighbour(canvas: seq<Note>, at: nat, p: nat, direction: Direction)
    requires at < |canvas| && IndexOf(canvas, canvas[at].id) == at
    requires var m := Members(canvas, SiblingGroup(canvas[at]));
             p < |m| && m[p] == canvas[at] && IndexOf(m, canvas[at].id) == p
    ensures var m := Members(canvas, SiblingGroup(canvas[at]));
            PickSwap(canvas, canvas[at].id, direction)
            == if direction == Up then (if p == 0 then None else Some((m[p].id, m[p - 1].id)))
               else (if p + 1 == |m| then None else Some((m[p].id, m[p + 1].id)))
  {
  }

  // The place of a note in its group, as findIndex gives it.
  lemma PlaceOf(canvas: seq<Note>, g: Group, p: nat)
    requires DistinctIds(canvas) && p < |Members(canvas, g)|
    ensures IndexOf(Members(canvas, g), Members(canvas, g)[p].id) == p
  {
    MembersDistinct(canvas, g);
    FirstIsOnly(Members(canvas, g), p);
  }

  lemma NotAmongCollections(canvas: seq<Note>, n: Note)
    requires DistinctIds(canvas) && n in canvas && GroupOf(n) == Singles
    ensures IndexOf(Members(canvas, Collections), n.id) == -1
  {
    var k := IndexOf(Members(canvas, Collections), n.id);
    if k >= 0 {
      var other := Members(canvas, Collections)[k];
      assert other in Members(canvas, Collections);
      var i := PositionOf(canvas, n);
      var j := PositionOf(canvas, other);
    }
  }

  /* The provider's state */

  class NotesProvider {
    var canvas: seq<Note>
    var activeNoteId: Option<string>

    constructor (loaded: seq<Note>)
      ensures canvas == loaded && activeNoteId == if loaded == [] then None else Some(loaded[0].id)
    {
      canvas := loaded;
      activeNoteId := if loaded == [] then None else Some(loaded[0].id);
    }

    // The state update of createNote, once the service has answered.
    method LandNote(note: Note)
      modifies this
      ensures canvas == Landed(old(canvas), note) && activeNoteId == Some(note.id)
    {
      var prev := canvas;
      if note.parentId.Some? {
        var actualIndex := FindLastChild(prev, note.parentId.value);
        var parentIndex := IndexOf(prev, note.parentId.value);
        if actualIndex >= 0 {
          canvas := prev[..actualIndex + 1] + [note] + prev[actualIndex + 1..];
        } else if parentIndex >= 0 {
          canvas := prev[..parentIndex + 1] + [note] + prev[parentIndex + 1..];
        } else {
          canvas := prev + [note];
        }
      } else {
        canvas := [note] + prev;
      }
      activeNoteId := Some(note.id);
    }

    method UpdateNote(id: string, patch: NotePatch, now: int)
      modifies this`canvas
      ensures canvas == Updated(old(canvas), id, patch, now)
    {
      canvas := Updated(canvas, id, patch, now);
    }

    method DeleteNote(id: string)
      modifies this
      ensures canvas == Without(old(canvas), id)
      ensures activeNoteId == if old(activeNoteId) == Some(id) then None else old(activeNoteId)
    {
      canvas := Without(canvas, id);
      if activeNoteId == Some(id) {
        activeNoteId := None;
      }
    }

    method DeleteNoteWithChildren(shown: seq<Note>, id: string)
      modifies this
      ensures canvas == DeletedWithChildren(old(canvas), shown, id)
    {
      var at := IndexOf(shown, id);
      if at < 0 {
        return;
      }
      if shown[at].isCollection {
        var children := Members(shown, ChildrenOf(id));
        for i := 0 to |children|
          invariant canvas == WithoutAll(old(canvas), children[..i])
        {
          assert children[..i + 1][..i] == children[..i];
          DeleteNote(children[i].id);
        }
        assert children[..|children|] == children;
      }
      DeleteNote(id);
    }

    // The exchange through a temporary in a copy of the list.
    method Exchange(pair: Option<(string, string)>)
      modifies this`canvas
      ensures canvas == Exchanged(old(canvas), pair)
    {
      if pair.None? {
        return;
      }
      var i, k := IndexOf(canvas, pair.value.0), IndexOf(canvas, pair.value.1);
      if i == -1 || k == -1 {
        return;
      }
      var prev := canvas;
      var copy := new Note[|prev|](n requires 0 <= n < |prev| => prev[n]);
      assert copy[..] == prev;
      var temp := copy[i];
      copy[i] := copy[k];
      copy[k] := temp;
      canvas := copy[..];
    }

    method MoveCollection(shown: seq<Note>, id: string, direction: Direction)
      modifies this`canvas
      ensures canvas == MovedCollection(old(canvas), shown, id, direction)
    {
      Exchange(PickSwap(shown, id, direction));
    }

    method MoveChildNote(shown: seq<Note>, id: string, direction: Direction)
      modifies this`canvas
      ensures canvas == MovedChild(old(canvas), shown, id, direction)
    {
      var at := IndexOf(shown, id);
      if at < 0 || shown[at].parentId.None? {
        return;
      }
      Exchange(PickSwap(shown, id, direction));
    }
  }
}
