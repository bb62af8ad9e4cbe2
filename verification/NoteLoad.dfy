// Which loaded note lists have an order of birth: exactly those without duplicate ids, without a
// parent that is not a collection and without a note above itself.
module NoteLoad {
  import opened Domain
  import opened NoteList
  import opened NoteForest

  // The id k parents above an id, as far as the list tells.
  function Above(canvas: seq<Note>, id: string, k: nat): Option<string> {
    if k == 0 then Some(id)
    else
      var below := Above(canvas, id, k - 1);
      if below.None? || IndexOf(canvas, below.value) < 0 then None else canvas[IndexOf(canvas, below.value)].parentId
  }

  predicate ParentsAreCollections(canvas: seq<Note>) {
    forall n, p :: n in canvas && p in canvas && n.parentId == Some(p.id) ==> p.isCollection
  }

  ghost predicate Acyclic(canvas: seq<Note>) {
    forall n, k: nat :: n in canvas && k > 0 ==> Above(canvas, n.id, k) != Some(n.id)
  }

  lemma IndexOfNote(canvas: seq<Note>, n: Note)
    requires DistinctIds(canvas) && n in canvas
    ensures IndexOf(canvas, n.id) >= 0 && canvas[IndexOf(canvas, n.id)] == n
  {
  }

  /* A list with an order of birth */

  // A listed id above a note is that of a collection, older than the note if that is a collection.
  lemma {:induction false} AboveIsOlder(canvas: seq<Note>, births: seq<Birth>, n: Note, k: nat)
    requires Forest(canvas, births) && n in canvas && k > 0 && Above(canvas, n.id, k).Some?
    ensures var a := Above(canvas, n.id, k).value;
            Born(births, a, true) && (n.isCollection ==> Rank(births, a) < Rank(births, n.id))
  {
    if k == 1 {
      assert Above(canvas, n.id, 0) == Some(n.id);
      IndexOfNote(canvas, n);
    } else {
      AboveIsOlder(canvas, births, n, k - 1);
      assert canvas[IndexOf(canvas, Above(canvas, n.id, k - 1).value)] in canvas;
    }
  }

  lemma ForestsAreAcyclic(canvas: seq<Note>, births: seq<Birth>)
    requires Forest(canvas, births)
    ensures DistinctIds(canvas) && ParentsAreCollections(canvas) && Acyclic(canvas)
  {
    forall n, k: nat | n in canvas && k > 0
      ensures Above(canvas, n.id, k) != Some(n.id)
    {
      if Above(canvas, n.id, k).Some? {
        AboveIsOlder(canvas, births, n, k);
      }
    }
  }

  /* How far a walk up can go */

  predicate Listed(canvas: seq<Note>, id: string, k: nat) {
    Above(canvas, id, k).Some? && IndexOf(canvas, Above(canvas, id, k).value) >= 0
  }

  lemma {:induction false} AboveAbove(canvas: seq<Note>, id: string, i: nat, k: nat)
    requires Above(canvas, id, i).Some?
    ensures Above(canvas, id, i + k) == Above(canvas, Above(canvas, id, i).value, k)
  {
    if k > 0 {
      AboveAbove(canvas, id, i, k - 1);
    }
  }

  lemma {:induction false} ListedBelow(canvas: seq<Note>, id: string, i: nat, k: nat)
    requires i <= k && Listed(canvas, id, k)
    ensures Listed(canvas, id, i)
  {
    if i < k {
      ListedBelow(canvas, id, i, k - 1);
    }
  }

  lemma NoReturn(canvas: seq<Note>, id: string, i: nat, k: nat)
    requires Acyclic(canvas) && i < k && Listed(canvas, id, k)
    ensures Above(canvas, id, i) != Above(canvas, id, k)
  {
    ListedBelow(canvas, id, i, k);
    AboveAbove(canvas, id, i, k - i);
    var a := Above(canvas, id, i).value;
    assert canvas[IndexOf(canvas, a)].id == a;
  }

  // The ids of a walk, up to the k-th above.
  function WalkedIds(canvas: seq<Note>, id: string, k: nat): set<string> {
    (if Above(canvas, id, k).Some? then {Above(canvas, id, k).value} else {})
    + (if k == 0 then {} else WalkedIds(canvas, id, k - 1))
  }

  lemma {:induction false} NotWalkedYet(canvas: seq<Note>, id: string, i: nat, k: nat)
    requires Acyclic(canvas) && i < k && Listed(canvas, id, k)
    ensures Above(canvas, id, k).value !in WalkedIds(canvas, id, i)
  {
    NoReturn(canvas, id, i, k);
    if i > 0 {
      NotWalkedYet(canvas, id, i - 1, k);
    }
  }

  lemma IdIsListed(canvas: seq<Note>, id: string)
    requires IndexOf(canvas, id) >= 0
    ensures id in Ids(canvas)
  {
    assert canvas[IndexOf(canvas, id)] in canvas;
  }

  lemma OneMore(s: set<string>, x: string, all: set<string>)
    requires x !in s && s <= all && x in all
    ensures |{x} + s| == |s| + 1 && {x} + s <= all
  {
    assert {x} + s == s + {x};
  }

  // The first k + 1 ids of a walk are as many different listed ones.
  lemma {:induction false} WalkedAreMany(canvas: seq<Note>, id: string, k: nat)
    requires Acyclic(canvas) && Listed(canvas, id, k)
    ensures |WalkedIds(canvas, id, k)| == k + 1 && WalkedIds(canvas, id, k) <= Ids(canvas)
  {
    IdIsListed(canvas, Above(canvas, id, k).value);
    if k == 0 {
      assert WalkedIds(canvas, id, 0) == {id};
    } else {
      ListedBelow(canvas, id, k - 1, k);
      WalkedAreMany(canvas, id, k - 1);
      NotWalkedYet(canvas, id, k - 1, k);
      OneMore(WalkedIds(canvas, id, k - 1), Above(canvas, id, k).value, Ids(canvas));
    }
  }

  lemma WalksEnd(canvas: seq<Note>, id: string)
    requires Acyclic(canvas)
    ensures !Listed(canvas, id, |canvas|)
  {
    if Listed(canvas, id, |canvas|) {
      WalkedAreMany(canvas, id, |canvas|);
      IdCount(canvas);
      SubsetSize(WalkedIds(canvas, id, |canvas|), Ids(canvas));
    }
  }

  // The length of the walk up from an id, if it is at least `from`.
  function Depth(canvas: seq<Note>, id: string, from: nat): (d: nat)
    requires from <= |canvas| && !Listed(canvas, id, |canvas|)
    ensures from <= d <= |canvas| && !Listed(canvas, id, d)
    ensures forall k :: from <= k < d ==> Listed(canvas, id, k)
    decreases |canvas| - from
  {
    if !Listed(canvas, id, from) then from else Depth(canvas, id, from + 1)
  }

  ghost predicate AllEnd(canvas: seq<Note>) {
    forall id :: !Listed(canvas, id, |canvas|)
  }

  lemma ParentIsNearer(canvas: seq<Note>, n: Note, parentId: string)
    requires AllEnd(canvas) && DistinctIds(canvas) && n in canvas && n.parentId == Some(parentId)
    ensures Depth(canvas, parentId, 0) < Depth(canvas, n.id, 0)
  {
    var d := Depth(canvas, n.id, 0);
    IndexOfNote(canvas, n);
    assert Above(canvas, n.id, 0) == Some(n.id) && Listed(canvas, n.id, 0);
    assert Above(canvas, n.id, 1) == Some(parentId);
    AboveAbove(canvas, n.id, 1, d - 1);
    assert !Listed(canvas, parentId, d - 1);
  }

  /* An order of birth: by depth, the unlisted parents first */

  function Unlisted(canvas: seq<Note>, notes: seq<Note>): seq<Birth> {
    if notes == [] then []
    else
      var p := notes[0].parentId;
      (if p.Some? && IndexOf(canvas, p.value) < 0 then [Birth(p.value, true)] else []) + Unlisted(canvas, notes[1..])
  }

  ghost function Layer(canvas: seq<Note>, notes: seq<Note>, d: nat): seq<Birth>
    requires AllEnd(canvas)
  {
    if notes == [] then []
    else
      (if Depth(canvas, notes[0].id, 0) == d then [Birth(notes[0].id, notes[0].isCollection)] else [])
      + Layer(canvas, notes[1..], d)
  }

  ghost function ByDepth(canvas: seq<Note>, d: nat): seq<Birth>
    requires AllEnd(canvas)
  {
    if d == 0 then Unlisted(canvas, canvas) else ByDepth(canvas, d - 1) + Layer(canvas, canvas, d)
  }

  predicate Occurs(births: seq<Birth>, id: string) {
    exists i :: 0 <= i < |births| && births[i].id == id
  }

  predicate ListedAs(canvas: seq<Note>, id: string) {
    IndexOf(canvas, id) < 0 || canvas[IndexOf(canvas, id)].isCollection
  }

  // The log names a listed note as what it is, and any other id as a collection.
  predicate Truthful(canvas: seq<Note>, births: seq<Birth>) {
    forall b :: b in births ==> b.isCollection == ListedAs(canvas, b.id)
  }

  lemma {:induction false} UnlistedHas(canvas: seq<Note>, notes: seq<Note>)
    ensures forall b :: b in Unlisted(canvas, notes) ==> b.isCollection && IndexOf(canvas, b.id) < 0
    ensures forall n :: n in notes && n.parentId.Some? && IndexOf(canvas, n.parentId.value) < 0 ==>
              Birth(n.parentId.value, true) in Unlisted(canvas, notes)
  {
    if notes != [] {
      UnlistedHas(canvas, notes[1..]);
    }
  }

  lemma {:induction false} LayerHas(canvas: seq<Note>, notes: seq<Note>, d: nat)
    requires AllEnd(canvas)
    ensures forall b :: b in Layer(canvas, notes, d) <==>
              exists n :: n in notes && Depth(canvas, n.id, 0) == d && b == Birth(n.id, n.isCollection)
  {
    if notes != [] {
      LayerHas(canvas, notes[1..], d);
      assert notes == [notes[0]] + notes[1..];
    }
  }

  lemma LayerOccurs(canvas: seq<Note>, d: nat, n: Note)
    requires AllEnd(canvas) && DistinctIds(canvas) && n in canvas
    ensures Occurs(Layer(canvas, canvas, d), n.id) <==> Depth(canvas, n.id, 0) == d
  {
    var layer := Layer(canvas, canvas, d);
    LayerHas(canvas, canvas, d);
    if Occurs(layer, n.id) {
      var i :| 0 <= i < |layer| && layer[i].id == n.id;
      assert layer[i] in layer;
    }
    if Depth(canvas, n.id, 0) == d {
      assert Birth(n.id, n.isCollection) in layer;
    }
  }

  lemma OccursInConcat(a: seq<Birth>, b: seq<Birth>, id: string)
    ensures Occurs(a + b, id) <==> Occurs(a, id) || Occurs(b, id)
  {
    if Occurs(a, id) {
      var i :| 0 <= i < |a| && a[i].id == id;
      assert (a + b)[i].id == id;
    }
    if Occurs(b, id) {
      var i :| 0 <= i < |b| && b[i].id == id;
      assert (a + b)[|a| + i].id == id;
    }
  }

  // The log up to depth d holds the notes of at most that depth.
  lemma {:induction false} ByDepthOccurs(canvas: seq<Note>, d: nat, n: Note)
    requires AllEnd(canvas) && DistinctIds(canvas) && n in canvas
    ensures Occurs(ByDepth(canvas, d), n.id) <==> Depth(canvas, n.id, 0) <= d
  {
    if d == 0 {
      IndexOfNote(canvas, n);
      assert Listed(canvas, n.id, 0);
      UnlistedHas(canvas, canvas);
      assert forall b :: b in Unlisted(canvas, canvas) ==> b.id != n.id;
    } else {
      ByDepthOccurs(canvas, d - 1, n);
      LayerOccurs(canvas, d, n);
      OccursInConcat(ByDepth(canvas, d - 1), Layer(canvas, canvas, d), n.id);
    }
  }

  lemma LayerTruthful(canvas: seq<Note>, d: nat)
    requires AllEnd(canvas) && DistinctIds(canvas)
    ensures Truthful(canvas, Layer(canvas, canvas, d))
  {
    LayerHas(canvas, canvas, d);
    forall b | b in Layer(canvas, canvas, d)
      ensures b.isCollection == ListedAs(canvas, b.id)
    {
      var n :| n in canvas && b == Birth(n.id, n.isCollection);
      IndexOfNote(canvas, n);
    }
  }

  lemma TruthfulConcat(canvas: seq<Note>, a: seq<Birth>, b: seq<Birth>)
    requires Truthful(canvas, a) && Truthful(canvas, b)
    ensures Truthful(canvas, a + b)
  {
  }

  lemma {:induction false} ByDepthTruthful(canvas: seq<Note>, d: nat)
    requires AllEnd(canvas) && DistinctIds(canvas)
    ensures Truthful(canvas, ByDepth(canvas, d))
  {
    if d == 0 {
      UnlistedHas(canvas, canvas);
    } else {
      ByDepthTruthful(canvas, d - 1);
      LayerTruthful(canvas, d);
      TruthfulConcat(canvas, ByDepth(canvas, d - 1), Layer(canvas, canvas, d));
    }
  }

  lemma {:induction false} ByDepthGrows(canvas: seq<Note>, c: nat, d: nat)
    requires AllEnd(canvas) && c <= d
    ensures ByDepth(canvas, c) <= ByDepth(canvas, d)
  {
    if c < d {
      ByDepthGrows(canvas, c, d - 1);
    }
  }

  lemma RankInPrefix(a: seq<Birth>, births: seq<Birth>, id: string)
    requires a <= births
    ensures Rank(births, id) < |a| <==> Occurs(a, id)
  {
    var r := Rank(births, id);
    if r < |a| {
      assert a[r].id == id;
    }
    if Occurs(a, id) {
      var i :| 0 <= i < |a| && a[i].id == id;
      RankIsFirst(births, id, i);
    }
  }

  lemma {:induction false} RankIsFirst(births: seq<Birth>, id: string, i: nat)
    requires i < |births| && births[i].id == id
    ensures Rank(births, id) <= i
  {
    if births[0].id != id {
      RankIsFirst(births[1..], id, i - 1);
    }
  }

  lemma BornAsListed(canvas: seq<Note>, births: seq<Birth>, id: string)
    requires Truthful(canvas, births) && Occurs(births, id)
    ensures Born(births, id, ListedAs(canvas, id))
  {
    RankInPrefix(births, births, id);
    assert births[Rank(births, id)] in births;
  }

  lemma OlderInPrefix(older: seq<Birth>, births: seq<Birth>, a: string, b: string)
    requires older <= births && Occurs(older, a) && !Occurs(older, b)
    ensures Rank(births, a) < Rank(births, b) && Occurs(births, a)
  {
    RankInPrefix(older, births, a);
    RankInPrefix(older, births, b);
    RankInPrefix(births, births, a);
  }

  lemma UnlistedParentOccurs(canvas: seq<Note>, n: Note, parentId: string, d: nat)
    requires AllEnd(canvas) && n in canvas && n.parentId == Some(parentId) && IndexOf(canvas, parentId) < 0
    ensures Occurs(ByDepth(canvas, d), parentId)
  {
    var births := Unlisted(canvas, canvas);
    UnlistedHas(canvas, canvas);
    var i :| 0 <= i < |births| && births[i] == Birth(parentId, true);
    ByDepthGrows(canvas, 0, d);
    assert ByDepth(canvas, d)[i].id == parentId;
  }

  // A parent is in the log before the depth of its child, and the child is not.
  lemma ParentIsOlder(canvas: seq<Note>, n: Note, parentId: string, d: nat)
    requires AllEnd(canvas) && DistinctIds(canvas) && n in canvas && n.parentId == Some(parentId)
    requires Depth(canvas, n.id, 0) == d + 1
    ensures Occurs(ByDepth(canvas, d), parentId) && !Occurs(ByDepth(canvas, d), n.id)
  {
    ByDepthOccurs(canvas, d, n);
    ParentIsNearer(canvas, n, parentId);
    if IndexOf(canvas, parentId) >= 0 {
      ByDepthOccurs(canvas, d, canvas[IndexOf(canvas, parentId)]);
    } else {
      UnlistedParentOccurs(canvas, n, parentId, d);
    }
  }

  lemma ParentIsCollection(canvas: seq<Note>, births: seq<Birth>, n: Note, parentId: string)
    requires ParentsAreCollections(canvas) && Truthful(canvas, births) && Occurs(births, parentId)
    requires n in canvas && n.parentId == Some(parentId)
    ensures Born(births, parentId, true)
  {
    BornAsListed(canvas, births, parentId);
    if IndexOf(canvas, parentId) >= 0 {
      assert canvas[IndexOf(canvas, parentId)] in canvas;
    }
  }

  lemma ParentFits(canvas: seq<Note>, n: Note, parentId: string)
    requires AllEnd(canvas) && DistinctIds(canvas) && ParentsAreCollections(canvas) && n in canvas
    requires n.parentId == Some(parentId)
    ensures var births := ByDepth(canvas, |canvas|);
            Born(births, parentId, true) && Rank(births, parentId) < Rank(births, n.id)
  {
    ParentIsNearer(canvas, n, parentId);
    var births, d := ByDepth(canvas, |canvas|), Depth(canvas, n.id, 0) - 1;
    ParentIsOlder(canvas, n, parentId, d);
    ByDepthGrows(canvas, d, |canvas|);
    OlderInPrefix(ByDepth(canvas, d), births, parentId, n.id);
    ByDepthTruthful(canvas, |canvas|);
    ParentIsCollection(canvas, births, n, parentId);
  }

  lemma NoteFits(canvas: seq<Note>, n: Note)
    requires AllEnd(canvas) && DistinctIds(canvas) && ParentsAreCollections(canvas) && n in canvas
    ensures NoteOk(ByDepth(canvas, |canvas|), n)
  {
    ByDepthTruthful(canvas, |canvas|);
    ByDepthOccurs(canvas, |canvas|, n);
    IndexOfNote(canvas, n);
    BornAsListed(canvas, ByDepth(canvas, |canvas|), n.id);
    if n.parentId.Some? {
      ParentFits(canvas, n, n.parentId.value);
    }
  }

  // A loaded list has an order of birth, so that all later walks end, exactly when its ids are
  // distinct, its listed parents are collections, and no note is above itself.
  lemma LoadedListIsForestExactly(canvas: seq<Note>)
    ensures (exists births :: Forest(canvas, births))
            <==> DistinctIds(canvas) && ParentsAreCollections(canvas) && Acyclic(canvas)
  {
    if births :| Forest(canvas, births) {
      ForestsAreAcyclic(canvas, births);
    }
    if DistinctIds(canvas) && ParentsAreCollections(canvas) && Acyclic(canvas) {
      forall id ensures !Listed(canvas, id, |canvas|) {
        WalksEnd(canvas, id);
      }
      forall n | n in canvas ensures NoteOk(ByDepth(canvas, |canvas|), n) {
        NoteFits(canvas, n);
      }
      assert Forest(canvas, ByDepth(canvas, |canvas|));
    }
  }

  // The same three conditions, which do not mention the log, hold again after whatever the client does.
  lemma RunsStayAcyclic(w: NotesWorld, steps: seq<NotesStep>)
    requires NotesInv(w)
    ensures var after := RunNotes(w, steps).canvas;
            DistinctIds(after) && ParentsAreCollections(after) && Acyclic(after)
  {
    RunKeepsForest(w, steps);
    ForestsAreAcyclic(RunNotes(w, steps).canvas, RunNotes(w, steps).births);
  }
}
