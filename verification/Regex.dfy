// The fragment of regular expressions that the route reader uses: literals, runs of a character
// class, and captured non-empty runs. `Derives` says which texts a pattern describes; `Match` finds
// one without backtracking.
module Regex {
  import opened Domain

  datatype CharClass = Word | Space | NonQuote

  // \w, \s and [^"], over ASCII.
  predicate In(c: char, cls: CharClass) {
    match cls
    case Word => 'a' <= c <= 'z' || 'A' <= c <= 'Z' || '0' <= c <= '9' || c == '_'
    case Space => c == ' ' || '\t' <= c <= '\r'
    case NonQuote => c != '"'
  }

  predicate AllIn(s: string, cls: CharClass) {
    forall i :: 0 <= i < |s| ==> In(s[i], cls)
  }

  datatype Atom = Lit(text: string) | Star(cls: CharClass) | Capture(cls: CharClass)

  // The texts that one atom describes.
  predicate Takes(atom: Atom, x: string) {
    match atom
    case Lit(text) => x == text
    case Star(cls) => AllIn(x, cls)
    case Capture(cls) => x != "" && AllIn(x, cls)
  }

  // The captures of the rest of a pattern, after an atom that took x.
  predicate Captured(atom: Atom, x: string, captures: seq<string>) {
    atom.Capture? ==> captures != [] && captures[0] == x
  }

  function After(atom: Atom, captures: seq<string>): seq<string> {
    if atom.Capture? && captures != [] then captures[1..] else captures
  }

  // The text is one the pattern describes, with these captured groups.
  ghost predicate Derives(atoms: seq<Atom>, s: string, captures: seq<string>)
    decreases |atoms|, 1
  {
    if atoms == [] then s == "" && captures == []
    else exists k :: 0 <= k <= |s| && DerivesFrom(atoms, s, captures, k)
  }

  // The first atom takes the first k characters.
  ghost predicate DerivesFrom(atoms: seq<Atom>, s: string, captures: seq<string>, k: nat)
    requires atoms != [] && k <= |s|
    decreases |atoms|, 0
  {
    Takes(atoms[0], s[..k]) && Captured(atoms[0], s[..k], captures) && Derives(atoms[1..], s[k..], After(atoms[0], captures))
  }

  // The longest prefix within the class.
  function RunLength(t: string, cls: CharClass): (n: nat)
    ensures n <= |t| && AllIn(t[..n], cls)
    ensures n < |t| ==> !In(t[n], cls)
  {
    if t == "" || !In(t[0], cls) then 0 else 1 + RunLength(t[1..], cls)
  }

  datatype Found = Found(captures: seq<string>, rest: string)

  // How much of the text an atom takes when it takes as much as it can.
  function Taken(atom: Atom, t: string): (r: Option<nat>)
    ensures r.Some? ==> r.value <= |t| && Takes(atom, t[..r.value])
  {
    match atom
    case Lit(text) => if text <= t then Some(|text|) else None
    case Star(cls) => Some(RunLength(t, cls))
    case Capture(cls) => if RunLength(t, cls) > 0 then Some(RunLength(t, cls)) else None
  }

  // A match at the front of the text.
  function Match(atoms: seq<Atom>, t: string): (r: Option<Found>)
    ensures r.Some? ==> |r.value.rest| <= |t|
    ensures r.Some? && atoms != [] && atoms[0].Lit? ==> |r.value.rest| + |atoms[0].text| <= |t|
  {
    if atoms == [] then Some(Found([], t))
    else
      var taken := Taken(atoms[0], t);
      if taken.None? then None
      else
        var after := Match(atoms[1..], t[taken.value..]);
        if after.None? then None
        else Some(Found((if atoms[0].Capture? then [t[..taken.value]] else []) + after.value.captures, after.value.rest))
  }

  // Every run is followed by a literal that cannot continue it, so no backtracking is needed.
  predicate Deterministic(atoms: seq<Atom>) {
    atoms == []
    || (Deterministic(atoms[1..])
        && (!atoms[0].Lit? ==> |atoms| > 1 && atoms[1].Lit? && atoms[1].text != "" && !In(atoms[1].text[0], atoms[0].cls)))
  }

  lemma {:induction false} RunIsWhole(s: string, t: string, cls: CharClass)
    requires AllIn(s, cls) && (t != "" ==> !In(t[0], cls))
    ensures RunLength(s + t, cls) == |s|
  {
    if s == "" {
      assert s + t == t;
    } else {
      assert (s + t)[1..] == s[1..] + t;
      RunIsWhole(s[1..], t, cls);
    }
  }

  lemma MatchUnfolds(atoms: seq<Atom>, t: string, k: nat)
    requires atoms != [] && Match(atoms, t).Some? && Taken(atoms[0], t) == Some(k)
    ensures Match(atoms[1..], t[k..]).Some?
    ensures var m, after := Match(atoms, t).value, Match(atoms[1..], t[k..]).value;
            && m.rest == after.rest && Captured(atoms[0], t[..k], m.captures) && After(atoms[0], m.captures) == after.captures
  {
    var after := Match(atoms[1..], t[k..]).value.captures;
    assert atoms[0].Capture? ==> ([t[..k]] + after)[1..] == after;
    assert [] + after == after;
  }

  lemma SliceTwice(t: string, k: nat, n: nat)
    requires k <= n <= |t|
    ensures t[..n][k..] == t[k..][..n - k] && t[..n][..k] == t[..k] && t[k..][n - k..] == t[n..]
  {
  }

  // A match is a text that the pattern describes.
  lemma {:induction false} MatchIsSound(atoms: seq<Atom>, t: string)
    requires Match(atoms, t).Some?
    ensures var m := Match(atoms, t).value;
            var n := |t| - |m.rest|;
            t[n..] == m.rest && Derives(atoms, t[..n], m.captures)
  {
    if atoms != [] {
      var k := Taken(atoms[0], t).value;
      var m := Match(atoms, t).value;
      MatchIsSound(atoms[1..], t[k..]);
      MatchUnfolds(atoms, t, k);
      SliceTwice(t, k, |t| - |m.rest|);
      assert DerivesFrom(atoms, t[..|t| - |m.rest|], m.captures, k);
    }
  }

  // An atom takes the same text whatever follows, if a run is followed by what cannot continue it.
  lemma TakenIsWhole(atom: Atom, x: string, t: string)
    requires Takes(atom, x) && (!atom.Lit? && t != "" ==> !In(t[0], atom.cls))
    ensures Taken(atom, x + t) == Some(|x|)
  {
    if !atom.Lit? {
      RunIsWhole(x, t, atom.cls);
    }
  }

  lemma MatchStep(atoms: seq<Atom>, t: string, k: nat, captures: seq<string>, rest: string)
    requires atoms != [] && Taken(atoms[0], t) == Some(k) && Captured(atoms[0], t[..k], captures)
    requires Match(atoms[1..], t[k..]) == Some(Found(After(atoms[0], captures), rest))
    ensures Match(atoms, t) == Some(Found(captures, rest))
  {
    if atoms[0].Capture? {
      assert captures == [captures[0]] + captures[1..];
    } else {
      assert [] + captures == captures;
    }
  }

  // A described text is matched whole, with the same groups, whatever follows it: at each place
  // there is at most one match.
  lemma {:induction false} MatchIsComplete(atoms: seq<Atom>, s: string, captures: seq<string>, rest: string)
    requires Deterministic(atoms) && Derives(atoms, s, captures)
    ensures Match(atoms, s + rest) == Some(Found(captures, rest))
  {
    if atoms == [] {
      assert s + rest == rest;
    } else {
      var k: nat :| k <= |s| && DerivesFrom(atoms, s, captures, k);
      var x, u := s[..k], s[k..] + rest;
      assert s + rest == x + u;
      MatchIsComplete(atoms[1..], s[k..], After(atoms[0], captures), rest);
      NextIsLiteral(atoms, s[k..], After(atoms[0], captures));
      TakenIsWhole(atoms[0], x, u);
      assert (x + u)[k..] == u && (x + u)[..k] == x;
      MatchStep(atoms, s + rest, k, captures, rest);
    }
  }

  // The classes of the captured groups, in order.
  function Classes(atoms: seq<Atom>): seq<CharClass> {
    if atoms == [] then [] else (if atoms[0].Capture? then [atoms[0].cls] else []) + Classes(atoms[1..])
  }

  predicate GroupsFit(captures: seq<string>, classes: seq<CharClass>) {
    |captures| == |classes| && forall i :: 0 <= i < |captures| ==> captures[i] != "" && AllIn(captures[i], classes[i])
  }

  lemma {:induction false} MatchedGroups(atoms: seq<Atom>, t: string)
    requires Match(atoms, t).Some?
    ensures GroupsFit(Match(atoms, t).value.captures, Classes(atoms))
  {
    if atoms != [] {
      MatchedGroups(atoms[1..], t[Taken(atoms[0], t).value..]);
    }
  }

  lemma {:induction false} DerivesConcat(a: seq<Atom>, s: string, c: seq<string>, b: seq<Atom>, t: string, d: seq<string>)
    requires Derives(a, s, c) && Derives(b, t, d)
    ensures Derives(a + b, s + t, c + d)
  {
    if a == [] {
      assert a + b == b && s + t == t && c + d == d;
    } else {
      var k: nat :| k <= |s| && DerivesFrom(a, s, c, k);
      DerivesConcat(a[1..], s[k..], After(a[0], c), b, t, d);
      assert (a + b)[0] == a[0] && (a + b)[1..] == a[1..] + b;
      assert (s + t)[..k] == s[..k] && (s + t)[k..] == s[k..] + t;
      assert After(a[0], c + d) == After(a[0], c) + d;
      assert DerivesFrom(a + b, s + t, c + d, k);
    }
  }

  lemma DerivesOne(atom: Atom, x: string)
    requires Takes(atom, x)
    ensures Derives([atom], x, if atom.Capture? then [x] else [])
  {
    var captures := if atom.Capture? then [x] else [];
    assert x[..|x|] == x && x[|x|..] == "";
    assert Derives([atom][1..], "", After(atom, captures));
    assert DerivesFrom([atom], x, captures, |x|);
  }

  lemma NextIsLiteral(atoms: seq<Atom>, s: string, captures: seq<string>)
    requires atoms != [] && Deterministic(atoms) && Derives(atoms[1..], s, captures)
    ensures !atoms[0].Lit? ==> s != "" && !In(s[0], atoms[0].cls)
  {
    if !atoms[0].Lit? {
      var k: nat :| k <= |s| && DerivesFrom(atoms[1..], s, captures, k);
    }
  }

  /* findall */

  // Matches from left to right, each search starting where the last match ended.
  function FindAll(atoms: seq<Atom>, t: string): seq<seq<string>>
    requires atoms != [] && atoms[0].Lit? && atoms[0].text != ""
    decreases |t|
  {
    if t == "" then []
    else
      match Match(atoms, t)
      case Some(m) => [m.captures] + FindAll(atoms, m.rest)
      case None => FindAll(atoms, t[1..])
  }

  // No match starts inside the text, whatever follows it.
  ghost predicate Quiet(atoms: seq<Atom>, p: string) {
    forall i, t: string :: 0 <= i < |p| ==> Match(atoms, p[i..] + t).None?
  }

  lemma QuietDrop(atoms: seq<Atom>, p: string)
    requires p != "" && Quiet(atoms, p)
    ensures Quiet(atoms, p[1..])
  {
    forall i, u: string | 0 <= i < |p[1..]| ensures Match(atoms, p[1..][i..] + u).None? {
      assert p[1..][i..] == p[i + 1..];
    }
  }

  lemma {:induction false} SkipQuiet(atoms: seq<Atom>, p: string, t: string)
    requires atoms != [] && atoms[0].Lit? && atoms[0].text != "" && Quiet(atoms, p)
    ensures FindAll(atoms, p + t) == FindAll(atoms, t)
  {
    if p == "" {
      assert p + t == t;
    } else {
      assert Match(atoms, p + t).None? by {
        assert p[0..] + t == p + t;
      }
      QuietDrop(atoms, p);
      SkipQuiet(atoms, p[1..], t);
      assert (p + t)[1..] == p[1..] + t;
    }
  }

  lemma QuietConcat(atoms: seq<Atom>, p: string, q: string)
    requires Quiet(atoms, p) && Quiet(atoms, q)
    ensures Quiet(atoms, p + q)
  {
    forall i, t: string | 0 <= i < |p + q| ensures Match(atoms, (p + q)[i..] + t).None? {
      if i < |p| {
        assert (p + q)[i..] + t == p[i..] + (q + t);
      } else {
        assert (p + q)[i..] == q[i - |p|..];
      }
    }
  }
}
