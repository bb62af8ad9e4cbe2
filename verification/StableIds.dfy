// The derived ids of AI jobs, sources and suggestions: an FNV-1a hash of the formatted raw text.
module StableIds {
  import opened Domain
  import opened Ids
  import opened Fnv

  function Utf8Char(c: char): (bytes: seq<Byte>)
    ensures bytes != []
  {
    var n := c as int;
    if n < 0x80 then [n]
    else if n < 0x800 then [0xC0 + n / 64, 0x80 + n % 64]
    else if n < 0x1_0000 then [0xE0 + n / 4096, 0x80 + n / 64 % 64, 0x80 + n % 64]
    else [0xF0 + n / 262144, 0x80 + n / 4096 % 64, 0x80 + n / 64 % 64, 0x80 + n % 64]
  }

  function Utf8(s: string): seq<Byte> {
    if s == "" then [] else Utf8(s[..|s| - 1]) + Utf8Char(s[|s| - 1])
  }

  lemma Utf8Append(s: string, c: char)
    ensures Utf8(s + [c]) == Utf8(s) + Utf8Char(c)
  {
    assert (s + [c])[..|s|] == s;
  }

  lemma {:induction false} Utf8Concat(s: string, t: string)
    ensures Utf8(s + t) == Utf8(s) + Utf8(t)
  {
    if t == "" {
      assert s + t == s;
    } else {
      var front, c := t[..|t| - 1], t[|t| - 1];
      assert t == front + [c] && s + t == (s + front) + [c];
      Utf8Concat(s, front);
      Utf8Append(front, c);
      Utf8Append(s + front, c);
    }
  }

  function JobId(actor: Actor, key: string, payloadHash: string): string {
    HashedId("ai-job-", Utf8(actor.tenant + ":" + actor.organization + ":" + actor.operator + ":" + key
                             + ":" + payloadHash))
  }

  // The job id is not part of a source's id.
  function SourceId(actor: Actor, workspaceId: string, sourceType: string, sourceId: string,
                    versionId: string, versionNo: int): string {
    HashedId("ai-job-source-", Utf8(actor.tenant + ":" + actor.organization + ":" + workspaceId + ":" + sourceType
                                    + ":" + sourceId + ":" + versionId + ":" + Decimal(versionNo)))
  }

  function SuggestionPrefix(actor: Actor, jobId: string, pageId: string, kind: string): string {
    actor.tenant + ":" + actor.organization + ":" + actor.operator + ":" + jobId + ":" + pageId + ":" + kind + ":"
  }

  function SuggestionId(actor: Actor, jobId: string, pageId: string, kind: string, index: nat,
                        payloadText: string): string {
    HashedId("ai-suggestion-",
             Utf8(SuggestionPrefix(actor, jobId, pageId, kind) + Decimal(index) + (":" + payloadText)))
  }

  lemma {:induction false} Utf8OfAscii(s: string)
    requires forall i :: 0 <= i < |s| ==> s[i] as int < 0x80
    ensures |Utf8(s)| == |s| && forall i :: 0 <= i < |s| ==> Utf8(s)[i] == s[i] as int
  {
    if s != "" {
      Utf8OfAscii(s[..|s| - 1]);
      assert Utf8Char(s[|s| - 1]) == [s[|s| - 1] as int];
    }
  }

  // The UTF-8 texts have one length, differ, and agree outside three consecutive bytes.
  ghost predicate Near(s: string, t: string) {
    exists k :: NearAt(Utf8(s), Utf8(t), k)
  }

  lemma Utf8Within(before: string, s: string, after: string)
    ensures Utf8(before + s + after) == Utf8(before) + Utf8(s) + Utf8(after)
  {
    Utf8Concat(before + s, after);
    Utf8Concat(before, s);
  }

  lemma WrappedNear(before: seq<Byte>, s: seq<Byte>, t: seq<Byte>, after: seq<Byte>, k: nat)
    requires NearAt(s, t, k)
    ensures NearAt(before + s + after, before + t + after, |before| + k)
  {
    var x, y := before + s + after, before + t + after;
    assert s == x[|before|..|before| + |s|] && t == y[|before|..|before| + |s|];
    forall i | 0 <= i < |x| && !(|before| + k <= i < |before| + k + 3)
      ensures x[i] == y[i]
    {
      if |before| <= i < |before| + |s| {
        assert x[i] == s[i - |before|] && y[i] == t[i - |before|];
      }
    }
  }

  lemma NearWithin(before: string, s: string, t: string, after: string)
    requires Near(s, t)
    ensures Near(before + s + after, before + t + after)
  {
    var k :| NearAt(Utf8(s), Utf8(t), k);
    WrappedNear(Utf8(before), Utf8(s), Utf8(t), Utf8(after), k);
    Utf8Within(before, s, after);
    Utf8Within(before, t, after);
  }

  lemma NearChangesId(idPrefix: string, s: string, t: string)
    requires Near(s, t)
    ensures HashedId(idPrefix, Utf8(s)) != HashedId(idPrefix, Utf8(t))
  {
    var k :| NearAt(Utf8(s), Utf8(t), k);
    ThreeBytesChangeId(idPrefix, Utf8(s), Utf8(t), k);
  }

  predicate Ascii(s: string) {
    forall i :: 0 <= i < |s| ==> s[i] as int < 0x80
  }

  // Different plain texts of one length that agree outside three places.
  lemma AsciiNear(s: string, t: string, k: nat)
    requires Ascii(s) && Ascii(t) && |s| == |t| && s != t
    requires forall i :: 0 <= i < |s| && !(k <= i < k + 3) ==> s[i] == t[i]
    ensures Near(s, t)
  {
    Utf8OfAscii(s);
    Utf8OfAscii(t);
    var i :| 0 <= i < |s| && s[i] != t[i];
    assert Utf8(s)[i] != Utf8(t)[i];
    assert NearAt(Utf8(s), Utf8(t), k);
  }

  /* Ids of different things */

  // The texts agree in all parts but one, in which they are near.
  ghost predicate NearParts(p: seq<string>, q: seq<string>) {
    |p| == |q| && exists i :: 0 <= i < |p| && NearPart(p, q, i)
  }

  ghost predicate NearPart(p: seq<string>, q: seq<string>, i: nat)
    requires |p| == |q| && i < |p|
  {
    Near(p[i], q[i]) && forall j :: 0 <= j < |p| && j != i ==> p[j] == q[j]
  }

  // The parts, separated by colons.
  function Colons(p: seq<string>): string {
    if p == [] then "" else if |p| == 1 then p[0] else Colons(p[..|p| - 1]) + ":" + p[|p| - 1]
  }

  lemma ColonsAppend(p: seq<string>, x: string)
    requires p != []
    ensures Colons(p + [x]) == Colons(p) + ":" + x
  {
    assert (p + [x])[..|p|] == p;
  }

  lemma NearAfter(before: string, s: string, t: string)
    requires Near(s, t)
    ensures Near(before + s, before + t)
  {
    NearWithin(before, s, t, "");
    assert before + s + "" == before + s && before + t + "" == before + t;
  }

  lemma NearBefore(s: string, t: string, after: string)
    requires Near(s, t)
    ensures Near(s + after, t + after)
  {
    NearWithin("", s, t, after);
    assert "" + s + after == s + after && "" + t + after == t + after;
  }

  lemma NearLast(p: seq<string>, x: string, y: string)
    requires p != [] && Near(x, y)
    ensures Near(Colons(p + [x]), Colons(p + [y]))
  {
    ColonsAppend(p, x);
    ColonsAppend(p, y);
    NearAfter(Colons(p) + ":", x, y);
  }

  lemma NearFront(p: seq<string>, q: seq<string>, x: string)
    requires p != [] && q != [] && Near(Colons(p), Colons(q))
    ensures Near(Colons(p + [x]), Colons(q + [x]))
  {
    ColonsAppend(p, x);
    ColonsAppend(q, x);
    NearBefore(Colons(p), Colons(q), ":");
    NearBefore(Colons(p) + ":", Colons(q) + ":", x);
  }

  lemma {:induction false} NearColons(p: seq<string>, q: seq<string>, i: nat)
    requires |p| == |q| && i < |p| && NearPart(p, q, i)
    ensures Near(Colons(p), Colons(q))
  {
    var n := |p| - 1;
    if n > 0 {
      assert p == p[..n] + [p[n]] && q == q[..n] + [q[n]];
      if i == n {
        assert p[..n] == q[..n];
        NearLast(p[..n], p[n], q[n]);
      } else {
        assert NearPart(p[..n], q[..n], i);
        NearColons(p[..n], q[..n], i);
        NearFront(p[..n], q[..n], p[n]);
      }
    }
  }

  lemma PartsChangeId(idPrefix: string, p: seq<string>, q: seq<string>)
    requires NearParts(p, q)
    ensures HashedId(idPrefix, Utf8(Colons(p))) != HashedId(idPrefix, Utf8(Colons(q)))
  {
    var i :| 0 <= i < |p| && NearPart(p, q, i);
    NearColons(p, q, i);
    NearChangesId(idPrefix, Colons(p), Colons(q));
  }

  lemma ColonsOfFive(a: string, b: string, c: string, d: string, e: string)
    ensures Colons([a, b, c, d, e]) == a + ":" + b + ":" + c + ":" + d + ":" + e
  {
    ColonsAppend([a], b);
    ColonsAppend([a, b], c);
    ColonsAppend([a, b, c], d);
    ColonsAppend([a, b, c, d], e);
    assert [a] + [b] == [a, b] && [a, b] + [c] == [a, b, c] && [a, b, c] + [d] == [a, b, c, d];
    assert [a, b, c, d] + [e] == [a, b, c, d, e];
  }

  lemma ColonsOfSeven(a: string, b: string, c: string, d: string, e: string, f: string, g: string)
    ensures Colons([a, b, c, d, e, f, g]) == a + ":" + b + ":" + c + ":" + d + ":" + e + ":" + f + ":" + g
  {
    ColonsOfFive(a, b, c, d, e);
    ColonsAppend([a, b, c, d, e], f);
    ColonsAppend([a, b, c, d, e, f], g);
    assert [a, b, c, d, e] + [f] == [a, b, c, d, e, f] && [a, b, c, d, e, f] + [g] == [a, b, c, d, e, f, g];
  }

  // Two creates whose actors, keys and payload hashes differ in one of the five parts only, and there
  // within three bytes, get different job ids.
  lemma JobIdsDiffer(a: Actor, key1: string, hash1: string, b: Actor, key2: string, hash2: string)
    requires NearParts([a.tenant, a.organization, a.operator, key1, hash1], [b.tenant, b.organization, b.operator, key2, hash2])
    ensures JobId(a, key1, hash1) != JobId(b, key2, hash2)
  {
    PartsChangeId("ai-job-", [a.tenant, a.organization, a.operator, key1, hash1], [b.tenant, b.organization, b.operator, key2, hash2]);
    ColonsOfFive(a.tenant, a.organization, a.operator, key1, hash1);
    ColonsOfFive(b.tenant, b.organization, b.operator, key2, hash2);
  }

  function SourceParts(a: Actor, workspaceId: string, sourceType: string, sourceId: string, versionId: string, versionNo: int): seq<string> {
    [a.tenant, a.organization, workspaceId, sourceType, sourceId, versionId, Decimal(versionNo)]
  }

  // The same for the seven parts of a source's id.
  lemma SourceIdsDiffer(a: Actor, ws1: string, type1: string, source1: string, versionId1: string, no1: int,
                        b: Actor, ws2: string, type2: string, source2: string, versionId2: string, no2: int)
    requires NearParts([a.tenant, a.organization, ws1, type1, source1, versionId1, Decimal(no1)],
                       [b.tenant, b.organization, ws2, type2, source2, versionId2, Decimal(no2)])
    ensures SourceId(a, ws1, type1, source1, versionId1, no1) != SourceId(b, ws2, type2, source2, versionId2, no2)
  {
    PartsChangeId("ai-job-source-", SourceParts(a, ws1, type1, source1, versionId1, no1), SourceParts(b, ws2, type2, source2, versionId2, no2));
    ColonsOfSeven(a.tenant, a.organization, ws1, type1, source1, versionId1, Decimal(no1));
    ColonsOfSeven(b.tenant, b.organization, ws2, type2, source2, versionId2, Decimal(no2));
  }

  // Decimal texts of one length that agree outside three digits.
  lemma NumbersNear(m: nat, n: nat, k: nat)
    requires |Decimal(m)| == |Decimal(n)| && Decimal(m) != Decimal(n)
    requires forall i :: 0 <= i < |Decimal(m)| && !(k <= i < k + 3) ==> Decimal(m)[i] == Decimal(n)[i]
    ensures Near(Decimal(m), Decimal(n))
  {
    AsciiNear(Decimal(m), Decimal(n), k);
  }

  // A page's versions 1 to 9 give different sources: the version's id and number, which both change,
  // are three bytes of the raw text.
  lemma NineVersionsGetDistinctSources(actor: Actor, workspaceId: string, pageId: string, m: nat, n: nat)
    requires m < 10 && n < 10 && m != n
    ensures SourceId(actor, workspaceId, "page", pageId, VersionId(pageId, m), m)
         != SourceId(actor, workspaceId, "page", pageId, VersionId(pageId, n), n)
  {
    var head := Colons([actor.tenant, actor.organization, workspaceId, "page", pageId]) + ":drive-version-" + pageId + "-v";
    VersionPair(m);
    VersionPair(n);
    AsciiNear(Decimal(m) + ":" + Decimal(m), Decimal(n) + ":" + Decimal(n), 0);
    NearWithin(head, Decimal(m) + ":" + Decimal(m), Decimal(n) + ":" + Decimal(n), "");
    NearChangesId("ai-job-source-", head + (Decimal(m) + ":" + Decimal(m)) + "", head + (Decimal(n) + ":" + Decimal(n)) + "");
    SourceText(actor, workspaceId, pageId, m);
    SourceText(actor, workspaceId, pageId, n);
  }

  lemma VersionPair(n: nat)
    requires n < 10
    ensures Decimal(n) + ":" + Decimal(n) == [DigitChar(n), ':', DigitChar(n)]
  {
  }

  lemma SourceText(actor: Actor, workspaceId: string, pageId: string, n: nat)
    ensures SourceId(actor, workspaceId, "page", pageId, VersionId(pageId, n), n)
         == HashedId("ai-job-source-", Utf8(Colons([actor.tenant, actor.organization, workspaceId, "page", pageId])
                                            + ":drive-version-" + pageId + "-v" + (Decimal(n) + ":" + Decimal(n)) + ""))
  {
    ColonsOfFive(actor.tenant, actor.organization, workspaceId, "page", pageId);
    VersionsInText(actor.tenant + ":" + actor.organization + ":" + workspaceId + ":" + "page" + ":" + pageId, pageId, n);
  }

  lemma VersionsInText(five: string, pageId: string, n: nat)
    ensures five + ":" + VersionId(pageId, n) + ":" + Decimal(n)
         == five + ":drive-version-" + pageId + "-v" + (Decimal(n) + ":" + Decimal(n)) + ""
  {
  }

  // The same for the eight parts of a suggestion's id.
  lemma SuggestionIdsDiffer(a: Actor, job1: string, page1: string, kind1: string, i: nat, text1: string,
                            b: Actor, job2: string, page2: string, kind2: string, j: nat, text2: string)
    requires NearParts([a.tenant, a.organization, a.operator, job1, page1, kind1, Decimal(i), text1],
                       [b.tenant, b.organization, b.operator, job2, page2, kind2, Decimal(j), text2])
    ensures SuggestionId(a, job1, page1, kind1, i, text1) != SuggestionId(b, job2, page2, kind2, j, text2)
  {
    PartsChangeId("ai-suggestion-", [a.tenant, a.organization, a.operator, job1, page1, kind1, Decimal(i), text1],
                  [b.tenant, b.organization, b.operator, job2, page2, kind2, Decimal(j), text2]);
    SuggestionText(a, job1, page1, kind1, i, text1);
    SuggestionText(b, job2, page2, kind2, j, text2);
  }

  lemma SuggestionText(a: Actor, jobId: string, pageId: string, kind: string, i: nat, text: string)
    ensures SuggestionPrefix(a, jobId, pageId, kind) + Decimal(i) + (":" + text)
         == Colons([a.tenant, a.organization, a.operator, jobId, pageId, kind, Decimal(i), text])
  {
    var seven := [a.tenant, a.organization, a.operator, jobId, pageId, kind, Decimal(i)];
    ColonsOfSeven(a.tenant, a.organization, a.operator, jobId, pageId, kind, Decimal(i));
    ColonsAppend(seven, text);
    assert seven + [text] == [a.tenant, a.organization, a.operator, jobId, pageId, kind, Decimal(i), text];
    assert SuggestionPrefix(a, jobId, pageId, kind) + Decimal(i) + (":" + text) == Colons(seven) + ":" + text;
  }

  // Equal suggestions in one completion get different ids whenever the decimal texts of their
  // indexes have one length and agree outside three digits.
  lemma EqualSuggestionsGetDistinctIds(actor: Actor, jobId: string, pageId: string, kind: string,
                                       i: nat, j: nat, k: nat, text: string)
    requires |Decimal(i)| == |Decimal(j)| && i != j
    requires forall m :: 0 <= m < |Decimal(i)| && !(k <= m < k + 3) ==> Decimal(i)[m] == Decimal(j)[m]
    ensures SuggestionId(actor, jobId, pageId, kind, i, text) != SuggestionId(actor, jobId, pageId, kind, j, text)
  {
    ParseDigitsInverts(i);
    ParseDigitsInverts(j);
    NumbersNear(i, j, k);
    var p := [actor.tenant, actor.organization, actor.operator, jobId, pageId, kind, Decimal(i), text];
    var q := [actor.tenant, actor.organization, actor.operator, jobId, pageId, kind, Decimal(j), text];
    assert NearPart(p, q, 6);
    SuggestionIdsDiffer(actor, jobId, pageId, kind, i, text, actor, jobId, pageId, kind, j, text);
  }

  lemma {:induction false} LastThree(n: nat)
    requires n >= 1000
    ensures |Digits(n)| == |Digits(n / 1000)| + 3 && Digits(n)[..|Digits(n)| - 3] == Digits(n / 1000)
  {
    assert n / 10 / 10 / 10 == n / 1000;
    assert Digits(n) == Digits(n / 10) + [DigitChar(n % 10)];
    assert Digits(n / 10) == Digits(n / 10 / 10) + [DigitChar(n / 10 % 10)];
    assert Digits(n / 10 / 10) == Digits(n / 10 / 10 / 10) + [DigitChar(n / 10 / 10 % 10)];
  }

  lemma ThreeDigits(n: nat)
    requires n < 1000
    ensures |Digits(n)| <= 3
  {
    if n >= 100 {
      assert |Digits(n / 10 / 10)| == 1 && |Digits(n / 10)| == 2;
    }
  }

  lemma SameThousand(i: nat, j: nat) returns (k: nat)
    requires i / 1000 == j / 1000 && |Decimal(i)| == |Decimal(j)|
    ensures forall m :: 0 <= m < |Decimal(i)| && !(k <= m < k + 3) ==> Decimal(i)[m] == Decimal(j)[m]
  {
    if i < 1000 {
      k := 0;
      ThreeDigits(i);
    } else {
      LastThree(i);
      LastThree(j);
      k := |Digits(i)| - 3;
      SamePrefix(Digits(i), Digits(j), k);
    }
  }

  lemma SamePrefix(s: string, t: string, k: nat)
    requires |s| == |t| == k + 3 && s[..k] == t[..k]
    ensures forall m :: 0 <= m < |s| && !(k <= m < k + 3) ==> s[m] == t[m]
  {
    assert forall m :: 0 <= m < k ==> s[m] == s[..k][m] && t[m] == t[..k][m];
  }

  // In particular any two indexes with one number of digits that share all but the last three.
  lemma ThousandSuggestionsGetDistinctIds(actor: Actor, jobId: string, pageId: string, kind: string,
                                          i: nat, j: nat, text: string)
    requires i / 1000 == j / 1000 && i != j && |Decimal(i)| == |Decimal(j)|
    ensures SuggestionId(actor, jobId, pageId, kind, i, text) != SuggestionId(actor, jobId, pageId, kind, j, text)
  {
    var k := SameThousand(i, j);
    EqualSuggestionsGetDistinctIds(actor, jobId, pageId, kind, i, j, k, text);
  }
}
