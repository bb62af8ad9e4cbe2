// The identifiers that the service and the Drive adapter build by formatting, and the
// injectivity facts about them on which the protocol rests.
module Ids {
  import opened Domain

  predicate IsDigit(c: char) {
    '0' <= c <= '9'
  }

  function DigitChar(d: nat): (c: char)
    requires d < 10
    ensures IsDigit(c)
  {
    '0' + d as char
  }

  function Digits(n: nat): (s: string)
    ensures s != ""
    ensures forall i :: 0 <= i < |s| ==> IsDigit(s[i])
  {
    if n < 10 then [DigitChar(n)] else Digits(n / 10) + [DigitChar(n % 10)]
  }

  function Decimal(n: int): string {
    if n < 0 then "-" + Digits(-n) else Digits(n)
  }

  // The number a digit string stands for: the inverse of Digits.
  function ParseDigits(s: string): nat
    requires forall i :: 0 <= i < |s| ==> IsDigit(s[i])
  {
    if s == "" then 0
    else
      assert IsDigit(s[|s| - 1]);
      10 * ParseDigits(s[..|s| - 1]) + (s[|s| - 1] as int - '0' as int)
  }

  lemma {:induction false} ParseDigitsInverts(n: nat)
    ensures ParseDigits(Digits(n)) == n
  {
    if n < 10 {
      assert Digits(n)[..0] == "";
    } else {
      ParseDigitsInverts(n / 10);
      var s := Digits(n);
      assert s[..|s| - 1] == Digits(n / 10);
    }
  }

  function VersionId(page: string, n: int): string {
    "drive-version-" + page + "-v" + Decimal(n)
  }

  function NodeId(page: string): string {
    "drive-node-" + page
  }

  function DriveUri(spaceId: string, nodeId: string): string {
    "drive://spaces/" + spaceId + "/nodes/" + nodeId
  }

  function ProjectionId(page: string, versionId: string): string {
    "search-projection-" + page + "-" + versionId
  }

  lemma CancelPrefix(prefix: string, s: string, t: string)
    requires prefix + s == prefix + t
    ensures s == t
  {
    assert s == (prefix + s)[|prefix|..];
    assert t == (prefix + t)[|prefix|..];
  }

  // The last 'v' of a formatted id marks where its digits begin.
  lemma LastV(a: string, x: string)
    requires forall i :: 0 <= i < |x| ==> IsDigit(x[i])
    ensures (a + "-v" + x)[|a| + 1] == 'v'
    ensures forall i :: |a| + 2 <= i < |a + "-v" + x| ==> (a + "-v" + x)[i] != 'v'
  {
    forall i | |a| + 2 <= i < |a + "-v" + x|
      ensures (a + "-v" + x)[i] != 'v'
    {
      assert (a + "-v" + x)[i] == x[i - |a| - 2];
    }
  }

  lemma SuffixAfterV(a: string, x: string, b: string, y: string)
    requires a + "-v" + x == b + "-v" + y
    requires forall i :: 0 <= i < |x| ==> IsDigit(x[i])
    requires forall i :: 0 <= i < |y| ==> IsDigit(y[i])
    ensures a == b && x == y
  {
    LastV(a, x);
    LastV(b, y);
    assert |a| == |b|;
    assert a == (a + "-v" + x)[..|a|];
    assert b == (b + "-v" + y)[..|b|];
    assert x == (a + "-v" + x)[|a| + 2..];
    assert y == (b + "-v" + y)[|b| + 2..];
  }

  // Under one prefix, a formatted name and number determine each other.
  lemma PrefixedInjective(prefix: string, p: string, m: nat, q: string, n: nat)
    requires prefix + p + "-v" + Digits(m) == prefix + q + "-v" + Digits(n)
    ensures p == q && m == n
  {
    assert prefix + p + "-v" + Digits(m) == prefix + (p + "-v" + Digits(m));
    assert prefix + q + "-v" + Digits(n) == prefix + (q + "-v" + Digits(n));
    CancelPrefix(prefix, p + "-v" + Digits(m), q + "-v" + Digits(n));
    SuffixAfterV(p, Digits(m), q, Digits(n));
    ParseDigitsInverts(m);
    ParseDigitsInverts(n);
  }

  lemma VersionIdInjective(p: string, m: nat, q: string, n: nat)
    ensures VersionId(p, m) == VersionId(q, n) <==> p == q && m == n
  {
    if VersionId(p, m) == VersionId(q, n) {
      PrefixedInjective("drive-version-", p, m, q, n);
    }
  }

  // A node id determines its page. A uri determines its space when the node is known, and
  // its node when the space is known.
  lemma NodeAndUriTell(p: string, q: string, spaceA: string, spaceB: string)
    ensures NodeId(p) == NodeId(q) <==> p == q
    ensures DriveUri(spaceA, p) == DriveUri(spaceA, q) <==> p == q
    ensures DriveUri(spaceA, p) == DriveUri(spaceB, p) <==> spaceA == spaceB
  {
    if NodeId(p) == NodeId(q) {
      CancelPrefix("drive-node-", p, q);
    }
    var head := "drive://spaces/" + spaceA + "/nodes/";
    assert DriveUri(spaceA, p) == head + p && DriveUri(spaceA, q) == head + q;
    if DriveUri(spaceA, p) == DriveUri(spaceA, q) {
      CancelPrefix(head, p, q);
    }
    if DriveUri(spaceA, p) == DriveUri(spaceB, p) {
      var a, b := DriveUri(spaceA, p), DriveUri(spaceB, p);
      assert |spaceA| == |spaceB|;
      assert spaceA == a[15..][..|spaceA|];
      assert spaceB == b[15..][..|spaceB|];
    }
  }

  lemma HalvesEqual(p: string, middle: string, q: string)
    requires p + middle + p == q + middle + q
    ensures p == q
  {
    assert |p| == |q|;
    assert p == (p + middle + p)[..|p|];
    assert q == (q + middle + q)[..|q|];
  }

  lemma DoubledInjective(prefix: string, middle: string, p: string, m: nat, q: string, n: nat)
    requires prefix + p + "-" + (middle + p + "-v" + Digits(m)) == prefix + q + "-" + (middle + q + "-v" + Digits(n))
    ensures p == q && m == n
  {
    var a, b := p + ("-" + middle) + p, q + ("-" + middle) + q;
    assert prefix + p + "-" + (middle + p + "-v" + Digits(m)) == prefix + a + "-v" + Digits(m);
    assert prefix + q + "-" + (middle + q + "-v" + Digits(n)) == prefix + b + "-v" + Digits(n);
    PrefixedInjective(prefix, a, m, b, n);
    HalvesEqual(p, "-" + middle, q);
  }

  // The primary key of a projection row determines its page and version.
  lemma ProjectionIdInjective(p: string, m: nat, q: string, n: nat)
    ensures ProjectionId(p, VersionId(p, m)) == ProjectionId(q, VersionId(q, n)) <==> p == q && m == n
  {
    if ProjectionId(p, VersionId(p, m)) == ProjectionId(q, VersionId(q, n)) {
      DoubledInjective("search-projection-", "drive-version-", p, m, q, n);
    }
  }

  // Formatted ids survive the trimming of command fields unchanged.
  lemma VersionIdIsTrimmed(page: string, n: nat)
    ensures Trim(VersionId(page, n)) == VersionId(page, n)
    ensures !IsBlank(VersionId(page, n))
  {
    var s := VersionId(page, n);
    assert s[0] == 'd';
    assert s[|s| - 1] == Digits(n)[|Digits(n)| - 1];
  }

  lemma NodeIdAndUriNotBlank(spaceId: string, page: string)
    requires Trim(page) == page && page != ""
    ensures !IsBlank(NodeId(page)) && !IsBlank(DriveUri(spaceId, NodeId(page)))
  {
    var node := NodeId(page);
    assert page[|page| - 1] == node[|node| - 1] && node[0] == 'd';
    assert !IsSpace(page[|page| - 1]);
    var uri := DriveUri(spaceId, node);
    assert uri[0] == 'd' && uri[|uri| - 1] == node[|node| - 1];
  }
}
