// The LIKE predicate with escape character '\' (section 8.5 of ISO/IEC 9075-2), and the pattern
// that like_contains_pattern builds from a lowercased query.
module Like {

  predicate IsSpecial(c: char) {
    c == '\\' || c == '%' || c == '_'
  }

  // The pattern must be matched by the whole text. A pattern that ends in a bare escape character
  // matches nothing.
  predicate Matches(pattern: string, text: string)
    decreases |pattern|
  {
    if pattern == "" then text == ""
    else if pattern[0] == '%' then exists k :: 0 <= k <= |text| && Matches(pattern[1..], text[k..])
    else if pattern[0] == '_' then text != "" && Matches(pattern[1..], text[1..])
    else if pattern[0] == '\\' then
      |pattern| >= 2 && text != "" && text[0] == pattern[1] && Matches(pattern[2..], text[1..])
    else text != "" && text[0] == pattern[0] && Matches(pattern[1..], text[1..])
  }

  function Escaped(query: string): string {
    if query == "" then "" else Escaped(query[..|query| - 1]) + EscapedChar(query[|query| - 1])
  }

  function EscapedChar(c: char): string {
    if IsSpecial(c) then ['\\', c] else [c]
  }

  function ContainsPattern(query: string): string {
    "%" + Escaped(query) + "%"
  }

  method LikeContainsPattern(lowered: string) returns (escaped: string)
    ensures escaped == ContainsPattern(lowered)
  {
    escaped := "%";
    for i := 0 to |lowered|
      invariant escaped == "%" + Escaped(lowered[..i])
    {
      var character := lowered[i];
      if character == '\\' || character == '%' || character == '_' {
        escaped := escaped + "\\" + [character];
      } else {
        escaped := escaped + [character];
      }
      assert lowered[..i + 1][..i] == lowered[..i];
    }
    assert lowered[..|lowered|] == lowered;
    escaped := escaped + "%";
  }

  predicate Contains(text: string, query: string) {
    exists i :: 0 <= i <= |text| && query <= text[i..]
  }

  lemma {:induction false} EscapedFront(c: char, rest: string)
    ensures Escaped([c] + rest) == EscapedChar(c) + Escaped(rest)
  {
    var q := [c] + rest;
    if rest != "" {
      assert q[..|q| - 1] == [c] + rest[..|rest| - 1];
      EscapedFront(c, rest[..|rest| - 1]);
    }
  }

  lemma AnyTextMatches(text: string)
    ensures Matches("%", text)
  {
    assert Matches("%"[1..], text[|text|..]);
  }

  // One escaped character stands for itself.
  lemma EscapedStep(c: char, p: string, text: string)
    ensures text == "" ==> !Matches(EscapedChar(c) + p, text)
    ensures text != "" ==> (Matches(EscapedChar(c) + p, text) <==> text[0] == c && Matches(p, text[1..]))
  {
    var pattern := EscapedChar(c) + p;
    if IsSpecial(c) {
      assert pattern[0] == '\\' && pattern[1] == c && pattern[2..] == p;
    } else {
      assert pattern[0] == c && pattern[1..] == p;
    }
  }

  lemma PrefixStep(query: string, text: string)
    requires query != "" && text != ""
    ensures query <= text <==> query[0] == text[0] && query[1..] <= text[1..]
  {
    assert query == [query[0]] + query[1..] && text == [text[0]] + text[1..];
  }

  // An escaped query followed by '%' is matched by exactly the texts that begin with the query.
  lemma {:induction false} EscapedMatchesPrefix(query: string, text: string)
    ensures Matches(Escaped(query) + "%", text) <==> query <= text
    decreases |query|
  {
    if query == "" {
      AnyTextMatches(text);
    } else {
      assert query == [query[0]] + query[1..];
      EscapedFront(query[0], query[1..]);
      assert Escaped(query) + "%" == EscapedChar(query[0]) + (Escaped(query[1..]) + "%");
      EscapedStep(query[0], Escaped(query[1..]) + "%", text);
      if text != "" {
        EscapedMatchesPrefix(query[1..], text[1..]);
        PrefixStep(query, text);
      }
    }
  }

  // The pattern of a query matches exactly the texts that contain the query: '%', '_' and '\' in
  // the query stand for themselves.
  lemma ContainsPatternIsSubstring(query: string, text: string)
    ensures Matches(ContainsPattern(query), text) <==> Contains(text, query)
  {
    var pattern := ContainsPattern(query);
    assert pattern[0] == '%' && pattern[1..] == Escaped(query) + "%";
    forall k | 0 <= k <= |text|
      ensures Matches(pattern[1..], text[k..]) <==> query <= text[k..]
    {
      EscapedMatchesPrefix(query, text[k..]);
    }
  }
}
