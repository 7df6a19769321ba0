/** Permission matching: the server's matcher, the browser's copy of it, and what a wildcard means in
    terms of colon-separated segments. */
module Permissions {
  import opened Text

  /** matchesPermission in rbac_service.go. */
  predicate Matches(granted: string, required: string) {
    || granted == required
    || granted == "*"
    || (HasSuffix(granted, ":*") &&
        var prefix := granted[..|granted| - 2];
        required == prefix || HasPrefix(required, prefix + ":"))
    || (granted == "*:read" && HasSuffix(required, ":read"))
  }

  /** JavaScript's s.slice(0, -n). */
  function SliceOff(s: string, n: nat): string {
    if |s| <= n then "" else s[..|s| - n]
  }

  /** matchesPermission in permissions.ts. */
  function MatchesInBrowser(granted: string, required: string): bool {
    if granted == required || granted == "*" then true
    else if HasSuffix(granted, ":*") &&
      (required == SliceOff(granted, 2) || HasPrefix(required, SliceOff(granted, 2) + ":")) then true
    else if granted == "*:read" && HasSuffix(required, ":read") then true
    else false
  }

  /** The two matchers give one answer on every pair of strings. */
  lemma MatchersAgree(granted: string, required: string)
    ensures MatchesInBrowser(granted, required) == Matches(granted, required)
  {
  }

  // -------------------------------------------------------------- segments

  function Split(s: string): (parts: seq<string>)
    ensures |parts| >= 1
  {
    if s == "" then [""]
    else if s[0] == ':' then [""] + Split(s[1..])
    else var rest := Split(s[1..]); [[s[0]] + rest[0]] + rest[1..]
  }

  function Join(parts: seq<string>): string
    requires |parts| >= 1
  {
    if |parts| == 1 then parts[0] else parts[0] + ":" + Join(parts[1..])
  }

  lemma {:induction false} JoinSplit(s: string)
    ensures Join(Split(s)) == s
  {
    if s != "" {
      JoinSplit(s[1..]);
      var rest := Split(s[1..]);
      if s[0] == ':' {
        assert Split(s)[1..] == rest;
      } else if |rest| > 1 {
        assert Split(s)[1..] == rest[1..];
        assert [s[0]] + (rest[0] + ":" + Join(rest[1..])) == ([s[0]] + rest[0]) + ":" + Join(rest[1..]);
      }
    }
  }

  lemma {:induction false} SplitAppend(a: string, b: string)
    ensures Split(a + ":" + b) == Split(a) + Split(b)
  {
    if a == "" {
      assert (a + ":" + b)[1..] == b;
    } else {
      assert (a + ":" + b)[1..] == a[1..] + ":" + b;
      SplitAppend(a[1..], b);
    }
  }

  lemma {:induction false} JoinAppend(x: seq<string>, y: seq<string>)
    requires |x| >= 1 && |y| >= 1
    ensures Join(x + y) == Join(x) + ":" + Join(y)
  {
    assert (x + y)[1..] == x[1..] + y;
    if |x| > 1 {
      JoinAppend(x[1..], y);
    }
  }

  /** p's segments begin r's segments exactly when r is p or continues it after a colon. */
  lemma SegmentsArePrefix(p: string, r: string)
    ensures Split(p) <= Split(r) <==> r == p || HasPrefix(r, p + ":")
  {
    if Split(p) <= Split(r) {
      var rest := Split(r)[|Split(p)|..];
      assert Split(r) == Split(p) + rest;
      JoinSplit(p);
      JoinSplit(r);
      if rest == [] {
        assert Split(r) == Split(p);
      } else {
        JoinAppend(Split(p), rest);
      }
    }
    if HasPrefix(r, p + ":") {
      var tail := r[|p| + 1..];
      assert r == p + ":" + tail;
      SplitAppend(p, tail);
    }
  }

  lemma {:induction false} OneSegment(s: string)
    requires forall i :: 0 <= i < |s| ==> s[i] != ':'
    ensures Split(s) == [s]
  {
    if s != "" {
      OneSegment(s[1..]);
      assert [s[0]] + s[1..] == s;
    }
  }

  lemma StarAlone()
    ensures Split("*") == ["*"]
  {
    OneSegment("*");
  }

  lemma StarRead()
    ensures Split("*:read") == ["*", "read"]
  {
    OneSegment("read");
    StarAlone();
    SplitAppend("*", "read");
    assert "*" + ":" + "read" == "*:read";
  }

  lemma SplitInjective(a: string, b: string)
    requires Split(a) == Split(b)
    ensures a == b
  {
    JoinSplit(a);
    JoinSplit(b);
  }

  lemma StarEnds(p: string)
    ensures Split(p + ":*") == Split(p) + ["*"]
  {
    SplitAppend(p, "*");
    assert p + ":*" == p + ":" + "*";
    StarAlone();
  }

  /** What a wildcard means: "p:*" matches exactly the requirements whose segments begin with p's segments. */
  lemma WildcardMeaning(p: string, required: string)
    ensures Matches(p + ":*", required) <==> Split(p) <= Split(required)
  {
    SegmentsArePrefix(p, required);
    WildcardUnfolds(p, required);
    if p + ":*" == required { StarEnds(p); }
  }

  lemma WildcardUnfolds(p: string, required: string)
    ensures Matches(p + ":*", required) <==> p + ":*" == required || required == p || HasPrefix(required, p + ":")
  {
  }

  ghost predicate EndsWith(parts: seq<string>, word: string) { |parts| >= 2 && parts[|parts| - 1] == word }

  /** Ending in ":word" is having that word as the last of several segments. */
  lemma LastSegment(s: string, word: string)
    requires forall i :: 0 <= i < |word| ==> word[i] != ':'
    ensures HasSuffix(s, ":" + word) <==> EndsWith(Split(s), word)
    ensures HasSuffix(s, ":" + word) ==> Split(s)[..|Split(s)| - 1] == Split(s[..|s| - |word| - 1])
  {
    OneSegment(word);
    if HasSuffix(s, ":" + word) {
      var head := s[..|s| - |word| - 1];
      assert s == head + ":" + word;
      SplitAppend(head, word);
    }
    if EndsWith(Split(s), word) {
      var init := Split(s)[..|Split(s)| - 1];
      assert Split(s) == init + [word];
      JoinSplit(s);
      JoinAppend(init, [word]);
    }
  }

  /** What any grant lets through, in segments and nothing else: itself; with "*", everything; with a last segment "*",
      all that begins with the segments before it; with "*:read", all of several segments that end in "read". */
  lemma GrantMeaning(granted: string, required: string)
    ensures var (g, r) := (Split(granted), Split(required));
      Matches(granted, required) <==>
        || g == r
        || g == ["*"]
        || (EndsWith(g, "*") && g[..|g| - 1] <= r)
        || (g == ["*", "read"] && EndsWith(r, "read"))
  {
    SameSegments(granted, required);
    StarNames(granted);
    SuffixMeaning(granted, ":*", "*");
    SuffixMeaning(required, ":read", "read");
    if HasSuffix(granted, ":*") { SegmentsArePrefix(granted[..|granted| - 2], required); }
  }

  lemma SameSegments(a: string, b: string)
    ensures Split(a) == Split(b) <==> a == b
  {
    if Split(a) == Split(b) { SplitInjective(a, b); }
  }

  lemma StarNames(g: string)
    ensures Split(g) == ["*"] <==> g == "*"
    ensures Split(g) == ["*", "read"] <==> g == "*:read"
  {
    StarAlone();
    StarRead();
    if Split(g) == ["*"] { SplitInjective(g, "*"); }
    if Split(g) == ["*", "read"] { SplitInjective(g, "*:read"); }
  }

  lemma SuffixMeaning(s: string, suffix: string, word: string)
    requires suffix == ":" + word && forall i :: 0 <= i < |word| ==> word[i] != ':'
    ensures HasSuffix(s, suffix) <==> EndsWith(Split(s), word)
    ensures HasSuffix(s, suffix) ==> Split(s)[..|Split(s)| - 1] == Split(s[..|s| - |suffix|])
  {
    LastSegment(s, word);
  }

  // ---------------------------------------------------------- transitivity

  /** Whatever a lets through, passed on by a second grant, a lets through as well. */
  ghost predicate Chains(a: string) {
    forall b, c :: Matches(a, b) && Matches(b, c) ==> Matches(a, c)
  }

  predicate IsDoubleStar(a: string) {
    a == "*:*" || HasSuffix(a, ":*:*") || a == "*:read:*"
  }

  lemma DoubleStarBreaks(a: string) returns (b: string, c: string)
    requires IsDoubleStar(a)
    ensures Matches(a, b) && Matches(b, c) && !Matches(a, c)
  {
    if a == "*:*" {
      b, c := "*", "x";
    } else if a == "*:read:*" {
      b, c := "*:read", ":read";
    } else {
      var q := a[..|a| - 4];
      b, c := q + ":*", q;
      assert a == b + ":*";
      WildcardUnfolds(b, b);
      WildcardUnfolds(q, q);
      WildcardUnfolds(b, q);
    }
  }

  lemma StarThenAll(p: string)
    requires Matches(p + ":*", "*")
    ensures IsDoubleStar(p + ":*")
  {
    WildcardMeaning(p, "*");
    StarAlone();
    SplitInjective(p, "*");
  }

  lemma StarThenRead(p: string)
    requires Matches(p + ":*", "*:read")
    ensures IsDoubleStar(p + ":*")
  {
    WildcardMeaning(p, "*:read");
    StarRead();
    assert Split(p) == ["*"] || Split(p) == ["*", "read"];
    if Split(p) == ["*"] { StarAlone(); SplitInjective(p, "*"); } else { SplitInjective(p, "*:read"); }
  }

  lemma StarThenStar(p: string, q: string, c: string)
    requires Matches(p + ":*", q + ":*") && Matches(q + ":*", c) && !IsDoubleStar(p + ":*")
    ensures Matches(p + ":*", c)
  {
    WildcardMeaning(p, q + ":*");
    WildcardMeaning(q, c);
    WildcardMeaning(p, c);
    StarEnds(q);
    if !(Split(p) <= Split(q)) {
      assert Split(p) == Split(q + ":*");
      SplitInjective(p, q + ":*");
      DoubledIsDoubleStar(q);
    }
  }

  lemma DoubledIsDoubleStar(q: string)
    ensures IsDoubleStar(q + ":*" + ":*")
  {
  }

  lemma StarChains(p: string, b: string, c: string)
    requires Matches(p + ":*", b) && Matches(b, c) && !IsDoubleStar(p + ":*")
    ensures Matches(p + ":*", c)
  {
    if b == c {
    } else if b == "*" {
      StarThenAll(p);
    } else if HasSuffix(b, ":*") {
      assert b == b[..|b| - 2] + ":*";
      StarThenStar(p, b[..|b| - 2], c);
    } else if b == "*:read" {
      StarThenRead(p);
    }
  }

  /** Matching chains through a second grant exactly when the outer grant is not a doubled wildcard: "*:*", "q:*:*" or
      "*:read:*". In particular it chains for "*", "*:read", every literal, and "p:*" with no "*" segment in p. */
  lemma ChainsExactly(a: string)
    ensures Chains(a) <==> !IsDoubleStar(a)
  {
    if IsDoubleStar(a) {
      var b, c := DoubleStarBreaks(a);
    } else {
      forall b, c | Matches(a, b) && Matches(b, c) ensures Matches(a, c) {
        SoundChains(a, b, c);
      }
    }
  }

  lemma WildChains(a: string, p: string, b: string, c: string)
    requires a == p + ":*" && Matches(a, b) && Matches(b, c) && !IsDoubleStar(a)
    ensures Matches(a, c)
  {
    StarChains(p, b, c);
  }

  lemma SoundChains(a: string, b: string, c: string)
    requires Matches(a, b) && Matches(b, c) && !IsDoubleStar(a)
    ensures Matches(a, c)
  {
    if HasSuffix(a, ":*") {
      WildChains(a, a[..|a| - 2], b, c);
    } else {
      PlainChains(a, b, c);
    }
  }

  lemma PlainChains(a: string, b: string, c: string)
    requires Matches(a, b) && Matches(b, c) && !HasSuffix(a, ":*")
    ensures Matches(a, c)
  {
  }

  /** The three shapes of a doubled wildcard, seen from what comes before its last ":*". */
  lemma DoubleStarShape(p: string)
    requires IsDoubleStar(p + ":*")
    ensures p == "*" || p == "*:read" || HasSuffix(p, ":*")
  {
    var a := p + ":*";
    assert a[..|a| - 2] == p;
    if HasSuffix(a, ":*:*") {
      ShapeOfSuffix(p, a);
    }
  }

  lemma ShapeOfSuffix(p: string, a: string)
    requires a == p + ":*" && HasSuffix(a, ":*:*")
    ensures HasSuffix(p, ":*")
  {
    assert p[|p| - 2..] == a[|a| - 4..][..2];
  }

  lemma StarSuffixHasStar(p: string, q: string)
    requires p == q + ":*"
    ensures "*" in Split(p)
  {
    StarEnds(q);
    assert Split(p)[|Split(q)|] == "*";
  }

  /** Every doubled wildcard has a "*" segment before its last one. */
  lemma DoubleStarHasStar(p: string)
    requires IsDoubleStar(p + ":*")
    ensures "*" in Split(p)
  {
    DoubleStarShape(p);
    StarAlone();
    StarRead();
    if p != "*" && p != "*:read" { StarSuffixHasStar(p, p[..|p| - 2]); }
  }

  lemma NoStarSegmentChains(p: string)
    requires "*" !in Split(p)
    ensures Chains(p + ":*")
  {
    if IsDoubleStar(p + ":*") { DoubleStarHasStar(p); }
    ChainsExactly(p + ":*");
  }
}
