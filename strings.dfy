/** The string operations of Rust's standard library that the chat core relies on:
    `str::trim`, `str::trim_matches(char)`, `str::splitn(2, char)` and
    `str::replace(char-string, "")`, written over `seq<char>`. */
module Strings {
  import opened Wrappers

  /** Rust's `char::is_whitespace`: the Unicode White_Space property. Among
      ASCII characters these are tab, line feed, vertical tab, form feed,
      carriage return and space; no printable ASCII character but space is one. */
  predicate IsWhitespace(c: char)
    ensures c < '\U{80}' ==> (IsWhitespace(c) <==> c in "\t\n\U{B}\U{C}\r ")
  {
    ('\t' <= c <= '\r') || c == ' ' || c == '\U{85}' || c == '\U{A0}' || c == '\U{1680}'
    || ('\U{2000}' <= c <= '\U{200A}') || c == '\U{2028}' || c == '\U{2029}'
    || c == '\U{202F}' || c == '\U{205F}' || c == '\U{3000}'
  }

  /** The two character patterns the core trims with: whitespace (`str::trim`)
      and one given character (`trim_matches('"')`). */
  datatype Pattern = Whitespace | Exactly(c: char)

  predicate Matches(p: Pattern, c: char)
  {
    match p
    case Whitespace => IsWhitespace(c)
    case Exactly(d) => c == d
  }

  /** `str::starts_with`: `s` is `prefix` followed by the rest of `s`. */
  predicate StartsWith(s: string, prefix: string)
    ensures StartsWith(s, prefix) <==> |prefix| <= |s| && s == prefix + s[|prefix|..]
  {
    |prefix| <= |s| && s[..|prefix|] == prefix
  }

  /** `trim_start_matches`: drops the longest prefix whose characters all match `p`. */
  function TrimStartMatches(s: string, p: Pattern): (r: string)
    ensures |r| <= |s| && r == s[|s| - |r|..]
    ensures r == [] || !Matches(p, r[0])
  {
    if s != [] && Matches(p, s[0]) then TrimStartMatches(s[1..], p) else s
  }

  /** `trim_end_matches`: drops the longest suffix whose characters all match `p`. */
  function TrimEndMatches(s: string, p: Pattern): (r: string)
    ensures |r| <= |s| && r == s[..|r|]
    ensures r == [] || !Matches(p, r[|r| - 1])
  {
    if s != [] && Matches(p, s[|s| - 1]) then TrimEndMatches(s[..|s| - 1], p) else s
  }

  /** What `trim_start_matches` drops all matches `p`. */
  lemma {:induction false} TrimStartDropsOnlyMatches(s: string, p: Pattern)
    ensures forall i :: 0 <= i < |s| - |TrimStartMatches(s, p)| ==> Matches(p, s[i])
  {
    if s != [] && Matches(p, s[0]) {
      TrimStartDropsOnlyMatches(s[1..], p);
      forall i | 1 <= i < |s| - |TrimStartMatches(s, p)|
        ensures Matches(p, s[i])
      {
        assert s[i] == s[1..][i - 1];
      }
    }
  }

  /** What `trim_end_matches` drops all matches `p`. */
  lemma {:induction false} TrimEndDropsOnlyMatches(s: string, p: Pattern)
    ensures forall i :: |TrimEndMatches(s, p)| <= i < |s| ==> Matches(p, s[i])
  {
    if s != [] && Matches(p, s[|s| - 1]) {
      TrimEndDropsOnlyMatches(s[..|s| - 1], p);
    }
  }

  /** `trim_matches`: both ends (the start first, as Rust does). */
  function TrimMatches(s: string, p: Pattern): (r: string)
    ensures |r| <= |s|
    ensures r == [] || (!Matches(p, r[0]) && !Matches(p, r[|r| - 1]))
  {
    TrimEndMatches(TrimStartMatches(s, p), p)
  }

  /** `trim_matches` keeps one contiguous piece of `s` and drops only matching
      characters around it. */
  lemma TrimMatchesKeepsMiddle(s: string, p: Pattern)
    ensures var i, r := |s| - |TrimStartMatches(s, p)|, TrimMatches(s, p);
      i + |r| <= |s| && r == s[i..i + |r|]
      && (forall k :: 0 <= k < i ==> Matches(p, s[k]))
      && (forall k :: i + |r| <= k < |s| ==> Matches(p, s[k]))
  {
    var i := |s| - |TrimStartMatches(s, p)|;
    TrimMatchesTrimsSuffix(s, p);
    SliceOfSuffix(s, i, TrimMatches(s, p));
    TrimStartDropsOnlyMatches(s, p);
    TrimEndDropsOnlyMatchesOfSuffix(s, i, p);
  }

  /** `trim_matches` trims the end of what `trim_start_matches` left, a suffix of `s`. */
  lemma TrimMatchesTrimsSuffix(s: string, p: Pattern)
    ensures TrimMatches(s, p) == TrimEndMatches(s[|s| - |TrimStartMatches(s, p)|..], p)
  {
  }

  lemma SliceOfSuffix(s: string, i: nat, r: string)
    requires i <= |s| && |r| <= |s| - i && r == s[i..][..|r|]
    ensures i + |r| <= |s| && r == s[i..i + |r|]
  {
  }

  /** What `trim_end_matches` drops from a suffix `s[i..]` of `s` matches `p`. */
  lemma TrimEndDropsOnlyMatchesOfSuffix(s: string, i: nat, p: Pattern)
    requires i <= |s|
    ensures forall k :: i + |TrimEndMatches(s[i..], p)| <= k < |s| ==> Matches(p, s[k])
  {
    var t := s[i..];
    TrimEndDropsOnlyMatches(t, p);
    forall k | i + |TrimEndMatches(t, p)| <= k < |s|
      ensures Matches(p, s[k])
    {
      assert s[k] == t[k - i];
    }
  }

  /** `str::trim`. */
  function Trim(s: string): (r: string)
    ensures |r| <= |s|
    ensures r == [] || (!IsWhitespace(r[0]) && !IsWhitespace(r[|r| - 1]))
  {
    TrimMatches(s, Whitespace)
  }

  /** Trimming a trimmed string changes nothing. */
  lemma TrimMatchesIdempotent(s: string, p: Pattern)
    ensures TrimMatches(TrimMatches(s, p), p) == TrimMatches(s, p)
  {
    var t := TrimMatches(s, p);
    assert t == [] || !Matches(p, t[0]);
    assert TrimStartMatches(t, p) == t;
    assert t == [] || !Matches(p, t[|t| - 1]);
    assert TrimEndMatches(t, p) == t;
  }

  /** A string with no matching character at either end is left as it is. */
  lemma TrimMatchesFixed(s: string, p: Pattern)
    requires s == [] || (!Matches(p, s[0]) && !Matches(p, s[|s| - 1]))
    ensures TrimMatches(s, p) == s
  {
    assert TrimStartMatches(s, p) == s;
    assert TrimEndMatches(s, p) == s;
  }

  /** Trimming `c` off a string wrapped in `c` that holds no `c` unwraps it. */
  lemma TrimMatchesUnwraps(s: string, c: char)
    requires c !in s
    ensures TrimMatches([c] + s + [c], Exactly(c)) == s
  {
    var p := Exactly(c);
    var text := [c] + s + [c];
    var tail := s + [c];
    assert text[1..] == tail;
    TrimStartStep(text, p);
    var start := StripOneThenNone(tail, s, p);
    assert TrimMatches(text, p) == TrimEndMatches(start, p);
    if s != [] {
      assert tail[..|tail| - 1] == s;
      TrimEndStep(tail, p);
      TrimEndStep(s, p);
    }
  }

  /** Trimming `c` off `[c] + x + [e, c, c]`, where `x` holds no `c` and `e` is
      not `c`, keeps `x + [e]`: every `c` at the end goes, however many. */
  lemma TrimMatchesStopsAtOther(x: string, c: char, e: char)
    requires c !in x && e != c
    ensures TrimMatches([c] + x + [e, c, c], Exactly(c)) == x + [e]
  {
    var p := Exactly(c);
    var text := [c] + x + [e, c, c];
    var t1 := x + [e] + [c, c];
    assert text[1..] == t1;
    TrimStartStep(text, p);
    TrimStartStopsAtX(x, e, [c, c], p);
    TrimEndDropsTwo(x + [e], c, p);
  }

  lemma TrimStartStopsAtX(x: string, e: char, rest: string, p: Pattern)
    requires forall k :: 0 <= k < |x| ==> !Matches(p, x[k])
    requires !Matches(p, e)
    ensures TrimStartMatches(x + [e] + rest, p) == x + [e] + rest
  {
    var t := x + [e] + rest;
    assert t[0] == if x != [] then x[0] else e;
    TrimStartStep(t, p);
  }

  lemma TrimEndDropsTwo(body: string, c: char, p: Pattern)
    requires p == Exactly(c) && body != [] && !Matches(p, body[|body| - 1])
    ensures TrimEndMatches(body + [c, c], p) == body
  {
    var t1 := body + [c, c];
    var t2 := body + [c];
    assert t1[..|t1| - 1] == t2 && t2[..|t2| - 1] == body;
    TrimEndStep(t1, p);
    TrimEndStep(t2, p);
    TrimEndStep(body, p);
  }

  /** `trim_start_matches` of `s + [c]`, with `s` free of `c`: all of it, or
      nothing when `s` is empty. */
  lemma StripOneThenNone(tail: string, s: string, p: Pattern) returns (start: string)
    requires p.Exactly? && p.c !in s && tail == s + [p.c]
    ensures start == TrimStartMatches(tail, p)
    ensures s == [] ==> start == []
    ensures s != [] ==> start == tail
  {
    if s == [] {
      assert tail[1..] == [];
      TrimStartStep(tail, p);
      TrimStartStep([], p);
    } else {
      assert tail[0] == s[0];
      TrimStartStep(tail, p);
    }
    start := TrimStartMatches(tail, p);
  }

  /** One step of `trim_start_matches`. */
  lemma TrimStartStep(s: string, p: Pattern)
    ensures s != [] && Matches(p, s[0]) ==> TrimStartMatches(s, p) == TrimStartMatches(s[1..], p)
    ensures s == [] || !Matches(p, s[0]) ==> TrimStartMatches(s, p) == s
  {
  }

  /** One step of `trim_end_matches`. */
  lemma TrimEndStep(s: string, p: Pattern)
    ensures s != [] && Matches(p, s[|s| - 1]) ==> TrimEndMatches(s, p) == TrimEndMatches(s[..|s| - 1], p)
    ensures s == [] || !Matches(p, s[|s| - 1]) ==> TrimEndMatches(s, p) == s
  {
  }

  /** The first two pieces of `s.splitn(2, sep)`: the text before the first `sep`,
      and the text after it when there is one. */
  function SplitOnce(s: string, sep: char): (r: (string, Option<string>))
    ensures sep !in r.0
    ensures r.1.None? ==> r.0 == s
    ensures r.1.Some? ==> s == r.0 + [sep] + r.1.value
  {
    if s == [] then ([], None)
    else if s[0] == sep then ([], Some(s[1..]))
    else
      var rest := SplitOnce(s[1..], sep);
      assert s == [s[0]] + s[1..];
      ([s[0]] + rest.0, rest.1)
  }

  /** The split is determined by the first separator: any decomposition of `s`
      around a separator that does not occur earlier is the one `SplitOnce` finds. */
  lemma {:induction false} SplitOnceUnique(head: string, sep: char, tail: string)
    requires sep !in head
    ensures SplitOnce(head + [sep] + tail, sep) == (head, Some(tail))
  {
    var s := head + [sep] + tail;
    if head != [] {
      assert s[1..] == head[1..] + [sep] + tail;
      SplitOnceUnique(head[1..], sep, tail);
      assert [s[0]] + head[1..] == head;
    } else {
      assert s[1..] == tail;
    }
  }

  /** A string without the separator is not split at all. */
  lemma {:induction false} SplitOnceNoSeparator(s: string, sep: char)
    requires sep !in s
    ensures SplitOnce(s, sep) == (s, None)
  {
    if s != [] {
      SplitOnceNoSeparator(s[1..], sep);
      assert [s[0]] + s[1..] == s;
    }
  }

  /** `s.replace(c, "")` for a one-character pattern: every `c` deleted, the rest
      kept in order. */
  function RemoveAll(s: string, c: char): (r: string)
    ensures c !in r
    ensures |r| <= |s|
    ensures c !in s ==> r == s
    ensures forall x :: x != c ==> multiset(r)[x] == multiset(s)[x]
  {
    if s == [] then []
    else
      assert s == [s[0]] + s[1..];
      (if s[0] == c then [] else [s[0]]) + RemoveAll(s[1..], c)
  }

  /** Deleting a character piecewise: `replace` acts on each part of a
      concatenation on its own. */
  lemma {:induction false} RemoveAllAppend(a: string, b: string, c: char)
    ensures RemoveAll(a + b, c) == RemoveAll(a, c) + RemoveAll(b, c)
  {
    if a != [] {
      assert (a + b)[1..] == a[1..] + b;
      RemoveAllAppend(a[1..], b, c);
    } else {
      assert a + b == b;
    }
  }
}
