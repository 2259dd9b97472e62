/** Python string operations the helpers rely on, with Python's semantics:
    `str.replace` with a non-empty pattern, `sep.join(parts)` and
    `str.split(sep)` with a one-character separator. */
module PyStr {

  /** `pat` occurs in `s` starting at index `i`. */
  predicate MatchesAt(s: string, pat: string, i: nat)
  {
    i + |pat| <= |s| && s[i..i + |pat|] == pat
  }

  /** Python's `pat in s`. */
  predicate Contains(s: string, pat: string)
  {
    exists i: nat | i <= |s| :: MatchesAt(s, pat, i)
  }

  /** Python's `s.replace(pat, rep)`: scans left to right and replaces every
      non-overlapping occurrence of `pat`, resuming after each replacement. */
  function Replace(s: string, pat: string, rep: string): string
    requires |pat| > 0
    decreases |s|
  {
    if |s| < |pat| then s
    else if s[..|pat|] == pat then rep + Replace(s[|pat|..], pat, rep)
    else [s[0]] + Replace(s[1..], pat, rep)
  }

  /** An occurrence in the tail of `s` is an occurrence in `s`, one place later. */
  lemma ContainsTail(s: string, pat: string)
    requires |s| > 0 && Contains(s[1..], pat)
    ensures Contains(s, pat)
  {
    var i: nat :| i <= |s[1..]| && MatchesAt(s[1..], pat, i);
    assert s[i + 1..i + 1 + |pat|] == s[1..][i..i + |pat|];
    assert MatchesAt(s, pat, i + 1);
  }

  /** An occurrence in `s` that does not start at 0 is an occurrence in the tail. */
  lemma ContainsShift(s: string, pat: string)
    requires |s| > 0 && Contains(s, pat) && !MatchesAt(s, pat, 0)
    ensures Contains(s[1..], pat)
  {
    var i: nat :| i <= |s| && MatchesAt(s, pat, i);
    assert i > 0;
    assert s[1..][i - 1..i - 1 + |pat|] == s[i..i + |pat|];
    assert MatchesAt(s[1..], pat, i - 1);
  }

  /** Text without an occurrence of the pattern comes back unchanged. */
  lemma {:induction false} ReplaceAbsent(s: string, pat: string, rep: string)
    requires |pat| > 0 && !Contains(s, pat)
    ensures Replace(s, pat, rep) == s
    decreases |s|
  {
    if |s| >= |pat| {
      assert !MatchesAt(s, pat, 0);
      assert s[..|pat|] != pat;
      if Contains(s[1..], pat) {
        ContainsTail(s, pat);
      }
      ReplaceAbsent(s[1..], pat, rep);
      assert s == [s[0]] + s[1..];
    }
  }

  /** Removing a pattern never lengthens the text, and strictly shortens it
      whenever the pattern occurs. */
  lemma {:induction false} RemoveShortens(s: string, pat: string)
    requires |pat| > 0
    ensures |Replace(s, pat, "")| <= |s|
    ensures Contains(s, pat) ==> |Replace(s, pat, "")| < |s|
    decreases |s|
  {
    if |s| < |pat| {
    } else if s[..|pat|] == pat {
      RemoveShortens(s[|pat|..], pat);
    } else {
      RemoveShortens(s[1..], pat);
      if Contains(s, pat) {
        assert !MatchesAt(s, pat, 0);
        ContainsShift(s, pat);
      }
    }
  }

  /** Removing a pattern leaves the text unchanged exactly when the pattern
      does not occur in it. */
  lemma RemoveIdentity(s: string, pat: string)
    requires |pat| > 0
    ensures Replace(s, pat, "") == s <==> !Contains(s, pat)
  {
    RemoveShortens(s, pat);
    if !Contains(s, pat) {
      ReplaceAbsent(s, pat, "");
    }
  }

  /** Python's `sep.join(parts)`. */
  function Join(sep: string, parts: seq<string>): string
  {
    if |parts| == 0 then ""
    else if |parts| == 1 then parts[0]
    else parts[0] + sep + Join(sep, parts[1..])
  }

  /** Python's `s.split(sep)` for a one-character separator: always at least
      one part, and an empty text splits into one empty part. */
  function Split(s: string, sep: char): (parts: seq<string>)
    ensures |parts| >= 1
  {
    if |s| == 0 then [""]
    else
      var rest := Split(s[1..], sep);
      if s[0] == sep then [""] + rest
      else [[s[0]] + rest[0]] + rest[1..]
  }

  /** A separator-free head is glued onto the first part of what follows. */
  lemma {:induction false} SplitPrefix(a: string, rest: string, sep: char)
    requires sep !in a
    ensures Split(a + rest, sep) == [a + Split(rest, sep)[0]] + Split(rest, sep)[1..]
  {
    if |a| > 0 {
      assert (a + rest)[1..] == a[1..] + rest;
      assert (a + rest)[0] == a[0];
      SplitPrefix(a[1..], rest, sep);
      assert [a[0]] + (a[1..] + Split(rest, sep)[0]) == a + Split(rest, sep)[0];
    } else {
      var parts := Split(rest, sep);
      assert a + rest == rest;
      assert a + parts[0] == parts[0];
      assert parts == [parts[0]] + parts[1..];
    }
  }

  /** Splitting `a + sep + rest` with `a` free of the separator yields `a`
      followed by the parts of `rest`. */
  lemma SplitAtSeparator(a: string, rest: string, sep: char)
    requires sep !in a
    ensures Split(a + [sep] + rest, sep) == [a] + Split(rest, sep)
  {
    assert a + [sep] + rest == a + ([sep] + rest);
    SplitPrefix(a, [sep] + rest, sep);
    assert ([sep] + rest)[1..] == rest;
    assert a + "" == a;
  }

  /** Splitting undoes joining when no part contains the separator. */
  lemma {:induction false} SplitJoin(parts: seq<string>, sep: char)
    requires |parts| >= 1
    requires forall i :: 0 <= i < |parts| ==> sep !in parts[i]
    ensures Split(Join([sep], parts), sep) == parts
  {
    if |parts| == 1 {
      SplitPrefix(parts[0], "", sep);
      assert parts[0] + "" == parts[0];
    } else {
      SplitJoin(parts[1..], sep);
      SplitAtSeparator(parts[0], Join([sep], parts[1..]), sep);
      assert parts == [parts[0]] + parts[1..];
    }
  }
}
