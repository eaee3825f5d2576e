/** JavaScript's `String.prototype.split` with a one-character separator, the
    only form the project-field update uses (`'/'` and `':'`). */
module Strings {
  import opened Wrappers

  /** Glues `parts` back together with `sep` between consecutive parts. */
  function Join(parts: seq<string>, sep: char): string
    requires |parts| >= 1
  {
    if |parts| == 1 then parts[0] else parts[0] + [sep] + Join(parts[1..], sep)
  }

  predicate SeparatorFree(parts: seq<string>, sep: char) {
    forall i | 0 <= i < |parts| :: sep !in parts[i]
  }

  /** `s.split(sep)`: the maximal separator-free pieces of `s`, in order. There
      is always at least one piece: `"".split(sep)` is `[""]`, and a separator at
      either end yields an empty piece there. */
  function Split(s: string, sep: char): (parts: seq<string>)
    ensures |parts| >= 1
    ensures SeparatorFree(parts, sep)
    ensures Join(parts, sep) == s
  {
    if s == [] then [[]]
    else
      var rest := Split(s[1..], sep);
      if s[0] == sep then
        assert ([[]] + rest)[1..] == rest;
        [[]] + rest
      else
        var parts := [[s[0]] + rest[0]] + rest[1..];
        assert parts[1..] == rest[1..];
        assert |rest| > 1 ==> Join(rest, sep) == rest[0] + [sep] + Join(rest[1..], sep);
        parts
  }

  /** `parts[i]` in JavaScript: `undefined` past the end. */
  function Segment(parts: seq<string>, i: nat): Option<string> {
    if i < |parts| then Some(parts[i]) else None
  }

  /** Two separator-free decompositions that join to the same string are the
      same decomposition. */
  lemma {:induction false} JoinInjective(p: seq<string>, q: seq<string>, sep: char)
    requires |p| >= 1 && |q| >= 1
    requires SeparatorFree(p, sep) && SeparatorFree(q, sep)
    requires Join(p, sep) == Join(q, sep)
    ensures p == q
  {
    var s := Join(p, sep);
    SeparatorAfterHead(p, sep);
    SeparatorAfterHead(q, sep);
    if |p| == 1 && |q| == 1 {
    } else if |p| == 1 || |q| == 1 {
      assert false;
    } else {
      if |p[0]| != |q[0]| {
        assert false;
      }
      assert p[0] == s[..|p[0]|] == q[0];
      var n := |p[0]| + 1;
      assert Join(p[1..], sep) == s[n..] == Join(q[1..], sep);
      assert SeparatorFree(p[1..], sep) by {
        forall i | 0 <= i < |p[1..]| ensures sep !in p[1..][i] { assert p[1..][i] == p[i + 1]; }
      }
      assert SeparatorFree(q[1..], sep) by {
        forall i | 0 <= i < |q[1..]| ensures sep !in q[1..][i] { assert q[1..][i] == q[i + 1]; }
      }
      JoinInjective(p[1..], q[1..], sep);
      assert p == [p[0]] + p[1..];
      assert q == [q[0]] + q[1..];
    }
  }

  /** The separator stands right after the first part whenever there are two. */
  lemma SeparatorAfterHead(p: seq<string>, sep: char)
    ensures |p| > 1 ==> |Join(p, sep)| > |p[0]| && Join(p, sep)[|p[0]|] == sep
  {
  }

  /** `Split` is the only separator-free decomposition of `s`: it is fully
      determined by its contract. */
  lemma SplitUnique(s: string, sep: char, parts: seq<string>)
    requires |parts| >= 1 && SeparatorFree(parts, sep) && Join(parts, sep) == s
    ensures Split(s, sep) == parts
  {
    JoinInjective(Split(s, sep), parts, sep);
  }

  /** A string without the separator splits into itself alone. */
  lemma SplitWithoutSeparator(s: string, sep: char)
    requires sep !in s
    ensures Split(s, sep) == [s]
  {
  }

  /** Splitting `a + sep + b`, where `a` holds no separator, yields `a`
      followed by the pieces of `b`. */
  lemma SplitAfterFirst(a: string, b: string, sep: char)
    requires sep !in a
    ensures Split(a + [sep] + b, sep) == [a] + Split(b, sep)
  {
    var rest := Split(b, sep);
    var parts := [a] + rest;
    assert parts[1..] == rest;
    assert SeparatorFree(parts, sep) by {
      forall i | 0 <= i < |parts| ensures sep !in parts[i] {
        if i > 0 { assert parts[i] == rest[i - 1]; }
      }
    }
    SplitUnique(a + [sep] + b, sep, parts);
  }
}
