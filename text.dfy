/**
 * String operations the tools rely on: Python's `str.replace`, substring
 * search and splitting a newline-terminated text into lines.
 */
module Text {

  /** `p` occurs in `s` starting at index `i`. */
  predicate OccursAt(s: string, p: string, i: int)
  {
    0 <= i && i + |p| <= |s| && s[i..i + |p|] == p
  }

  /** Python's `p in s`. */
  predicate Occurs(s: string, p: string)
  {
    exists i | 0 <= i <= |s| - |p| :: OccursAt(s, p, i)
  }

  /**
   * Python's `s.replace(p, r)` for a non-empty pattern: scans left to right,
   * replaces every non-overlapping occurrence and never rescans the text it
   * has inserted.
   */
  function Replace(s: string, p: string, r: string): string
    requires p != []
    decreases |s|
  {
    if |s| < |p| then s
    else if s[..|p|] == p then r + Replace(s[|p|..], p, r)
    else [s[0]] + Replace(s[1..], p, r)
  }

  /** The text of `s` up to (not including) its first newline. */
  function LineEnd(s: string): (n: nat)
    ensures n <= |s|
    ensures forall k :: 0 <= k < n ==> s[k] != '\n'
    ensures n < |s| ==> s[n] == '\n'
  {
    if s == [] || s[0] == '\n' then 0 else 1 + LineEnd(s[1..])
  }

  /** The lines of `s`, split at each '\n'; a final line needs no terminator. */
  function Lines(s: string): seq<string>
    decreases |s|
  {
    if s == [] then []
    else
      var n := LineEnd(s);
      [s[..n]] + (if n < |s| then Lines(s[n + 1..]) else [])
  }

  /** Regrouping a concatenation of five texts to the right. */
  lemma RegroupFive(a: string, b: string, c: string, d: string, e: string)
    ensures a + b + c + d + e == a + (b + (c + (d + e)))
  {
    Regroup(a + b + c, d, e);
    Regroup(a + b, c, d + e);
    Regroup(a, b, c + (d + e));
  }

  lemma Regroup(a: string, b: string, c: string)
    ensures a + b + c == a + (b + c)
  {}

  // ---------------------------------------------------------------------
  // Lemmas about Replace

  /** A text whose characters never start the pattern is left as it is. */
  lemma {:induction false} ReplaceNoStart(s: string, p: string, r: string)
    requires p != [] && p[0] !in s
    ensures Replace(s, p, r) == s
    decreases |s|
  {
    if |s| >= |p| {
      assert s[..|p|][0] == s[0];
      assert s[..|p|] != p;
      ReplaceNoStart(s[1..], p, r);
      assert s == [s[0]] + s[1..];
    }
  }

  /** A prefix none of whose characters starts the pattern is copied unchanged. */
  lemma {:induction false} ReplacePrefixNoStart(a: string, b: string, p: string, r: string)
    requires p != [] && p[0] !in a
    ensures Replace(a + b, p, r) == a + Replace(b, p, r)
    decreases |a|
  {
    if a == [] {
      assert a + b == b;
    } else {
      var s := a + b;
      if |s| >= |p| {
        assert s[..|p|][0] == a[0] && a[0] in a;
        assert s[..|p|] != p;
        assert s[1..] == a[1..] + b;
        ReplacePrefixNoStart(a[1..], b, p, r);
        assert Replace(s, p, r) == [a[0]] + Replace(a[1..] + b, p, r);
        assert a == [a[0]] + a[1..];
      } else {
        assert Replace(s, p, r) == s;
        assert Replace(b, p, r) == b;
      }
    }
  }

  /** A text that starts with the pattern, followed by text that never starts it. */
  lemma ReplaceLeading(p: string, tail: string, r: string)
    requires p != [] && p[0] !in tail
    ensures Replace(p + tail, p, r) == r + tail
  {
    assert (p + tail)[..|p|] == p;
    assert (p + tail)[|p|..] == tail;
    ReplaceNoStart(tail, p, r);
  }

  /** Splitting the text where the suffix cannot continue an occurrence. */
  lemma {:induction false} ReplaceConcat(a: string, b: string, p: string, r: string)
    requires p != [] && b != [] && b[0] !in p
    ensures Replace(a + b, p, r) == Replace(a, p, r) + Replace(b, p, r)
    decreases |a|, 1
  {
    var s := a + b;
    if a == [] {
      assert s == b;
    } else if |s| < |p| {
      assert Replace(a, p, r) == a;
      assert Replace(b, p, r) == b;
    } else if |a| < |p| {
      ReplaceConcatShort(a, b, p, r);
    } else if a[..|p|] == p {
      ReplaceConcatMatch(a, b, p, r);
    } else {
      ReplaceConcatSkip(a, b, p, r);
    }
  }

  /** `a` is shorter than the pattern: every match in `a + b` would contain b[0]. */
  lemma {:induction false} ReplaceConcatShort(a: string, b: string, p: string, r: string)
    requires p != [] && b != [] && b[0] !in p
    requires a != [] && |a| < |p| <= |a + b|
    ensures Replace(a + b, p, r) == Replace(a, p, r) + Replace(b, p, r)
    decreases |a|, 0
  {
    var s := a + b;
    assert p[|a|] in p;
    assert s[..|p|][|a|] == b[0] != p[|a|];
    assert Replace(s, p, r) == [a[0]] + Replace(s[1..], p, r);
    assert s[1..] == a[1..] + b;
    ReplaceConcat(a[1..], b, p, r);
    var tail := Replace(b, p, r);
    assert Replace(a[1..], p, r) == a[1..];
    assert Replace(a, p, r) == a;
    assert [a[0]] + (a[1..] + tail) == a + tail;
  }

  /** `a` starts with the pattern. */
  lemma {:induction false} ReplaceConcatMatch(a: string, b: string, p: string, r: string)
    requires p != [] && b != [] && b[0] !in p
    requires |p| <= |a| && a[..|p|] == p
    ensures Replace(a + b, p, r) == Replace(a, p, r) + Replace(b, p, r)
    decreases |a|, 0
  {
    var s := a + b;
    assert s[..|p|] == a[..|p|];
    assert s[|p|..] == a[|p|..] + b;
    ReplaceConcat(a[|p|..], b, p, r);
  }

  /** `a` is long enough but does not start with the pattern. */
  lemma {:induction false} ReplaceConcatSkip(a: string, b: string, p: string, r: string)
    requires p != [] && b != [] && b[0] !in p
    requires |p| <= |a| && a[..|p|] != p
    ensures Replace(a + b, p, r) == Replace(a, p, r) + Replace(b, p, r)
    decreases |a|, 0
  {
    var s := a + b;
    assert s[..|p|] == a[..|p|];
    assert s[1..] == a[1..] + b;
    ReplaceConcat(a[1..], b, p, r);
  }

  /** A text in which the pattern does not occur is left as it is. */
  lemma {:induction false} ReplaceAbsent(s: string, p: string, r: string)
    requires p != [] && !Occurs(s, p)
    ensures Replace(s, p, r) == s
    decreases |s|
  {
    if |s| >= |p| {
      assert !OccursAt(s, p, 0);
      forall i | 0 <= i <= |s[1..]| - |p| ensures !OccursAt(s[1..], p, i) {
        assert !OccursAt(s, p, i + 1);
        assert s[1..][i..i + |p|] == s[i + 1..i + 1 + |p|];
      }
      ReplaceAbsent(s[1..], p, r);
      assert s == [s[0]] + s[1..];
    }
  }

  /**
   * `c` does not occur in `s`, checked one character at a time: unlike
   * `c !in s`, a fact of this form about a long constant text is not
   * expanded beyond its first characters where it is used.
   */
  predicate Without(s: string, c: char)
    decreases |s|
  {
    s == [] || (s[0] != c && Without(s[1..], c))
  }

  lemma {:induction false} WithoutSpec(s: string, c: char)
    ensures Without(s, c) <==> c !in s
    decreases |s|
  {
    if s != [] {
      WithoutSpec(s[1..], c);
      assert s == [s[0]] + s[1..];
    }
  }

  /** A pattern whose first character is missing from `s` does not occur in it. */
  lemma AbsentStart(s: string, p: string)
    requires p != [] && p[0] !in s
    ensures !Occurs(s, p)
  {
    forall i | 0 <= i <= |s| - |p| ensures !OccursAt(s, p, i) {
      assert s[i..i + |p|][0] == s[i];
    }
  }

  /**
   * No occurrence straddles a boundary whose character on either side is not
   * part of the pattern.
   */
  lemma AbsentConcat(a: string, b: string, p: string)
    requires p != [] && !Occurs(a, p) && !Occurs(b, p)
    requires (a != [] && a[|a| - 1] !in p) || (b != [] && b[0] !in p)
    ensures !Occurs(a + b, p)
  {
    var s := a + b;
    forall i | 0 <= i <= |s| - |p| ensures !OccursAt(s, p, i) {
      if i + |p| <= |a| {
        assert a[i..i + |p|] == s[i..i + |p|];
        assert !OccursAt(a, p, i);
      } else if i >= |a| {
        assert b[i - |a|..i - |a| + |p|] == s[i..i + |p|];
        assert !OccursAt(b, p, i - |a|);
      } else if a != [] && a[|a| - 1] !in p {
        assert s[i..i + |p|][|a| - 1 - i] == a[|a| - 1];
      } else {
        assert s[i..i + |p|][|a| - i] == b[0];
      }
    }
  }

  lemma OccursBetween(a: string, p: string, b: string)
    ensures Occurs(a + p + b, p)
  {
    assert (a + p + b)[|a|..|a| + |p|] == p;
    assert OccursAt(a + p + b, p, |a|);
  }

  /** A line without newline followed by '\n' is the first line. */
  lemma {:induction false} LinesCons(a: string, rest: string)
    requires '\n' !in a
    ensures Lines(a + "\n" + rest) == [a] + Lines(rest)
  {
    var s := a + "\n" + rest;
    LineEndAt(a, rest);
    assert s[..|a|] == a;
    assert s[|a| + 1..] == rest;
  }

  /** Two newline-free lines, each terminated, split back into those two lines. */
  lemma LinesOfTwo(a: string, b: string)
    requires '\n' !in a && '\n' !in b
    ensures Lines(a + "\n" + b + "\n") == [a, b]
  {
    var second := b + "\n";
    LinesOfOne(b);
    assert a + "\n" + b + "\n" == a + "\n" + second;
    LinesCons(a, second);
  }

  /** A newline-free line, terminated, is that one line. */
  lemma LinesOfOne(b: string)
    requires '\n' !in b
    ensures Lines(b + "\n") == [b]
  {
    var empty: string := [];
    assert b + "\n" + empty == b + "\n";
    LinesCons(b, empty);
    assert Lines(empty) == [];
  }

  lemma {:induction false} LineEndAt(a: string, rest: string)
    requires '\n' !in a
    ensures LineEnd(a + "\n" + rest) == |a|
    decreases |a|
  {
    if a != [] {
      assert a[0] in a;
      assert (a + "\n" + rest)[1..] == a[1..] + "\n" + rest;
      LineEndAt(a[1..], rest);
    }
  }
}
