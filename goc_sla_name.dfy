/**
 * The SLA name of a GOCDB service group: `re.search(r"EGI_(.*)_SLA", name)`
 * and its first group. The search takes the leftmost position where a
 * match starts; there `.*` is greedy and, like every `.`, stops at a
 * newline, so the match ends at the last "_SLA" reachable without
 * crossing one.
 */
module GocSlaName {
  import opened Wrappers
  import opened Text

  const Prefix: string := "EGI_"
  const Suffix: string := "_SLA"

  /** The pattern matches `s` from `i`, with the suffix starting at `j`. */
  predicate MatchAt(s: string, i: nat, j: nat)
  {
    && OccursAt(s, Prefix, i)
    && i + |Prefix| <= j
    && OccursAt(s, Suffix, j)
    && '\n' !in s[i + |Prefix|..j]
  }

  /** The largest suffix position `<= j` completing a match from `i`. */
  function LastEnd(s: string, i: nat, j: int): Option<nat>
    decreases j - i
  {
    if j < i + |Prefix| then None
    else if MatchAt(s, i, j) then Some(j)
    else LastEnd(s, i, j - 1)
  }

  /** The leftmost start `>= i` of a match, with the end the greedy `.*` picks there. */
  function FirstMatch(s: string, i: nat): Option<(nat, nat)>
    decreases |s| - i
  {
    if |s| < i + |Prefix| then None
    else if LastEnd(s, i, |s| - |Suffix|).Some? then Some((i, LastEnd(s, i, |s| - |Suffix|).value))
    else FirstMatch(s, i + 1)
  }

  /** `m.group(1)` when the search finds a match, or nothing. */
  function SlaName(name: string): Option<string>
  {
    match FirstMatch(name, 0)
    case None => None
    case Some((i, j)) => if i + |Prefix| <= j <= |name| then Some(name[i + |Prefix|..j]) else None
  }

  lemma MatchEndBound(s: string, i: nat, j: nat)
    requires MatchAt(s, i, j)
    ensures j <= |s| - |Suffix| && i + |Prefix| <= |s|
  {}

  lemma {:induction false} LastEndIsLast(s: string, i: nat, j: int)
    ensures LastEnd(s, i, j).Some? ==>
      && MatchAt(s, i, LastEnd(s, i, j).value)
      && LastEnd(s, i, j).value <= j
      && forall k: nat :: LastEnd(s, i, j).value < k <= j ==> !MatchAt(s, i, k)
    ensures LastEnd(s, i, j).None? ==> forall k: nat :: k <= j ==> !MatchAt(s, i, k)
    decreases j - i
  {
    if j < i + |Prefix| {
    } else if MatchAt(s, i, j) {
    } else {
      LastEndIsLast(s, i, j - 1);
    }
  }

  lemma {:induction false} FirstMatchIsFirst(s: string, i: nat)
    ensures FirstMatch(s, i).Some? ==>
      var (a, b) := FirstMatch(s, i).value;
      && i <= a
      && MatchAt(s, a, b)
      && (forall k: nat :: b < k ==> !MatchAt(s, a, k))
      && (forall a': nat, k: nat :: i <= a' < a ==> !MatchAt(s, a', k))
    ensures FirstMatch(s, i).None? ==> forall a': nat, k: nat :: i <= a' ==> !MatchAt(s, a', k)
    decreases |s| - i
  {
    var last := |s| - |Suffix|;
    if |s| < i + |Prefix| {
      forall a': nat, k: nat | MatchAt(s, a', k) ensures a' + |Prefix| <= |s| {
        MatchEndBound(s, a', k);
      }
    } else {
      LastEndIsLast(s, i, last);
      if LastEnd(s, i, last).None? {
        NoMatchAt(s, i);
        FirstMatchIsFirst(s, i + 1);
      } else {
        forall k: nat | MatchAt(s, i, k) ensures k <= last {
          MatchEndBound(s, i, k);
        }
      }
    }
  }

  /** No match starts at `i` when no suffix position up to the last completes one. */
  lemma NoMatchAt(s: string, i: nat)
    requires |Suffix| <= |s| && LastEnd(s, i, |s| - |Suffix|).None?
    ensures forall k: nat :: !MatchAt(s, i, k)
  {
    LastEndIsLast(s, i, |s| - |Suffix|);
    forall k: nat | MatchAt(s, i, k) ensures k <= |s| - |Suffix| {
      MatchEndBound(s, i, k);
    }
  }

  /**
   * The SLA name exists exactly when the pattern matches somewhere; it is
   * the text between the "EGI_" of the leftmost match and the last "_SLA"
   * that a newline-free stretch reaches from it.
   */
  lemma SlaNameIsLeftmostGreedy(name: string)
    ensures SlaName(name).Some? <==> exists i: nat, j: nat :: MatchAt(name, i, j)
    ensures SlaName(name).Some? ==>
      exists i: nat, j: nat ::
        && MatchAt(name, i, j)
        && SlaName(name).value == name[i + |Prefix|..j]
        && (forall i': nat, j': nat :: MatchAt(name, i', j') ==> i <= i')
        && (forall j': nat :: MatchAt(name, i, j') ==> j' <= j)
  {
    FirstMatchIsFirst(name, 0);
    if FirstMatch(name, 0).Some? {
      var (i, j) := FirstMatch(name, 0).value;
      MatchEndBound(name, i, j);
      assert forall i': nat, j': nat :: MatchAt(name, i', j') ==> i <= i';
      assert forall j': nat :: MatchAt(name, i, j') ==> j' <= j;
    }
  }

  /** A name with no "EGI_" has no SLA name. */
  lemma NoPrefixNoSla(name: string)
    requires !Occurs(name, Prefix)
    ensures SlaName(name) == None
  {
    SlaNameIsLeftmostGreedy(name);
    forall i: nat, j: nat ensures !MatchAt(name, i, j) {
      if MatchAt(name, i, j) {
        MatchEndBound(name, i, j);
        assert false;
      }
    }
  }
}
