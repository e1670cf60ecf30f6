/** String helpers shared by the pages: lowercasing, substring search (`includes`),
    the name-or-email search of the admin tables and the "course"/"courses" noun. */
module Text {

  /** Lowercase one character; only the ASCII letters A-Z are folded. */
  function LowerChar(c: char): (d: char)
    ensures 'A' <= c <= 'Z' ==> d as int == c as int + 32
    ensures !('A' <= c <= 'Z') ==> d == c
    ensures !('A' <= d <= 'Z')
  {
    if 'A' <= c <= 'Z' then (c as int + 32) as char else c
  }

  /** `s.toLowerCase()`, restricted to ASCII case folding. */
  function Lower(s: string): (r: string)
    ensures |r| == |s|
    ensures forall i :: 0 <= i < |s| ==> r[i] == LowerChar(s[i])
  {
    seq(|s|, i requires 0 <= i < |s| => LowerChar(s[i]))
  }

  /** Two strings that differ only in the case of their letters. */
  ghost predicate SameUpToCase(a: string, b: string)
  {
    |a| == |b| && forall i :: 0 <= i < |a| ==> LowerChar(a[i]) == LowerChar(b[i])
  }

  /** Strings that differ only in letter case lowercase to the same string, and back. */
  lemma SameUpToCaseIffLowerEqual(a: string, b: string)
    ensures SameUpToCase(a, b) <==> Lower(a) == Lower(b)
  {
    if Lower(a) == Lower(b) {
      forall i | 0 <= i < |a|
        ensures LowerChar(a[i]) == LowerChar(b[i])
      {
        assert Lower(a)[i] == Lower(b)[i];
      }
    }
  }

  /** `q` occurs in `s` starting at position `i`. */
  predicate OccursAt(s: string, q: string, i: nat)
  {
    i + |q| <= |s| && s[i..i + |q|] == q
  }

  /** `s.includes(q)`: `q` occurs in `s` at some position. The empty string occurs in
      every string, nothing longer than `s` occurs in it, and a string as long as `s`
      occurs in it only if it is `s`. */
  predicate Contains(s: string, q: string)
    ensures |q| == 0 ==> Contains(s, q)
    ensures |q| > |s| ==> !Contains(s, q)
    ensures |q| == |s| ==> (Contains(s, q) <==> q == s)
  {
    assert |q| == 0 ==> OccursAt(s, q, 0);
    assert q == s ==> OccursAt(s, q, 0);
    exists i: nat :: i <= |s| && OccursAt(s, q, i)
  }

  /** Occurrence is transitive: what occurs in a substring of `s` occurs in `s`. */
  lemma ContainsTransitive(s: string, a: string, b: string)
    requires Contains(s, a) && Contains(a, b)
    ensures Contains(s, b)
  {
    var i: nat :| i <= |s| && OccursAt(s, a, i);
    var j: nat :| j <= |a| && OccursAt(a, b, j);
    forall k | 0 <= k < |b|
      ensures s[i + j + k] == b[k]
    {
      assert b[k] == a[j + k] == s[i + j + k];
    }
    assert OccursAt(s, b, i + j);
  }

  /** A query extended by more characters contains, once lowercased, the shorter
      query lowercased. */
  lemma ExtendedQueryContainsPrefix(q: string, longer: string)
    requires |q| <= |longer| && longer[..|q|] == q
    ensures Contains(Lower(longer), Lower(q))
  {
    assert Lower(longer)[..|q|] == Lower(q);
    assert OccursAt(Lower(longer), Lower(q), 0);
  }

  /** `name.toLowerCase().includes(query.toLowerCase()) ||
      email.toLowerCase().includes(query.toLowerCase())`, the search of the admin tables. */
  predicate NameOrEmailMatches(name: string, email: string, query: string)
    ensures query == "" ==> NameOrEmailMatches(name, email, query)
    ensures NameOrEmailMatches(name, email, query) ==> |query| <= |name| || |query| <= |email|
  {
    Contains(Lower(name), Lower(query)) || Contains(Lower(email), Lower(query))
  }

  /** Queries that differ only in letter case match the same rows. */
  lemma NameOrEmailIgnoresQueryCase(name: string, email: string, q1: string, q2: string)
    requires SameUpToCase(q1, q2)
    ensures NameOrEmailMatches(name, email, q1) == NameOrEmailMatches(name, email, q2)
  {
    SameUpToCaseIffLowerEqual(q1, q2);
  }

  /** A row the longer query matches is matched by any query it extends: typing more
      characters never brings a row back. */
  lemma NameOrEmailNarrows(name: string, email: string, q: string, longer: string)
    requires |q| <= |longer| && longer[..|q|] == q
    requires NameOrEmailMatches(name, email, longer)
    ensures NameOrEmailMatches(name, email, q)
  {
    ExtendedQueryContainsPrefix(q, longer);
    if Contains(Lower(name), Lower(longer)) {
      ContainsTransitive(Lower(name), Lower(longer), Lower(q));
    } else {
      ContainsTransitive(Lower(email), Lower(longer), Lower(q));
    }
  }

  /** `n === 1 ? 'course' : 'courses'`, the noun after a course count. */
  function CourseNoun(n: nat): (w: string)
    ensures w == "course" <==> n == 1
    ensures w == "courses" <==> n != 1
  {
    if n == 1 then "course" else "courses"
  }
}
