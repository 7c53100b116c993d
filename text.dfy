/** The string operations the search boxes use: `trim()`, `toLowerCase()` and
    `includes()`. */
module Text {

  /** The characters ECMAScript's `String.prototype.trim` removes: the
      WhiteSpace code points (tab, vertical tab, form feed, the byte order
      mark and the space separators) and the LineTerminator code points. */
  predicate IsTrimmable(c: char) {
    c == '\t' || c == '\U{B}' || c == '\U{C}' || c == ' ' || c == '\U{A0}'
    || c == '\U{FEFF}' || c == '\U{1680}' || ('\U{2000}' <= c <= '\U{200A}')
    || c == '\U{202F}' || c == '\U{205F}' || c == '\U{3000}'
    || c == '\n' || c == '\r' || c == '\U{2028}' || c == '\U{2029}'
  }

  /** `!s.trim()`: the text is empty once leading and trailing white space
      is removed, that is, it has no other character at all. */
  predicate IsBlank(s: string) {
    forall i :: 0 <= i < |s| ==> IsTrimmable(s[i])
  }

  function LowerChar(c: char): (r: char)
    ensures 'A' <= c <= 'Z' ==> r as int - 'a' as int == c as int - 'A' as int
    ensures !('A' <= c <= 'Z') ==> r == c
  {
    if 'A' <= c <= 'Z' then (c as int - 'A' as int + 'a' as int) as char else c
  }

  /** `s.toLowerCase()` over the Latin capital letters. */
  function Lower(s: string): (r: string)
    ensures |r| == |s|
    ensures forall i :: 0 <= i < |s| ==> r[i] == LowerChar(s[i])
  {
    if s == [] then [] else [LowerChar(s[0])] + Lower(s[1..])
  }

  lemma LowerIdempotent(s: string)
    ensures Lower(Lower(s)) == Lower(s)
  {
  }

  /** `q` occurs in `s` starting at position `i`. */
  predicate OccursAt(s: string, q: string, i: int) {
    0 <= i <= |s| - |q| && s[i..i + |q|] == q
  }

  /** `s.includes(q)`: `q` occurs in `s` at some position. */
  predicate Contains(s: string, q: string) {
    exists i :: 0 <= i <= |s| - |q| && OccursAt(s, q, i)
  }

  /** The search test both dashboards apply: the lower-cased query occurs in
      the lower-cased title or the lower-cased description. */
  predicate MatchesQuery(title: string, description: string, query: string) {
    var q := Lower(query);
    Contains(Lower(title), q) || Contains(Lower(description), q)
  }

  /** The search ignores the case of the query's letters. */
  lemma {:induction false} SearchIgnoresQueryCase(title: string, description: string, query: string)
    ensures MatchesQuery(title, description, Lower(query)) == MatchesQuery(title, description, query)
  {
    LowerIdempotent(query);
  }

  /** A title whose text at some position equals the query up to the case
      of Latin letters matches it. */
  lemma {:induction false} CaseInsensitiveOccurrenceMatches(title: string, description: string, query: string, at: nat)
    requires at + |query| <= |title| && Lower(title[at..at + |query|]) == Lower(query)
    ensures MatchesQuery(title, description, query)
  {
    var lt, lq := Lower(title), Lower(query);
    assert OccursAt(lt, lq, at) by {
      forall k | 0 <= k < |lq| ensures lt[at..at + |lq|][k] == lq[k] {
        assert Lower(title[at..at + |query|])[k] == LowerChar(title[at + k]);
      }
    }
  }

  /** A title or description that contains the query verbatim matches it. */
  lemma {:induction false} VerbatimOccurrenceMatches(title: string, description: string, query: string, at: nat)
    requires at + |query| <= |title| && title[at..at + |query|] == query
    ensures MatchesQuery(title, description, query)
  {
    var lt, lq := Lower(title), Lower(query);
    assert OccursAt(lt, lq, at) by {
      forall k | 0 <= k < |lq| ensures lt[at..at + |lq|][k] == lq[k] {
        assert title[at + k] == query[k];
      }
    }
  }
}
