/**
 * Case-insensitive substring search as the catalog does it: fold both sides
 * to lower case, then `String.prototype.includes`. The fold is ASCII-only.
 */
module TextSearch {

  /** Lower-case fold of one character: A-Z become a-z, every other character is kept. */
  function LowerChar(c: char): (r: char)
    ensures 'A' <= c <= 'Z' ==> r as int == c as int + 32
    ensures !('A' <= c <= 'Z') ==> r == c
    ensures !('A' <= r <= 'Z')
  {
    if 'A' <= c <= 'Z' then (c as int + 32) as char else c
  }

  /** `toLowerCase`, character by character. */
  function Lower(s: string): (r: string)
    ensures |r| == |s|
    ensures forall i :: 0 <= i < |s| ==> r[i] == LowerChar(s[i])
  {
    seq(|s|, i requires 0 <= i < |s| => LowerChar(s[i]))
  }

  /** Folding is idempotent: a folded string folds to itself. */
  lemma LowerIdempotent(s: string)
    ensures Lower(Lower(s)) == Lower(s)
  {
  }

  /** `q` occurs in `s` starting at position `i`. */
  predicate OccursAt(s: string, q: string, i: int)
  {
    0 <= i && i + |q| <= |s| && s[i..i + |q|] == q
  }

  /** Occurrences in the tail are the occurrences in the whole string shifted by one. */
  lemma OccursInTail(s: string, q: string, i: int)
    requires |s| > 0 && 0 <= i
    ensures OccursAt(s[1..], q, i) <==> OccursAt(s, q, i + 1)
  {
    if i + |q| <= |s[1..]| {
      assert s[1..][i..i + |q|] == s[i + 1..i + 1 + |q|];
    }
  }

  /** `s.includes(q)`: is `q` a contiguous substring of `s`? The empty string is in every string. */
  function Includes(s: string, q: string): (r: bool)
    ensures r <==> exists i :: OccursAt(s, q, i)
    decreases |s|
  {
    if q <= s then
      assert OccursAt(s, q, 0);
      true
    else if |s| == 0 then
      false
    else
      var r := Includes(s[1..], q);
      assert r ==> exists i :: OccursAt(s, q, i) by {
        if r {
          var i :| OccursAt(s[1..], q, i);
          OccursInTail(s, q, i);
        }
      }
      assert (exists i :: OccursAt(s, q, i)) ==> r by {
        if exists i :: OccursAt(s, q, i) {
          var i :| OccursAt(s, q, i);
          assert i != 0;
          OccursInTail(s, q, i - 1);
        }
      }
      r
  }

  /** A query holding a character the text lacks does not occur in it. */
  lemma MissingCharExcludes(s: string, q: string, c: char)
    requires c in q && c !in s
    ensures !Includes(s, q)
  {
    var k :| 0 <= k < |q| && q[k] == c;
    forall i | 0 <= i && i + |q| <= |s|
      ensures !OccursAt(s, q, i)
    {
      assert s[i..i + |q|][k] == s[i + k];
    }
  }

  /** A letter that a text holds in neither case is absent from its fold. */
  lemma FoldLacks(s: string, c: char)
    requires 'a' <= c <= 'z'
    requires c !in s && (c as int - 32) as char !in s
    ensures c !in Lower(s)
  {
    forall i | 0 <= i < |s|
      ensures Lower(s)[i] != c
    {
      assert s[i] in s;
    }
  }

  /** A letter of the query that the text holds in neither case rules the text out of the folded search. */
  lemma FoldedMisses(s: string, q: string, c: char)
    requires 'a' <= c <= 'z' && c in q
    requires c !in s && (c as int - 32) as char !in s
    ensures !Includes(Lower(s), q)
  {
    FoldLacks(s, c);
    MissingCharExcludes(Lower(s), q, c);
  }

  /** The search hit the catalog uses: `q` folded is a substring of `s` folded. */
  predicate FoldedIncludes(s: string, q: string)
  {
    Includes(Lower(s), Lower(q))
  }

  /** Upper-case fold of one character: a-z become A-Z, every other character is kept. */
  function UpperChar(c: char): (r: char)
    ensures 'a' <= c <= 'z' ==> r as int == c as int - 32
    ensures !('a' <= c <= 'z') ==> r == c
  {
    if 'a' <= c <= 'z' then (c as int - 32) as char else c
  }

  /** `toUpperCase`, character by character. */
  function Upper(s: string): (r: string)
    ensures |r| == |s|
    ensures forall i :: 0 <= i < |s| ==> r[i] == UpperChar(s[i])
  {
    seq(|s|, i requires 0 <= i < |s| => UpperChar(s[i]))
  }

  /** Upper-casing a string first does not change its lower-case fold. */
  lemma LowerOfUpper(s: string)
    ensures Lower(Upper(s)) == Lower(s)
  {
    forall i | 0 <= i < |s|
      ensures Lower(Upper(s))[i] == Lower(s)[i]
    {
      assert LowerChar(UpperChar(s[i])) == LowerChar(s[i]);
    }
  }

  /** Case-insensitivity: writing the text or the query in upper or lower case does not change the answer. */
  lemma FoldedIncludesIgnoresCase(s: string, q: string)
    ensures FoldedIncludes(Upper(s), q) == FoldedIncludes(s, q)
    ensures FoldedIncludes(s, Upper(q)) == FoldedIncludes(s, q)
  {
    LowerOfUpper(s);
    LowerOfUpper(q);
  }

}
