/**
 * The two string operations the name search uses: lower-casing
 * (`toLowerCase`, ASCII letters only) and substring search (`includes`).
 */
module Text {

  /** An upper-case ASCII letter becomes its lower-case form; every other character is kept. */
  function LowerChar(c: char): (r: char)
    ensures 'A' <= c <= 'Z' ==> 'a' <= r <= 'z' && r as int - c as int == 32
    ensures !('A' <= c <= 'Z') ==> r == c
  {
    if 'A' <= c <= 'Z' then (c as int + 32) as char else c
  }

  /** `s.toLowerCase()` on ASCII letters. */
  function Lower(s: string): (r: string)
    ensures |r| == |s|
    ensures forall i :: 0 <= i < |r| ==> !('A' <= r[i] <= 'Z')
  {
    seq(|s|, i requires 0 <= i < |s| => LowerChar(s[i]))
  }

  /** Lower-casing is character-wise: it keeps the length and works position by position. */
  lemma LowerAt(s: string, i: nat)
    requires i < |s|
    ensures |Lower(s)| == |s| && Lower(s)[i] == LowerChar(s[i])
  {
  }

  /** Lower-casing twice is lower-casing once. */
  lemma LowerIdempotent(s: string)
    ensures Lower(Lower(s)) == Lower(s)
  {
    assert forall i :: 0 <= i < |s| ==> LowerChar(LowerChar(s[i])) == LowerChar(s[i]);
  }

  /** `t` occurs in `s` starting at position `i`. */
  ghost predicate OccursAt(s: string, t: string, i: int)
  {
    0 <= i && i + |t| <= |s| && s[i..i + |t|] == t
  }

  /** `s.includes(t)`: whether `t` occurs somewhere in `s`. */
  function Includes(s: string, t: string): (r: bool)
    ensures t == [] ==> r
    ensures r ==> |t| <= |s|
    decreases |s|
  {
    if |t| > |s| then false
    else if s[..|t|] == t then true
    else Includes(s[1..], t)
  }

  /** `Includes` says exactly whether some occurrence exists. */
  lemma {:induction false} IncludesIffOccurs(s: string, t: string)
    ensures Includes(s, t) <==> exists i :: OccursAt(s, t, i)
  {
    if |t| > |s| {
    } else if s[..|t|] == t {
      assert OccursAt(s, t, 0);
    } else {
      IncludesIffOccurs(s[1..], t);
      if Includes(s[1..], t) {
        var i :| OccursAt(s[1..], t, i);
        assert s[1..][i..i + |t|] == s[i + 1..i + 1 + |t|];
        assert OccursAt(s, t, i + 1);
      }
      if exists i :: OccursAt(s, t, i) {
        var i :| OccursAt(s, t, i);
        assert i != 0;
        assert s[1..][i - 1..i - 1 + |t|] == s[i..i + |t|];
        assert OccursAt(s[1..], t, i - 1);
      }
    }
  }

  /** The search of the knowledge lists: the lower-cased `name` contains the lower-cased `term`. */
  predicate NameMatches(name: string, term: string)
    ensures NameMatches(name, term) ==> |term| <= |name|
  {
    Includes(Lower(name), Lower(term))
  }

  /** An empty search term matches every name. */
  lemma EmptyTermMatches(name: string)
    ensures NameMatches(name, "")
  {
    assert Lower("") == [];
  }

  /** Position `i` of `name` starts a slice that lower-cases to the lower-cased `term`. */
  ghost predicate MatchesAt(name: string, term: string, i: int)
  {
    0 <= i && i + |term| <= |name| && Lower(name[i..i + |term|]) == Lower(term)
  }

  /** The search ignores ASCII case: a name matches a term exactly when some slice of it lower-cases to the lower-cased term. */
  lemma {:induction false} NameMatchesIffSlice(name: string, term: string)
    ensures NameMatches(name, term) <==> exists i :: MatchesAt(name, term, i)
  {
    var ln, lt := Lower(name), Lower(term);
    IncludesIffOccurs(ln, lt);
    if NameMatches(name, term) {
      var i :| OccursAt(ln, lt, i);
      assert Lower(name[i..i + |term|]) == ln[i..i + |term|];
      assert MatchesAt(name, term, i);
    }
    if exists i :: MatchesAt(name, term, i) {
      var i :| MatchesAt(name, term, i);
      assert Lower(name[i..i + |term|]) == ln[i..i + |term|];
      assert OccursAt(ln, lt, i);
    }
  }
}
