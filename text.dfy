/** The string operations the search box uses: `toLowerCase`, `trim` and `includes`, over ASCII text. */
module Text {

  /** The whitespace `trim` strips (ASCII part). */
  predicate IsSpace(c: char)
  {
    c == ' ' || c == '\t' || c == '\n' || c == '\r' || c == '\U{000B}' || c == '\U{000C}'
  }

  /** Every character of `s[lo..hi]` is whitespace. */
  predicate AllSpace(s: string, lo: int, hi: int)
    requires 0 <= lo <= hi <= |s|
  {
    forall k :: lo <= k < hi ==> IsSpace(s[k])
  }

  function LowerChar(c: char): char
  {
    if 'A' <= c <= 'Z' then (c as int + 32) as char else c
  }

  /** `s.toLowerCase()` on ASCII letters. */
  function Lower(s: string): (r: string)
    ensures |r| == |s|
    ensures forall i :: 0 <= i < |s| ==> r[i] == LowerChar(s[i])
  {
    seq(|s|, i requires 0 <= i < |s| => LowerChar(s[i]))
  }

  /** Lower-casing twice is lower-casing once. */
  lemma LowerIdempotent(s: string)
    ensures Lower(Lower(s)) == Lower(s)
  {
    assert forall i :: 0 <= i < |s| ==> LowerChar(LowerChar(s[i])) == LowerChar(s[i]);
  }

  /**
   * `a` sorts before or equal to `b` in the order the default `Array.prototype.sort`
   * uses: character by character, a proper prefix first.
   */
  predicate TextLe(a: string, b: string)
  {
    a == [] || (b != [] && (a[0] < b[0] || (a[0] == b[0] && TextLe(a[1..], b[1..]))))
  }

  lemma {:induction false} TextLeTotal(a: string, b: string)
    ensures TextLe(a, b) || TextLe(b, a)
  {
    if a != [] && b != [] && a[0] == b[0] {
      TextLeTotal(a[1..], b[1..]);
    }
  }

  lemma {:induction false} TextLeTransitive(a: string, b: string, c: string)
    requires TextLe(a, b) && TextLe(b, c)
    ensures TextLe(a, c)
  {
    if a != [] && a[0] == b[0] && b[0] == c[0] {
      TextLeTransitive(a[1..], b[1..], c[1..]);
    }
  }

  lemma {:induction false} TextLeAntisymmetric(a: string, b: string)
    requires TextLe(a, b) && TextLe(b, a)
    ensures a == b
  {
    if a != [] && b != [] {
      TextLeAntisymmetric(a[1..], b[1..]);
      assert a == [a[0]] + a[1..] && b == [b[0]] + b[1..];
    }
  }

  /** The number of leading whitespace characters. */
  function LeadingSpaces(s: string): (k: nat)
    ensures k <= |s| && AllSpace(s, 0, k)
    ensures k < |s| ==> !IsSpace(s[k])
  {
    if s == [] || !IsSpace(s[0]) then 0
    else
      var k := LeadingSpaces(s[1..]);
      assert forall i :: 1 <= i < k + 1 ==> s[i] == s[1..][i - 1];
      k + 1
  }

  /** The length of `s` without its trailing whitespace. */
  function EndOfText(s: string): (k: nat)
    ensures k <= |s| && AllSpace(s, k, |s|)
    ensures k > 0 ==> !IsSpace(s[k - 1])
  {
    if s == [] || !IsSpace(s[|s| - 1]) then |s|
    else
      var k := EndOfText(s[..|s| - 1]);
      assert forall i :: k <= i < |s| - 1 ==> s[i] == s[..|s| - 1][i];
      k
  }

  /** `s.trim()`. */
  function Trim(s: string): string
  {
    var t := s[LeadingSpaces(s)..];
    t[..EndOfText(t)]
  }

  /**
   * The trimmed string is the slice of the input between its leading and its
   * trailing whitespace, and it neither starts nor ends with whitespace.
   */
  lemma TrimSpec(s: string)
    ensures var i, t := LeadingSpaces(s), s[LeadingSpaces(s)..];
      var j := i + EndOfText(t);
      && j <= |s| && Trim(s) == s[i..j]
      && AllSpace(s, 0, i) && AllSpace(s, j, |s|)
    ensures Trim(s) == [] || (!IsSpace(Trim(s)[0]) && !IsSpace(Trim(s)[|Trim(s)| - 1]))
  {
    TrimSlice(s);
    TrimEnds(s);
  }

  lemma TrimSlice(s: string)
    ensures var i, t := LeadingSpaces(s), s[LeadingSpaces(s)..];
      var j := i + EndOfText(t);
      && j <= |s| && Trim(s) == s[i..j]
      && AllSpace(s, 0, i) && AllSpace(s, j, |s|)
  {
    var i := LeadingSpaces(s);
    var t := s[i..];
    var e := EndOfText(t);
    assert Trim(s) == t[..e];
    SliceOfSuffix(s, t, i, e);
    AllSpaceOfSuffix(s, t, i, e);
  }

  lemma SliceOfSuffix(s: string, t: string, i: nat, e: nat)
    requires i <= |s| && t == s[i..] && e <= |t|
    ensures t[..e] == s[i..i + e]
  {
  }

  /** Whitespace at the end of the suffix `t` of `s` is whitespace at the end of `s`. */
  lemma AllSpaceOfSuffix(s: string, t: string, i: nat, e: nat)
    requires i <= |s| && t == s[i..] && e <= |t| && AllSpace(t, e, |t|)
    ensures AllSpace(s, i + e, |s|)
  {
    forall k | i + e <= k < |s| ensures IsSpace(s[k]) {
      assert s[k] == t[k - i];
    }
  }

  lemma TrimEnds(s: string)
    ensures Trim(s) == [] || (!IsSpace(Trim(s)[0]) && !IsSpace(Trim(s)[|Trim(s)| - 1]))
  {
    var t := s[LeadingSpaces(s)..];
    var e := EndOfText(t);
    assert Trim(s) == t[..e];
    if e > 0 {
      assert Trim(s)[0] == t[0];
      assert Trim(s)[e - 1] == t[e - 1];
    }
  }

  /** A query is blank when trimming leaves nothing: exactly when it is all whitespace. */
  lemma BlankSpec(s: string)
    ensures Trim(s) == [] <==> AllSpace(s, 0, |s|)
  {
    TrimSpec(s);
  }

  /** `sub` occurs in `s` at position `i`. */
  predicate OccursAt(s: string, sub: string, i: int)
  {
    0 <= i && i + |sub| <= |s| && s[i..i + |sub|] == sub
  }

  /** `s.includes(sub)`. */
  function Contains(s: string, sub: string): bool
  {
    if |sub| > |s| then false
    else if sub <= s then true
    else Contains(s[1..], sub)
  }

  /** `includes` finds `sub` exactly when it occurs at some position. */
  lemma {:induction false} ContainsSpec(s: string, sub: string)
    ensures Contains(s, sub) <==> exists i :: OccursAt(s, sub, i)
  {
    if |sub| > |s| {
      assert forall i :: !OccursAt(s, sub, i);
    } else if sub <= s {
      assert OccursAt(s, sub, 0);
    } else {
      ContainsSpec(s[1..], sub);
      forall i | OccursAt(s, sub, i) ensures OccursAt(s[1..], sub, i - 1) {
        assert i != 0;
        assert s[1..][i - 1..i - 1 + |sub|] == s[i..i + |sub|];
      }
      forall i | OccursAt(s[1..], sub, i) ensures OccursAt(s, sub, i + 1) {
        assert s[i + 1..i + 1 + |sub|] == s[1..][i..i + |sub|];
      }
    }
  }

  /** The empty string is contained in every string. */
  lemma ContainsEmpty(s: string)
    ensures Contains(s, "")
  {
  }
}
