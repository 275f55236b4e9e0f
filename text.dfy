/** Text helpers behind the case-insensitive filters: `str.lower()` and `in` on strings. */
module Text {
  import opened Wrappers

  /** A query parameter counts only when it is present and not empty (`if q:`). */
  predicate Given(p: Option<string>) {
    p.Some? && p.value != ""
  }

  /** Lower-case one character (ASCII letters only). */
  function LowerChar(c: char): (r: char)
    ensures 'A' <= c <= 'Z' ==> r as int == c as int + 32
    ensures !('A' <= c <= 'Z') ==> r == c
    ensures !('A' <= r <= 'Z')
  {
    if 'A' <= c <= 'Z' then (c as int + 32) as char else c
  }

  /** `s.lower()`, character by character. */
  function Lower(s: string): (r: string)
    ensures |r| == |s|
    ensures forall i :: 0 <= i < |s| ==> r[i] == LowerChar(s[i])
  {
    if s == [] then [] else [LowerChar(s[0])] + Lower(s[1..])
  }

  /** `t` is `s` lower-cased when each character of `t` is the lower-cased one of `s`. */
  lemma LowerFrom(s: string, t: string)
    requires |s| == |t|
    requires forall i :: 0 <= i < |s| ==> t[i] == LowerChar(s[i])
    ensures Lower(s) == t
  {
  }

  /** True iff no character of `s` is an upper-case letter. */
  predicate IsLower(s: string) {
    forall i :: 0 <= i < |s| ==> !('A' <= s[i] <= 'Z')
  }

  /** Lower-casing leaves a lower-case string, and a lower-case string unchanged. */
  lemma LowerIdempotent(s: string)
    ensures IsLower(Lower(s))
    ensures IsLower(s) ==> Lower(s) == s
    ensures Lower(Lower(s)) == Lower(s)
  {
    var r := Lower(s);
    assert IsLower(s) ==> Lower(s) == s by {
      if IsLower(s) {
        assert forall i :: 0 <= i < |s| ==> r[i] == s[i];
      }
    }
    assert forall i :: 0 <= i < |r| ==> Lower(r)[i] == r[i];
  }

  /** True iff `p` is a prefix of `s`. */
  predicate StartsWith(p: string, s: string) {
    |p| <= |s| && s[..|p|] == p
  }

  /** Python's `p in s` on strings: `p` occurs as a contiguous substring of `s`. */
  predicate Contains(p: string, s: string)
    ensures Contains(p, s) ==> |p| <= |s|
    ensures p == [] ==> Contains(p, s)
    decreases |s|
  {
    StartsWith(p, s) || (s != [] && Contains(p, s[1..]))
  }

  /** `p` occurs in `s` starting at offset `k`. */
  predicate OccursAt(p: string, s: string, k: int) {
    0 <= k <= |s| - |p| && s[k..k + |p|] == p
  }

  /** `p in s` holds iff `p` occurs at some offset of `s`. */
  lemma {:induction false} ContainsAt(p: string, s: string)
    ensures Contains(p, s) <==> exists k :: OccursAt(p, s, k)
    decreases |s|
  {
    if StartsWith(p, s) {
      assert OccursAt(p, s, 0);
    } else if s != [] {
      ContainsAt(p, s[1..]);
      if Contains(p, s[1..]) {
        var k :| OccursAt(p, s[1..], k);
        assert s[k + 1..k + 1 + |p|] == s[1..][k..k + |p|];
        assert OccursAt(p, s, k + 1);
      }
      if k :| OccursAt(p, s, k) {
        assert k != 0;
        assert s[1..][k - 1..k - 1 + |p|] == s[k..k + |p|];
        assert OccursAt(p, s[1..], k - 1);
      }
    } else {
      assert forall k :: !OccursAt(p, s, k);
    }
  }

  /** `q.lower() in text.lower()`: case-insensitive substring test. */
  predicate ContainsIgnoringCase(q: string, text: string) {
    Contains(Lower(q), Lower(text))
  }

  /** `a.lower() == b.lower()`: case-insensitive equality. */
  predicate EqualsIgnoringCase(a: string, b: string) {
    Lower(a) == Lower(b)
  }
}
