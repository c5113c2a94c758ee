/**
  String helpers the classifier and the record builder use: lower-casing,
  Python's substring test `kw in s`, and slicing to a maximum length.
 */
module Text {

  /** Lower-case one character (ASCII letters only). */
  function LowerChar(c: char): (d: char)
    ensures 'A' <= c <= 'Z' ==> d as int == c as int + 32
    ensures !('A' <= c <= 'Z') ==> d == c
  {
    if 'A' <= c <= 'Z' then (c as int + 32) as char else c
  }

  /** `s.lower()`, character by character. */
  function Lower(s: string): (r: string)
    ensures |r| == |s|
    ensures forall i :: 0 <= i < |s| ==> r[i] == LowerChar(s[i])
  {
    seq(|s|, i requires 0 <= i < |s| => LowerChar(s[i]))
  }

  /** `kw` occurs in `s` starting at position `i`. */
  ghost predicate OccursAt(kw: string, s: string, i: int)
  {
    0 <= i && i + |kw| <= |s| && s[i..i + |kw|] == kw
  }

  /** Python's `kw in s`: a scan for `kw` as a prefix of each suffix of `s`. */
  function Contains(s: string, kw: string): (b: bool)
    decreases |s|
  {
    if kw <= s then true
    else if |s| <= |kw| then false
    else Contains(s[1..], kw)
  }

  /** The scan finds `kw` exactly when it occurs somewhere in `s`. */
  lemma {:induction false} ContainsIff(s: string, kw: string)
    ensures Contains(s, kw) <==> exists i :: OccursAt(kw, s, i)
    decreases |s|
  {
    if kw <= s {
      assert OccursAt(kw, s, 0);
    } else if |s| <= |kw| {
      forall i ensures !OccursAt(kw, s, i) {
        if 0 <= i && i + |kw| <= |s| {
          assert i == 0 && s[i..i + |kw|] == s;
        }
      }
    } else {
      ContainsIff(s[1..], kw);
      if Contains(s[1..], kw) {
        var i :| OccursAt(kw, s[1..], i);
        assert s[i + 1..i + 1 + |kw|] == s[1..][i..i + |kw|];
        assert OccursAt(kw, s, i + 1);
      } else {
        forall i | 0 < i && i + |kw| <= |s| ensures !OccursAt(kw, s, i) {
          assert s[1..][i - 1..i - 1 + |kw|] == s[i..i + |kw|];
          assert !OccursAt(kw, s[1..], i - 1);
        }
        assert !OccursAt(kw, s, 0);
      }
    }
  }

  /** A text that contains `kw` in any letter case still contains it after
      both are lower-cased. */
  lemma LowerKeepsOccurrence(kw: string, s: string)
    requires Contains(s, kw)
    ensures Contains(Lower(s), Lower(kw))
  {
    ContainsIff(s, kw);
    var i :| OccursAt(kw, s, i);
    assert Lower(s)[i..i + |kw|] == Lower(kw);
    assert OccursAt(Lower(kw), Lower(s), i);
    ContainsIff(Lower(s), Lower(kw));
  }

  /** Containment is transitive: a text that contains `big` contains every
      part of `big`. */
  lemma ContainsTransitive(s: string, big: string, small: string)
    requires Contains(s, big) && Contains(big, small)
    ensures Contains(s, small)
  {
    ContainsIff(s, big);
    ContainsIff(big, small);
    var i :| OccursAt(big, s, i);
    var j :| OccursAt(small, big, j);
    forall k | 0 <= k < |small| ensures s[i + j + k] == small[k] {
      assert s[i..i + |big|][j + k] == big[j + k];
      assert big[j..j + |small|][k] == small[k];
    }
    assert s[i + j..i + j + |small|] == small;
    assert OccursAt(small, s, i + j);
    ContainsIff(s, small);
  }

  /** `s[:n]`: the first `n` characters, or all of `s` when it is shorter. */
  function Truncate(s: string, n: nat): (r: string)
    ensures |r| == if |s| <= n then |s| else n
    ensures r <= s
  {
    if |s| <= n then s else s[..n]
  }
}
