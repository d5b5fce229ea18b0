/** String helpers shared by the payload utilities and the API client. Python's
    `str` is a sequence of code points; here a string is a `seq<char>`. */
module Text {

  /** Python's `str.lower()` on one character, as far as it can matter to the
      model: ASCII capitals become small letters and KELVIN SIGN (U+212A) becomes
      ASCII 'k' (the only non-ASCII character whose lower-case form is a single
      ASCII letter). Every other character is kept as it is. */
  function LowerChar(c: char): (r: char)
    ensures 'A' <= c <= 'Z' ==> 'a' <= r <= 'z' && r as int - c as int == 32
    ensures c == '\U{212A}' ==> r == 'k'
    ensures !('A' <= c <= 'Z') && c != '\U{212A}' ==> r == c
  {
    if 'A' <= c <= 'Z' then (c as int + 32) as char
    else if c == '\U{212A}' then 'k'
    else c
  }

  /** `s.lower()`, character by character. */
  function Lower(s: string): (r: string)
    ensures |r| == |s|
    ensures forall i :: 0 <= i < |s| ==> r[i] == LowerChar(s[i])
  {
    seq(|s|, i requires 0 <= i < |s| => LowerChar(s[i]))
  }

  /** `k` occurs in `s` starting at index `j`. */
  predicate OccursAt(k: string, s: string, j: nat)
  {
    j + |k| <= |s| && s[j..j + |k|] == k
  }

  /** `k` occurs in `s` at some index at or after `i`: the scan behind `in`. */
  predicate OccursFrom(k: string, s: string, i: nat)
    decreases |s| - i
  {
    i + |k| <= |s| && (OccursAt(k, s, i) || OccursFrom(k, s, i + 1))
  }

  /** Python's substring test `k in s`: the empty string is in every string,
      and nothing longer than `s` is in `s`. */
  predicate Occurs(k: string, s: string)
    ensures |k| == 0 ==> Occurs(k, s)
    ensures Occurs(k, s) ==> |k| <= |s|
  {
    OccursFrom(k, s, 0)
  }

  /** The scan from index `i` finds exactly the occurrences at `i` or later. */
  lemma {:induction false} OccursFromIff(k: string, s: string, i: nat)
    ensures OccursFrom(k, s, i) <==> exists j: nat :: i <= j && OccursAt(k, s, j)
    decreases |s| - i
  {
    if i + |k| <= |s| {
      OccursFromIff(k, s, i + 1);
    } else {
      forall j: nat | i <= j
        ensures !OccursAt(k, s, j)
      {
      }
    }
  }

  /** `k in s` holds exactly when `k` is the slice of `s` at some index. */
  lemma OccursIff(k: string, s: string)
    ensures Occurs(k, s) <==> exists j: nat :: OccursAt(k, s, j)
  {
    OccursFromIff(k, s, 0);
  }

  /** A string inside a string inside `s` is itself inside `s`. */
  lemma OccursTransitive(a: string, b: string, s: string)
    requires Occurs(a, b) && Occurs(b, s)
    ensures Occurs(a, s)
  {
    OccursIff(a, b);
    OccursIff(b, s);
    var i: nat :| OccursAt(a, b, i);
    var j: nat :| OccursAt(b, s, j);
    forall n | 0 <= n < |a|
      ensures s[j + i + n] == a[n]
    {
      assert b[i + n] == a[n];
      assert s[j + (i + n)] == b[i + n];
    }
    assert s[j + i..j + i + |a|] == a;
    assert OccursAt(a, s, j + i);
    OccursIff(a, s);
  }

  /** Lower-casing keeps every occurrence: when `k` is in `s`, `k.lower()` is in
      `s.lower()`, at the same index. */
  lemma LowerKeepsOccurrence(k: string, s: string)
    requires Occurs(k, s)
    ensures Occurs(Lower(k), Lower(s))
  {
    OccursIff(k, s);
    var j: nat :| OccursAt(k, s, j);
    forall n | 0 <= n < |k|
      ensures Lower(s)[j + n] == Lower(k)[n]
    {
      assert s[j + n] == k[n];
    }
    assert Lower(s)[j..j + |k|] == Lower(k);
    assert OccursAt(Lower(k), Lower(s), j);
    OccursIff(Lower(k), Lower(s));
  }

  /** Python's `c * n` for a one-character string `c`. */
  function Repeat(c: char, n: nat): (r: string)
    ensures |r| == n
    ensures forall i :: 0 <= i < n ==> r[i] == c
  {
    seq(n, _ => c)
  }
}
