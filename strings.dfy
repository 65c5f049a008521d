/**
 * The few operations of Kotlin's standard `String` that the modelled code
 * uses: `indexOf`, `replaceFirst`, `replace` (all occurrences) and the
 * decimal rendering of an `Int` inside a string template.
 */
module Strings {
  import opened Wrappers

  /** `p` occurs in `s` starting at index `i`. */
  predicate OccursAt(s: string, p: string, i: nat) {
    i + |p| <= |s| && s[i..i + |p|] == p
  }

  /** No occurrence of `p` in `s` starts before index `k`. */
  predicate NoneBefore(s: string, p: string, k: nat) {
    forall j: nat :: j < k ==> !OccursAt(s, p, j)
  }

  /** `p` occurs nowhere in `s`. */
  predicate Absent(s: string, p: string) {
    forall j: nat :: j <= |s| ==> !OccursAt(s, p, j)
  }

  /** `s.indexOf(p, from)`: the first occurrence at or after `from`. */
  function IndexFrom(s: string, p: string, from: nat): (r: Option<nat>)
    requires NoneBefore(s, p, from)
    ensures r.Some? ==> from <= r.value && OccursAt(s, p, r.value) && NoneBefore(s, p, r.value)
    ensures r.None? ==> Absent(s, p)
    decreases |s| - from
  {
    if from + |p| > |s| then None
    else if s[from..from + |p|] == p then Some(from)
    else IndexFrom(s, p, from + 1)
  }

  /** `s.indexOf(p)`: the least index at which `p` occurs, if any. */
  function IndexOf(s: string, p: string): (r: Option<nat>)
    ensures r.Some? ==> OccursAt(s, p, r.value) && NoneBefore(s, p, r.value)
    ensures r.None? ==> Absent(s, p)
  {
    IndexFrom(s, p, 0)
  }

  /** `s.replaceFirst(p, n)`: the first occurrence of `p`, if any, becomes `n`. */
  function ReplaceFirst(s: string, p: string, n: string): (r: string)
    ensures Absent(s, p) ==> r == s
    ensures forall i: nat {:trigger OccursAt(s, p, i)} ::
      OccursAt(s, p, i) && NoneBefore(s, p, i) ==> r == s[..i] + n + s[i + |p|..]
  {
    match IndexOf(s, p)
    case None => s
    case Some(i) =>
      assert i <= |s| && OccursAt(s, p, i);
      assert forall k: nat {:trigger OccursAt(s, p, k)} :: OccursAt(s, p, k) && NoneBefore(s, p, k) ==> k == i by {
        forall k: nat | OccursAt(s, p, k) && NoneBefore(s, p, k) ensures k == i {
          FirstOccurrenceUnique(s, p, i, k);
        }
      }
      s[..i] + n + s[i + |p|..]
  }

  /** Two first occurrences are the same occurrence. */
  lemma FirstOccurrenceUnique(s: string, p: string, i: nat, k: nat)
    requires OccursAt(s, p, i) && NoneBefore(s, p, i)
    requires OccursAt(s, p, k) && NoneBefore(s, p, k)
    ensures i == k
  {
  }

  /** When `p` starts `s`, `replaceFirst` swaps exactly that prefix. */
  lemma ReplaceFirstOfPrefix(s: string, p: string, n: string)
    requires p <= s
    ensures ReplaceFirst(s, p, n) == n + s[|p|..]
  {
    assert OccursAt(s, p, 0);
    assert s[..0] + n + s[|p|..] == n + s[|p|..];
  }

  /**
   * `s.replace(p, n)`: every occurrence of `p`, found left to right and
   * without overlap, becomes `n`. An empty `p` matches before every
   * character and at the end, as in Kotlin.
   */
  function ReplaceAll(s: string, p: string, n: string): (r: string)
    // an empty pattern puts `n` before every character and at the end
    ensures |p| == 0 ==> |r| == |s| + (|s| + 1) * |n|
    // replacing the pattern by itself changes nothing
    ensures |p| > 0 && n == p ==> r == s
    decreases |s|
  {
    if |p| == 0 then
      if s == [] then n else n + [s[0]] + ReplaceAll(s[1..], p, n)
    else if |s| < |p| then s
    else if s[..|p|] == p then n + ReplaceAll(s[|p|..], p, n)
    else [s[0]] + ReplaceAll(s[1..], p, n)
  }

  lemma OccursAtShift(c: char, s: string, p: string, j: nat)
    ensures OccursAt([c] + s, p, j + 1) <==> OccursAt(s, p, j)
  {
    if j + 1 + |p| <= |[c] + s| {
      assert ([c] + s)[j + 1..j + 1 + |p|] == s[j..j + |p|];
    }
  }

  /** A string in which the pattern does not occur is returned unchanged. */
  lemma {:induction false} ReplaceAllAbsent(s: string, p: string, n: string)
    requires |p| > 0 && Absent(s, p)
    ensures ReplaceAll(s, p, n) == s
    decreases |s|
  {
    if |s| >= |p| {
      assert !OccursAt(s, p, 0);
      assert s == [s[0]] + s[1..];
      forall j: nat | j <= |s[1..]| ensures !OccursAt(s[1..], p, j) {
        OccursAtShift(s[0], s[1..], p, j);
      }
      ReplaceAllAbsent(s[1..], p, n);
    }
  }

  /** Where no occurrence starts at the front, the first character is copied and scanning moves on. */
  lemma ReplaceAllStep(s: string, p: string, n: string)
    requires |p| > 0 && |s| > 0 && !OccursAt(s, p, 0)
    ensures ReplaceAll(s, p, n) == [s[0]] + ReplaceAll(s[1..], p, n)
  {
    assert s == [s[0]] + s[1..];
  }

  /** No occurrence in the first `k + 1` positions of `[c] + s` means none in the first `k` of `s`. */
  lemma NoneBeforeTail(c: char, s: string, p: string, k: nat)
    requires NoneBefore([c] + s, p, k + 1)
    ensures NoneBefore(s, p, k)
  {
    forall j: nat | j < k ensures !OccursAt(s, p, j) {
      OccursAtShift(c, s, p, j);
    }
  }

  /**
   * Text in front of the first occurrence is copied; scanning then resumes
   * after `t`: `replace` on `t + u` keeps `t` when no occurrence starts in `t`.
   */
  lemma {:induction false} ReplaceAllKeepsPrefix(t: string, u: string, p: string, n: string)
    requires |p| > 0 && NoneBefore(t + u, p, |t|)
    ensures ReplaceAll(t + u, p, n) == t + ReplaceAll(u, p, n)
    decreases |t|
  {
    if t != [] {
      var s := t + u;
      assert s == [t[0]] + (t[1..] + u) && s[1..] == t[1..] + u;
      NoneBeforeTail(t[0], t[1..] + u, p, |t[1..]|);
      ReplaceAllKeepsPrefix(t[1..], u, p, n);
      ReplaceAllStep(s, p, n);
      assert t == [t[0]] + t[1..];
    } else {
      assert t + u == u;
    }
  }

  /** An occurrence at the front becomes `n`, and scanning resumes after it. */
  lemma ReplaceAllAtFront(u: string, p: string, n: string)
    requires |p| > 0
    ensures ReplaceAll(p + u, p, n) == n + ReplaceAll(u, p, n)
  {
    assert (p + u)[..|p|] == p;
    assert (p + u)[|p|..] == u;
  }

  /**
   * No occurrence of `p` can start inside `t`, whatever follows it, when the
   * first character of `p` appears in `t` at most at the front and there
   * `t` and `p` differ in their second character.
   */
  lemma NoOccurrenceInside(t: string, u: string, p: string)
    requires |p| >= 2
    requires forall k :: 0 < k < |t| ==> t[k] != p[0]
    requires |t| > 0 && t[0] == p[0] ==> |t| >= 2 && t[1] != p[1]
    ensures NoneBefore(t + u, p, |t|)
  {
    var s := t + u;
    forall j: nat | j < |t| && j + |p| <= |s| ensures !OccursAt(s, p, j) {
      var w := s[j..j + |p|];
      if s[j] != p[0] {
        assert w[0] != p[0];
      } else {
        assert j == 0 && s[1] == t[1];
        assert w[1] != p[1];
      }
    }
  }

  /** A string of decimal digits. */
  predicate DigitsOnly(r: string) {
    forall k :: 0 <= k < |r| ==> '0' <= r[k] <= '9'
  }

  /** The number a string of decimal digits spells, most significant digit first. */
  function DecimalValue(r: string): nat
    requires DigitsOnly(r)
    decreases |r|
  {
    if r == [] then 0
    else DecimalValue(r[..|r| - 1]) * 10 + (r[|r| - 1] as int - '0' as int)
  }

  /** The decimal digits of `n`, without leading zeros. */
  function NatToDecimal(n: nat): (r: string)
    ensures |r| > 0 && DigitsOnly(r)
    ensures DecimalValue(r) == n
    ensures r[0] == '0' ==> n == 0 && |r| == 1
  {
    var d := [(('0' as int) + n % 10) as char];
    if n < 10 then d
    else
      var h := NatToDecimal(n / 10);
      assert (h + d)[..|h + d| - 1] == h;
      h + d
  }

  /** `"$n"` for an `Int` `n`: a minus sign exactly for negative `n`, then the digits of its magnitude. */
  function IntToDecimal(n: int): (r: string)
    ensures |r| > 0 && (r[0] == '-' <==> n < 0)
    ensures n < 0 ==> |r| > 1 && DigitsOnly(r[1..]) && DecimalValue(r[1..]) == -n && r[1] != '0'
    ensures n >= 0 ==> DigitsOnly(r) && DecimalValue(r) == n && (r[0] == '0' ==> n == 0 && |r| == 1)
  {
    if n < 0 then
      var m := NatToDecimal(-n);
      assert ("-" + m)[1..] == m;
      "-" + m
    else NatToDecimal(n)
  }
}
