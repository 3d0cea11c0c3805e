/**
 Fitting a text into a character budget and a JSON byte budget at once: a
 binary search over prefixes that returns the longest one that fits.
 */
module BoundedText {
  import opened Common
  import opened JsonText

  /** A code point of a host string, surrogates included. */
  type CodePoint = c: int | 0 <= c < 0x110000

  type HostText = seq<CodePoint>

  function NormalizeChar(c: CodePoint): Scalar {
    if 0xD800 <= c <= 0xDFFF then 0xFFFD else c
  }

  /** `normalize_task_event_text`. */
  function Normalize(t: HostText): (r: Text)
    ensures |r| == |t|
    ensures forall i :: 0 <= i < |t| ==> r[i] == NormalizeChar(t[i])
  {
    seq(|t|, i requires 0 <= i < |t| => NormalizeChar(t[i]))
  }

  /** The text is the host string, character for character. */
  predicate SameText(r: Text, t: HostText) {
    |r| == |t| && forall i :: 0 <= i < |t| ==> r[i] == t[i]
  }

  function MinNat(a: nat, b: nat): nat {
    if a <= b then a else b
  }

  /** How many leading characters fit: take characters while the budget lasts. */
  function FitCount(t: Text, budget: int): (n: nat)
    ensures n <= |t|
    decreases |t|
  {
    if t == [] || CharSize(t[0]) > budget then 0 else 1 + FitCount(t[1..], budget - CharSize(t[0]))
  }

  /** The meaning of `_bounded_text` on a string. */
  function Bounded(value: HostText, maxChars: nat, maxBytes: nat): Text {
    var candidate := Normalize(value)[..MinNat(maxChars, |value|)];
    candidate[..FitCount(candidate, maxBytes - 2)]
  }

  // ----- sizes of prefixes

  lemma {:induction false} CharsSizeAppend(a: Text, b: Text)
    ensures CharsSize(a + b) == CharsSize(a) + CharsSize(b)
    decreases |a|
  {
    if a == [] {
      assert a + b == b;
    } else {
      assert (a + b)[1..] == a[1..] + b;
      CharsSizeAppend(a[1..], b);
    }
  }

  /** A longer prefix is strictly larger, so fitting is a cut. */
  lemma PrefixGrows(t: Text, m: nat, n: nat)
    requires m < n <= |t|
    ensures CharsSize(t[..m]) < CharsSize(t[..n])
  {
    assert t[..n] == t[..m] + [t[m]] + t[m + 1..n];
    CharsSizeAppend(t[..m] + [t[m]], t[m + 1..n]);
    CharsSizeAppend(t[..m], [t[m]]);
    assert [t[m]][1..] == [];
  }

  /** The greedy count is the length of the longest prefix within the budget. */
  lemma {:induction false} FitCountIsLongest(t: Text, budget: nat)
    ensures CharsSize(t[..FitCount(t, budget)]) <= budget
    ensures forall n :: FitCount(t, budget) < n <= |t| ==> CharsSize(t[..n]) > budget
    decreases |t|
  {
    var k := FitCount(t, budget);
    if t == [] {
    } else if CharSize(t[0]) > budget {
      forall n | 0 < n <= |t| ensures CharsSize(t[..n]) > budget {
        assert t[..n][0] == t[0];
      }
    } else {
      var left := budget - CharSize(t[0]);
      FitCountIsLongest(t[1..], left);
      assert t[..k] == [t[0]] + t[1..][..k - 1];
      CharsSizeAppend([t[0]], t[1..][..k - 1]);
      assert [t[0]][1..] == [];
      forall n | k < n <= |t| ensures CharsSize(t[..n]) > budget {
        assert t[..n] == [t[0]] + t[1..][..n - 1];
        CharsSizeAppend([t[0]], t[1..][..n - 1]);
      }
    }
  }

  lemma FitCountUnique(t: Text, budget: nat, n: nat)
    requires n <= |t| && CharsSize(t[..n]) <= budget
    requires n < |t| ==> CharsSize(t[..n + 1]) > budget
    ensures n == FitCount(t, budget)
  {
    FitCountIsLongest(t, budget);
    var k := FitCount(t, budget);
    if k > n + 1 {
      PrefixGrows(t, n + 1, k);
    }
  }

  /** What fits is within both budgets, is a prefix, and is the longest such prefix. */
  lemma BoundedIsLongest(value: HostText, maxChars: nat, maxBytes: nat)
    requires maxBytes >= 2
    ensures var r, whole := Bounded(value, maxChars, maxBytes), Normalize(value);
            && r <= whole && |r| <= maxChars && JsonSize(JString(r)) <= maxBytes
            && forall n :: |r| < n <= |whole| && n <= maxChars ==> JsonSize(JString(whole[..n])) > maxBytes
  {
    var r, whole := Bounded(value, maxChars, maxBytes), Normalize(value);
    var candidate := whole[..MinNat(maxChars, |value|)];
    FitCountIsLongest(candidate, maxBytes - 2);
    StringSizeIsExact(r);
    forall n | |r| < n <= |whole| && n <= maxChars ensures JsonSize(JString(whole[..n])) > maxBytes {
      StringSizeIsExact(whole[..n]);
      assert candidate[..n] == whole[..n];
    }
  }

  /** `_bounded_text` on a string: the flag tells exactly whether anything was changed. */
  method BoundText(value: HostText, maxChars: nat, maxBytes: nat) returns (text: Text, truncated: bool)
    requires maxBytes >= 2
    ensures text == Bounded(value, maxChars, maxBytes)
    ensures truncated <==> !SameText(text, value)
  {
    var normalized := Normalize(value);
    var candidate := normalized[..MinNat(maxChars, |normalized|)];
    truncated := !SameText(normalized, value) || |candidate| != |normalized|;
    assert candidate[..|candidate|] == candidate;
    if StringSize(candidate) <= maxBytes {
      FitCountUnique(candidate, maxBytes - 2, |candidate|);
      if |candidate| == |normalized| {
        assert candidate == normalized;
      }
      return candidate, truncated;
    }
    var low, high := 0, |candidate|;
    while low < high
      invariant 0 <= low <= high <= |candidate| && low < |candidate|
      invariant CharsSize(candidate[..low]) <= maxBytes - 2
      invariant high < |candidate| ==> CharsSize(candidate[..high + 1]) > maxBytes - 2
      invariant high == |candidate| ==> CharsSize(candidate) > maxBytes - 2
      decreases high - low
    {
      var midpoint := (low + high + 1) / 2;
      if StringSize(candidate[..midpoint]) <= maxBytes {
        assert candidate[..|candidate|] == candidate;
        low := midpoint;
      } else {
        high := midpoint - 1;
      }
    }
    FitCountUnique(candidate, maxBytes - 2, low);
    return candidate[..low], true;
  }
}
