/** Sticky display labels of newsletter issues: an epoch number followed by a
    bijective base-26 suffix ("0a", "0b", ..., "1a"), and the bare ship number
    once the issue has shipped. */
module LabelNumbering {
  import opened Text

  predicate IsLetter(c: char) {
    'a' <= c <= 'z'
  }

  predicate AllLetters(s: string) {
    forall i :: 0 <= i < |s| ==> IsLetter(s[i])
  }

  function LetterChar(d: nat): (c: char)
    requires d < 26
    ensures IsLetter(c)
  {
    'a' + d as char
  }

  /** The suffix for a 0-based index, in the order a, ..., z, aa, ab, ... */
  function LabelLetter(idx: nat): (s: string)
    ensures s != "" && AllLetters(s)
  {
    if idx < 26 then [LetterChar(idx)] else LabelLetter(idx / 26 - 1) + [LetterChar(idx % 26)]
  }

  /** Where a suffix stands in that order. */
  function LetterIndex(s: string): nat
    requires s != "" && AllLetters(s)
  {
    var low := (s[|s| - 1] - 'a') as nat;
    if |s| == 1 then low else 26 * (LetterIndex(s[..|s| - 1]) + 1) + low
  }

  function Reversed(s: string): string {
    if s == "" then "" else Reversed(s[1..]) + [s[0]]
  }

  lemma {:induction false} ReversedAppend(s: string, c: char)
    ensures Reversed(s + [c]) == [c] + Reversed(s)
  {
    if s == "" {
      assert (s + [c])[1..] == "";
    } else {
      assert (s + [c])[1..] == s[1..] + [c];
      ReversedAppend(s[1..], c);
    }
  }

  datatype LabelResult = Suffix(text: string) | NegativeIndex

  /** The source's loop: low letters first, `n // 26 - 1` until negative, then
      reversed. */
  method ComputeLabelLetter(idx: int) returns (r: LabelResult)
    ensures r.NegativeIndex? <==> idx < 0
    ensures idx >= 0 ==> r == Suffix(LabelLetter(idx))
  {
    if idx < 0 {
      return NegativeIndex;
    }
    var n := idx;
    var chars := "";
    while n >= 0
      invariant n >= -1
      invariant n >= 0 ==> LabelLetter(idx) == LabelLetter(n) + Reversed(chars)
      invariant n < 0 ==> LabelLetter(idx) == Reversed(chars)
      decreases n
    {
      ReversedAppend(chars, LetterChar(n % 26));
      chars := chars + [LetterChar(n % 26)];
      n := n / 26 - 1;
    }
    r := Suffix(Reversed(chars));
  }

  lemma {:induction false} IndexOfLetter(idx: nat)
    ensures LetterIndex(LabelLetter(idx)) == idx
  {
    var s := LabelLetter(idx);
    if idx >= 26 {
      IndexOfLetter(idx / 26 - 1);
      assert s[..|s| - 1] == LabelLetter(idx / 26 - 1);
    }
  }

  lemma {:induction false} LetterOfIndex(s: string)
    requires s != "" && AllLetters(s)
    ensures LabelLetter(LetterIndex(s)) == s
  {
    var low := (s[|s| - 1] - 'a') as nat;
    if |s| == 1 {
      assert s == [LetterChar(low)];
    } else {
      LetterOfIndex(s[..|s| - 1]);
      var high := LetterIndex(s[..|s| - 1]);
      assert (26 * (high + 1) + low) / 26 == high + 1;
      assert s == s[..|s| - 1] + [LetterChar(low)];
    }
  }

  /** Shorter first, then alphabetical: spreadsheet-column order. */
  ghost predicate Shortlex(s: string, t: string) {
    || |s| < |t|
    || (|s| == |t| && exists k :: 0 <= k < |s| && s[..k] == t[..k] && s[k] < t[k])
  }

  lemma {:induction false} IndexGrowsWithShortlex(s: string, t: string)
    requires s != "" && AllLetters(s) && t != "" && AllLetters(t)
    requires Shortlex(s, t)
    ensures LetterIndex(s) < LetterIndex(t)
    decreases |t|
  {
    var s', t' := s[..|s| - 1], t[..|t| - 1];
    if |s| < |t| {
      if |s| > 1 {
        IndexGrowsWithShortlex(s', t');
      }
    } else {
      var k :| 0 <= k < |s| && s[..k] == t[..k] && s[k] < t[k];
      if k < |s| - 1 {
        assert s'[..k] == t'[..k] && s'[k] < t'[k];
        IndexGrowsWithShortlex(s', t');
      } else {
        assert s' == t';
      }
    }
  }

  lemma {:induction false} ShortlexTotal(s: string, t: string)
    requires s != t
    ensures Shortlex(s, t) || Shortlex(t, s)
  {
    if |s| == |t| {
      FirstDifference(s, t);
      var k :| 0 <= k < |s| && s[k] != t[k] && s[..k] == t[..k];
    }
  }

  lemma {:induction false} FirstDifference(s: string, t: string)
    requires |s| == |t| && s != t
    ensures exists k :: 0 <= k < |s| && s[k] != t[k] && s[..k] == t[..k]
  {
    var n := |s| - 1;
    if s[..n] == t[..n] {
      assert s == s[..n] + [s[n]] && t == t[..n] + [t[n]];
    } else {
      FirstDifference(s[..n], t[..n]);
      var k :| 0 <= k < n && s[..n][k] != t[..n][k] && s[..n][..k] == t[..n][..k];
      assert s[..k] == s[..n][..k] && t[..k] == t[..n][..k];
    }
  }

  /** Suffixes are issued in shortlex order. */
  lemma LetterOrder(m: nat, n: nat)
    ensures m < n <==> Shortlex(LabelLetter(m), LabelLetter(n))
  {
    var s, t := LabelLetter(m), LabelLetter(n);
    IndexOfLetter(m);
    IndexOfLetter(n);
    if m != n {
      ShortlexTotal(s, t);
      if Shortlex(s, t) {
        IndexGrowsWithShortlex(s, t);
      } else {
        IndexGrowsWithShortlex(t, s);
      }
    }
  }

  // ----- the whole label -----

  function Label(epoch: nat, idx: nat): string {
    Numeral(epoch) + LabelLetter(idx)
  }

  function DigitPrefix(s: string): (n: nat)
    ensures n <= |s| && AllDigits(s[..n])
    ensures n < |s| ==> !IsDigit(s[n])
  {
    if s == "" || !IsDigit(s[0]) then 0
    else
      assert s[..1 + DigitPrefix(s[1..])] == [s[0]] + s[1..][..DigitPrefix(s[1..])];
      1 + DigitPrefix(s[1..])
  }

  /** The epoch a label belongs to; shipped labels (bare numbers) have none. */
  function EpochOf(tag: string): Option<nat> {
    var n := DigitPrefix(tag);
    if n == 0 || n == |tag| || !AllLetters(tag[n..]) then None
    else Some(NumeralValue(tag[..n]))
  }

  method ComputeEpoch(tag: string) returns (epoch: Option<nat>)
    ensures epoch == EpochOf(tag)
  {
    var digits := "";
    var i := 0;
    while i < |tag| && IsDigit(tag[i])
      invariant 0 <= i <= |tag| && digits == tag[..i] && AllDigits(digits)
    {
      digits := digits + [tag[i]];
      i := i + 1;
    }
    DigitPrefixIs(tag, i);
    var suffix := tag[|digits|..];
    if digits == "" || suffix == "" || !(forall j :: 0 <= j < |suffix| ==> IsLetter(suffix[j])) {
      return None;
    }
    epoch := Some(NumeralValue(digits));
  }

  lemma {:induction false} DigitPrefixIs(s: string, n: nat)
    requires n <= |s| && AllDigits(s[..n])
    requires n < |s| ==> !IsDigit(s[n])
    ensures DigitPrefix(s) == n
  {
    if n > 0 {
      assert s[0] == s[..n][0] && s[1..][..n - 1] == s[..n][1..];
      DigitPrefixIs(s[1..], n - 1);
    }
  }

  lemma LabelParses(epoch: nat, idx: nat)
    ensures EpochOf(Label(epoch, idx)) == Some(epoch)
    ensures Label(epoch, idx)[DigitPrefix(Label(epoch, idx))..] == LabelLetter(idx)
  {
    var d, s := Numeral(epoch), LabelLetter(idx);
    var l := d + s;
    assert l[..|d|] == d && l[|d|..] == s;
    assert IsLetter(s[0]) && l[|d|] == s[0];
    DigitPrefixIs(l, |d|);
    NumeralRoundTrip(epoch);
  }

  lemma ShippedLabelHasNoEpoch(n: nat)
    ensures EpochOf(Numeral(n)) == None
  {
    var s := Numeral(n);
    assert s[..|s|] == s;
    DigitPrefixIs(s, |s|);
  }

  /** Distinct (epoch, index) pairs never share a label. */
  lemma LabelInjective(e1: nat, k1: nat, e2: nat, k2: nat)
    requires Label(e1, k1) == Label(e2, k2)
    ensures e1 == e2 && k1 == k2
  {
    LabelParses(e1, k1);
    LabelParses(e2, k2);
    IndexOfLetter(k1);
    IndexOfLetter(k2);
  }
}
