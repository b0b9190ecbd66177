/**
 * String operations the core relies on: substring search and replacement
 * (Python's `str.replace` replaces every occurrence, JavaScript's
 * `String.prototype.replace` with a string pattern only the first), decimal
 * rendering of integers, and joining and splitting on a separator.
 */
module Text {
  import opened Wrappers

  /** `pat` occurs in `s` starting at index `i`. */
  predicate MatchAt(s: string, pat: string, i: nat)
  {
    i + |pat| <= |s| && s[i..i + |pat|] == pat
  }

  /** The leftmost occurrence of `pat` in `s` at or after index `from`. */
  function FindFrom(s: string, pat: string, from: nat): (r: Option<nat>)
    requires |pat| > 0
    ensures r.Some? ==> from <= r.value && r.value + |pat| <= |s|
    decreases |s| - from
  {
    if from + |pat| > |s| then None
    else if MatchAt(s, pat, from) then Some(from)
    else FindFrom(s, pat, from + 1)
  }

  /**
   * `FindFrom` finds the leftmost occurrence: the index it returns is an
   * occurrence with none between `from` and it, and when it finds nothing
   * there is no occurrence at or after `from`.
   */
  lemma {:induction false} FindFromLeftmost(s: string, pat: string, from: nat)
    requires |pat| > 0
    ensures FindFrom(s, pat, from).Some? ==>
      MatchAt(s, pat, FindFrom(s, pat, from).value) &&
      forall i :: from <= i < FindFrom(s, pat, from).value ==> !MatchAt(s, pat, i)
    ensures FindFrom(s, pat, from).None? ==> forall i :: from <= i ==> !MatchAt(s, pat, i)
    decreases |s| - from
  {
    if from + |pat| <= |s| && !MatchAt(s, pat, from) {
      FindFromLeftmost(s, pat, from + 1);
    }
  }

  /**
   * `s[from..]` with every non-overlapping occurrence of `pat`, scanning
   * left to right, replaced by `rep`.
   */
  function ReplaceAllFrom(s: string, pat: string, rep: string, from: nat): string
    requires |pat| > 0 && from <= |s|
    decreases |s| - from
  {
    match FindFrom(s, pat, from)
    case None => s[from..]
    case Some(j) => s[from..j] + rep + ReplaceAllFrom(s, pat, rep, j + |pat|)
  }

  /** Every non-overlapping occurrence, scanning left to right, replaced by `rep`. */
  function ReplaceAll(s: string, pat: string, rep: string): string
    requires |pat| > 0
  {
    ReplaceAllFrom(s, pat, rep, 0)
  }

  /** Only the leftmost occurrence replaced by `rep`. */
  function ReplaceFirst(s: string, pat: string, rep: string): string
    requires |pat| > 0
  {
    match FindFrom(s, pat, 0)
    case None => s
    case Some(j) => s[..j] + rep + s[j + |pat|..]
  }

  /** No character of `a` occurs in `b`. */
  predicate Disjoint(a: string, b: string)
  {
    forall i, j :: 0 <= i < |a| && 0 <= j < |b| ==> a[i] != b[j]
  }

  /** An occurrence in a suffix is an occurrence in the whole string. */
  lemma MatchInSuffix(s: string, pat: string, from: nat, i: nat)
    requires from <= |s| && MatchAt(s[from..], pat, i)
    ensures MatchAt(s, pat, from + i)
  {
    assert s[from..][i..i + |pat|] == s[from + i..from + i + |pat|];
  }

  /**
   * No occurrence of `pat` starts at `p` in `s[from..j] + rep + tail` when
   * none starts in `s` between `from` and `j`, none starts in `tail`, and
   * `rep` is non-empty and shares no character with `pat`.
   */
  lemma NoMatchAcrossReplacement(s: string, from: nat, j: nat, rep: string, tail: string, pat: string, p: nat)
    requires from <= j <= |s| && |pat| > 0 && |rep| > 0 && Disjoint(rep, pat)
    requires forall i :: from <= i < j ==> !MatchAt(s, pat, i)
    requires forall i :: !MatchAt(tail, pat, i)
    ensures !MatchAt(s[from..j] + rep + tail, pat, p)
  {
    var r := s[from..j] + rep + tail;
    var k := j - from;
    if p + |pat| <= |r| {
      var w := r[p..p + |pat|];
      if p + |pat| <= k {
        forall t | 0 <= t < |pat|
          ensures w[t] == s[from + p + t]
        {
          assert w[t] == r[p + t] == s[from..j][p + t];
        }
        assert w == s[from + p..from + p + |pat|];
        assert !MatchAt(s, pat, from + p);
      } else if p < k {
        assert w[k - p] == rep[0];
        assert rep[0] != pat[k - p];
      } else if p < k + |rep| {
        assert w[0] == rep[p - k];
        assert rep[p - k] != pat[0];
      } else {
        var q := p - k - |rep|;
        assert w == tail[q..q + |pat|];
        assert !MatchAt(tail, pat, q);
      }
    }
  }

  /** `ReplaceAllFrom` leaves no occurrence when `rep` is non-empty and shares no character with `pat`. */
  lemma {:induction false} ReplaceAllFromLeavesNoMatch(s: string, pat: string, rep: string, from: nat)
    requires |pat| > 0 && from <= |s| && |rep| > 0 && Disjoint(rep, pat)
    ensures forall i :: !MatchAt(ReplaceAllFrom(s, pat, rep, from), pat, i)
    decreases |s| - from
  {
    FindFromLeftmost(s, pat, from);
    match FindFrom(s, pat, from)
    case None =>
      forall p: nat
        ensures !MatchAt(s[from..], pat, p)
      {
        if MatchAt(s[from..], pat, p) {
          MatchInSuffix(s, pat, from, p);
        }
      }
    case Some(j) =>
      var tail := ReplaceAllFrom(s, pat, rep, j + |pat|);
      ReplaceAllFromLeavesNoMatch(s, pat, rep, j + |pat|);
      forall p: nat
        ensures !MatchAt(ReplaceAllFrom(s, pat, rep, from), pat, p)
      {
        NoMatchAcrossReplacement(s, from, j, rep, tail, pat, p);
      }
  }

  /**
   * When the replacement is non-empty and shares no character with the
   * pattern, no occurrence of the pattern survives `ReplaceAll`.
   */
  lemma ReplaceAllLeavesNoMatch(s: string, pat: string, rep: string)
    requires |pat| > 0 && |rep| > 0 && Disjoint(rep, pat)
    ensures forall i :: !MatchAt(ReplaceAll(s, pat, rep), pat, i)
  {
    ReplaceAllFromLeavesNoMatch(s, pat, rep, 0);
  }

  /** With two separate occurrences, `ReplaceFirst` leaves the second one in place. */
  lemma ReplaceFirstKeepsLaterMatch(s: string, pat: string, rep: string, j: nat, k: nat)
    requires |pat| > 0
    requires FindFrom(s, pat, 0) == Some(j) && j + |pat| <= k && MatchAt(s, pat, k)
    ensures MatchAt(ReplaceFirst(s, pat, rep), pat, k - |pat| + |rep|)
  {
    var r := ReplaceFirst(s, pat, rep);
    var q := k - |pat| + |rep|;
    assert r == s[..j] + rep + s[j + |pat|..];
    assert r[q..q + |pat|] == s[k..k + |pat|];
  }

  /** When the pattern occurs at most once, both replacements agree. */
  lemma ReplaceFirstIsAllWhenSingle(s: string, pat: string, rep: string, j: nat)
    requires |pat| > 0
    requires FindFrom(s, pat, 0) == Some(j) && FindFrom(s, pat, j + |pat|).None?
    ensures ReplaceFirst(s, pat, rep) == ReplaceAll(s, pat, rep)
  {
    assert ReplaceAllFrom(s, pat, rep, j + |pat|) == s[j + |pat|..];
    assert s[0..j] == s[..j];
  }

  /** The decimal digit character for `d`. */
  function DigitChar(d: nat): (c: char)
    requires d < 10
    ensures '0' <= c <= '9' && c as int - '0' as int == d
  {
    ('0' as int + d) as char
  }

  predicate IsDigits(s: string)
  {
    forall i :: 0 <= i < |s| ==> '0' <= s[i] <= '9'
  }

  /** The decimal rendering of a natural number, as `str(n)` and `String(n)` give it. */
  function NatToDecimal(n: nat): (s: string)
    ensures |s| > 0 && IsDigits(s)
    ensures s[0] == '0' ==> n == 0
    decreases n
  {
    if n < 10 then [DigitChar(n)] else NatToDecimal(n / 10) + [DigitChar(n % 10)]
  }

  /** The number a string of decimal digits denotes. */
  function DecimalValue(s: string): nat
    requires IsDigits(s)
  {
    if |s| == 0 then 0
    else DecimalValue(s[..|s| - 1]) * 10 + (s[|s| - 1] as int - '0' as int)
  }

  lemma {:induction false} DecimalRoundTrip(n: nat)
    ensures DecimalValue(NatToDecimal(n)) == n
    decreases n
  {
    if n >= 10 {
      var s := NatToDecimal(n);
      DecimalRoundTrip(n / 10);
      assert s[..|s| - 1] == NatToDecimal(n / 10);
    }
  }

  /** The decimal rendering of an integer, with a leading '-' when negative. */
  function IntToString(i: int): string
  {
    if i < 0 then "-" + NatToDecimal(-i) else NatToDecimal(i)
  }

  /** The integer a rendering of `IntToString` denotes. */
  function ParseInt(s: string): Option<int>
  {
    if |s| > 0 && s[0] == '-' && IsDigits(s[1..]) then Some(-(DecimalValue(s[1..]) as int))
    else if IsDigits(s) then Some(DecimalValue(s))
    else None
  }

  lemma IntToStringRoundTrip(i: int)
    ensures ParseInt(IntToString(i)) == Some(i)
  {
    if i < 0 {
      NegativeRoundTrip(-i);
    } else {
      var d := NatToDecimal(i);
      DecimalRoundTrip(i);
      assert '0' <= d[0] <= '9';
    }
  }

  /** A '-' followed by the digits of `n` parses back to `-n`. */
  lemma NegativeRoundTrip(n: nat)
    requires n > 0
    ensures ParseInt("-" + NatToDecimal(n)) == Some(-(n as int))
  {
    var d := NatToDecimal(n);
    DecimalRoundTrip(n);
    var s := "-" + d;
    assert s[0] == '-' && s[1..] == d;
  }

  /** The segments joined with `sep` between consecutive ones (JavaScript's `Array.prototype.join`). */
  function Join(segs: seq<string>, sep: string): string
  {
    if |segs| == 0 then ""
    else if |segs| == 1 then segs[0]
    else segs[0] + sep + Join(segs[1..], sep)
  }

  /** The pieces of `s` between occurrences of the character `sep`. */
  function Split(s: string, sep: char): (r: seq<string>)
    ensures |r| > 0
    decreases |s|
  {
    if |s| == 0 then [""]
    else
      var rest := Split(s[1..], sep);
      if s[0] == sep then [""] + rest
      else [[s[0]] + rest[0]] + rest[1..]
  }

  /** `c` does not occur in `s`. */
  predicate Free(s: string, c: char)
  {
    forall i :: 0 <= i < |s| ==> s[i] != c
  }

  lemma {:induction false} SplitPrefix(a: string, b: string, sep: char)
    requires Free(a, sep)
    ensures Split(a + [sep] + b, sep) == [a] + Split(b, sep)
    decreases |a|
  {
    if |a| == 0 {
      assert a + [sep] + b == [sep] + b;
      assert ([sep] + b)[1..] == b;
    } else {
      SplitPrefix(a[1..], b, sep);
      assert (a + [sep] + b)[1..] == a[1..] + [sep] + b;
      assert [a[0]] + a[1..] == a;
    }
  }

  lemma {:induction false} SplitFree(a: string, sep: char)
    requires Free(a, sep)
    ensures Split(a, sep) == [a]
    decreases |a|
  {
    if |a| > 0 {
      SplitFree(a[1..], sep);
      assert [a[0]] + a[1..] == a;
    }
  }

  /** Joining segments that do not contain the separator can be undone by splitting. */
  lemma {:induction false} SplitJoin(segs: seq<string>, sep: char)
    requires |segs| > 0
    requires forall i :: 0 <= i < |segs| ==> Free(segs[i], sep)
    ensures Split(Join(segs, [sep]), sep) == segs
    decreases |segs|
  {
    if |segs| == 1 {
      SplitFree(segs[0], sep);
    } else {
      SplitJoin(segs[1..], sep);
      SplitPrefix(segs[0], Join(segs[1..], [sep]), sep);
      assert [segs[0]] + segs[1..] == segs;
    }
  }
}
