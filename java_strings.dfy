/**
 * The java.lang string operations the transfer routes depend on:
 * String.replace(CharSequence, CharSequence), String.split with a one-character
 * separator, Long.toString and Long.valueOf, stated over `seq<char>`.
 */
module JavaStrings {
  import opened Wrappers

  const LONG_MIN: int := -0x8000_0000_0000_0000
  const LONG_MAX: int := 0x7fff_ffff_ffff_ffff

  predicate IsLong(n: int) { LONG_MIN <= n <= LONG_MAX }

  predicate StartsWith(s: string, prefix: string)
  {
    |prefix| <= |s| && s[..|prefix|] == prefix
  }

  /** `t` occurs in `s` starting at index `i`. */
  predicate OccursAt(s: string, t: string, i: int)
  {
    0 <= i && i + |t| <= |s| && s[i..i + |t|] == t
  }

  /**
   * String.replace: every non-overlapping occurrence of `t`, found from left to
   * right, is replaced by `r`.
   */
  function Replace(s: string, t: string, r: string): string
    requires |t| > 0
    decreases |s|
  {
    if |s| < |t| then s
    else if s[..|t|] == t then r + Replace(s[|t|..], t, r)
    else [s[0]] + Replace(s[1..], t, r)
  }

  /** Replacing in a string where `t` does not occur gives the string back. */
  lemma {:induction false} ReplaceAbsent(s: string, t: string, r: string)
    requires |t| > 0
    requires forall i :: 0 <= i <= |s| - |t| ==> !OccursAt(s, t, i)
    ensures Replace(s, t, r) == s
  {
    if |s| >= |t| {
      assert !OccursAt(s, t, 0);
      forall i | 0 <= i <= |s[1..]| - |t| ensures !OccursAt(s[1..], t, i) {
        assert !OccursAt(s, t, i + 1);
        assert s[1..][i..i + |t|] == s[i + 1..i + 1 + |t|];
      }
      ReplaceAbsent(s[1..], t, r);
    }
  }

  /** A leading occurrence of `t` is replaced, and the rest is processed on its own. */
  lemma ReplaceLeading(t: string, rest: string, r: string)
    requires |t| > 0
    ensures Replace(t + rest, t, r) == r + Replace(rest, t, r)
  {
    assert (t + rest)[..|t|] == t;
    assert (t + rest)[|t|..] == rest;
  }

  /** A first character that cannot start `t` is kept. */
  lemma ReplaceKeepsHead(s: string, t: string, r: string)
    requires |t| > 0 && |s| > 0 && s[0] != t[0]
    ensures Replace(s, t, r) == [s[0]] + Replace(s[1..], t, r)
  {
    if |s| < |t| {
      assert s == [s[0]] + s[1..];
      ReplaceAbsent(s[1..], t, r);
      ReplaceAbsent(s, t, r);
    } else {
      assert s[..|t|][0] == s[0];
    }
  }

  /** Every piece between separators, empty ones included: `|SplitAll(s)|` is one more than the separator count. */
  function SplitAll(s: string, sep: char): (pieces: seq<string>)
    ensures |pieces| >= 1
    ensures forall k :: 0 <= k < |pieces| ==> sep !in pieces[k]
    decreases |s|
  {
    if s == [] then [[]]
    else if s[0] == sep then [[]] + SplitAll(s[1..], sep)
    else
      var tail := SplitAll(s[1..], sep);
      [[s[0]] + tail[0]] + tail[1..]
  }

  /** Joining the pieces with the separator gives the string back. */
  function Join(pieces: seq<string>, sep: char): string
    requires |pieces| >= 1
  {
    if |pieces| == 1 then pieces[0] else pieces[0] + [sep] + Join(pieces[1..], sep)
  }

  lemma {:induction false} JoinSplitAll(s: string, sep: char)
    ensures Join(SplitAll(s, sep), sep) == s
    decreases |s|
  {
    if s == [] {
    } else if s[0] == sep {
      JoinSplitAll(s[1..], sep);
      assert s == [] + [sep] + s[1..];
    } else {
      JoinSplitAll(s[1..], sep);
      var tail := SplitAll(s[1..], sep);
      assert tail == [tail[0]] + tail[1..];
      if |tail| == 1 {
        assert s == [s[0]] + s[1..];
      } else {
        assert Join(tail, sep) == tail[0] + [sep] + Join(tail[1..], sep);
        assert s == [s[0]] + s[1..];
      }
    }
  }

  /** A string without the separator is one piece. */
  lemma {:induction false} SplitAllNoSeparator(s: string, sep: char)
    requires sep !in s
    ensures SplitAll(s, sep) == [s]
    decreases |s|
  {
    if s != [] {
      SplitAllNoSeparator(s[1..], sep);
      assert s == [s[0]] + s[1..];
    }
  }

  /** The text before the first separator is the first piece. */
  lemma {:induction false} SplitAllFirst(a: string, sep: char, b: string)
    requires sep !in a
    ensures SplitAll(a + [sep] + b, sep) == [a] + SplitAll(b, sep)
    decreases |a|
  {
    if a == [] {
      assert a + [sep] + b == [sep] + b;
      assert ([sep] + b)[1..] == b;
    } else {
      SplitAllFirst(a[1..], sep, b);
      assert (a + [sep] + b)[1..] == a[1..] + [sep] + b;
      assert a == [a[0]] + a[1..];
    }
  }

  /** Drops the empty pieces at the end, as String.split does. */
  function StripTrailingEmpty(pieces: seq<string>): seq<string>
    decreases |pieces|
  {
    if pieces == [] then []
    else if pieces[|pieces| - 1] == [] then StripTrailingEmpty(pieces[..|pieces| - 1])
    else pieces
  }

  /** A non-empty piece at index k keeps every piece up to k. */
  lemma {:induction false} StripTrailingKeeps(pieces: seq<string>, k: nat)
    requires k < |pieces| && pieces[k] != []
    ensures |StripTrailingEmpty(pieces)| > k
    ensures StripTrailingEmpty(pieces)[..k + 1] == pieces[..k + 1]
    decreases |pieces|
  {
    if pieces[|pieces| - 1] == [] {
      assert k < |pieces| - 1;
      StripTrailingKeeps(pieces[..|pieces| - 1], k);
    }
  }

  /**
   * String.split with the regular expression "\\/" (or any one literal
   * character): a string without the separator is returned whole; otherwise
   * the pieces with the trailing empty ones removed.
   */
  function Split(s: string, sep: char): (pieces: seq<string>)
    ensures sep !in s ==> pieces == [s]
  {
    if sep !in s then [s] else StripTrailingEmpty(SplitAll(s, sep))
  }

  /** Three slash-free pieces, the last non-empty, split back into themselves. */
  lemma SplitThree(a: string, b: string, c: string, sep: char)
    requires sep !in a && sep !in b && sep !in c && c != []
    ensures Split(a + [sep] + b + [sep] + c, sep) == [a, b, c]
  {
    var s := a + [sep] + b + [sep] + c;
    assert s == a + [sep] + (b + [sep] + c);
    assert s[|a|] == sep;
    SplitAllFirst(a, sep, b + [sep] + c);
    SplitAllFirst(b, sep, c);
    SplitAllNoSeparator(c, sep);
    assert SplitAll(s, sep) == [a, b, c];
  }

  function DigitChar(d: int): char
    requires 0 <= d < 10
  {
    ['0', '1', '2', '3', '4', '5', '6', '7', '8', '9'][d]
  }

  predicate IsDigitChar(c: char) { '0' <= c <= '9' }

  function DigitValue(c: char): int
    requires IsDigitChar(c)
  {
    (c as int) - ('0' as int)
  }

  lemma DigitRoundTrip(d: int)
    requires 0 <= d < 10
    ensures IsDigitChar(DigitChar(d)) && DigitValue(DigitChar(d)) == d
  {
  }

  /** The decimal digits of a natural number, without leading zeros. */
  function NatText(n: nat): (s: string)
    ensures |s| >= 1 && forall k :: 0 <= k < |s| ==> IsDigitChar(s[k])
  {
    if n < 10 then [DigitChar(n)] else NatText(n / 10) + [DigitChar(n % 10)]
  }

  /** Long.toString */
  function LongText(n: int): string
  {
    if n < 0 then "-" + NatText(-n) else NatText(n)
  }

  lemma LongTextHasNoSlash(n: int)
    ensures '/' !in LongText(n)
  {
    var s := LongText(n);
    var d := NatText(if n < 0 then -n else n);
    assert s == (if n < 0 then "-" + d else d);
    forall k | 0 <= k < |s| ensures s[k] != '/' {
      if n < 0 && k > 0 {
        assert s[k] == d[k - 1];
      }
    }
  }

  /** The value of a string of decimal digits. */
  function DigitsValue(s: string): nat
    requires forall k :: 0 <= k < |s| ==> IsDigitChar(s[k])
  {
    if s == [] then 0 else DigitsValue(s[..|s| - 1]) * 10 + DigitValue(s[|s| - 1])
  }

  lemma {:induction false} DigitsOfNatText(n: nat)
    ensures DigitsValue(NatText(n)) == n
  {
    if n >= 10 {
      DigitsOfNatText(n / 10);
      var s := NatText(n);
      assert s[..|s| - 1] == NatText(n / 10);
      DigitRoundTrip(n % 10);
    } else {
      DigitRoundTrip(n);
    }
  }

  predicate AllDigits(s: string)
  {
    forall k :: 0 <= k < |s| ==> IsDigitChar(s[k])
  }

  /**
   * Long.valueOf / Long.parseLong in radix 10, restricted to ASCII digits: an
   * optional sign followed by at least one digit, and a value within the
   * 64-bit range. (The JDK also accepts other Unicode decimal digits.)
   */
  function ParseLong(s: string): (r: Result<int>)
    ensures r.Ok? ==> IsLong(r.value)
  {
    if s == [] then Err(NumberFormat)
    else
      var negative := s[0] == '-';
      var digits := if s[0] == '-' || s[0] == '+' then s[1..] else s;
      if digits == [] || !AllDigits(digits) then Err(NumberFormat)
      else
        var magnitude: int := DigitsValue(digits);
        var v := if negative then -magnitude else magnitude;
        if IsLong(v) then Ok(v) else Err(NumberFormat)
  }

  /** Long.valueOf(Long.toString(n)) == n for every 64-bit value. */
  lemma LongTextRoundTrip(n: int)
    requires IsLong(n)
    ensures ParseLong(LongText(n)) == Ok(n)
  {
    if n < 0 {
      DigitsOfNatText(-n);
      assert ("-" + NatText(-n))[1..] == NatText(-n);
    } else {
      DigitsOfNatText(n);
      assert NatText(n)[0] != '-' && NatText(n)[0] != '+';
    }
  }
}
