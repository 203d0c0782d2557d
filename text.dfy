/** The few `java.lang.String` operations the services rely on, restricted to ASCII:
    `trim`, `isEmpty`, `toUpperCase`, `toLowerCase`, `contains`, `equalsIgnoreCase`,
    and the text form of a random UUID. */
module Text {

  predicate IsDigit(c: char) { '0' <= c <= '9' }

  predicate IsLowerHex(c: char) { IsDigit(c) || 'a' <= c <= 'f' }

  predicate IsUpperHex(c: char) { IsDigit(c) || 'A' <= c <= 'F' }

  predicate AllDigits(s: string) { forall i :: 0 <= i < |s| ==> IsDigit(s[i]) }

  function ToUpperChar(c: char): char
  {
    if 'a' <= c <= 'z' then ((c as int) - 32) as char else c
  }

  function ToLowerChar(c: char): char
  {
    if 'A' <= c <= 'Z' then ((c as int) + 32) as char else c
  }

  /** `String.toUpperCase()` on ASCII text. */
  function ToUpper(s: string): (r: string)
    ensures |r| == |s|
    ensures forall i :: 0 <= i < |s| ==> r[i] == ToUpperChar(s[i])
  {
    seq(|s|, i requires 0 <= i < |s| => ToUpperChar(s[i]))
  }

  /** `String.toLowerCase()` on ASCII text. */
  function ToLower(s: string): (r: string)
    ensures |r| == |s|
    ensures forall i :: 0 <= i < |s| ==> r[i] == ToLowerChar(s[i])
  {
    seq(|s|, i requires 0 <= i < |s| => ToLowerChar(s[i]))
  }

  /** Upper-casing maps a lower-case hex digit to an upper-case one. */
  lemma UpperOfLowerHex(c: char)
    requires IsLowerHex(c)
    ensures IsUpperHex(ToUpperChar(c))
  {
  }

  /** `String.trim()`: drops every leading and trailing character at or below U+0020. */
  function Trim(s: string): string
  {
    DropTrailing(DropLeading(s))
  }

  function DropLeading(s: string): (r: string)
    ensures |r| <= |s|
    ensures |r| == 0 || r[0] > ' '
  {
    if |s| > 0 && s[0] <= ' ' then DropLeading(s[1..]) else s
  }

  function DropTrailing(s: string): (r: string)
    ensures |r| <= |s|
  {
    if |s| > 0 && s[|s| - 1] <= ' ' then DropTrailing(s[..|s| - 1]) else s
  }

  /** Blank in the sense of `s.trim().isEmpty()` (also what `@NotBlank` tests). */
  predicate IsBlank(s: string)
  {
    |Trim(s)| == 0
  }

  lemma {:induction false} DropLeadingEmpty(s: string)
    ensures |DropLeading(s)| == 0 <==> forall i :: 0 <= i < |s| ==> s[i] <= ' '
  {
    if |s| > 0 && s[0] <= ' ' {
      DropLeadingEmpty(s[1..]);
      assert forall i :: 1 <= i < |s| ==> s[i] == s[1..][i - 1];
    }
  }

  lemma {:induction false} DropTrailingEmpty(s: string)
    requires |s| == 0 || s[0] > ' '
    ensures |DropTrailing(s)| == 0 <==> |s| == 0
  {
    if |s| > 0 && s[|s| - 1] <= ' ' {
      DropTrailingEmpty(s[..|s| - 1]);
    }
  }

  /** A string is blank exactly when it holds only characters at or below U+0020. */
  lemma BlankIffAllSpace(s: string)
    ensures IsBlank(s) <==> forall i :: 0 <= i < |s| ==> s[i] <= ' '
  {
    DropLeadingEmpty(s);
    DropTrailingEmpty(DropLeading(s));
  }

  predicate IsPrefix(t: string, s: string)
  {
    |t| <= |s| && s[..|t|] == t
  }

  /** `s.contains(t)`. */
  predicate Contains(s: string, t: string)
    decreases |s|
  {
    IsPrefix(t, s) || (|s| > 0 && Contains(s[1..], t))
  }

  /** `contains` finds `t` exactly when it occurs at some position of `s`. */
  lemma {:induction false} ContainsIffOccurs(s: string, t: string)
    ensures Contains(s, t) <==> exists k :: 0 <= k <= |s| - |t| && IsPrefix(t, s[k..])
    decreases |s|
  {
    assert s[0..] == s;
    if |s| > 0 {
      ContainsIffOccurs(s[1..], t);
      if Contains(s[1..], t) {
        var k :| 0 <= k <= |s| - 1 - |t| && IsPrefix(t, s[1..][k..]);
        assert s[1..][k..] == s[k + 1..];
      }
      if k :| 0 <= k <= |s| - |t| && IsPrefix(t, s[k..]) {
        if k > 0 {
          assert s[1..][k - 1..] == s[k..];
        }
      }
    } else {
      if k :| 0 <= k <= |s| - |t| && IsPrefix(t, s[k..]) {
        assert k == 0;
      }
    }
  }

  /** Every string contains the empty string, so an empty search term filters nothing. */
  lemma ContainsEmpty(s: string)
    ensures Contains(s, "")
  {
    assert IsPrefix("", s);
  }

  /** `a.equalsIgnoreCase(b)` on ASCII text. */
  predicate EqualsIgnoreCase(a: string, b: string)
  {
    ToLower(a) == ToLower(b)
  }

  /** `s.toLowerCase().contains(t.toLowerCase())`. */
  predicate ContainsIgnoreCase(s: string, t: string)
  {
    Contains(ToLower(s), ToLower(t))
  }

  /** The text of `UUID.randomUUID().toString()`: 8-4-4-4-12 lower-case hex digits. */
  predicate IsUuidText(s: string)
  {
    && |s| == 36
    && (forall i :: 0 <= i < 36 && (i == 8 || i == 13 || i == 18 || i == 23) ==> s[i] == '-')
    && (forall i :: 0 <= i < 36 && i != 8 && i != 13 && i != 18 && i != 23 ==> IsLowerHex(s[i]))
  }
}
