/** The JavaScript string operations the request handlers rely on, on
    `string` = `seq<char>`: `startsWith`, `includes`, `replace` of the first
    occurrence, `split`, the regular expression `/[^0-9]/g`, number-to-string
    conversion and `parseInt`. */
module Text {
  import opened Wrappers

  /** `s.startsWith(p)`. */
  predicate StartsWith(s: string, p: string)
  {
    |p| <= |s| && s[..|p|] == p
  }

  /** `s.includes(sub)`, computed by scanning from the left. */
  predicate Contains(s: string, sub: string)
    decreases |s|
  {
    StartsWith(s, sub) || (|s| > 0 && Contains(s[1..], sub))
  }

  /** `sub` occurs in `s` at offset `i`. */
  predicate OccursAt(s: string, sub: string, i: int)
  {
    0 <= i <= |s| - |sub| && s[i..i + |sub|] == sub
  }

  /** `s.includes(sub)` holds exactly when `sub` occurs at some offset of `s`. */
  lemma {:induction false} ContainsIsOccurrence(s: string, sub: string)
    ensures Contains(s, sub) <==> exists i :: OccursAt(s, sub, i)
    decreases |s|
  {
    if StartsWith(s, sub) {
      assert OccursAt(s, sub, 0);
    } else if |s| > 0 {
      ContainsIsOccurrence(s[1..], sub);
      if Contains(s[1..], sub) {
        var i :| OccursAt(s[1..], sub, i);
        SliceOfTail(s, i, |sub|);
        assert OccursAt(s, sub, i + 1);
      } else {
        forall i | OccursAt(s, sub, i) ensures false {
          if i > 0 {
            SliceOfTail(s, i - 1, |sub|);
            assert OccursAt(s[1..], sub, i - 1);
          }
        }
      }
    }
  }

  /** A slice of the tail is the slice one position further on. */
  lemma SliceOfTail(s: string, j: nat, n: nat)
    requires j + n < |s|
    ensures s[1..][j..j + n] == s[j + 1..j + 1 + n]
  {
    var a, b := s[1..][j..j + n], s[j + 1..j + 1 + n];
    forall k | 0 <= k < n ensures a[k] == b[k] {
      assert a[k] == s[1..][j + k] == s[j + 1 + k];
    }
  }

  /** Every string includes itself and the empty string. */
  lemma ContainsSelf(s: string)
    ensures Contains(s, s) && Contains(s, "")
  {
    assert s[..|s|] == s;
  }

  /** Index of the first occurrence of `c`, as `indexOf` computes it. */
  function IndexOf(s: string, c: char): (r: Option<nat>)
    ensures r.Some? ==> r.value < |s| && s[r.value] == c && c !in s[..r.value]
    ensures r.None? <==> c !in s
  {
    if s == [] then None
    else if s[0] == c then Some(0)
    else match IndexOf(s[1..], c)
      case None => None
      case Some(k) =>
        assert s[..k + 1] == [s[0]] + s[1..][..k];
        Some(k + 1)
  }

  /** `s.replace(c, "")` with a one-character string pattern: only the first
      occurrence of `c` is removed. */
  function RemoveFirst(s: string, c: char): string
  {
    if s == [] then []
    else if s[0] == c then s[1..]
    else [s[0]] + RemoveFirst(s[1..], c)
  }

  /** `RemoveFirst` cuts out exactly the character that `indexOf` finds, and
      leaves a string without `c` unchanged. */
  lemma {:induction false} RemoveFirstCutsFirstOccurrence(s: string, c: char)
    ensures IndexOf(s, c).None? ==> RemoveFirst(s, c) == s
    ensures IndexOf(s, c).Some? ==>
              var k := IndexOf(s, c).value; RemoveFirst(s, c) == s[..k] + s[k + 1..]
  {
    if s != [] && s[0] != c {
      RemoveFirstCutsFirstOccurrence(s[1..], c);
      match IndexOf(s[1..], c)
      case None =>
      case Some(k) =>
        assert s[..k + 1] == [s[0]] + s[1..][..k];
        assert s[k + 2..] == s[1..][k + 1..];
    }
  }

  /** `s.split(sep)` for a one-character separator: the maximal pieces between
      separators, always at least one. */
  function Split(s: string, sep: char): (r: seq<string>)
    ensures |r| >= 1
    decreases |s|
  {
    match IndexOf(s, sep)
    case None => [s]
    case Some(i) => [s[..i]] + Split(s[i + 1..], sep)
  }

  /** `pieces.join(sep)`. */
  function Join(pieces: seq<string>, sep: char): string
  {
    if |pieces| == 0 then ""
    else if |pieces| == 1 then pieces[0]
    else pieces[0] + [sep] + Join(pieces[1..], sep)
  }

  /** `split` loses nothing: joining the pieces with the separator gives the
      input back, and no piece contains the separator. */
  lemma {:induction false} SplitJoinRoundTrip(s: string, sep: char)
    ensures Join(Split(s, sep), sep) == s
    ensures forall k :: 0 <= k < |Split(s, sep)| ==> sep !in Split(s, sep)[k]
    decreases |s|
  {
    match IndexOf(s, sep)
    case None =>
    case Some(i) =>
      var rest := Split(s[i + 1..], sep);
      SplitJoinRoundTrip(s[i + 1..], sep);
      assert Split(s, sep) == [s[..i]] + rest;
      assert ([s[..i]] + rest)[1..] == rest;
      assert s == s[..i] + [sep] + s[i + 1..];
      forall k | 0 <= k < |Split(s, sep)| ensures sep !in Split(s, sep)[k] {
        if k > 0 { assert Split(s, sep)[k] == rest[k - 1]; }
      }
  }

  /** A string without the separator is a single piece. */
  lemma SplitSingle(s: string, sep: char)
    requires sep !in s
    ensures Split(s, sep) == [s]
  {
  }

  /** The first piece of `p + rest`, when `p` has no separator and `rest`
      is empty or starts with one, is `p`. */
  lemma SplitHead(p: string, sep: char, rest: string)
    requires sep !in p && (rest == "" || rest[0] == sep)
    ensures Split(p + rest, sep)[0] == p
  {
    if rest == "" {
      assert p + rest == p;
      SplitSingle(p, sep);
    } else {
      assert p + rest == p + [sep] + rest[1..];
      SplitAfterPiece(p, sep, rest[1..]);
    }
  }

  /** Splitting at the first separator, found at index `i`. */
  lemma SplitAt(s: string, sep: char, i: nat)
    requires i < |s| && s[i] == sep && sep !in s[..i]
    ensures Split(s, sep) == [s[..i]] + Split(s[i + 1..], sep)
  {
  }

  /** Splitting `p + [sep] + rest` where `p` has no separator yields `p`
      followed by the pieces of `rest`. */
  lemma SplitAfterPiece(p: string, sep: char, rest: string)
    requires sep !in p
    ensures Split(p + [sep] + rest, sep) == [p] + Split(rest, sep)
  {
    var s := p + [sep] + rest;
    assert s[|p|] == sep;
    assert s[..|p|] == p;
    assert s[|p| + 1..] == rest;
    assert sep !in s[..|p|];
  }

  predicate IsDigit(c: char)
  {
    '0' <= c <= '9'
  }

  predicate AllDigits(s: string)
  {
    forall i :: 0 <= i < |s| ==> IsDigit(s[i])
  }

  /** Two digit strings concatenate to a digit string. */
  lemma AllDigitsAppend(a: string, b: string)
    requires AllDigits(a) && AllDigits(b)
    ensures AllDigits(a + b)
  {
    forall i | 0 <= i < |a + b| ensures IsDigit((a + b)[i]) {
      if i < |a| { assert (a + b)[i] == a[i]; } else { assert (a + b)[i] == b[i - |a|]; }
    }
  }

  /** `s.replace(/[^0-9]/g, "")`: the ASCII digits of `s`, in order. */
  function DigitsOf(s: string): (r: string)
    ensures AllDigits(r) && |r| <= |s|
  {
    if s == [] then ""
    else if IsDigit(s[0]) then [s[0]] + DigitsOf(s[1..])
    else DigitsOf(s[1..])
  }

  /** The digits kept are exactly the digits of `s`. */
  lemma {:induction false} DigitsOfMembers(s: string)
    ensures forall c :: c in DigitsOf(s) <==> c in s && IsDigit(c)
  {
    if s != [] {
      DigitsOfMembers(s[1..]);
      assert s == [s[0]] + s[1..];
    }
  }

  lemma {:induction false} DigitsOfAppend(a: string, b: string)
    ensures DigitsOf(a + b) == DigitsOf(a) + DigitsOf(b)
  {
    if a == [] {
      assert a + b == b;
    } else {
      assert (a + b)[1..] == a[1..] + b;
      DigitsOfAppend(a[1..], b);
    }
  }

  lemma {:induction false} DigitsOfDigits(d: string)
    requires AllDigits(d)
    ensures DigitsOf(d) == d
  {
    if d != [] {
      DigitsOfDigits(d[1..]);
    }
  }

  lemma {:induction false} NoDigits(s: string)
    requires forall i :: 0 <= i < |s| ==> !IsDigit(s[i])
    ensures DigitsOf(s) == ""
  {
    if s != [] {
      NoDigits(s[1..]);
    }
  }

  function DigitValue(c: char): (d: nat)
    requires IsDigit(c)
    ensures d < 10
  {
    c as int - '0' as int
  }

  function DigitChar(d: nat): (c: char)
    requires d < 10
    ensures IsDigit(c) && DigitValue(c) == d
  {
    ('0' as int + d) as char
  }

  /** The value of a string of decimal digits (most significant first). */
  function DecimalValue(s: string): nat
    requires AllDigits(s)
  {
    if s == [] then 0 else DecimalValue(s[..|s| - 1]) * 10 + DigitValue(s[|s| - 1])
  }

  /** `${n}` for a non-negative integer: its decimal digits. */
  function NatToString(n: nat): (r: string)
    ensures AllDigits(r) && |r| >= 1
  {
    if n < 10 then [DigitChar(n)] else NatToString(n / 10) + [DigitChar(n % 10)]
  }

  /** Reading back the decimal text of `n` gives `n`. */
  lemma {:induction false} NatToStringRoundTrip(n: nat)
    ensures DecimalValue(NatToString(n)) == n
  {
    var s := NatToString(n);
    if n >= 10 {
      NatToStringRoundTrip(n / 10);
      assert s[..|s| - 1] == NatToString(n / 10);
    } else {
      assert s[..|s| - 1] == [];
    }
  }

  /** Different numbers print differently. */
  lemma NatToStringInjective(a: nat, b: nat)
    requires NatToString(a) == NatToString(b)
    ensures a == b
  {
    NatToStringRoundTrip(a);
    NatToStringRoundTrip(b);
  }

  /** The characters `parseInt` skips before the number: ECMAScript's
      WhiteSpace and LineTerminator code points. */
  predicate IsJsSpace(c: char)
  {
    c == '\t' || c == '\n' || c == '\U{B}' || c == '\U{C}' || c == '\r' || c == ' ' ||
    c == '\U{A0}' || c == '\U{1680}' || ('\U{2000}' <= c <= '\U{200A}') ||
    c == '\U{2028}' || c == '\U{2029}' || c == '\U{202F}' || c == '\U{205F}' ||
    c == '\U{3000}' || c == '\U{FEFF}'
  }

  function TrimStart(s: string): (r: string)
    ensures |r| <= |s| && r == s[|s| - |r|..]
    ensures r != [] ==> !IsJsSpace(r[0])
  {
    if s != [] && IsJsSpace(s[0]) then TrimStart(s[1..]) else s
  }

  /** The longest prefix of `s` made of characters satisfying `digit`. */
  function TakeWhile(s: string, digit: char -> bool): (r: string)
    ensures |r| <= |s| && r == s[..|r|]
    ensures forall i :: 0 <= i < |r| ==> digit(r[i])
    ensures |r| < |s| ==> !digit(s[|r|])
  {
    if s != [] && digit(s[0]) then [s[0]] + TakeWhile(s[1..], digit) else ""
  }

  predicate IsHexDigit(c: char)
  {
    IsDigit(c) || ('a' <= c <= 'f') || ('A' <= c <= 'F')
  }

  function HexDigitValue(c: char): (d: nat)
    requires IsHexDigit(c)
    ensures d < 16
  {
    if IsDigit(c) then DigitValue(c)
    else if 'a' <= c <= 'f' then c as int - 'a' as int + 10
    else c as int - 'A' as int + 10
  }

  function HexValue(s: string): nat
    requires forall i :: 0 <= i < |s| ==> IsHexDigit(s[i])
  {
    if s == [] then 0 else HexValue(s[..|s| - 1]) * 16 + HexDigitValue(s[|s| - 1])
  }

  /** The text after an optional leading sign. */
  function StripSign(t: string): string
  {
    if |t| > 0 && (t[0] == '-' || t[0] == '+') then t[1..] else t
  }

  function SignOf(t: string): int
  {
    if |t| > 0 && t[0] == '-' then -1 else 1
  }

  /** The unsigned part of `parseInt`: a `0x`/`0X` prefix switches to base 16,
      and the longest run of digits that follows is the number. */
  function ParseMagnitude(u: string): Option<nat>
  {
    if |u| >= 2 && u[0] == '0' && (u[1] == 'x' || u[1] == 'X') then
      var z := TakeWhile(u[2..], IsHexDigit);
      if z == "" then None else Some(HexValue(z))
    else
      var z := TakeWhile(u, IsDigit);
      if z == "" then None else Some(DecimalValue(z))
  }

  /** `parseInt(s)` with the radix omitted, on the integers (`None` is NaN):
      leading white space is skipped, one sign is read, then the magnitude;
      no digit at all gives NaN. */
  function ParseInt(s: string): (r: Option<int>)
    ensures TrimStart(s) == "" ==> r.None?
    ensures r.Some? && r.value < 0 ==> TrimStart(s)[0] == '-'
  {
    var t := TrimStart(s);
    match ParseMagnitude(StripSign(t))
    case None => None
    case Some(m) => Some(SignOf(t) * m)
  }

  /** On a string of decimal digits followed by a non-digit (or nothing),
      `parseInt` reads exactly those digits. */
  lemma ParseIntOfDigits(d: string, rest: string)
    requires d != "" && AllDigits(d)
    requires rest != "" ==> !IsDigit(rest[0])
    requires d == "0" && rest != "" ==> rest[0] != 'x' && rest[0] != 'X'
    ensures ParseInt(d + rest) == Some(DecimalValue(d))
  {
    var s := d + rest;
    assert s[0] == d[0];
    assert !IsJsSpace(s[0]);
    assert TrimStart(s) == s;
    assert StripSign(s) == s && SignOf(s) == 1;
    assert !(|s| >= 2 && s[0] == '0' && (s[1] == 'x' || s[1] == 'X')) by {
      if |s| >= 2 && s[0] == '0' {
        if |d| == 1 { assert d == "0" && s[1] == rest[0]; } else { assert s[1] == d[1]; }
      }
    }
    TakeWhileOfPrefix(d, rest);
    assert ParseMagnitude(s) == Some(DecimalValue(d));
  }

  lemma {:induction false} TakeWhileOfPrefix(d: string, rest: string)
    requires AllDigits(d)
    requires rest != "" ==> !IsDigit(rest[0])
    ensures TakeWhile(d + rest, IsDigit) == d
  {
    if d != "" {
      assert (d + rest)[1..] == d[1..] + rest;
      TakeWhileOfPrefix(d[1..], rest);
    } else {
      assert d + rest == rest;
    }
  }

  /** The leading integer of a label `${n}p...` is `n`. */
  lemma ParseIntOfHeightLabel(n: nat, rest: string)
    requires rest != "" ==> !IsDigit(rest[0])
    requires n == 0 && rest != "" ==> rest[0] != 'x' && rest[0] != 'X'
    ensures ParseInt(NatToString(n) + rest) == Some(n)
  {
    NatToStringRoundTrip(n);
    assert NatToString(n) == "0" ==> n == 0 by {
      assert DecimalValue("0") == 0;
    }
    ParseIntOfDigits(NatToString(n), rest);
  }
}
