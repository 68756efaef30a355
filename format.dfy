/** The pieces of Python string formatting the model relies on: `str(n)` of
    an integer, the format spec `03d`, and `"\n".join` / `str.split("\n")`.
    Each formatter comes with the parser that undoes it. */
module Format {
  import opened Common

  predicate IsDigit(c: char) { '0' <= c <= '9' }

  predicate AllDigits(s: string) { forall i :: 0 <= i < |s| ==> IsDigit(s[i]) }

  function DigitChar(d: nat): (c: char)
    requires d < 10
    ensures IsDigit(c) && c as int - '0' as int == d
  {
    ('0' as int + d) as char
  }

  /** Python's `str(n)` for a natural number. */
  function NatToString(n: nat): (s: string)
    ensures |s| >= 1 && AllDigits(s)
    ensures s[0] == '0' ==> n == 0  // no leading zero
  {
    if n < 10 then [DigitChar(n)] else NatToString(n / 10) + [DigitChar(n % 10)]
  }

  /** Python's `str(i)` for any integer. */
  function IntToString(i: int): string
  {
    if i < 0 then "-" + NatToString(-i) else NatToString(i)
  }

  /** The value of a string of decimal digits; leading zeros are allowed. */
  function DigitsValue(s: string): nat
    requires AllDigits(s)
  {
    if s == [] then 0 else DigitsValue(s[..|s| - 1]) * 10 + (s[|s| - 1] as int - '0' as int)
  }

  /** Python's `int(s)` restricted to an optional '-' followed by digits. */
  function ParseInt(s: string): Option<int>
  {
    if |s| > 1 && s[0] == '-' && AllDigits(s[1..]) then Some(0 - DigitsValue(s[1..]))
    else if |s| > 0 && AllDigits(s) then Some(DigitsValue(s))
    else None
  }

  function Zeros(k: nat): (z: string)
    ensures |z| == k && AllDigits(z)
    ensures forall j :: 0 <= j < k ==> z[j] == '0'
  {
    seq(k, _ => '0')
  }

  /** Left padding with '0' up to `width` characters. */
  function ZeroPad(s: string, width: nat): string
  {
    if |s| >= width then s else Zeros(width - |s|) + s
  }

  /** Python's `format(i, "03d")`: at least three characters, the zero
      padding placed after a minus sign ("007", "123", "1234", "-07"). */
  function Pad3(i: int): (r: string)
    ensures |r| >= 3
  {
    if i < 0 then "-" + ZeroPad(NatToString(-i), 2) else ZeroPad(NatToString(i), 3)
  }

  /** Python's `"\n".join(lines)`: it starts with the first line, a
      newline follows it when more lines come, and it is at least
      `|lines| - 1` characters long (`SplitJoinLines` reads it back). */
  function JoinLines(lines: seq<string>): (r: string)
    ensures lines == [] ==> r == ""
    ensures lines != [] ==> lines[0] <= r
    ensures |lines| > 1 ==> |lines[0]| < |r| && r[|lines[0]|] == '\n'
    ensures |r| >= |lines| - 1
  {
    if lines == [] then ""
    else if |lines| == 1 then lines[0]
    else lines[0] + ("\n" + JoinLines(lines[1..]))
  }

  /** Python's `s.split("\n")`: the pieces between newlines, always at least one. */
  function SplitLines(s: string): (pieces: seq<string>)
    ensures |pieces| >= 1
  {
    if s == [] then [""]
    else
      var rest := SplitLines(s[1..]);
      if s[0] == '\n' then [""] + rest else [[s[0]] + rest[0]] + rest[1..]
  }

  predicate NoNewline(s: string) { forall i :: 0 <= i < |s| ==> s[i] != '\n' }

  lemma {:induction false} NatToStringRoundTrip(n: nat)
    ensures DigitsValue(NatToString(n)) == n
  {
    if n >= 10 {
      var s := NatToString(n);
      assert s[..|s| - 1] == NatToString(n / 10);
      NatToStringRoundTrip(n / 10);
    }
  }

  lemma {:induction false} ZerosValue(k: nat)
    ensures DigitsValue(Zeros(k)) == 0
  {
    if k > 0 {
      assert Zeros(k)[..k - 1] == Zeros(k - 1);
      ZerosValue(k - 1);
    }
  }

  /** Leading zeros do not change the value of a digit string. */
  lemma {:induction false} LeadingZerosValue(k: nat, s: string)
    requires AllDigits(s)
    ensures AllDigits(Zeros(k) + s) && DigitsValue(Zeros(k) + s) == DigitsValue(s)
  {
    var z := Zeros(k) + s;
    assert AllDigits(z) by {
      forall i | 0 <= i < |z| ensures IsDigit(z[i]) {
        if i >= k { assert z[i] == s[i - k]; }
      }
    }
    if s == [] {
      assert z == Zeros(k);
      ZerosValue(k);
    } else {
      assert z[..|z| - 1] == Zeros(k) + s[..|s| - 1];
      LeadingZerosValue(k, s[..|s| - 1]);
    }
  }

  lemma ZeroPadValue(s: string, width: nat)
    requires AllDigits(s)
    ensures var p := ZeroPad(s, width);
      |p| >= width && |p| >= |s| && AllDigits(p) && DigitsValue(p) == DigitsValue(s)
  {
    if |s| < width { LeadingZerosValue(width - |s|, s); }
  }

  /** `int(str(i)) == i`. */
  lemma IntToStringRoundTrip(i: int)
    ensures ParseInt(IntToString(i)) == Some(i)
  {
    if i < 0 {
      NatToStringRoundTrip(-i);
      ParseNegative(NatToString(-i));
    } else {
      NatToStringRoundTrip(i);
      ParseDigits(NatToString(i));
    }
  }

  /** `int(format(i, "03d")) == i`, and the text is at least three characters
      long; so different integers never format alike. */
  lemma Pad3RoundTrip(i: int)
    ensures |Pad3(i)| >= 3
    ensures ParseInt(Pad3(i)) == Some(i)
  {
    var digits := NatToString(if i < 0 then -i else i);
    NatToStringRoundTrip(if i < 0 then -i else i);
    if i < 0 {
      ZeroPadValue(digits, 2);
      ParseNegative(ZeroPad(digits, 2));
    } else {
      ZeroPadValue(digits, 3);
      ParseDigits(ZeroPad(digits, 3));
    }
  }

  /** A minus sign followed by digits reads back as the negated value. */
  lemma ParseNegative(s: string)
    requires |s| >= 1 && AllDigits(s)
    ensures ParseInt("-" + s) == Some(0 - DigitsValue(s))
  {
    assert ("-" + s)[1..] == s;
  }

  /** A non-empty digit string reads back as its value. */
  lemma ParseDigits(s: string)
    requires |s| >= 1 && AllDigits(s)
    ensures ParseInt(s) == Some(DigitsValue(s))
  {
    assert IsDigit(s[0]);
  }

  lemma Pad3Injective(i: int, j: int)
    requires Pad3(i) == Pad3(j)
    ensures i == j
  {
    Pad3RoundTrip(i);
    Pad3RoundTrip(j);
  }

  /** The concatenation of `pieces[from..]`. */
  function Concat(pieces: seq<string>, from: nat := 0): string
    decreases |pieces| - from
  {
    if from >= |pieces| then "" else pieces[from] + Concat(pieces, from + 1)
  }

  lemma NoNewlineAppend(a: string, b: string)
    requires NoNewline(a) && NoNewline(b)
    ensures NoNewline(a + b)
  {
    forall i | 0 <= i < |a + b| ensures (a + b)[i] != '\n' {
      if i >= |a| { assert (a + b)[i] == b[i - |a|]; }
    }
  }

  /** The concatenation starts with its first piece. */
  lemma ConcatStartsWithFirst(pieces: seq<string>)
    requires pieces != []
    ensures pieces[0] <= Concat(pieces)
  {
    assert Concat(pieces) == pieces[0] + Concat(pieces, 1);
  }

  lemma {:induction false} ConcatNoNewline(pieces: seq<string>, from: nat := 0)
    requires forall j :: from <= j < |pieces| ==> NoNewline(pieces[j])
    ensures NoNewline(Concat(pieces, from))
    decreases |pieces| - from
  {
    if from < |pieces| {
      ConcatNoNewline(pieces, from + 1);
      NoNewlineAppend(pieces[from], Concat(pieces, from + 1));
    }
  }

  /** Splitting text that starts with a newline-free piece `x`. */
  lemma {:induction false} SplitAfterPiece(x: string, t: string)
    requires NoNewline(x)
    ensures SplitLines(x + t) == [x + SplitLines(t)[0]] + SplitLines(t)[1..]
  {
    if x == [] {
      assert x + t == t;
      assert x + SplitLines(t)[0] == SplitLines(t)[0];
    } else {
      assert (x + t)[1..] == x[1..] + t;
      assert (x + t)[0] == x[0];
      SplitAfterPiece(x[1..], t);
      assert [x[0]] + (x[1..] + SplitLines(t)[0]) == x + SplitLines(t)[0];
    }
  }

  /** `"\n".join(lines).split("\n") == lines` for a non-empty list of lines
      that contain no newline. */
  lemma {:induction false} SplitJoinLines(lines: seq<string>)
    requires |lines| >= 1
    requires forall i :: 0 <= i < |lines| ==> NoNewline(lines[i])
    ensures SplitLines(JoinLines(lines)) == lines
  {
    if |lines| == 1 {
      SplitAfterPiece(lines[0], "");
      assert lines[0] + "" == lines[0];
    } else {
      var rest := JoinLines(lines[1..]);
      assert JoinLines(lines) == lines[0] + ("\n" + rest);
      SplitAfterPiece(lines[0], "\n" + rest);
      assert ("\n" + rest)[1..] == rest;
      SplitJoinLines(lines[1..]);
      assert SplitLines("\n" + rest) == [""] + lines[1..];
      assert lines[0] + "" == lines[0];
      assert lines == [lines[0]] + lines[1..];
    }
  }
}
