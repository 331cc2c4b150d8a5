/** Complaint identifiers as the submit handler builds them (src/App.js:658):
    `C-2024-` followed by the sequence number in decimal, left-padded with
    zeros to at least three digits. The year is fixed text, not the current
    year. */
module ComplaintIds {

  const IdPrefix: string := "C-2024-"

  /** Minimum number of digits in the sequence-number part of an id. */
  const SequenceWidth: nat := 3

  predicate IsDigit(c: char)
  {
    '0' <= c <= '9'
  }

  function DigitChar(d: nat): (c: char)
    requires d < 10
    ensures IsDigit(c)
  {
    (('0' as int) + d) as char
  }

  /** The numeric value of a decimal digit; anything else reads as zero. */
  function DigitValue(c: char): (d: nat)
    ensures d < 10
  {
    if IsDigit(c) then (c as int) - ('0' as int) else 0
  }

  /** `String(n)` for a natural number: its decimal digits, most significant
      first (read back by `ParseDecimal`, see `ParsePrint`). */
  function NatToString(n: nat): (s: string)
    ensures |s| >= 1
    ensures forall i :: 0 <= i < |s| ==> IsDigit(s[i])
  {
    if n < 10 then [DigitChar(n)] else NatToString(n / 10) + [DigitChar(n % 10)]
  }

  /** The value of a string of decimal digits, read most significant first.
      Leading zeros add nothing. */
  function ParseDecimal(s: string): nat
  {
    if |s| == 0 then 0 else ParseDecimal(s[..|s| - 1]) * 10 + DigitValue(s[|s| - 1])
  }

  /** `k` copies of the character '0'. */
  function Zeros(k: nat): (z: string)
    ensures |z| == k
    ensures forall i :: 0 <= i < k ==> z[i] == '0'
  {
    seq(k, _ => '0')
  }

  /** `s.padStart(width, "0")`: zeros are added in front until the string is
      `width` long; a string already that long is returned unchanged. */
  function PadStart(s: string, width: nat): (p: string)
    ensures |p| == if |s| >= width then |s| else width
    ensures p[|p| - |s|..] == s
    ensures forall i :: 0 <= i < |p| - |s| ==> p[i] == '0'
  {
    if |s| >= width then s else Zeros(width - |s|) + s
  }

  /** The id given to the `k`-th complaint: the fixed prefix followed by at
      least three characters (decoded back to `k` by `IdRoundTrip`). */
  function IdFor(k: nat): (id: string)
    ensures |id| >= |IdPrefix| + SequenceWidth
  {
    IdPrefix + PadStart(NatToString(k), SequenceWidth)
  }

  /** Reads the sequence number back out of an id. */
  function SequenceNumber(id: string): nat
  {
    if |id| >= |IdPrefix| then ParseDecimal(id[|IdPrefix|..]) else 0
  }

  /** Decimal printing and parsing are inverse. */
  lemma {:induction false} ParsePrint(n: nat)
    ensures ParseDecimal(NatToString(n)) == n
  {
    if n >= 10 {
      var s := NatToString(n / 10);
      var t := s + [DigitChar(n % 10)];
      assert t[..|t| - 1] == s;
      ParsePrint(n / 10);
    }
  }

  /** Leading zeros do not change the value of a decimal string. */
  lemma {:induction false} ParseIgnoresZeros(k: nat, s: string)
    ensures ParseDecimal(Zeros(k) + s) == ParseDecimal(s)
    decreases |s|, k
  {
    if |s| == 0 {
      assert Zeros(k) + s == Zeros(k);
      if k > 0 {
        assert Zeros(k)[..k - 1] == Zeros(k - 1) + [];
        ParseIgnoresZeros(k - 1, []);
      }
    } else {
      var t := Zeros(k) + s;
      assert t[..|t| - 1] == Zeros(k) + s[..|s| - 1];
      assert t[|t| - 1] == s[|s| - 1];
      ParseIgnoresZeros(k, s[..|s| - 1]);
    }
  }

  /** Padding with zeros keeps the value of a decimal string. */
  lemma ParsePadded(s: string, width: nat)
    ensures ParseDecimal(PadStart(s, width)) == ParseDecimal(s)
  {
    if |s| < width {
      ParseIgnoresZeros(width - |s|, s);
    }
  }

  /** The sequence number of the `k`-th id is `k`: ids decode back to the
      counter they were built from. */
  lemma IdRoundTrip(k: nat)
    ensures SequenceNumber(IdFor(k)) == k
  {
    var id := IdFor(k);
    assert id[|IdPrefix|..] == PadStart(NatToString(k), SequenceWidth);
    ParsePadded(NatToString(k), SequenceWidth);
    ParsePrint(k);
  }

  /** Different sequence numbers give different ids. */
  lemma IdForInjective(j: nat, k: nat)
    ensures IdFor(j) == IdFor(k) <==> j == k
  {
    if IdFor(j) == IdFor(k) {
      IdRoundTrip(j);
      IdRoundTrip(k);
    }
  }

  /** Everything after the prefix of an id is a decimal digit. */
  lemma IdShape(k: nat)
    ensures forall i :: |IdPrefix| <= i < |IdFor(k)| ==> IsDigit(IdFor(k)[i])
  {
  }

  /** `String(n)` writes no leading zero: its first digit is '0' only for
      the number zero itself. */
  lemma {:induction false} NatToStringNoLeadingZero(n: nat)
    ensures NatToString(n)[0] == '0' <==> n == 0
  {
    if n >= 10 {
      assert NatToString(n)[0] == NatToString(n / 10)[0];
      NatToStringNoLeadingZero(n / 10);
    }
  }

  /** Every id starts with the fixed text `C-2024-` and ends with the decimal
      digits of its sequence number. */
  lemma IdForPrefix(k: nat)
    ensures IdFor(k)[..|IdPrefix|] == IdPrefix
    ensures IdFor(k)[|IdFor(k)| - |NatToString(k)|..] == NatToString(k)
  {
  }

  /** The first ids are padded to three digits; from the thousandth on they grow. */
  lemma IdExamples()
    ensures IdFor(1) == "C-2024-001"
    ensures IdFor(2) == "C-2024-002"
    ensures IdFor(3) == "C-2024-003"
    ensures IdFor(4) == "C-2024-004"
    ensures IdFor(42) == "C-2024-042"
    ensures IdFor(1000) == "C-2024-1000"
  {
    assert NatToString(1) == "1" && NatToString(2) == "2";
    assert NatToString(3) == "3" && NatToString(4) == "4";
    assert NatToString(42) == NatToString(4) + "2";
    assert NatToString(1000) == NatToString(100) + "0";
    assert NatToString(100) == NatToString(10) + "0";
    assert NatToString(10) == NatToString(1) + "0";
  }
}
