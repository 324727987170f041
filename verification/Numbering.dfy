/** Invoice numbers as they are printed and looked up: `СФ-{year}-{seq:04d}` and the prefix
    `СФ-{year}-` by which `next_number` finds the year's invoices (apps/billing/invoices.py). */
module Numbering {
  function Digits(n: nat): (s: string)
    ensures s != "" && forall i :: 0 <= i < |s| ==> '0' <= s[i] <= '9'
  {
    if n < 10 then ['0' + n as char] else Digits(n / 10) + ['0' + (n % 10) as char]
  }

  /** What a string of digits reads as. */
  function Value(s: string): nat
    requires forall i :: 0 <= i < |s| ==> '0' <= s[i] <= '9'
  {
    if s == "" then 0 else 10 * Value(s[..|s| - 1]) + (s[|s| - 1] - '0') as nat
  }

  function Padded(s: string): (p: string)
    ensures |p| >= 4
    decreases 4 - |s|
  {
    if |s| >= 4 then s else Padded("0" + s)
  }

  const SERIES: string := "\U{0421}\U{0424}-"

  function Prefix(year: nat): string {
    SERIES + Digits(year) + "-"
  }

  function Number(year: nat, seqNo: nat): string {
    Prefix(year) + Padded(Digits(seqNo))
  }

  lemma {:induction false} ValueOfDigits(n: nat)
    ensures Value(Digits(n)) == n
  {
    if n >= 10 {
      ValueOfDigits(n / 10);
      assert Digits(n)[..|Digits(n)| - 1] == Digits(n / 10);
    } else {
      assert Digits(n)[..0] == "";
    }
  }

  lemma {:induction false} ValueOfZero(s: string)
    requires forall i :: 0 <= i < |s| ==> '0' <= s[i] <= '9'
    ensures Value("0" + s) == Value(s)
  {
    var t := "0" + s;
    if s == "" {
      assert t[..0] == "";
    } else {
      ValueOfZero(s[..|s| - 1]);
      assert t[..|t| - 1] == "0" + s[..|s| - 1];
    }
  }

  lemma {:induction false} ValueOfPadded(s: string)
    requires forall i :: 0 <= i < |s| ==> '0' <= s[i] <= '9'
    ensures forall i :: 0 <= i < |Padded(s)| ==> '0' <= Padded(s)[i] <= '9'
    ensures Value(Padded(s)) == Value(s)
    decreases 4 - |s|
  {
    if |s| < 4 {
      ValueOfZero(s);
      ValueOfPadded("0" + s);
    }
  }

  /** Two runs of digits that are each followed by a dash, at the head of one string, are one. */
  lemma DashEndsDigits(a: string, b: string, rest: string)
    requires forall i :: 0 <= i < |a| ==> '0' <= a[i] <= '9'
    requires forall i :: 0 <= i < |b| ==> '0' <= b[i] <= '9'
    requires a + "-" <= b + "-" + rest
    ensures a == b
  {
    var p, q := a + "-", b + "-" + rest;
    assert p == q[..|p|];
    assert p[|a|] == '-' && q[|b|] == '-';
    assert forall i :: 0 <= i < |a| ==> p[i] == a[i];
    assert forall i :: 0 <= i < |b| ==> q[i] == b[i];
    assert |a| == |b|;
    assert a == p[..|a|] && b == q[..|b|];
  }

  /** The prefix search finds exactly the numbers of its year. */
  lemma PrefixFindsYear(year: nat, other: nat, seqNo: nat)
    ensures Prefix(year) <= Number(other, seqNo) <==> year == other
  {
    var p, q := Digits(year) + "-", Digits(other) + "-" + Padded(Digits(seqNo));
    assert Prefix(year) == SERIES + p && Number(other, seqNo) == SERIES + q;
    if Prefix(year) <= Number(other, seqNo) {
      assert p == Prefix(year)[|SERIES|..] && q == Number(other, seqNo)[|SERIES|..];
      assert p <= q;
      DashEndsDigits(Digits(year), Digits(other), Padded(Digits(seqNo)));
      ValueOfDigits(year);
      ValueOfDigits(other);
    }
  }

  /** A number is printed for one year and one sequence number only, beyond 9999 too. */
  lemma NumbersAreUnique(year: nat, seqNo: nat, year': nat, seqNo': nat)
    ensures Number(year, seqNo) == Number(year', seqNo') <==> year == year' && seqNo == seqNo'
  {
    if Number(year, seqNo) == Number(year', seqNo') {
      assert Prefix(year) <= Number(year', seqNo');
      PrefixFindsYear(year, year', seqNo');
      assert Padded(Digits(seqNo)) == Number(year, seqNo)[|Prefix(year)|..];
      assert Padded(Digits(seqNo')) == Number(year', seqNo')[|Prefix(year)|..];
      ValueOfPadded(Digits(seqNo));
      ValueOfPadded(Digits(seqNo'));
      ValueOfDigits(seqNo);
      ValueOfDigits(seqNo');
    }
  }

  lemma {:induction false} NoZeroInFront(n: nat)
    ensures Digits(n)[0] == '0' ==> n == 0
  {
    if n >= 10 {
      NoZeroInFront(n / 10);
    }
  }

  lemma {:induction false} FourAtLeast(s: string)
    ensures |s| <= 4 ==> |Padded(s)| == 4
    ensures |s| > 4 ==> Padded(s) == s
    decreases 4 - |s|
  {
    if |s| < 4 {
      FourAtLeast("0" + s);
    }
  }

  lemma {:induction false} DigitsAreFew(n: nat)
    ensures n <= 9999 ==> |Digits(n)| <= 4
    ensures n > 9999 ==> |Digits(n)| > 4
  {
    if n >= 10 {
      DigitsAreFew(n / 10);
      if n / 10 >= 10 {
        DigitsAreFew(n / 10 / 10);
        if n / 10 / 10 >= 10 {
          DigitsAreFew(n / 10 / 10 / 10);
        }
      }
    }
  }

  /** How a number is printed: the series, the year and the sequence number, which is padded to
      four digits and grows beyond them as far as it must, without a zero in front. */
  lemma NumberReads(year: nat, seqNo: nat)
    ensures var shown := Number(year, seqNo)[|Prefix(year)|..];
            && Prefix(year) == "\U{0421}\U{0424}-" + Digits(year) + "-" && Value(Digits(year)) == year
            && Number(year, seqNo) == Prefix(year) + shown
            && (forall i :: 0 <= i < |shown| ==> '0' <= shown[i] <= '9') && Value(shown) == seqNo
            && (seqNo <= 9999 ==> |shown| == 4) && (seqNo > 9999 ==> |shown| > 4 && shown[0] != '0')
  {
    assert Number(year, seqNo)[|Prefix(year)|..] == Padded(Digits(seqNo));
    ValueOfDigits(year);
    SequenceReads(seqNo);
  }

  lemma SequenceReads(seqNo: nat)
    ensures var shown := Padded(Digits(seqNo));
            && (forall i :: 0 <= i < |shown| ==> '0' <= shown[i] <= '9') && Value(shown) == seqNo
            && (seqNo <= 9999 ==> |shown| == 4) && (seqNo > 9999 ==> |shown| > 4 && shown[0] != '0')
  {
    ValueOfDigits(seqNo);
    ValueOfPadded(Digits(seqNo));
    FourAtLeast(Digits(seqNo));
    DigitsAreFew(seqNo);
    NoZeroInFront(seqNo);
  }
}
