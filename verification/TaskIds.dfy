/** Task ids: "t/" followed by the sequence number in decimal, zero-padded to four places. */
module TaskIds {
  import opened Common
  import opened TaskTypes

  function DigitChar(d: nat): char
    requires d < 10
  {
    '0' + d as char
  }

  function Digits(n: nat): string {
    if n < 10 then [DigitChar(n)] else Digits(n / 10) + [DigitChar(n % 10)]
  }

  function Zeros(k: nat): string { seq(k, _ => '0') }

  function Padded(n: nat): string {
    var d := Digits(n);
    if |d| < 4 then Zeros(4 - |d|) + d else d
  }

  function FormatId(n: nat): TaskId { "t/" + Padded(n) }

  // Reading a digit string back; the inverse that makes the format injective.
  function ReadDigits(s: string): int {
    if |s| == 0 then 0 else 10 * ReadDigits(Front(s)) + (Last(s) as int - '0' as int)
  }

  lemma {:induction false} ReadsBack(n: nat)
    ensures ReadDigits(Digits(n)) == n
  {
    if n >= 10 {
      ReadsBack(n / 10);
      assert Front(Digits(n)) == Digits(n / 10);
    } else {
      assert Front(Digits(n)) == "";
    }
  }

  lemma {:induction false} ZerosIgnored(k: nat, s: string)
    ensures ReadDigits(Zeros(k) + s) == ReadDigits(s)
    decreases k + |s|
  {
    if |s| > 0 {
      ZerosIgnored(k, Front(s));
      assert Front(Zeros(k) + s) == Zeros(k) + Front(s);
    } else if k > 0 {
      ZerosIgnored(k - 1, s);
      assert Front(Zeros(k) + s) == Zeros(k - 1) + s;
    }
  }

  // Distinct sequence numbers get distinct ids, however wide the number is.
  lemma FormatIdInjective(a: nat, b: nat)
    ensures FormatId(a) == FormatId(b) <==> a == b
  {
    if FormatId(a) == FormatId(b) {
      assert FormatId(a)[2..] == Padded(a) && FormatId(b)[2..] == Padded(b);
      PaddedReadsBack(a);
      PaddedReadsBack(b);
    }
  }

  // The id is "t/" and the number in decimal, in four digits or, beyond 9999, in as many as it takes.
  lemma FormatIdIs(n: nat)
    ensures var id := FormatId(n);
            && |id| >= 6 && id[..2] == "t/"
            && (forall k | 2 <= k < |id| :: '0' <= id[k] <= '9')
            && ReadDigits(id[2..]) == n
            && (|id| > 6 ==> id[2] != '0')
  {
    assert FormatId(n)[2..] == Padded(n);
    PaddedReadsBack(n);
    DigitsAre(n);
    var d, id := Digits(n), FormatId(n);
    forall k | 2 <= k < |id| ensures '0' <= id[k] <= '9' {
      assert id[k] == Padded(n)[k - 2];
    }
  }

  lemma {:induction false} DigitsAre(n: nat)
    ensures |Digits(n)| > 0
    ensures forall k | 0 <= k < |Digits(n)| :: '0' <= Digits(n)[k] <= '9'
    ensures n > 0 ==> Digits(n)[0] != '0'
    ensures n == 0 ==> |Digits(n)| == 1
  {
    if n < 10 {
    } else {
      DigitsAre(n / 10);
    }
  }

  lemma PaddedReadsBack(n: nat)
    ensures ReadDigits(Padded(n)) == n
  {
    var d := Digits(n);
    ReadsBack(n);
    if |d| < 4 {
      ZerosIgnored(4 - |d|, d);
    }
  }
}
