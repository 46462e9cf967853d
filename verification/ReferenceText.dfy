/** References as text: payment references DPG-<day>-<number>, and the references of ledger entries. */
module ReferenceText {
  import opened Types

  // ----- rendering -----

  function Digit(d: nat): char
    requires d < 10
  {
    "0123456789"[d]
  }

  function Decimal(n: nat): string {
    if n < 10 then [Digit(n)] else Decimal(n / 10) + [Digit(n % 10)]
  }

  function Zeros(n: nat): string {
    if n == 0 then "" else Zeros(n - 1) + "0"
  }

  /** fmt's %04d: at least four digits, more when the number needs them. */
  function FourDigits(n: nat): string {
    var digits := Decimal(n);
    if |digits| < 4 then Zeros(4 - |digits|) + digits else digits
  }

  function DigitValue(c: char): int {
    (c as int) - ('0' as int)
  }

  /** The number that a digit string denotes. */
  function Value(s: string): int {
    if s == "" then 0 else 10 * Value(s[..|s| - 1]) + DigitValue(s[|s| - 1])
  }

  lemma ValueAppended(s: string, c: char)
    ensures Value(s + [c]) == 10 * Value(s) + DigitValue(c)
  {
    assert (s + [c])[..|s + [c]| - 1] == s;
  }

  lemma {:induction false} DecimalValue(n: nat)
    ensures Value(Decimal(n)) == n
  {
    if n < 10 {
      ValueAppended("", Digit(n));
      assert "" + [Digit(n)] == [Digit(n)];
    } else {
      DecimalValue(n / 10);
      ValueAppended(Decimal(n / 10), Digit(n % 10));
    }
  }

  lemma {:induction false} LeadingZeros(z: nat, s: string)
    ensures Value(Zeros(z) + s) == Value(s)
    decreases |s|, z
  {
    if s == "" {
      assert Zeros(z) + s == Zeros(z);
      if z > 0 {
        LeadingZeros(z - 1, "");
        assert Zeros(z - 1) + "" == Zeros(z - 1);
        ValueAppended(Zeros(z - 1), '0');
      }
    } else {
      var front := s[..|s| - 1];
      assert s == front + [s[|s| - 1]];
      assert Zeros(z) + s == (Zeros(z) + front) + [s[|s| - 1]];
      LeadingZeros(z, front);
      ValueAppended(Zeros(z) + front, s[|s| - 1]);
      ValueAppended(front, s[|s| - 1]);
    }
  }

  lemma FourDigitsValue(n: nat)
    ensures Value(FourDigits(n)) == n
  {
    DecimalValue(n);
    if |Decimal(n)| < 4 {
      LeadingZeros(4 - |Decimal(n)|, Decimal(n));
    }
  }

  // ----- references -----

  /** A UTC day, rendered as eight digits. */
  type Day = s: string | |s| == 8 witness "20240101"

  function Prefix(day: Day): (p: string)
    ensures |p| == 13
  {
    "DPG-" + day + "-"
  }

  function Render(day: Day, n: nat): string {
    Prefix(day) + FourDigits(n)
  }

  predicate HasPrefix(reference: string, day: Day) {
    Prefix(day) <= reference
  }

  predicate AreDigits(s: string) {
    forall i | 0 <= i < |s| :: '0' <= s[i] <= '9'
  }

  /** A reference is "DPG-", the day, a dash and the number in decimal: at least four digits, with zeros in
      front only to make up four. */
  lemma RenderedInDecimal(day: Day, n: nat)
    ensures exists digits: string ::
              && Render(day, n) == "DPG-" + day + "-" + digits
              && AreDigits(digits) && Value(digits) == n
              && |digits| >= 4 && (|digits| > 4 ==> digits[0] != '0')
  {
    FourDigitsValue(n);
    FourDigitsLook(n);
    var digits := FourDigits(n);
    hide FourDigits, Value;
    assert Render(day, n) == "DPG-" + day + "-" + digits;
  }

  lemma FourDigitsLook(n: nat)
    ensures AreDigits(FourDigits(n)) && |FourDigits(n)| >= 4
    ensures |FourDigits(n)| > 4 ==> FourDigits(n)[0] != '0'
  {
    DecimalDigits(n);
    hide Decimal, Zeros;
    if |Decimal(n)| < 4 {
      ZerosAreDigits(4 - |Decimal(n)|);
    }
  }

  lemma {:induction false} DecimalDigits(n: nat)
    ensures AreDigits(Decimal(n)) && |Decimal(n)| >= 1 && (n > 0 ==> Decimal(n)[0] != '0')
    ensures n == 0 ==> |Decimal(n)| == 1
  {
    if n >= 10 {
      DecimalDigits(n / 10);
    }
  }

  lemma {:induction false} ZerosAreDigits(n: nat)
    ensures |Zeros(n)| == n && AreDigits(Zeros(n))
  {
    if n > 0 {
      ZerosAreDigits(n - 1);
    }
  }

  /** Different days or different numbers, different references; a reference belongs to its own day only. */
  lemma RenderIsInjective(day: Day, m: nat, other: Day, n: nat)
    ensures Render(day, m) == Render(other, n) ==> day == other && m == n
    ensures HasPrefix(Render(day, m), other) <==> day == other
  {
    assert Render(day, m)[..13] == Prefix(day) && Render(day, m)[13..] == FourDigits(m);
    assert Render(other, n)[..13] == Prefix(other) && Render(other, n)[13..] == FourDigits(n);
    FourDigitsValue(m);
    FourDigitsValue(n);
    assert Prefix(day)[4..12] == day && Prefix(other)[4..12] == other;
  }

  // ----- ledger references as the text that the program stores -----

  const SETTLEMENT: string := "settlement:"

  /** Settlement row ids start at 1. */
  function RefText(r: Ref): string {
    match r
    case OfPayment(id) => id.text
    case OfSettlement(run) => SETTLEMENT + Decimal(run + 1)
  }

  /** As text, ledger references stay apart: distinct ones differ as long as no payment id is itself of the
      form that settlement references have. Payment ids are UUIDs, which never are. */
  lemma RefTextIsInjective(a: Ref, b: Ref)
    requires forall r | r in {a, b} && r.OfPayment? :: !(SETTLEMENT <= r.id.text)
    ensures RefText(a) == RefText(b) <==> a == b
  {
    if a.OfSettlement? && b.OfSettlement? && RefText(a) == RefText(b) {
      assert RefText(a)[|SETTLEMENT|..] == Decimal(a.run + 1);
      assert RefText(b)[|SETTLEMENT|..] == Decimal(b.run + 1);
      DecimalValue(a.run + 1);
      DecimalValue(b.run + 1);
    }
  }
}
