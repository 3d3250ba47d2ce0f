/**
 * Account numbers: "ACC" followed by the decimal value of a counter that starts
 * at 1000 and is incremented once per generated number. The C++ code keeps the
 * counter in a function-local `static int`; here it is an explicit object that
 * is passed to every constructor that may need a number.
 */
module AccountNumbers {

  const Prefix: string := "ACC"
  const FirstCounterValue: nat := 1000

  predicate IsDigit(c: char) {
    '0' <= c <= '9'
  }

  predicate AllDigits(s: string) {
    forall i :: 0 <= i < |s| ==> IsDigit(s[i])
  }

  function DigitChar(d: nat): (c: char)
    requires d < 10
    ensures IsDigit(c) && c as int - '0' as int == d
  {
    (d + '0' as int) as char
  }

  /** The text `std::to_string` produces for a non-negative integer. */
  function DecimalString(n: nat): (s: string)
    ensures |s| >= 1 && AllDigits(s)
    ensures |s| == 1 <==> n < 10
  {
    if n < 10 then [DigitChar(n)] else DecimalString(n / 10) + [DigitChar(n % 10)]
  }

  /** Reads a string of decimal digits back as a number (the inverse of DecimalString). */
  function DecimalValue(s: string): nat
    requires AllDigits(s)
  {
    if s == [] then 0
    else DecimalValue(s[..|s| - 1]) * 10 + (s[|s| - 1] as int - '0' as int)
  }

  lemma {:induction false} DecimalRoundTrip(n: nat)
    ensures DecimalValue(DecimalString(n)) == n
  {
    var s := DecimalString(n);
    if n >= 10 {
      DecimalRoundTrip(n / 10);
      assert s[..|s| - 1] == DecimalString(n / 10);
    }
  }

  lemma DecimalStringInjective(a: nat, b: nat)
    ensures DecimalString(a) == DecimalString(b) <==> a == b
  {
    DecimalRoundTrip(a);
    DecimalRoundTrip(b);
  }

  /** The number `generateAccountNumber` returns when the counter holds `n`. */
  function AccountNumber(n: nat): (s: string)
    ensures |s| > |Prefix| && s[..|Prefix|] == Prefix && s[|Prefix|..] == DecimalString(n)
  {
    Prefix + DecimalString(n)
  }

  lemma AccountNumberInjective(a: nat, b: nat)
    ensures AccountNumber(a) == AccountNumber(b) <==> a == b
  {
    if AccountNumber(a) == AccountNumber(b) {
      assert AccountNumber(a)[|Prefix|..] == AccountNumber(b)[|Prefix|..];
      DecimalStringInjective(a, b);
    }
  }

  /** The counter behind `generateAccountNumber`, with the numbers it has handed out. */
  class AccountCounter {
    var next: nat
    ghost var issued: seq<string>

    ghost predicate Valid()
      reads this
    {
      && next == FirstCounterValue + |issued|
      && forall i :: 0 <= i < |issued| ==> issued[i] == AccountNumber(FirstCounterValue + i)
    }

    constructor ()
      ensures Valid() && next == FirstCounterValue && issued == []
    {
      next := FirstCounterValue;
      issued := [];
    }

    /** `"ACC" + to_string(accountCounter++)` */
    method Generate() returns (number: string)
      requires Valid()
      modifies this
      ensures Valid()
      ensures number == AccountNumber(old(next)) && next == old(next) + 1
      ensures issued == old(issued) + [number]
      ensures number !in old(issued)
    {
      number := AccountNumber(next);
      forall i | 0 <= i < |issued|
        ensures issued[i] != number
      {
        AccountNumberInjective(FirstCounterValue + i, next);
      }
      issued := issued + [number];
      next := next + 1;
    }
  }

  /** Every number a counter has generated is different from every other. */
  lemma IssuedDistinct(c: AccountCounter)
    requires c.Valid()
    ensures forall i, j :: 0 <= i < j < |c.issued| ==> c.issued[i] != c.issued[j]
  {
    forall i, j | 0 <= i < j < |c.issued|
      ensures c.issued[i] != c.issued[j]
    {
      AccountNumberInjective(FirstCounterValue + i, FirstCounterValue + j);
    }
  }
}
