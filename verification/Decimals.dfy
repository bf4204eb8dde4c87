/** Integers written in base ten. */
module Decimals {
  import opened Basics

  function DigitOf(n: nat): (c: char)
    requires n < 10
    ensures Digit(c) && c as int - '0' as int == n
  {
    ('0' as int + n) as char
  }

  function PrintNat(n: nat): (s: string)
    ensures |s| > 0 && forall i :: 0 <= i < |s| ==> Digit(s[i])
    ensures s[0] == '0' ==> n == 0
  {
    if n < 10 then [DigitOf(n)] else PrintNat(n / 10) + [DigitOf(n % 10)]
  }

  function Print(n: int): string {
    if n < 0 then "-" + PrintNat(-n) else PrintNat(n)
  }

  predicate DigitsOnly(s: string) {
    s != [] && forall i :: 0 <= i < |s| ==> Digit(s[i])
  }

  predicate IntegerText(s: string) {
    DigitsOnly(s) || (s != [] && s[0] == '-' && DigitsOnly(s[1..]))
  }

  function DigitValue(c: char): nat
    requires Digit(c)
  {
    c as int - '0' as int
  }

  function NatValue(s: string): nat
    requires forall i :: 0 <= i < |s| ==> Digit(s[i])
  {
    if s == [] then 0 else 10 * NatValue(s[..|s| - 1]) + DigitValue(s[|s| - 1])
  }

  function Value(s: string): int
    requires IntegerText(s)
  {
    if DigitsOnly(s) then NatValue(s) else -(NatValue(s[1..]) as int)
  }

  /** Without useless zeros, and without a sign on zero. */
  predicate Canonical(s: string) {
    && IntegerText(s)
    && if DigitsOnly(s) then s == "0" || s[0] != '0' else s[1] != '0'
  }

  lemma {:induction false} NatValueOfPrint(n: nat)
    ensures NatValue(PrintNat(n)) == n
  {
    if n < 10 {
      assert [DigitOf(n)][..0] == [];
    } else {
      NatValueOfPrint(n / 10);
      var s := PrintNat(n);
      assert s[..|s| - 1] == PrintNat(n / 10);
    }
  }

  /** One digit more. */
  lemma {:induction false} PrintMore(n: nat, c: char)
    requires Digit(c)
    ensures PrintNat(10 * n + DigitValue(c)) == (if n == 0 then [] else PrintNat(n)) + [c]
  {
    var m := 10 * n + DigitValue(c);
    assert m / 10 == n && m % 10 == DigitValue(c);
    assert DigitOf(m % 10) == c;
  }

  lemma {:induction false} ValueMore(init: string, c: char)
    requires Digit(c) && forall i :: 0 <= i < |init| ==> Digit(init[i])
    ensures NatValue(init + [c]) == 10 * NatValue(init) + DigitValue(c) && NatValue([]) == 0
  {
    assert (init + [c])[..|init|] == init;
  }

  lemma {:induction false} PrintOfNatValue(s: string)
    requires DigitsOnly(s) && (s == "0" || s[0] != '0')
    ensures PrintNat(NatValue(s)) == s && (s[0] != '0' ==> NatValue(s) > 0)
  {
    hide PrintNat, NatValue;
    var init, last := s[..|s| - 1], s[|s| - 1];
    assert s == init + [last];
    ValueMore(init, last);
    PrintMore(NatValue(init), last);
    if init != [] {
      assert init[0] == s[0] != '0';
      PrintOfNatValue(init);
    }
  }

  lemma {:induction false} ValueOfPrint(n: int)
    ensures Canonical(Print(n)) && Value(Print(n)) == n
  {
    NatValueOfPrint(if n < 0 then -n else n);
    if n < 0 { assert Print(n)[1..] == PrintNat(-n); }
  }

  /** A canonical text is the one its value is printed as. */
  lemma {:induction false} CanonicalIsPrinted(s: string)
    requires IntegerText(s)
    ensures Canonical(s) <==> Print(Value(s)) == s
  {
    if Canonical(s) {
      if DigitsOnly(s) {
        PrintOfNatValue(s);
      } else {
        PrintOfNatValue(s[1..]);
        assert s == "-" + s[1..];
      }
    } else {
      ValueOfPrint(Value(s));
    }
  }
}
