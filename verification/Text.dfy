/** Decimal text, as `str(int)`, `int(str)` and the f-string of a child id produce it. */
module Text {
  import opened Wrappers

  predicate IsDigit(c: char) {
    '0' <= c <= '9'
  }

  function DigitChar(d: nat): (c: char)
    requires d < 10
    ensures IsDigit(c)
  {
    '0' + d as char
  }

  function DigitValue(c: char): (d: nat)
    requires IsDigit(c)
    ensures d < 10
  {
    (c - '0') as nat
  }

  /** `str(n)` for a natural number. */
  function NatText(n: nat): (s: string)
    ensures |s| > 0 && forall i :: 0 <= i < |s| ==> IsDigit(s[i])
  {
    if n < 10 then [DigitChar(n)] else NatText(n / 10) + [DigitChar(n % 10)]
  }

  /** `str(n)` for any integer. */
  function IntText(n: int): string {
    if n < 0 then "-" + NatText(-n) else NatText(n)
  }

  function ParseDigits(s: string): Option<nat> {
    if |s| == 0 then Some(0)
    else
      var last := s[|s| - 1];
      match ParseDigits(s[..|s| - 1])
      case None => None
      case Some(high) => if IsDigit(last) then Some(10 * high + DigitValue(last)) else None
  }

  /** `int(s)`: an optional sign and at least one decimal digit; `None` is Python's ValueError. */
  function ParseInt(s: string): Option<int> {
    var signed := |s| > 0 && (s[0] == '-' || s[0] == '+');
    var digits := if signed then s[1..] else s;
    if digits == "" then None
    else
      match ParseDigits(digits)
      case None => None
      case Some(n) =>
        var value: int := n;
        Some(if signed && s[0] == '-' then -value else value)
  }

  lemma {:induction false} ParseNatText(n: nat)
    ensures ParseDigits(NatText(n)) == Some(n)
  {
    if n < 10 {
      var s := [DigitChar(n)];
      assert s[..|s| - 1] == [];
      assert NatText(n) == s;
    } else {
      ParseNatText(n / 10);
      var s := NatText(n / 10) + [DigitChar(n % 10)];
      assert s[..|s| - 1] == NatText(n / 10);
      assert NatText(n) == s;
    }
  }

  /** Reading back a printed integer gives that integer. */
  lemma ParseIntText(n: int)
    ensures ParseInt(IntText(n)) == Some(n)
  {
    if n < 0 {
      ParseNatText(-n);
      assert IntText(n)[1..] == NatText(-n);
    } else {
      ParseNatText(n);
      assert IsDigit(NatText(n)[0]);
    }
  }

  // ----- The text is the canonical one -----

  /** The ten digits, by name. */
  lemma DigitTexts()
    ensures NatText(0) == "0" && NatText(1) == "1" && NatText(2) == "2" && NatText(3) == "3" && NatText(4) == "4"
    ensures NatText(5) == "5" && NatText(6) == "6" && NatText(7) == "7" && NatText(8) == "8" && NatText(9) == "9"
  {
  }

  lemma {:induction false} NoLeadingZero(n: nat)
    ensures n > 0 ==> NatText(n)[0] != '0'
    ensures n >= 10 ==> |NatText(n)| > 1
  {
    if n >= 10 {
      NoLeadingZero(n / 10);
    }
  }

  lemma {:induction false} ShortestDigits(s: string, n: nat)
    requires s != "" && ParseDigits(s) == Some(n)
    ensures |NatText(n)| <= |s|
  {
    var high := ParseDigits(s[..|s| - 1]).value;
    if n >= 10 {
      assert n / 10 == high;
      ShortestDigits(s[..|s| - 1], high);
    }
  }

  /**
   * `str(n)` is the decimal text of n: a sign exactly if n is negative, then digits without a leading
   * zero; and no shorter text reads as n.
   */
  lemma IntTextIsCanonical(n: int)
    ensures var s := IntText(n);
      && s != "" && (s[0] == '-' <==> n < 0) && (n < 0 ==> |s| > 1)
      && (forall i :: (if n < 0 then 1 else 0) <= i < |s| ==> '0' <= s[i] <= '9')
      && (s[if n < 0 then 1 else 0] == '0' ==> s == "0")
    ensures forall s :: ParseInt(s) == Some(n) ==> |IntText(n)| <= |s|
  {
    var m := if n < 0 then -n else n;
    NoLeadingZero(m);
    DigitTexts();
    forall s | ParseInt(s) == Some(n)
      ensures |IntText(n)| <= |s|
    {
      var signed := s[0] == '-' || s[0] == '+';
      ShortestDigits(if signed then s[1..] else s, m);
    }
  }

  lemma {:induction false} ReadsDigits(s: string)
    ensures ParseDigits(s).Some? <==> forall i :: 0 <= i < |s| ==> '0' <= s[i] <= '9'
  {
    if s != "" {
      ReadsDigits(s[..|s| - 1]);
      assert forall i :: 0 <= i < |s| - 1 ==> s[..|s| - 1][i] == s[i];
    }
  }

  /** `int(s)` raises ValueError exactly unless digits follow at most one sign. */
  lemma ParseIntAccepts(s: string)
    ensures ParseInt(s).Some? <==>
      var digits := if s != "" && (s[0] == '-' || s[0] == '+') then s[1..] else s;
      digits != "" && forall i :: 0 <= i < |digits| ==> '0' <= digits[i] <= '9'
  {
    ReadsDigits(if s != "" && (s[0] == '-' || s[0] == '+') then s[1..] else s);
  }

  /** A sign, and leading zeros, as Python reads them. */
  lemma ParseIntSigns(n: int)
    requires n >= 0
    ensures ParseInt("+" + NatText(n)) == Some(n) && ParseInt("-" + NatText(n)) == Some(-n)
    ensures ParseInt("0" + NatText(n)) == Some(n)
  {
    ParseNatText(n);
    assert ("+" + NatText(n))[1..] == NatText(n) && ("-" + NatText(n))[1..] == NatText(n);
    ZerosAreRead(NatText(n));
  }

  lemma {:induction false} ZerosAreRead(s: string)
    requires s != "" && ParseDigits(s).Some?
    ensures ParseDigits("0" + s) == ParseDigits(s)
  {
    var more := "0" + s;
    assert more[..|more| - 1] == "0" + s[..|s| - 1];
    if |s| > 1 {
      ZerosAreRead(s[..|s| - 1]);
    } else {
      assert more[..1] == "0" && "0"[..0] == "" && s[..0] == "";
      assert ParseDigits("0") == Some(0) && more[|more| - 1] == s[0];
    }
  }
}
