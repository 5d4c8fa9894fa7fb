// Printing and parsing of decimal numbers, as fmt's %d and the strconv package do it.
module Decimal {
  import opened Prelude

  predicate IsDigit(c: char) {
    '0' <= c <= '9'
  }

  function Digit(n: nat): (c: char)
    requires n < 10
    ensures IsDigit(c)
  {
    '0' + n as char
  }

  function PrintNat(n: nat): string {
    if n < 10 then [Digit(n)] else PrintNat(n / 10) + [Digit(n % 10)]
  }

  // %d and strconv.Itoa.
  function Print(n: int): string {
    if n < 0 then "-" + PrintNat(-n) else PrintNat(n)
  }

  function ParseNat(s: string): Option<nat> {
    if s == [] || !IsDigit(s[|s| - 1]) then None
    else
      var last := (s[|s| - 1] - '0') as nat;
      if |s| == 1 then Some(last)
      else
        var front := ParseNat(s[..|s| - 1]);
        if front.None? then None else Some(10 * front.value + last)
  }

  const MIN_INT: int := -0x8000_0000_0000_0000
  const MAX_INT: int := 0x7FFF_FFFF_FFFF_FFFF

  predicate InRange(n: int) {
    MIN_INT <= n <= MAX_INT
  }

  // strconv.Atoi: an optional sign, then digits only, then a check of the range.
  function Atoi(s: string): (r: Option<int>)
    ensures r.Some? ==> InRange(r.value)
  {
    var negative := s != [] && s[0] == '-';
    var unsigned := if s != [] && (s[0] == '-' || s[0] == '+') then s[1..] else s;
    var magnitude := ParseNat(unsigned);
    if magnitude.None? then None
    else
      var m: int := magnitude.value;
      var n := if negative then -m else m;
      if InRange(n) then Some(n) else None
  }

  lemma {:induction false} PrintNatIsDigits(n: nat)
    ensures PrintNat(n) != []
    ensures forall i | 0 <= i < |PrintNat(n)| :: IsDigit(PrintNat(n)[i])
  {
    if n >= 10 {
      PrintNatIsDigits(n / 10);
    }
  }

  lemma {:induction false} ParsePrintNat(n: nat)
    ensures ParseNat(PrintNat(n)) == Some(n)
  {
    if n >= 10 {
      var front, last := PrintNat(n / 10), Digit(n % 10);
      ParsePrintNat(n / 10);
      PrintNatIsDigits(n / 10);
      assert (front + [last])[..|front|] == front;
    }
  }

  // What Itoa prints Atoi reads back, if it fits an int at all.
  lemma AtoiPrint(n: int)
    ensures Atoi(Print(n)) == if InRange(n) then Some(n) else None
  {
    var m: nat := if n < 0 then -n else n;
    PrintNatIsDigits(m);
    ParsePrintNat(m);
    assert n < 0 ==> Print(n)[1..] == PrintNat(m);
  }

  lemma PrintInjective(m: int, n: int)
    requires Print(m) == Print(n)
    ensures m == n
  {
    var m', n': nat := if m < 0 then -m else m, if n < 0 then -n else n;
    PrintNatIsDigits(m');
    PrintNatIsDigits(n');
    ParsePrintNat(m');
    ParsePrintNat(n');
    assert m < 0 ==> Print(m)[0] == '-' && Print(m)[1..] == PrintNat(m');
    assert n < 0 ==> Print(n)[0] == '-' && Print(n)[1..] == PrintNat(n');
  }

  // A printed number contains no character that is neither digit nor minus sign.
  lemma PrintAvoids(n: int, c: char)
    requires !IsDigit(c) && c != '-'
    ensures c !in Print(n)
  {
    PrintNatIsDigits(if n < 0 then -n else n);
  }
}
