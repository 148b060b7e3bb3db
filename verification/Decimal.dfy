/** Decimal text as the history stores it: attempt identities and journal
    positions are integers printed and parsed back (Go's strconv.Itoa and Atoi,
    without the machine-width limit). */
module Decimal {

  datatype Option<+T> = None | Some(value: T)

  function Digit(d: nat): char
    requires d < 10
  {
    ('0' as int + d) as char
  }

  predicate IsDigit(c: char) {
    '0' <= c <= '9'
  }

  function PrintNat(n: nat): (s: string)
    ensures s != [] && forall i | 0 <= i < |s| :: IsDigit(s[i])
  {
    if n < 10 then [Digit(n)] else PrintNat(n / 10) + [Digit(n % 10)]
  }

  function Print(n: int): string {
    if n < 0 then "-" + PrintNat(-n) else PrintNat(n)
  }

  /** None when the text is empty or holds a character that is not a digit. */
  function ParseNat(s: string): Option<nat> {
    if s == [] then None
    else
      var last := s[|s| - 1];
      if !IsDigit(last) then None
      else
        var d := last as int - '0' as int;
        if |s| == 1 then Some(d)
        else
          match ParseNat(s[..|s| - 1])
          case None => None
          case Some(high) => Some(10 * high + d)
  }

  function Parse(s: string): Option<int> {
    if s != [] && (s[0] == '-' || s[0] == '+') then
      match ParseNat(s[1..])
      case None => None
      case Some(n) => var i: int := n; Some(if s[0] == '-' then -i else i)
    else
      match ParseNat(s)
      case None => None
      case Some(n) => Some(n)
  }

  lemma {:induction false} ParsePrintNat(n: nat)
    ensures ParseNat(PrintNat(n)) == Some(n)
  {
    if n >= 10 {
      var s := PrintNat(n);
      assert s[..|s| - 1] == PrintNat(n / 10);
      ParsePrintNat(n / 10);
    }
  }

  /** Printing loses nothing: an identity survives being stored as text. */
  lemma ParsePrint(n: int)
    ensures Parse(Print(n)) == Some(n)
  {
    hide PrintNat, ParseNat;
    if n < 0 {
      assert Print(n)[1..] == PrintNat(-n);
      ParsePrintNat(-n);
    } else {
      assert IsDigit(PrintNat(n)[0]);
      ParsePrintNat(n);
    }
  }

  lemma PrintInjective(m: int, n: int)
    requires Print(m) == Print(n)
    ensures m == n
  {
    ParsePrint(m);
    ParsePrint(n);
  }
}
