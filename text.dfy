/** Text helpers shared by the game: how JavaScript prints a non-negative
    number inside a template string, and `Array.prototype.join`. */
module Text {

  /** The decimal digit character for d. */
  function DigitChar(d: nat): (c: char)
    requires d < 10
    ensures '0' <= c <= '9'
    ensures (c as int) - ('0' as int) == d
  {
    (('0' as int) + d) as char
  }

  /** The value of a digit character. */
  function DigitValue(c: char): int
  {
    (c as int) - ('0' as int)
  }

  /** True if every character of s is a decimal digit. */
  predicate AllDigits(s: string)
  {
    forall i :: 0 <= i < |s| ==> '0' <= s[i] <= '9'
  }

  /** The number a string of decimal digits denotes (most significant first). */
  function DigitsValue(s: string): int
  {
    if s == [] then 0 else DigitsValue(s[..|s| - 1]) * 10 + DigitValue(s[|s| - 1])
  }

  /** A natural number as JavaScript prints it: decimal digits, no leading zero. */
  function NatToString(n: nat): (s: string)
    ensures |s| >= 1 && AllDigits(s)
    ensures |s| > 1 ==> s[0] != '0'
    ensures n < 10 <==> |s| == 1
  {
    if n < 10 then [DigitChar(n)] else NatToString(n / 10) + [DigitChar(n % 10)]
  }

  /** Reading the printed digits back gives the number again. */
  lemma {:induction false} NatToStringRoundTrip(n: nat)
    ensures DigitsValue(NatToString(n)) == n
  {
    if n >= 10 {
      var s := NatToString(n);
      assert s[..|s| - 1] == NatToString(n / 10);
      NatToStringRoundTrip(n / 10);
    }
  }

  /** An integer as JavaScript prints it in a template string. */
  function IntToString(n: int): (s: string)
    ensures |s| >= 1
    ensures n >= 0 ==> AllDigits(s)
    ensures n < 0 ==> s[0] == '-' && AllDigits(s[1..])
    // no leading zero, as JavaScript prints an integer
    ensures n >= 0 && |s| > 1 ==> s[0] != '0'
    ensures n < 0 ==> |s| >= 2 && s[1] != '0'
    // the digits read back to the number's magnitude
    ensures n >= 0 ==> DigitsValue(s) == n
    ensures n < 0 ==> DigitsValue(s[1..]) == -n
  {
    NatToStringRoundTrip(if n < 0 then -n else n);
    if n < 0 then
      var s := "-" + NatToString(-n);
      assert s[1..] == NatToString(-n);
      s
    else NatToString(n)
  }

  /** A non-negative quantity held in tenths, printed as JavaScript prints
      the number it stands for: `6`, `4.5`, `0`. */
  function TenthsToString(t: nat): (s: string)
    // a whole number prints without a decimal point
    ensures t % 10 == 0 <==> AllDigits(s)
    ensures t % 10 == 0 ==> s == NatToString(t / 10)
    // otherwise: at least one digit, a point, and one non-zero digit
    ensures t % 10 != 0 ==>
              |s| >= 3 && s[|s| - 2] == '.' && '1' <= s[|s| - 1] <= '9'
              && AllDigits(s[..|s| - 2]) && |s[..|s| - 2]| >= 1
    // and the whole kilograms before the point print as a natural number does
    ensures t % 10 != 0 ==> s[..|s| - 2] == NatToString(t / 10)
  {
    var whole := NatToString(t / 10);
    if t % 10 == 0 then whole
    else
      var s := whole + "." + [DigitChar(t % 10)];
      assert s[..|s| - 2] == whole && s[|s| - 2] == '.';
      s
  }

  /** Reading a printed quantity back: the digits before the point, times
      ten, plus the digit after it, give the tenths again. */
  lemma TenthsToStringRoundTrip(t: nat)
    ensures var s := TenthsToString(t);
      if AllDigits(s) then DigitsValue(s) * 10 == t
      else DigitsValue(s[..|s| - 2]) * 10 + DigitValue(s[|s| - 1]) == t
  {
    var s := TenthsToString(t);
    NatToStringRoundTrip(t / 10);
    if t % 10 != 0 {
      assert s[..|s| - 2] == NatToString(t / 10);
    }
  }

  /** Three members eat 4.5 kg and four eat 6 kg, and that is how it prints. */
  lemma TenthsPrinting()
    ensures TenthsToString(45) == "4.5" && TenthsToString(60) == "6" && TenthsToString(0) == "0"
  {
  }

  /** The total length of the parts. */
  function TotalLength(parts: seq<string>): nat
  {
    if |parts| == 0 then 0 else |parts[0]| + TotalLength(parts[1..])
  }

  /** `parts.join(sep)`. */
  function Join(parts: seq<string>, sep: string): (s: string)
    ensures |parts| == 0 ==> s == ""
    ensures |parts| == 1 ==> s == parts[0]
  {
    if |parts| == 0 then ""
    else if |parts| == 1 then parts[0]
    else parts[0] + sep + Join(parts[1..], sep)
  }

  /** The joined length is the parts' total length plus one separator's
      length per gap between neighbouring parts. */
  lemma {:induction false} JoinLength(parts: seq<string>, sep: string)
    requires |parts| > 0
    ensures |Join(parts, sep)| == TotalLength(parts) + (|parts| - 1) * |sep|
  {
    if |parts| > 1 {
      JoinLength(parts[1..], sep);
    }
  }

  /** Joining one more part puts the separator and that part at the end. */
  lemma {:induction false} JoinSnoc(parts: seq<string>, p: string, sep: string)
    requires |parts| > 0
    ensures Join(parts + [p], sep) == Join(parts, sep) + sep + p
  {
    if |parts| == 1 {
      assert (parts + [p])[1..] == [p];
    } else {
      assert (parts + [p])[1..] == parts[1..] + [p];
      JoinSnoc(parts[1..], p, sep);
    }
  }
}
