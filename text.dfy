/** Python's `str()` of the values the response layer renders itself: None,
    booleans, integers (in decimal, as `Content-Length` and status codes are
    written into header bytes and messages) and text. */
module Text {
  import opened Wire

  predicate IsDigit(c: char) {
    '0' <= c <= '9'
  }

  function Digit(d: int): (c: char)
    requires 0 <= d < 10
    ensures IsDigit(c)
  {
    (('0' as int) + d) as char
  }

  function DigitValue(c: char): (d: int)
    requires IsDigit(c)
    ensures 0 <= d < 10
  {
    c as int - '0' as int
  }

  predicate AllDigits(s: string) {
    forall i :: 0 <= i < |s| ==> IsDigit(s[i])
  }

  /** The decimal digits of `n`, most significant first. */
  function NatDigits(n: nat): (s: string)
    ensures 1 <= |s| && AllDigits(s)
    ensures s[0] == '0' ==> n == 0
    decreases n
  {
    if n < 10 then [Digit(n)] else NatDigits(n / 10) + [Digit(n % 10)]
  }

  /** The number a string of decimal digits denotes. */
  function ParseDigits(s: string): nat
    requires AllDigits(s)
    decreases |s|
  {
    if s == [] then 0 else ParseDigits(s[..|s| - 1]) * 10 + DigitValue(s[|s| - 1])
  }

  lemma {:induction false} ParseNatDigits(n: nat)
    ensures ParseDigits(NatDigits(n)) == n
    decreases n
  {
    if n >= 10 {
      var s := NatDigits(n);
      assert s[..|s| - 1] == NatDigits(n / 10);
      ParseNatDigits(n / 10);
    }
  }

  /** `str(i)` for an integer. */
  function IntStr(i: int): (s: string)
    ensures 1 <= |s|
  {
    if i < 0 then "-" + NatDigits(-i) else NatDigits(i)
  }

  /** Reads back what IntStr writes. */
  function ParseInt(s: string): Option<int> {
    if 1 <= |s| && s[0] == '-' && AllDigits(s[1..]) then Some(0 - ParseDigits(s[1..]) as int)
    else if AllDigits(s) then Some(ParseDigits(s))
    else None
  }

  lemma IntStrRoundTrip(i: int)
    ensures ParseInt(IntStr(i)) == Some(i)
  {
    var s := IntStr(i);
    if i < 0 {
      var digits := NatDigits(-i);
      assert s == "-" + digits;
      assert s[1..] == digits;
      ParseNatDigits(-i);
      assert ParseInt(s) == Some(0 - ParseDigits(digits) as int);
    } else {
      assert s == NatDigits(i);
      assert IsDigit(s[0]);
      ParseNatDigits(i);
      assert ParseInt(s) == Some(ParseDigits(s));
    }
  }

  /** `str(v)`; floats, bytes, containers and objects are rendered by the runtime. */
  function PyStr(v: Value, rt: Runtime): string {
    match v
    case Null => "None"
    case Bool(b) => if b then "True" else "False"
    case Int(i) => IntStr(i)
    case Str(s) => s
    case _ => rt.show(v)
  }
}
