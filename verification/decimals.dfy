/** Go's decimal rendering (%d) and strconv.Atoi on 64-bit integers, and Go's truncated remainder. */
module Decimals {
  import opened Wrappers

  const MIN_INT64 := -0x8000_0000_0000_0000
  const MAX_INT64 := 0x7fff_ffff_ffff_ffff

  predicate IsInt64(i: int) {
    MIN_INT64 <= i <= MAX_INT64
  }

  function DigitChar(d: nat): (c: char)
    requires d < 10
    ensures '0' <= c <= '9' && DigitValue(c) == d
  {
    ('0' as int + d) as char
  }

  function DigitValue(c: char): nat
    requires '0' <= c
  {
    c as int - '0' as int
  }

  /** The decimal digits of n without leading zeros. */
  function Digits(n: nat): (s: string)
    ensures s != []
  {
    if n < 10 then [DigitChar(n)] else Digits(n / 10) + [DigitChar(n % 10)]
  }

  function Format(i: int): string {
    if i < 0 then ['-'] + Digits(-i) else Digits(i)
  }

  function ParseDigits(s: string): Option<nat> {
    if s == [] then None
    else
      var c := s[|s| - 1];
      if !('0' <= c <= '9') then None
      else if |s| == 1 then Some(DigitValue(c))
      else match ParseDigits(s[..|s| - 1])
           case None => None
           case Some(v) => Some(10 * v + DigitValue(c))
  }

  predicate Signed(s: string) {
    s != [] && (s[0] == '-' || s[0] == '+')
  }

  /** An optional sign, at least one digit, nothing else, and a value that fits 64 bits. */
  function Atoi(s: string): Option<int> {
    var negative := s != [] && s[0] == '-';
    match ParseDigits(if Signed(s) then s[1..] else s)
    case None => None
    case Some(v) => var i: int := if negative then 0 - v else v; if IsInt64(i) then Some(i) else None
  }

  lemma {:induction false} DigitsParse(n: nat)
    ensures ParseDigits(Digits(n)) == Some(n)
  {
    if n >= 10 {
      DigitsParse(n / 10);
      var s := Digits(n);
      assert s[..|s| - 1] == Digits(n / 10);
    }
  }

  lemma {:induction false} DigitsUnsigned(n: nat)
    ensures !Signed(Digits(n)) && '0' <= Digits(n)[0] <= '9'
  {
    if n >= 10 {
      DigitsUnsigned(n / 10);
    }
  }

  /** Some renderings, all digits among them. */
  lemma {:induction false} KnownNumbers()
    ensures Format(0) == "0" && Format(-45) == "-45" && Format(1023) == "1023"
    ensures Format(98765) == "98765"
  {
    assert Digits(4) == "4" && Digits(45) == "45";
    assert Digits(1) == "1" && Digits(10) == "10" && Digits(102) == "102" && Digits(1023) == "1023";
    assert Digits(9) == "9" && Digits(98) == "98" && Digits(987) == "987" && Digits(9876) == "9876" && Digits(98765) == "98765";
  }

  /** Atoi reads back what %d wrote, for every 64-bit integer. */
  lemma {:induction false} AtoiInvertsFormat(i: int)
    requires IsInt64(i)
    ensures Atoi(Format(i)) == Some(i)
  {
    hide Digits, ParseDigits;
    if i < 0 {
      DigitsParse(-i);
      assert Format(i)[1..] == Digits(-i);
    } else {
      DigitsParse(i);
      DigitsUnsigned(i);
    }
  }

  function Zeros(z: nat): (s: string)
    ensures |s| == z
  {
    if z == 0 then [] else ['0'] + Zeros(z - 1)
  }

  lemma {:induction false} ZerosParse(z: nat, n: nat)
    ensures ParseDigits(Zeros(z) + Digits(n)) == Some(n)
    decreases n, z
  {
    var s := Zeros(z) + Digits(n);
    if n >= 10 {
      ZerosParse(z, n / 10);
      assert s[..|s| - 1] == Zeros(z) + Digits(n / 10);
    } else if z > 0 {
      ZerosParse(z - 1, 0);
      ZerosSnoc(z - 1);
      assert s[..|s| - 1] == Zeros(z - 1) + Digits(0);
    } else {
      assert s == Digits(n);
    }
  }

  lemma {:induction false} ZerosSnoc(z: nat)
    ensures Zeros(z + 1) == Zeros(z) + ['0']
  {
    if z > 0 {
      ZerosSnoc(z - 1);
    }
  }

  /** Whatever digits are read as n are the digits of n after some zeros. */
  lemma {:induction false} ParsedIsWritten(s: string) returns (z: nat)
    requires ParseDigits(s).Some?
    ensures s == Zeros(z) + Digits(ParseDigits(s).value)
  {
    var c := s[|s| - 1];
    assert s == s[..|s| - 1] + [c];
    if |s| == 1 {
      z := 0;
    } else {
      z := ParsedIsWritten(s[..|s| - 1]);
      var v := ParseDigits(s[..|s| - 1]).value;
      if v == 0 {
        ZerosSnoc(z);
        z := z + 1;
      } else {
        assert (10 * v + DigitValue(c)) / 10 == v;
      }
    }
  }

  /** The strings that Atoi reads as i: optional sign, leading zeros, digits. */
  ghost predicate Writes(s: string, i: int) {
    exists z: nat :: IsForm(s, i, z)
  }

  predicate IsForm(s: string, i: int, z: nat) {
    var body := Zeros(z) + Digits(if i < 0 then -i else i);
    || (i >= 0 && (s == body || s == ['+'] + body))
    || (i <= 0 && s == ['-'] + body)
  }

  lemma ZerosUnsigned(z: nat, n: nat)
    ensures var s := Zeros(z) + Digits(n); s != [] && !Signed(s)
  {
    DigitsUnsigned(n);
  }

  lemma {:induction false} FormIsRead(s: string, i: int, z: nat)
    requires IsInt64(i) && IsForm(s, i, z)
    ensures Atoi(s) == Some(i)
  {
    var n := if i < 0 then -i else i;
    var body := Zeros(z) + Digits(n);
    ZerosParse(z, n);
    ZerosUnsigned(z, n);
    if s != body {
      assert s == [s[0]] + body;
      assert s[1..] == body;
    }
  }

  lemma {:induction false} ReadIsForm(s: string, i: int) returns (z: nat)
    requires Atoi(s) == Some(i)
    ensures IsInt64(i) && IsForm(s, i, z)
  {
    var body := if Signed(s) then s[1..] else s;
    z := ParsedIsWritten(body);
    if Signed(s) {
      assert s == [s[0]] + body;
    }
  }

  /** Atoi yields i exactly on these strings. */
  lemma {:induction false} AtoiExactly(s: string, i: int)
    ensures Atoi(s) == Some(i) <==> IsInt64(i) && Writes(s, i)
  {
    if Atoi(s) == Some(i) {
      var z := ReadIsForm(s, i);
    }
    if IsInt64(i) && Writes(s, i) {
      var z: nat :| IsForm(s, i, z);
      FormIsRead(s, i, z);
    }
  }

  /** The remainder of Go's truncated division: it has the sign of the dividend. */
  function GoMod(a: int, b: int): (r: int)
    requires b > 0
    ensures -b < r < b && (a >= 0 ==> r >= 0) && (a <= 0 ==> r <= 0)
  {
    if a >= 0 then a % b else -((-a) % b)
  }
}
