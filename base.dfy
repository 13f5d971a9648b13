/// Small value types shared by every part of the model: optional values,
/// results with an error path, and the decimal rendering that both C's
/// `sprintf("%i")` and Python's `str()` give a non-negative integer.
module Base {

  datatype Option<+T> = None | Some(value: T)

  datatype Result<+T, +E> = Ok(value: T) | Err(error: E)

  /// The character for a decimal digit.
  function DigitChar(d: nat): (c: char)
    requires d < 10
    ensures '0' <= c <= '9'
    ensures (c as int) - ('0' as int) == d
  {
    (('0' as int) + d) as char
  }

  /// The value of a decimal digit character.
  function DigitValue(c: char): (d: int)
    ensures '0' <= c <= '9' ==> 0 <= d < 10
  {
    (c as int) - ('0' as int)
  }

  predicate IsDigit(c: char) {
    '0' <= c <= '9'
  }

  /// Decimal rendering of a non-negative integer, most significant digit first.
  function NatToString(n: nat): (s: string)
    ensures |s| >= 1
    ensures forall i :: 0 <= i < |s| ==> IsDigit(s[i])
    ensures n < 10 ==> |s| == 1
    ensures 10 <= n < 100 ==> |s| == 2
    decreases n
  {
    if n < 10 then [DigitChar(n)] else NatToString(n / 10) + [DigitChar(n % 10)]
  }

  lemma DigitRoundTrip(d: nat)
    requires d < 10
    ensures DigitValue(DigitChar(d)) == d
    ensures NatToString(d) == [DigitChar(d)]
  {
  }

  /// Rendering is injective on the numbers that occur as channel indices here.
  lemma {:induction false} NatToStringInjective(m: nat, n: nat)
    requires m != n
    ensures NatToString(m) != NatToString(n)
    decreases m + n
  {
    var sm, sn := NatToString(m), NatToString(n);
    if m < 10 && n < 10 {
      assert sm[0] != sn[0];
    } else if m < 10 || n < 10 {
      if m < 10 {
        assert |sn| >= 2 by { assert sn == NatToString(n / 10) + [DigitChar(n % 10)]; }
      } else {
        assert |sm| >= 2 by { assert sm == NatToString(m / 10) + [DigitChar(m % 10)]; }
      }
    } else if m % 10 != n % 10 {
      assert sm[|sm| - 1] == DigitChar(m % 10);
      assert sn[|sn| - 1] == DigitChar(n % 10);
    } else {
      assert m / 10 != n / 10;
      NatToStringInjective(m / 10, n / 10);
      assert sm[..|sm| - 1] == NatToString(m / 10);
      assert sn[..|sn| - 1] == NatToString(n / 10);
    }
  }

  /// An analog input, by the number in its name: input 72 is "AIN72".
  type Ain = nat

  /// The name `ljm` knows an input by.
  function AinName(a: Ain): (name: string)
    ensures |name| > 3 && name[..3] == "AIN"
  {
    "AIN" + NatToString(a)
  }

  /// Names and numbers identify the same inputs, so the model compares numbers.
  lemma AinNameInjective(a: Ain, b: Ain)
    requires a != b
    ensures AinName(a) != AinName(b)
  {
    NatToStringInjective(a, b);
    assert AinName(a)[3..] == NatToString(a) && AinName(b)[3..] == NatToString(b);
  }
}
