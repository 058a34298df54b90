/**
 * The "m:ss" rendering both the player sheet and the library rows use for
 * times: `String(format: "%d:%02d", t / 60, t % 60)` on a whole number of
 * seconds, and a reader that takes such a string back to the seconds.
 */
module Clock {
  import opened Wrappers
  import opened Numeric

  predicate IsDigit(c: char)
  {
    '0' <= c <= '9'
  }

  predicate AllDigits(s: string)
  {
    forall i :: 0 <= i < |s| ==> IsDigit(s[i])
  }

  function DigitChar(d: nat): (c: char)
    requires d < 10
    ensures IsDigit(c)
  {
    ('0' as int + d) as char
  }

  function DigitValue(c: char): (d: nat)
    requires IsDigit(c)
    ensures d < 10
  {
    c as int - '0' as int
  }

  /** `%d` for `n >= 0`: the decimal digits of `n`, without leading zeros. */
  function Digits(n: nat): (s: string)
    ensures |s| >= 1 && AllDigits(s)
    ensures n < 10 <==> |s| == 1
    ensures n >= 10 ==> s[0] != '0'
  {
    if n < 10 then [DigitChar(n)] else Digits(n / 10) + [DigitChar(n % 10)]
  }

  /** The number a string of digits denotes. */
  function Value(s: string): nat
    requires AllDigits(s)
  {
    if s == [] then 0 else Value(s[..|s| - 1]) * 10 + DigitValue(s[|s| - 1])
  }

  /** Reading the digits of `n` gives back `n`. */
  lemma {:induction false} ValueOfDigits(n: nat)
    ensures Value(Digits(n)) == n
  {
    if n >= 10 {
      var s := Digits(n);
      assert s[..|s| - 1] == Digits(n / 10);
      ValueOfDigits(n / 10);
    }
  }

  /** `%d`: a minus sign for a negative value, then the digits of its magnitude. */
  function Decimal(i: int): (s: string)
    ensures i >= 0 ==> AllDigits(s) && |s| >= 1 && Value(s) == i
    ensures i < 0 ==> |s| >= 2 && s[0] == '-' && AllDigits(s[1..]) && Value(s[1..]) == -i
  {
    if i < 0 then
      ValueOfDigits(-i);
      assert ("-" + Digits(-i))[1..] == Digits(-i);
      "-" + Digits(-i)
    else
      ValueOfDigits(i);
      Digits(i)
  }

  /** `%02d`: at least two characters, padded with a leading zero. */
  function TwoDigits(i: int): (s: string)
    ensures |s| >= 2
    ensures i >= 0 ==> AllDigits(s) && Value(s) == i
    ensures 0 <= i < 100 ==> |s| == 2
  {
    if 0 <= i < 10 then
      var s := "0" + Digits(i);
      assert s == ['0', DigitChar(i)];
      assert s[..1] == ['0'] && s[..1][..0] == [];
      assert Value(s[..1]) == 0;
      assert DigitValue(DigitChar(i)) == i;
      s
    else
      Decimal(i)
  }

  /** A seconds field below 60 is two digits, the first below 6, and reads back. */
  lemma SecondsField(r: int)
    requires 0 <= r < 60
    ensures var f := TwoDigits(r);
      |f| == 2 && AllDigits(f) && f[0] < '6' && Value(f) == r
  {
    var f := TwoDigits(r);
    if r < 10 {
      assert f == ['0', DigitChar(r)];
      assert f[..1] == ['0'];
      assert f[..1][..0] == [];
      assert Value(f[..1]) == 0;
      assert Value(f) == r;
    } else {
      assert Digits(r / 10) == [DigitChar(r / 10)];
      assert f == [DigitChar(r / 10), DigitChar(r % 10)];
      assert f[..1] == [DigitChar(r / 10)];
      assert f[..1][..0] == [];
      assert Value(f[..1]) == r / 10;
      assert Value(f) == (r / 10) * 10 + r % 10;
    }
  }

  /** "m:ss" for a whole number of seconds, with Swift's `/` and `%`. */
  function Format(whole: int): (s: string)
    ensures whole >= 0 ==> |s| >= 4 && s[|s| - 3] == ':'
    ensures whole >= 0 ==> AllDigits(s[|s| - 2..]) && s[|s| - 2] < '6'
  {
    var s := Decimal(Quot(whole, 60)) + ":" + TwoDigits(Rem(whole, 60));
    if whole >= 0 then
      SecondsField(Rem(whole, 60));
      assert s[|s| - 2..] == TwoDigits(Rem(whole, 60));
      s
    else
      s
  }

  /**
   * Reads "m:ss" back: one or more digits, a colon, and two digits below 60;
   * anything else is `None`.
   */
  function Parse(s: string): (r: Option<int>)
    ensures r.Some? ==> r.value >= 0
  {
    if |s| >= 4 && s[|s| - 3] == ':' && AllDigits(s[..|s| - 3]) && AllDigits(s[|s| - 2..])
       && Value(s[|s| - 2..]) < 60
    then Some(Value(s[..|s| - 3]) * 60 + Value(s[|s| - 2..]))
    else None
  }

  /** The rendering loses nothing: it reads back as the seconds it was made from. */
  lemma FormatParse(whole: int)
    requires whole >= 0
    ensures Parse(Format(whole)) == Some(whole)
  {
    var m, r := Quot(whole, 60), Rem(whole, 60);
    var s := Format(whole);
    SecondsField(r);
    assert s == Digits(m) + ":" + TwoDigits(r);
    assert s[..|s| - 3] == Digits(m);
    assert s[|s| - 2..] == TwoDigits(r);
    ValueOfDigits(m);
  }

  /**
   * `formatTime` and `formatDuration`: "m:ss" of the whole seconds in a
   * time, `Int(time)` truncating toward zero.
   */
  function FormatSeconds(time: real): (r: string)
    ensures time >= 0.0 ==> Parse(r) == Some(time.Floor)
    ensures time >= 0.0 ==> |r| >= 4 && r[|r| - 3] == ':'
    ensures time >= 0.0 ==> AllDigits(r[|r| - 2..]) && r[|r| - 2] < '6'
  {
    var whole := Trunc(time);
    if time >= 0.0 then
      FormatParse(whole);
      Format(whole)
    else
      Format(whole)
  }
}
