/**
 * Verbosity levels: the int32 `Level` type, its six named values, the mutable
 * cell the logger keeps its threshold in, and the decimal text form the `-v`
 * flag reads and prints (strconv.Atoi and strconv.FormatInt in base 10).
 */
module Levels {
  import opened Wrappers
  import Zap

  type int32 = x: int | -0x8000_0000 <= x < 0x8000_0000
  type int64 = x: int | -0x8000_0000_0000_0000 <= x < 0x8000_0000_0000_0000

  /** The named levels take zap's level numbers. */
  const DEBUG: int32 := Zap.DebugLevel
  const INFO: int32 := Zap.InfoLevel
  const WARN: int32 := Zap.WarnLevel
  const ERROR: int32 := Zap.ErrorLevel
  const PANIC: int32 := Zap.PanicLevel
  const FATAL: int32 := Zap.FatalLevel

  lemma NamedLevels()
    ensures DEBUG < INFO < WARN < ERROR < PANIC < FATAL
    ensures DEBUG == -1 && INFO == 0 && WARN == 1 && ERROR == 2 && PANIC == 4 && FATAL == 5
  {
  }

  /** Go's conversion int32(n): keep the low 32 bits and read them as two's complement. */
  function ToInt32(n: int): (r: int32)
    ensures (r - n) % 0x1_0000_0000 == 0
    ensures -0x8000_0000 <= n < 0x8000_0000 ==> r == n
  {
    (n + 0x8000_0000) % 0x1_0000_0000 - 0x8000_0000
  }

  // ---- Decimal digits ----

  predicate IsDigit(c: char)
  {
    '0' <= c <= '9'
  }

  predicate AllDigits(s: string)
  {
    forall i :: 0 <= i < |s| ==> IsDigit(s[i])
  }

  function DigitValue(c: char): (d: nat)
    requires IsDigit(c)
    ensures d < 10
  {
    (c as int) - ('0' as int)
  }

  function DigitChar(d: nat): (c: char)
    requires d < 10
    ensures IsDigit(c) && DigitValue(c) == d
  {
    (('0' as int) + d) as char
  }

  /** The number a run of decimal digits denotes, most significant first; the empty run denotes 0. */
  function DigitsValue(s: string): nat
    requires AllDigits(s)
    decreases |s|
  {
    if |s| == 0 then 0 else DigitsValue(s[..|s| - 1]) * 10 + DigitValue(s[|s| - 1])
  }

  /** Decimal digits of n with no leading zero. */
  function FormatNat(n: nat): string
    decreases n
  {
    if n < 10 then [DigitChar(n)] else FormatNat(n / 10) + [DigitChar(n % 10)]
  }

  /** strconv.FormatInt(v, 10): a minus sign for negative values, then the digits. */
  function FormatInt(v: int): (r: string)
    ensures Canonical(r)
    ensures (|r| > 0 && r[0] == '-') <==> v < 0
  {
    if v < 0 then
      FormatNatCorrect(-v);
      var digits := FormatNat(-v);
      assert ("-" + digits)[1..] == digits;
      "-" + digits
    else
      FormatNatCorrect(v);
      FormatNat(v)
  }

  /** The error strconv returns; it names the rejected input. */
  datatype NumError = NumError(num: string)

  /**
   * strconv.Atoi on a 64-bit platform: an optional '+' or '-', then one or more
   * ASCII digits, denoting a value that fits in 64 bits; anything else is an error.
   */
  function Atoi(s: string): (r: Result<int64, NumError>)
    ensures r.Err? ==> r.error == NumError(s)
    ensures r.Ok? ==> |s| > 0
  {
    if |s| == 0 then Err(NumError(s))
    else
      var digits := if s[0] == '-' || s[0] == '+' then s[1..] else s;
      if |digits| == 0 || !AllDigits(digits) then Err(NumError(s))
      else
        var n: int := if s[0] == '-' then -(DigitsValue(digits) as int) else DigitsValue(digits);
        if -0x8000_0000_0000_0000 <= n < 0x8000_0000_0000_0000 then Ok(n) else Err(NumError(s))
  }

  /** Decimal digits without a superfluous leading zero. */
  predicate CanonicalNat(s: string)
  {
    |s| >= 1 && AllDigits(s) && (s[0] == '0' ==> |s| == 1)
  }

  /** The text FormatInt produces: canonical digits, or a minus sign before nonzero canonical digits. */
  predicate Canonical(s: string)
  {
    CanonicalNat(s) || (|s| >= 2 && s[0] == '-' && CanonicalNat(s[1..]) && s[1] != '0')
  }

  lemma {:induction false} FormatNatCorrect(n: nat)
    ensures CanonicalNat(FormatNat(n))
    ensures DigitsValue(FormatNat(n)) == n
    ensures n > 0 ==> FormatNat(n)[0] != '0'
    decreases n
  {
    if n >= 10 {
      FormatNatCorrect(n / 10);
      var s := FormatNat(n);
      assert s == FormatNat(n / 10) + [DigitChar(n % 10)];
      assert s[..|s| - 1] == FormatNat(n / 10);
      assert s[0] == FormatNat(n / 10)[0];
    }
  }

  lemma {:induction false} DigitsValuePositive(s: string)
    requires AllDigits(s) && |s| >= 1 && s[0] != '0'
    ensures DigitsValue(s) >= 1
    decreases |s|
  {
    if |s| > 1 {
      DigitsValuePositive(s[..|s| - 1]);
    }
  }

  lemma {:induction false} FormatNatOfDigits(s: string)
    requires CanonicalNat(s)
    ensures FormatNat(DigitsValue(s)) == s
    decreases |s|
  {
    if |s| > 1 {
      var init := s[..|s| - 1];
      var d := DigitValue(s[|s| - 1]);
      DigitsValuePositive(init);
      FormatNatOfDigits(init);
      var n := DigitsValue(s);
      assert n == DigitsValue(init) * 10 + d;
      assert n / 10 == DigitsValue(init) && n % 10 == d;
      assert DigitChar(d) == s[|s| - 1];
      assert s == init + [s[|s| - 1]];
    } else {
      assert s[..0] == [];
      assert DigitChar(DigitValue(s[0])) == s[0];
    }
  }

  lemma AtoiOfDigits(t: string)
    requires |t| >= 1 && AllDigits(t) && DigitsValue(t) < 0x8000_0000_0000_0000
    ensures Atoi(t) == Ok(DigitsValue(t))
  {
  }

  lemma AtoiOfNegatedDigits(t: string)
    requires |t| >= 1 && AllDigits(t) && DigitsValue(t) <= 0x8000_0000_0000_0000
    ensures Atoi("-" + t) == Ok(-(DigitsValue(t) as int))
  {
  }

  /** Formatting then parsing gives the value back, for every 64-bit value. */
  lemma ParseFormat(v: int64)
    ensures Canonical(FormatInt(v))
    ensures Atoi(FormatInt(v)) == Ok(v)
  {
    if v < 0 {
      var body := FormatNat(-(v as int));
      FormatNatCorrect(-(v as int));
      AtoiOfNegatedDigits(body);
      assert ("-" + body)[1..] == body;
    } else {
      FormatNatCorrect(v);
      AtoiOfDigits(FormatNat(v));
    }
  }

  /** Parsing then formatting gives the text back, for every canonical decimal text Atoi accepts. */
  lemma FormatParse(s: string)
    requires Canonical(s) && Atoi(s).Ok?
    ensures FormatInt(Atoi(s).value) == s
  {
    if CanonicalNat(s) {
      FormatNatOfDigits(s);
    } else {
      var body := s[1..];
      DigitsValuePositive(body);
      FormatNatOfDigits(body);
      assert s == "-" + body;
    }
  }

  /**
   * The `-v` text round trip: a canonical decimal text within int32 range, once
   * parsed and stored, prints as the same text.
   */
  lemma StoreThenFormat(s: string)
    requires Canonical(s) && Atoi(s).Ok?
    requires -0x8000_0000 <= Atoi(s).value < 0x8000_0000
    ensures FormatInt(ToInt32(Atoi(s).value)) == s
  {
    FormatParse(s);
  }

  /**
   * The converse of StoreThenFormat: a text that survives parsing, truncation
   * to int32 and printing is canonical and within int32 range.
   */
  lemma SurvivesOnlyIf(s: string)
    requires Atoi(s).Ok? && FormatInt(ToInt32(Atoi(s).value)) == s
    ensures Canonical(s) && -0x8000_0000 <= Atoi(s).value < 0x8000_0000
  {
    ParseFormat(ToInt32(Atoi(s).value));
  }

  /**
   * Texts Set accepts that do not print back the same way: a plus sign or a
   * leading zero is dropped, and a value outside int32 wraps around.
   */
  lemma TextsThatDoNotRoundTrip()
    ensures Atoi("+7") == Ok(7) && FormatInt(ToInt32(7)) == "7"
    ensures Atoi("07") == Ok(7)
    ensures Atoi(FormatInt(0x1_0000_0000)) == Ok(0x1_0000_0000) && ToInt32(0x1_0000_0000) == 0
  {
    var plus := "+7"[1..];
    assert plus == "7" && plus[..0] == [];
    assert DigitsValue(plus) == 7;
    var zero := "07";
    assert zero[..1] == "0" && zero[..1][..0] == [];
    assert DigitsValue(zero[..1]) == 0;
    assert DigitsValue(zero) == 7;
    ParseFormat(0x1_0000_0000);
  }

  /** The cell that holds a Level and is read and written in place. */
  class Level {
    var value: int32

    constructor (v: int32)
      ensures value == v
    {
      value := v;
    }

    /** get: the stored level. */
    method Load() returns (r: int32)
      ensures r == value
    {
      r := value;
    }

    /** set: overwrite the stored level. */
    method Store(v: int32)
      modifies this
      ensures value == v
    {
      value := v;
    }

    /** String: the stored level in signed decimal; the text parses back to it. */
    method String() returns (s: string)
      ensures s == FormatInt(value)
      ensures Canonical(s) && Atoi(s) == Ok(value as int64)
    {
      s := FormatInt(value);
      ParseFormat(value);
    }

    /** Get of flag.Getter: the stored level. */
    method Get() returns (r: int32)
      ensures r == value
    {
      r := value;
    }

    /**
     * Set of flag.Value: parse with Atoi; on error leave the level as it was,
     * otherwise store the parsed value truncated to 32 bits.
     */
    method Set(s: string) returns (err: Option<NumError>)
      modifies this
      ensures err.None? <==> Atoi(s).Ok?
      ensures err.Some? ==> err.value == NumError(s) && value == old(value)
      ensures err.None? ==> value == ToInt32(Atoi(s).value)
    {
      var r := Atoi(s);
      if r.Err? {
        return Some(r.error);
      }
      value := ToInt32(r.value);
      err := None;
    }
  }

  /** Set(String()) restores the level it started from, without an error. */
  method RestoreFromText(l: Level) returns (err: Option<NumError>)
    modifies l
    ensures err.None? && l.value == old(l.value)
  {
    var s := l.String();
    err := l.Set(s);
  }

  /** set(v) followed by get() returns v. */
  method StoreThenLoad(l: Level, v: int32) returns (r: int32)
    modifies l
    ensures r == v && l.value == v
  {
    l.Store(v);
    r := l.Load();
  }
}
