/**
  Go's strconv.ParseInt(s, 10, 64), which reads reminder identifiers out of
  command tokens, and the decimal formatting of `%d`, which writes them back
  into replies.
*/
module StrConv {
  import opened Wrappers

  const MaxUint64: int := 0xFFFF_FFFF_FFFF_FFFF
  /** 1 << 63: one past the largest int64. */
  const Int64Cutoff: int := 0x8000_0000_0000_0000

  predicate IsInt64(n: int)
  {
    -Int64Cutoff <= n < Int64Cutoff
  }

  /** The two errors strconv reports (strconv.ErrSyntax, strconv.ErrRange). */
  datatype NumError = ErrSyntax | ErrRange

  /** The outcome of the unsigned digit loop of strconv.ParseUint. */
  datatype Unsigned = UOk(n: nat) | USyntax | URange

  predicate IsDigit(c: char)
  {
    '0' <= c <= '9'
  }

  function DigitValue(c: char): nat
    requires IsDigit(c)
  {
    c as int - '0' as int
  }

  /**
    The digit loop of strconv.ParseUint in base 10 with 64 bits: digits are read
    left to right; the first non-digit is a syntax error and the first digit that
    takes the value past MaxUint64 is a range error, whatever follows it.
  */
  function Accumulate(s: string, acc: nat): Unsigned
  {
    if s == [] then UOk(acc)
    else if !IsDigit(s[0]) then USyntax
    else
      var n := acc * 10 + DigitValue(s[0]);
      if n > MaxUint64 then URange else Accumulate(s[1..], n)
  }

  /** strconv.ParseUint(s, 10, 64): the empty string is a syntax error. */
  function ParseUint(s: string): Unsigned
  {
    if s == [] then USyntax else Accumulate(s, 0)
  }

  /** What strconv.ParseInt returns: the value and, when it failed, the error. */
  datatype Parsed = Parsed(value: int, err: Option<NumError>)

  /**
    strconv.ParseInt(s, 10, 64): an optional sign, then ParseUint on the rest.
    A syntax error yields 0; a value out of the int64 range yields the nearest
    bound together with ErrRange.
  */
  function ParseInt(s: string): (r: Parsed)
    ensures r.err == None ==> IsInt64(r.value)
    ensures r.err == Some(ErrSyntax) ==> r.value == 0
    ensures r.err == Some(ErrRange) ==> r.value == Int64Cutoff - 1 || r.value == -Int64Cutoff
    ensures r.err != Some(ErrSyntax) ==> exists i :: 0 <= i < |s| && IsDigit(s[i])
  {
    if s == [] then Parsed(0, Some(ErrSyntax))
    else
      var neg := s[0] == '-';
      var digits := if s[0] == '+' || s[0] == '-' then s[1..] else s;
      match ParseUint(digits)
      case USyntax => Parsed(0, Some(ErrSyntax))
      case URange =>
        assert IsDigit(digits[0]);
        if neg then Parsed(-Int64Cutoff, Some(ErrRange)) else Parsed(Int64Cutoff - 1, Some(ErrRange))
      case UOk(un) =>
        assert IsDigit(digits[0]);
        if !neg && un >= Int64Cutoff then Parsed(Int64Cutoff - 1, Some(ErrRange))
        else if neg && un > Int64Cutoff then Parsed(-Int64Cutoff, Some(ErrRange))
        else
          var v: int := un;
          Parsed(if neg then -v else v, None)
  }

  /** The text of a *strconv.NumError raised by ParseInt (quoting is shown without escapes). */
  function NumErrorText(num: string, e: NumError): string
  {
    "strconv.ParseInt: parsing \"" + num + "\": "
    + (match e case ErrSyntax => "invalid syntax" case ErrRange => "value out of range")
  }

  function DigitChar(d: nat): (c: char)
    requires d < 10
    ensures IsDigit(c) && DigitValue(c) == d
  {
    ('0' as int + d) as char
  }

  /** The decimal digits of n, without leading zeros. */
  function Digits(n: nat): (s: string)
    ensures |s| >= 1
    ensures forall i :: 0 <= i < |s| ==> IsDigit(s[i])
  {
    if n < 10 then [DigitChar(n)] else Digits(n / 10) + [DigitChar(n % 10)]
  }

  /** `%d` of an integer: a minus sign for negative values, then the digits. */
  function FormatInt(n: int): string
  {
    if n < 0 then "-" + Digits(-n) else Digits(n)
  }

  /** Reading one more digit after a successful prefix. */
  lemma {:induction false} AccumulateSnoc(s: string, c: char, acc: nat)
    requires Accumulate(s, acc).UOk?
    requires IsDigit(c)
    ensures var n := Accumulate(s, acc).n * 10 + DigitValue(c);
      Accumulate(s + [c], acc) == if n > MaxUint64 then URange else UOk(n)
  {
    if s == [] {
      assert [c][1..] == [];
    } else {
      var n := acc * 10 + DigitValue(s[0]);
      assert (s + [c])[0] == s[0];
      assert (s + [c])[1..] == s[1..] + [c];
      AccumulateSnoc(s[1..], c, n);
    }
  }

  /** The digit loop reads back what Digits wrote. */
  lemma {:induction false} AccumulateDigits(n: nat)
    requires n <= MaxUint64
    ensures Accumulate(Digits(n), 0) == UOk(n)
  {
    if n < 10 {
      assert [DigitChar(n)][1..] == [];
    } else {
      AccumulateDigits(n / 10);
      AccumulateSnoc(Digits(n / 10), DigitChar(n % 10), 0);
    }
  }

  /** Every int64 survives a round trip through `%d` and ParseInt. */
  lemma FormatParse(n: int)
    requires IsInt64(n)
    ensures ParseInt(FormatInt(n)) == Parsed(n, None)
  {
    if n < 0 {
      AccumulateDigits(-n);
      assert ("-" + Digits(-n))[1..] == Digits(-n);
    } else {
      AccumulateDigits(n);
    }
  }
}
