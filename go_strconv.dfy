/** Go's `strconv.Atoi` as the sheet decoder uses it: the error is discarded,
    so only the integer it returns matters. Go's `int` is 64 bits wide. */
module GoStrconv {
  import opened Decimal

  const MinInt64: int := -0x8000_0000_0000_0000
  const MaxInt64: int := 0x7FFF_FFFF_FFFF_FFFF

  predicate IsInt64(n: int) {
    MinInt64 <= n <= MaxInt64
  }

  /** The text Atoi accepts in base 10: an optional '+' or '-' followed by at
      least one decimal digit, and nothing else (no spaces, no underscores). */
  predicate IsDecimalText(s: string) {
    if |s| > 0 && (s[0] == '+' || s[0] == '-') then |s| > 1 && AllDigits(s[1..])
    else |s| > 0 && AllDigits(s)
  }

  /** The mathematical value of accepted text, before any range check. */
  function DecimalTextValue(s: string): int
    requires IsDecimalText(s)
  {
    if s[0] == '-' then -(DigitsValue(s[1..]) as int)
    else if s[0] == '+' then DigitsValue(s[1..])
    else DigitsValue(s)
  }

  /** Out-of-range values are returned clamped to the int64 bounds, alongside
      a range error. */
  function Clamp64(n: int): int {
    if n < MinInt64 then MinInt64 else if n > MaxInt64 then MaxInt64 else n
  }

  /** `n, _ := strconv.Atoi(s)`: a syntax error yields 0, a range error the
      nearest bound, anything else the value written. */
  function Atoi(s: string): (n: int)
    ensures IsInt64(n)
    ensures IsDecimalText(s) && IsInt64(DecimalTextValue(s)) ==> n == DecimalTextValue(s)
  {
    if IsDecimalText(s) then Clamp64(DecimalTextValue(s)) else 0
  }

  /** Reading back what `fmt.Sprint` wrote gives the same int. */
  lemma {:induction false} AtoiFormatInt(n: int)
    requires IsInt64(n)
    ensures Atoi(FormatInt(n)) == n
  {
    var s := FormatInt(n);
    if n < 0 {
      assert s[1..] == Digits(-n);
      DigitsValueOfDigits(-n);
    } else {
      DigitsValueOfDigits(n);
    }
  }

  /** A cell holding no integer text at all is read as 0. */
  lemma AtoiOfMalformed(s: string)
    requires !IsDecimalText(s)
    ensures Atoi(s) == 0
  {
  }
}
