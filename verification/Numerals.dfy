/** Decimal numerals as Python reads them: `str.isdigit` and `int` know more
    digits than the ASCII ones, and `str.isdigit` knows more than `int`.  */
module Numerals {
  import opened Json
  import opened Text

  /** The two character properties: what `str.isdigit` looks for, and the
      value of a character in `int`, if it has one there.  */
  datatype Table = Table(digit: char -> bool, decimal: char -> Option<nat>)

  /** Any table that agrees with ASCII and takes no pointer syntax for digits. */
  type Numerals = u: Table | Sound(u) witness Table(c => IsDigit(c), AsciiDecimal)

  ghost predicate Sound(u: Table) {
    && (forall c :: IsDigit(c) ==> u.digit(c) && u.decimal(c) == Some(DigitValue(c)))
    && !u.digit('~') && !u.digit('/')
  }

  function AsciiDecimal(c: char): Option<nat> {
    if IsDigit(c) then Some(DigitValue(c)) else None
  }

  /** `part.isdigit()`. */
  predicate IsIndex(u: Numerals, part: string)
    ensures IsDigits(part) ==> IsIndex(u, part)
  {
    part != "" && forall k :: 0 <= k < |part| ==> u.digit(part[k])
  }

  /** `int(part)` of a part without sign, space or underscore; None stands for
      the raised `ValueError`.  */
  function IntOf(u: Numerals, part: string): (n: Option<nat>)
    ensures (forall k :: 0 <= k < |part| ==> IsDigit(part[k])) ==> n == Some(NatOf(part))
  {
    if part == "" then Some(0)
    else
      match (IntOf(u, part[..|part| - 1]), u.decimal(part[|part| - 1]))
      case (Some(head), Some(last)) => Some(10 * head + last)
      case _ => None
  }

  /** The array index a pointer part names; None when it is refused. */
  function Slot(u: Numerals, part: string): (n: Option<nat>)
    ensures IsDigits(part) ==> n == Some(NatOf(part))
  {
    if IsIndex(u, part) then IntOf(u, part) else None
  }

  /** The Arabic-Indic digit three counts as 3, and the superscript two is a
      digit without a value.  */
  function Wider(): Numerals {
    Table(c => IsDigit(c) || c == '\U{0663}' || c == '\U{00B2}', c => if c == '\U{0663}' then Some(3) else AsciiDecimal(c))
  }
}
