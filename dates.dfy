/** Calendar dates written `YYYY-MM-DD`, as the catalog stores `createdAt`.
    `new Date(s).getTime()` is stood in for by the number yyyymmdd, which orders
    well-formed dates chronologically. */
module Dates {

  predicate IsDigit(c: char) {
    '0' <= c <= '9'
  }

  function DigitValue(c: char): (r: nat)
    requires IsDigit(c)
    ensures r <= 9
  {
    c as int - '0' as int
  }

  /** `s` has the shape `YYYY-MM-DD`. */
  predicate IsIsoDate(s: string) {
    |s| == 10 && s[4] == '-' && s[7] == '-' &&
    forall i :: 0 <= i < 10 && i != 4 && i != 7 ==> IsDigit(s[i])
  }

  /** The decimal number written by the digits `s[lo..hi]`. */
  function DigitsValue(s: string, lo: nat, hi: nat): nat
    requires lo <= hi <= |s|
    requires forall i :: lo <= i < hi ==> IsDigit(s[i])
    decreases hi - lo
  {
    if lo == hi then 0 else DigitsValue(s, lo, hi - 1) * 10 + DigitValue(s[hi - 1])
  }

  /** The ordering key of a date: yyyymmdd for a well-formed date, 0 otherwise. */
  function DateKey(s: string): nat {
    if IsIsoDate(s) then
      DigitsValue(s, 0, 4) * 10000 + DigitsValue(s, 5, 7) * 100 + DigitsValue(s, 8, 10)
    else 0
  }
}
