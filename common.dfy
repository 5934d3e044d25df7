/** Types shared by the front end and the backend stubs. */
module Common {

  /** `T | null` in the source. */
  datatype Option<+T> = None | Some(value: T)

  /** The two authors of a chat message: `'user' | 'assistant'`. */
  datatype Role = User | Assistant

  /** A `Date` value. Clocks are outside the model, so a date is an opaque
      instant supplied by the caller. */
  datatype Date = Date(millis: int)

  /** Message identifiers are plain strings. */
  type Id = string

  /** `s0` is an initial segment of `s1`. */
  predicate IsPrefix<T(==)>(s0: seq<T>, s1: seq<T>) {
    |s0| <= |s1| && s1[..|s0|] == s0
  }

  /** The number a string of decimal digits denotes. */
  function DigitsValue(r: string): int {
    if r == [] then 0 else DigitsValue(r[..|r| - 1]) * 10 + (r[|r| - 1] as int - '0' as int)
  }

  /** The decimal text JavaScript gives a non-negative integer when it is
      concatenated to a string, as in `'msg-' + Date.now()`: one or more
      digits, with no leading zero unless the number is zero, that denote
      the number. */
  function DecimalText(n: nat): (r: string)
    ensures |r| >= 1
    ensures forall k :: 0 <= k < |r| ==> '0' <= r[k] <= '9'
    ensures r[0] == '0' ==> n == 0
    ensures DigitsValue(r) == n
  {
    var digit := ['0' + (n % 10) as char];
    if n < 10 then
      assert digit[..0] == [];
      digit
    else
      var r := DecimalText(n / 10) + digit;
      assert r[..|r| - 1] == DecimalText(n / 10);
      r
  }
}
