/** The few JavaScript runtime notions the processor relies on: thrown values,
    settled promises, absent object keys, `**` on numbers and rendering an
    integer into a template string. */
module JsRuntime {

  /** A value that a `throw` statement or a rejected promise carries. */
  datatype Thrown =
    | ErrorObject(message: string)   // an instance of `Error` (or of a subclass)
    | StringValue(text: string)      // a thrown string
    | Null
    | Undefined                      // also what an unassigned `let` holds
    | OtherValue(display: string)    // any other value, with what `String(v)` renders for it

  /** The outcome of awaiting a promise, as `Promise.allSettled` reports it. */
  datatype Settled<+T> = Fulfilled(value: T) | Rejected(reason: Thrown)

  /** A key of a `Partial<...>` object: present with a value, or absent. */
  datatype Option<+T> = None | Some(value: T)

  /** `base ** n` for a non-negative integer exponent, in exact arithmetic. */
  function Pow(base: real, n: nat): real
  {
    if n == 0 then 1.0 else base * Pow(base, n - 1)
  }

  function DigitChar(d: nat): char
    requires d < 10
  {
    "0123456789"[d]
  }

  /** The number a string of decimal digits spells, most significant digit first. */
  function DecimalValue(s: string): nat
    requires forall i :: 0 <= i < |s| ==> '0' <= s[i] <= '9'
  {
    if |s| == 0 then 0 else DecimalValue(s[..|s| - 1]) * 10 + (s[|s| - 1] as int - '0' as int)
  }

  /** What `${n}` renders for a non-negative integer. */
  function NatString(n: nat): (s: string)
    ensures |s| > 0
    ensures forall i :: 0 <= i < |s| ==> '0' <= s[i] <= '9'
  {
    if n < 10 then [DigitChar(n)] else NatString(n / 10) + [DigitChar(n % 10)]
  }

  /** The digits `${n}` renders spell n, with no leading zero unless n is 0. */
  lemma {:induction false} NatStringValue(n: nat)
    ensures DecimalValue(NatString(n)) == n
    ensures NatString(n)[0] == '0' ==> n == 0
  {
    if n >= 10 {
      NatStringValue(n / 10);
      var s := NatString(n);
      assert s[..|s| - 1] == NatString(n / 10);
    }
  }

  /** What `${n}` renders for an integer. */
  function IntString(n: int): string
  {
    if n < 0 then "-" + NatString(-n) else NatString(n)
  }
}
