/// Value types shared by every module of the model: optional values, the
/// `Result` the Rust code passes around as data, the outcome of an operation
/// that may panic, and the fixed-width integers of the source.
module Base {

  datatype Option<+T> = None | Some(value: T)

  datatype Result<+T, +E> = Ok(value: T) | Err(error: E)

  /// How a Rust call ends: normally, or by a panic (`panic!`, `unwrap` or
  /// `expect` on a failure). A panic on the owner thread ends the program, so
  /// the model only says what was (not) changed before it.
  datatype Outcome = Done | Panicked(message: string)

  /// The message of a panic in `Result::unwrap`, given the `Debug`
  /// rendering of the error it found.
  function UnwrapPanic(debug: string): (m: string)
    ensures |m| > |debug| && m[|m| - |debug|..] == debug
  {
    "called `Result::unwrap()` on an `Err` value: " + debug
  }

  /// The `Debug` rendering of a `String`: the text between double quotes.
  function DebugString(s: string): (r: string)
    ensures |r| == |s| + 2 && r[0] == r[|r| - 1] == '"' && r[1..|r| - 1] == s
  {
    "\"" + s + "\""
  }

  /// The message of a panic in `Result::expect(msg)`: the message, a colon
  /// and a space, then the `Debug` rendering of the error it found.
  function ExpectPanic(msg: string, debug: string): (m: string)
    ensures |m| == |msg| + 2 + |debug|
    ensures m[..|msg|] == msg && m[|msg|..|msg| + 2] == ": " && m[|msg| + 2..] == debug
  {
    msg + ": " + debug
  }

  /// The character of a decimal digit.
  function DigitChar(d: nat): char
    requires d < 10
  {
    (('0' as int) + d) as char
  }

  /// `n` as `{}` formats an unsigned integer: its decimal digits, most
  /// significant first, with no leading zero.
  function Decimal(n: nat): (s: string)
    ensures 0 < |s| && forall i :: 0 <= i < |s| ==> '0' <= s[i] <= '9'
    ensures 1 < |s| ==> s[0] != '0'
  {
    if n < 10 then [DigitChar(n)] else Decimal(n / 10) + [DigitChar(n % 10)]
  }

  /// The number a string of decimal digits denotes.
  function DigitsValue(s: string): nat
    requires forall i :: 0 <= i < |s| ==> '0' <= s[i] <= '9'
  {
    if s == [] then 0 else 10 * DigitsValue(s[..|s| - 1]) + (s[|s| - 1] as int - '0' as int)
  }

  /// Reading back the digits `Decimal` writes gives the number written.
  lemma {:induction false} DecimalRoundTrip(n: nat)
    ensures DigitsValue(Decimal(n)) == n
  {
    if n >= 10 {
      var s := Decimal(n);
      assert s[..|s| - 1] == Decimal(n / 10);
      DecimalRoundTrip(n / 10);
    }
  }

  /// The message of Rust's panic on indexing a slice or a vector at or past
  /// its length.
  function IndexPanic(len: nat, index: nat): (m: string)
    ensures "index out of bounds: the len is " <= m
  {
    "index out of bounds: the len is " + Decimal(len) + " but the index is " + Decimal(index)
  }

  type byte = x: int | 0 <= x < 0x100

  type u32 = x: int | 0 <= x < 0x1_0000_0000

  /// The `(u8, u8, u8)` colour triple of the source.
  type Rgb = (byte, byte, byte)
}
