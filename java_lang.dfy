/**
 * The few pieces of Java semantics the fleet core relies on: nullable
 * references, the exceptions it throws, 32- and 64-bit integer wrap-around,
 * integer division that truncates toward zero, and ASCII case folding as
 * used by `toUpperCase` and `equalsIgnoreCase`.
 */
module JavaLang {

  datatype Option<+T> = None | Some(value: T)

  /** A Java `String` reference: `None` stands for `null`. */
  type Str = Option<string>

  /** The exceptions the core throws, with the messages it gives them. */
  datatype Exception =
    | NullPointerException
    | IllegalArgumentException(message: string)
    | RuntimeException(message: string)

  /** The result of a Java method that returns a value or throws. */
  datatype Result<+T> = Success(value: T) | Failure(error: Exception)

  /** The result of a `void` Java method: it returns or it throws. */
  datatype Outcome = Pass | Fail(error: Exception)

  const INT_MIN: int := -0x8000_0000
  const INT_MAX: int := 0x7FFF_FFFF
  const LONG_MIN: int := -0x8000_0000_0000_0000
  const LONG_MAX: int := 0x7FFF_FFFF_FFFF_FFFF

  predicate IsInt(x: int) { INT_MIN <= x <= INT_MAX }
  predicate IsLong(x: int) { LONG_MIN <= x <= LONG_MAX }

  /** Two's-complement narrowing to 32 bits: Java `int` arithmetic and `(int)` casts. */
  function ToInt(x: int): (r: int)
    ensures IsInt(r)
    ensures (x - r) % 0x1_0000_0000 == 0
    ensures IsInt(x) ==> r == x
  {
    var m := x % 0x1_0000_0000;
    if m <= INT_MAX then m else m - 0x1_0000_0000
  }

  /** Two's-complement narrowing to 64 bits: Java `long` arithmetic. */
  function ToLong(x: int): (r: int)
    ensures IsLong(r)
    ensures (x - r) % 0x1_0000_0000_0000_0000 == 0
    ensures IsLong(x) ==> r == x
  {
    var m := x % 0x1_0000_0000_0000_0000;
    if m <= LONG_MAX then m else m - 0x1_0000_0000_0000_0000
  }

  /** Java integer division, which truncates toward zero (Dafny's `/` is Euclidean). */
  function QuotTowardZero(a: int, b: int): int
    requires b > 0
  {
    if a >= 0 then a / b else -((-a) / b)
  }

  /** `Character.toUpperCase` restricted to ASCII. */
  function UpperAscii(c: char): (u: char)
    ensures 'a' <= c <= 'z' ==> 'A' <= u <= 'Z' && u as int - 'A' as int == c as int - 'a' as int
    ensures !('a' <= c <= 'z') ==> u == c
  {
    if 'a' <= c <= 'z' then (c as int - 32) as char else c
  }

  /** `String.toUpperCase` restricted to ASCII. */
  function ToUpperCase(s: string): (u: string)
    ensures |u| == |s|
    ensures forall i :: 0 <= i < |s| ==> u[i] == UpperAscii(s[i])
  {
    seq(|s|, i requires 0 <= i < |s| => UpperAscii(s[i]))
  }

  /** `a.equalsIgnoreCase(b)` for a non-null `a`; `null` is never equal. */
  predicate EqualsIgnoreCase(a: string, b: Str)
  {
    b.Some? && |a| == |b.value| && ToUpperCase(a) == ToUpperCase(b.value)
  }

  /** `s.trim().isEmpty()`: `trim` removes every character up to U+0020 at either end. */
  predicate IsBlank(s: string)
  {
    forall i :: 0 <= i < |s| ==> s[i] <= ' '
  }
}
