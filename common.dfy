/** Values shared by every part of the model: optional values, results and the
    exceptions the services throw, money, identifiers and timestamps. */
module Common {

  datatype Option<+T> = None | Some(value: T)

  /** The exceptions thrown by the entities and services, by kind. */
  datatype Error =
    | Domain(message: string)                        // DomainException
    | NotFound(message: string)                      // NotFoundException
    | Argument(message: string, paramName: string)   // ArgumentException
    | ArgumentNull(paramName: string)                // ArgumentNullException.ThrowIfNull
    | Canceled                                       // OperationCanceledException, from ThrowIfCancellationRequested

  /** A value, or the exception that was thrown instead of producing it. */
  datatype Result<+T> = Ok(value: T) | Err(error: Error)

  /** The completion of a `void` operation: it returned, or it threw. */
  datatype Outcome = Pass | Fail(error: Error)

  /** A `decimal` amount stored as numeric(18,2), counted in cents. */
  type Money = int

  /** Money from whole currency units (500_000 units is 500,000.00). */
  function Units(n: int): Money { n * 100 }

  const GuidBound: nat := 0x1_0000_0000_0000_0000_0000_0000_0000_0000

  /** A 128-bit identifier; `Guid.Empty` is zero. */
  type Guid = g: nat | g < GuidBound

  const EmptyGuid: Guid := 0

  /** The id of the client the fund and product services act for,
      11111111-1111-1111-1111-111111111111. */
  const DefaultClientId: Guid := 0x1111_1111_1111_1111_1111_1111_1111_1111

  datatype DateTimeKind = Unspecified | Utc | Local

  /** A `DateTime`: a tick count and a kind. .NET compares two of them by
      their ticks alone. */
  datatype DateTime = DateTime(ticks: nat, kind: DateTimeKind)

  /** `default(DateTime)`. */
  const DefaultDateTime: DateTime := DateTime(0, Unspecified)

  /** `d == default`, which compares ticks only. */
  predicate IsDefault(d: DateTime) { d.ticks == DefaultDateTime.ticks }

  /** `value ?? fallback` for an optional argument. */
  function OrElse<T>(value: Option<T>, fallback: T): T {
    match value
    case Some(v) => v
    case None => fallback
  }

  // Rendering of the values that the exception messages interpolate.

  function HexDigit(d: nat): char
    requires d < 16
  {
    "0123456789abcdef"[d]
  }

  /** The decimal digits of `n`. */
  function NatText(n: nat): (s: string)
    ensures |s| >= 1
  {
    if n < 10 then [HexDigit(n)] else NatText(n / 10) + [HexDigit(n % 10)]
  }

  function IntText(i: int): string {
    if i < 0 then "-" + NatText(-i) else NatText(i)
  }

  /** The low `width` hexadecimal digits of `n`, most significant first. */
  function HexText(n: nat, width: nat): (s: string)
    ensures |s| == width
  {
    if width == 0 then "" else HexText(n / 16, width - 1) + [HexDigit(n % 16)]
  }

  /** `Guid.ToString()`: 32 hexadecimal digits grouped 8-4-4-4-12. */
  function GuidText(g: Guid): string {
    var h := HexText(g, 32);
    h[..8] + "-" + h[8..12] + "-" + h[12..16] + "-" + h[16..20] + "-" + h[20..]
  }

  /** An amount with two decimals and no grouping. */
  function AmountText(m: Money): string {
    var a := if m < 0 then -m else m;
    (if m < 0 then "-" else "") + NatText(a / 100) + "." + [HexDigit(a % 100 / 10), HexDigit(a % 10)]
  }
}
