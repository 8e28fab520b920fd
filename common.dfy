/** Values shared by every part of the starter: optional values and results,
    the Java exceptions the code raises or catches, class references, bytes,
    and the two string helpers the code takes from Spring (`hasText`) and Java
    (decimal rendering of a counter). */
module Common {

  /** A Java reference that may be null. */
  datatype Option<+T> = None | Some(value: T)

  /** A value or the exception that was thrown instead of returning it. */
  datatype Result<+T, +E> = Ok(value: T) | Err(error: E)

  /** How a `void` Java method ended: normally, or by throwing. */
  datatype Completion = Done | Thrown(error: Throwable)

  /** The exceptions the modelled code throws, wraps or catches. */
  datatype Throwable =
    | IllegalArgument(message: string)
    | IllegalState(message: string)
    | NullPointer
    | IndexOutOfBounds
    | ClassCast
    | Runtime(cause: Throwable)
    | Messaging(cause: Throwable)
    | InvocationTarget(target: Throwable)
      /** Jackson's checked `JsonProcessingException`. */
    | JsonProcessing(id: nat)
      /** Raised by code outside the model (application handler, broker client,
          Jackson); `isError` marks a `java.lang.Error` rather than an `Exception`. */
    | Foreign(id: nat, isError: bool)

  /** True for everything a `catch (Exception e)` clause catches. */
  predicate IsException(t: Throwable)
  {
    !(t.Foreign? && t.isError)
  }

  /** What a `catch (Exception e) { throw new RuntimeException(..., e); }`
      block lets out: an exception wrapped, an `Error` unchanged. */
  function CaughtAsRuntime(t: Throwable): (w: Throwable)
    ensures IsException(t) ==> w == Runtime(t)
    ensures !IsException(t) ==> w == t
  {
    if IsException(t) then Runtime(t) else t
  }

  /** A `java.lang.Class`, compared by its fully qualified name as `Objects.equals` does. */
  datatype TypeRef = Class(name: string)

  const ObjectClass := Class("java.lang.Object")
  const StringClass := Class("java.lang.String")
  const MessageClass := Class("com.aliyun.openservices.ons.api.Message")

  newtype Byte = b: int | 0 <= b < 256
  type Bytes = seq<Byte>

  /** `Character.isWhitespace` on the Basic Multilingual Plane. */
  predicate IsWhitespace(c: char)
  {
    c == ' ' || ('\t' <= c <= '\r') || ('\U{1C}' <= c <= '\U{1F}')
    || c == '\U{1680}' || ('\U{2000}' <= c <= '\U{2006}') || ('\U{2008}' <= c <= '\U{200A}')
    || c == '\U{2028}' || c == '\U{2029}' || c == '\U{205F}' || c == '\U{3000}'
  }

  /** Spring's `StringUtils.hasText`: not null and holds a non-whitespace character. */
  predicate HasText(s: Option<string>)
  {
    s.Some? && exists i :: 0 <= i < |s.value| && !IsWhitespace(s.value[i])
  }

  function DigitChar(d: nat): (c: char)
    requires d < 10
    ensures '0' <= c <= '9'
  {
    (48 + d) as char
  }

  /** The decimal rendering Java gives a non-negative number (`String.valueOf(long)`). */
  function NatToDecimal(n: nat): (s: string)
    ensures 1 <= |s|
    ensures forall i :: 0 <= i < |s| ==> '0' <= s[i] <= '9'
    ensures (n < 10) == (|s| == 1)
    decreases n
  {
    if n < 10 then [DigitChar(n)] else NatToDecimal(n / 10) + [DigitChar(n % 10)]
  }

  /** Distinct numbers render as distinct strings. */
  lemma {:induction false} DecimalInjective(a: nat, b: nat)
    requires NatToDecimal(a) == NatToDecimal(b)
    ensures a == b
  {
    if a >= 10 && b >= 10 {
      var sa, sb := NatToDecimal(a), NatToDecimal(b);
      assert sa[..|sa| - 1] == NatToDecimal(a / 10);
      assert sb[..|sb| - 1] == NatToDecimal(b / 10);
      DecimalInjective(a / 10, b / 10);
      assert DigitChar(a % 10) == sa[|sa| - 1] == sb[|sb| - 1] == DigitChar(b % 10);
    }
  }
}
