/** The few GLib notions the plugin code leans on: nullable values, NUL-terminated
    strings, `guint`, `GError` out-parameters and `g_strcmp0`. */
module GLib {

  /** A nullable value: `None` stands for NULL. */
  datatype Option<+T> = None | Some(value: T)

  /** A C string: the characters before the NUL terminator, so it holds no NUL. */
  type CString = s: string | '\0' !in s

  /** `guint`, a 32-bit unsigned integer. */
  newtype uint32 = x: int | 0 <= x < 0x1_0000_0000

  /** What `%s` prints in a GLib format string: GLib prints "(null)" for NULL. */
  function Printable(s: Option<string>): string
  {
    match s
    case Some(v) => v
    case None => "(null)"
  }

  /** The error codes the plugin code raises itself; errors coming from plugin hooks
      or device code carry whatever code their author chose. */
  datatype ErrorCode = Internal | NotSupported | IoFailed | Foreign(code: nat)

  /** A `GError`: a code and a message. */
  datatype Error = Error(code: ErrorCode, message: string)

  /** A `gboolean` result with its `GError **error` out-parameter. A FALSE return
      normally sets the error, but C does not enforce it, so `Fail` may carry none. */
  datatype Outcome = Pass | Fail(error: Option<Error>)

  /** `g_propagate_prefixed_error`: the code is kept and the message prefixed. */
  function PrefixError(prefix: string, e: Error): Error
  {
    e.(message := prefix + e.message)
  }

  /** The sign of `strcmp(a, b)`: byte-wise lexicographic order, a proper prefix first. */
  function StrCmp(a: string, b: string): (r: int)
    ensures -1 <= r <= 1
  {
    if |a| == 0 then (if |b| == 0 then 0 else -1)
    else if |b| == 0 then 1
    else if a[0] < b[0] then -1
    else if a[0] > b[0] then 1
    else StrCmp(a[1..], b[1..])
  }

  /** `g_strcmp0`: like `strcmp`, with NULL ordered before every string. */
  function StrCmp0(a: Option<string>, b: Option<string>): (r: int)
    ensures -1 <= r <= 1
    ensures r == 0 <==> a == b
  {
    match (a, b)
    case (None, None) => 0
    case (None, Some(_)) => -1
    case (Some(_), None) => 1
    case (Some(x), Some(y)) => StrCmpZeroIffEqual(x, y); StrCmp(x, y)
  }

  /** `strcmp` reports equality exactly for equal strings. */
  lemma {:induction false} StrCmpZeroIffEqual(a: string, b: string)
    ensures StrCmp(a, b) == 0 <==> a == b
  {
    if |a| > 0 && |b| > 0 && a[0] == b[0] {
      StrCmpZeroIffEqual(a[1..], b[1..]);
      assert a == [a[0]] + a[1..] && b == [b[0]] + b[1..];
    }
  }

  /** Swapping the arguments of `strcmp` flips the sign of its result. */
  lemma {:induction false} StrCmpAntisymmetric(a: string, b: string)
    ensures StrCmp(a, b) == -StrCmp(b, a)
  {
    if |a| > 0 && |b| > 0 && a[0] == b[0] {
      StrCmpAntisymmetric(a[1..], b[1..]);
    }
  }

  /** `strcmp` order is transitive, so sorting plugins by name is well defined. */
  lemma {:induction false} StrCmpTransitive(a: string, b: string, c: string)
    requires StrCmp(a, b) < 0 && StrCmp(b, c) < 0
    ensures StrCmp(a, c) < 0
  {
    if |a| > 0 && |b| > 0 && |c| > 0 && a[0] == b[0] && b[0] == c[0] {
      StrCmpTransitive(a[1..], b[1..], c[1..]);
    }
  }
}
