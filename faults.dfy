/**
 * The exceptions that end a run of the session manager, with the messages the
 * service gives them (ClaudeCodeCommandService.cs).
 */
module Faults {

  /** The request timeout, `DefaultRequestTimeout`, in minutes. */
  const RequestTimeoutMinutes: nat := 10

  /** The decimal text of a natural number (what string interpolation prints). */
  function Decimal(n: nat): (s: string)
    ensures |s| >= 1
    ensures forall i :: 0 <= i < |s| ==> '0' <= s[i] <= '9'
  {
    if n < 10 then [('0' as int + n) as char] else Decimal(n / 10) + Decimal(n % 10)
  }

  const TimeoutMessage: string :=
    "Claude CLI request timed out after " + Decimal(RequestTimeoutMinutes) + " minutes."
  const TerminatedMessage: string := "Claude CLI process has unexpectedly terminated."
  const StreamClosedMessage: string := "Claude CLI output stream closed unexpectedly."
  /** What `Process.HasExited` says about a `Process` object whose `Start` failed. */
  const NoAssociatedProcessMessage: string := "No process is associated with this object."
  const DisposedMessage: string := "Cannot access a disposed object.\r\nObject name: 'ClaudeCodeCommandService'."
  const CanceledMessage: string := "The operation was canceled."
  const LaunchFailedPrefix: string := "Claude CLI not found. Ensure 'claude' is on PATH. Details: "
  /** What the .NET Framework's `Path.Combine` says about an argument holding a character it refuses. */
  const IllegalPathMessage: string := "Illegal characters in path."

  /** What Newtonsoft's `Value<string>()` says about a token that is an object or an
      array (`typeName` is the token's .NET type, such as `Newtonsoft.Json.Linq.JObject`). */
  function InvalidCastMessage(typeName: string): string {
    "Cannot cast " + typeName + " to Newtonsoft.Json.Linq.JToken."
  }

  datatype Fault =
    | OperationCanceled              // OperationCanceledException
    | Timeout(message: string)       // TimeoutException
    | InvalidOperation(message: string)
    | ObjectDisposed                 // ObjectDisposedException from ThrowIfDisposed
    | LaunchFailed(details: string)  // the Exception wrapping a Win32Exception from Process.Start
    | CallbackFailed(message: string) // whatever the per-line callback threw
    | InvalidCast(message: string)   // InvalidCastException from a JSON token conversion
    | Argument(message: string)      // ArgumentException from Path.Combine
  {
    /** `Exception.Message`. */
    function Message(): string {
      match this
      case OperationCanceled => CanceledMessage
      case Timeout(m) => m
      case InvalidOperation(m) => m
      case ObjectDisposed => DisposedMessage
      case LaunchFailed(d) => LaunchFailedPrefix + d
      case CallbackFailed(m) => m
      case InvalidCast(m) => m
      case Argument(m) => m
    }
  }

  /** The timeout message names the configured duration of ten minutes. */
  lemma TimeoutMessageNamesTenMinutes()
    ensures TimeoutMessage == "Claude CLI request timed out after 10 minutes."
  {
    assert Decimal(10) == Decimal(1) + Decimal(0);
  }
}
