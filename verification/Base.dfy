/** Result and option types, and the error values that cross component boundaries. */
module Base {

  datatype Option<+T> = None | Some(value: T)

  datatype Result<+T> = Ok(value: T) | Err(error: Error)

  /** An error with the parts of it that callers inspect.
      - Cause is an error made outside the components: its text, what it answers as a Tool error that may be
        retried, and what it answers to ModelResponseAvailable, when it offers these methods.
      - Wrapped is a message put in front of another error; the cause is None when it was redacted.
      - Joined carries two errors, AuditPersistence the failed write of a completed model call. */
  datatype Error =
    | Cause(text: string, retryable: Option<bool>, marked: Option<bool>)
    | Wrapped(prefix: string, message: string, cause: Option<Error>)
    | Joined(first: Error, second: Error)
    | AuditPersistence(outcome: Error)
    | MaxIterations

  /** The text an error shows. */
  function Text(error: Error): string {
    match error
    case Cause(text, _, _) => text
    case Wrapped(prefix, message, _) => prefix + ": " + message
    case Joined(first, second) => Text(first) + "\n" + Text(second)
    case AuditPersistence(outcome) => Text(outcome)
    case MaxIterations => "react loop reached maximum iterations"
  }

  /** What the first error of the tree that offers ModelResponseAvailable answers. */
  function ResponseMark(error: Error): Option<bool> {
    match error
    case Cause(_, _, marked) => marked
    case Wrapped(_, _, cause) => if cause.None? then None else ResponseMark(cause.value)
    case Joined(first, second) => if ResponseMark(first).Some? then ResponseMark(first) else ResponseMark(second)
    case AuditPersistence(_) => Some(true)
    case MaxIterations => None
  }

  predicate ResponseAvailable(error: Error) {
    ResponseMark(error) == Some(true)
  }

  /** Every answer to the response marker that the tree of an error offers, from the outside in and from left to right.
      An error for a lost row offers it itself. */
  function ResponseOffers(error: Error): seq<bool> {
    match error
    case Cause(_, _, Some(answer)) => [answer]
    case Wrapped(_, _, Some(cause)) => ResponseOffers(cause)
    case Joined(first, second) => ResponseOffers(first) + ResponseOffers(second)
    case AuditPersistence(outcome) => [true] + ResponseOffers(outcome)
    case _ => []
  }

  /** However an error is wrapped and joined, its first offer decides. */
  lemma {:induction false} ResponseFirst(error: Error)
    ensures ResponseAvailable(error) <==> ResponseOffers(error) != [] && ResponseOffers(error)[0]
    ensures ResponseMark(error).None? <==> ResponseOffers(error) == []
  {
    match error {
      case Wrapped(_, _, Some(cause)) => ResponseFirst(cause);
      case Joined(first, second) =>
        ResponseFirst(first);
        ResponseFirst(second);
      case _ =>
    }
  }

  /** What the first error of the tree that offers the retry marker answers. */
  function RetryMark(error: Error): Option<bool> {
    match error
    case Cause(_, retryable, _) => retryable
    case Wrapped(_, _, cause) => if cause.None? then None else RetryMark(cause.value)
    case Joined(first, second) => if RetryMark(first).Some? then RetryMark(first) else RetryMark(second)
    case AuditPersistence(outcome) => RetryMark(outcome)
    case MaxIterations => None
  }

  predicate Retryable(error: Error) {
    RetryMark(error) == Some(true)
  }

  /** Every answer to the retry marker that the tree of an error offers, from the outside in and from left to right. */
  function RetryOffers(error: Error): seq<bool> {
    match error
    case Cause(_, Some(answer), _) => [answer]
    case Wrapped(_, _, Some(cause)) => RetryOffers(cause)
    case Joined(first, second) => RetryOffers(first) + RetryOffers(second)
    case AuditPersistence(outcome) => RetryOffers(outcome)
    case _ => []
  }

  /** However an error is wrapped and joined, its first offer decides. */
  lemma {:induction false} RetryableFirst(error: Error)
    ensures Retryable(error) <==> RetryOffers(error) != [] && RetryOffers(error)[0]
    ensures RetryMark(error).None? <==> RetryOffers(error) == []
  {
    match error {
      case Wrapped(_, _, Some(cause)) => RetryableFirst(cause);
      case Joined(first, second) =>
        RetryableFirst(first);
        RetryableFirst(second);
      case AuditPersistence(outcome) => RetryableFirst(outcome);
      case _ =>
    }
  }

  /** Whether the part is the error or somewhere in its tree. */
  predicate Carries(error: Error, part: Error) {
    error == part ||
    match error
    case Wrapped(_, _, cause) => cause.Some? && Carries(cause.value, part)
    case Joined(first, second) => Carries(first, part) || Carries(second, part)
    case AuditPersistence(outcome) => Carries(outcome, part)
    case _ => false
  }

  /** White space as Unicode defines it. */
  predicate IsSpace(c: char) {
    c == ' ' || '\t' <= c <= '\r' || c in "\U{0085}\U{00A0}\U{1680}\U{2028}\U{2029}\U{202F}\U{205F}\U{3000}"
    || '\U{2000}' <= c <= '\U{200A}'
  }

  function TrimLeft(s: string): string {
    if s != [] && IsSpace(s[0]) then TrimLeft(s[1..]) else s
  }

  function TrimRight(s: string): string {
    if s != [] && IsSpace(s[|s| - 1]) then TrimRight(s[..|s| - 1]) else s
  }

  function Trim(s: string): string {
    TrimRight(TrimLeft(s))
  }

  /** Whether trimming white space leaves nothing. */
  predicate Blank(s: string) {
    Trim(s) == ""
  }

  /** Text that starts with a visible character is not blank. */
  lemma VisibleStart(s: string)
    requires s != "" && !IsSpace(s[0])
    ensures !Blank(s)
  {
    TrimRightKeepsStart(s);
  }

  lemma {:induction false} TrimRightKeepsStart(s: string)
    requires s != "" && !IsSpace(s[0])
    ensures TrimRight(s) != ""
  {
    if IsSpace(s[|s| - 1]) {
      assert |s| > 1;
      TrimRightKeepsStart(s[..|s| - 1]);
    }
  }

  lemma {:induction false} TrimRightEnd(s: string)
    ensures TrimRight(s) != "" ==> !IsSpace(TrimRight(s)[|TrimRight(s)| - 1])
    ensures TrimRight(s) <= s
  {
    if s != "" && IsSpace(s[|s| - 1]) { TrimRightEnd(s[..|s| - 1]); }
  }

  lemma {:induction false} TrimLeftStart(s: string)
    ensures TrimLeft(s) != "" ==> !IsSpace(TrimLeft(s)[0])
  {
    if s != "" && IsSpace(s[0]) { TrimLeftStart(s[1..]); }
  }

  /** Trimming takes away white space at both ends and nothing else. */
  lemma {:induction false} TrimExact(s: string)
    ensures exists left, right :: s == left + Trim(s) + right && AllSpace(left) && AllSpace(right)
    ensures Trim(s) != "" ==> !IsSpace(Trim(s)[0]) && !IsSpace(Trim(s)[|Trim(s)| - 1])
  {
    var rest := TrimLeft(s);
    var left := TrimLeftSplit(s);
    var right := TrimRightSplit(rest);
    TrimLeftStart(s);
    TrimRightEnd(rest);
    assert s == left + Trim(s) + right;
  }

  predicate AllSpace(s: string) { forall i | 0 <= i < |s| :: IsSpace(s[i]) }

  lemma {:induction false} TrimLeftSplit(s: string) returns (left: string)
    ensures s == left + TrimLeft(s) && AllSpace(left)
  {
    if s != "" && IsSpace(s[0]) {
      left := TrimLeftSplit(s[1..]);
      left := [s[0]] + left;
    } else {
      left := "";
    }
  }

  lemma {:induction false} TrimRightSplit(s: string) returns (right: string)
    ensures s == TrimRight(s) + right && AllSpace(right)
  {
    if s != "" && IsSpace(s[|s| - 1]) {
      right := TrimRightSplit(s[..|s| - 1]);
      right := right + [s[|s| - 1]];
    } else {
      right := "";
    }
  }

  /** A trimmed text that is not empty is not blank. */
  lemma TrimmedNotBlank(s: string)
    requires Trim(s) != ""
    ensures !Blank(Trim(s))
  {
    TrimLeftStart(s);
    TrimRightEnd(TrimLeft(s));
    VisibleStart(Trim(s));
  }

  function Max(a: int, b: int): int {
    if a < b then b else a
  }
}
