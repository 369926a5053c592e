// The controllers' exception handler. It picks a handler by the type of the
// thrown exception, which decides the HTTP status; the response body is a
// small JSON object built from the ROOT CAUSE of the exception, found by
// walking the `getCause()` chain. The body is always sent with
// `Content-Type: application/json`.

module Exceptions {
  import opened JavaLang
  import Services

  /** The exception types the advice has a handler for, and everything else. */
  datatype Kind = CanNotFindKind | AlreadyExistsKind | PersistentLayerProblemsKind | IllegalArgumentKind | OtherKind

  /** A `Throwable` as the handler reads it: its class, `getMessage()` and `getCause()`. */
  class Throwable {
    const kind: Kind
    /** The fully qualified class name. */
    const className: string
    const message: Option<string>
    const cause: Throwable?

    constructor (kind: Kind, className: string, message: Option<string>, cause: Throwable?)
      ensures this.kind == kind && this.className == className
      ensures this.message == message && this.cause == cause
    {
      this.kind := kind;
      this.className := className;
      this.message := message;
      this.cause := cause;
    }
  }

  /** The walk stops at an exception with no cause, or whose cause is itself. */
  predicate Stops(t: Throwable)
  {
    t.cause == null || t.cause == t
  }

  /**
   * `chain` is the cause chain the walk visits from `e`: it starts at `e`,
   * each step follows `cause`, and it ends at the first exception where the
   * walk stops. When no such chain exists (a cycle of two or more), the
   * loop in the source does not terminate.
   */
  ghost predicate CauseChain(e: Throwable, chain: seq<Throwable>)
  {
    && |chain| >= 1 && chain[0] == e && Stops(chain[|chain| - 1])
    && forall i :: 0 <= i < |chain| - 1 ==> !Stops(chain[i]) && chain[i].cause == chain[i + 1]
  }

  /** An exception has at most one cause chain, so its root cause is well defined. */
  lemma ChainUnique(e: Throwable, c1: seq<Throwable>, c2: seq<Throwable>)
    requires CauseChain(e, c1) && CauseChain(e, c2)
    ensures c1 == c2
  {
    var n := if |c1| < |c2| then |c1| else |c2|;
    var i := 0;
    while i < n - 1
      invariant 0 <= i <= n - 1
      invariant forall j :: 0 <= j <= i ==> c1[j] == c2[j]
    {
      assert c1[i + 1] == c1[i].cause == c2[i + 1];
      i := i + 1;
    }
    assert c1[n - 1] == c2[n - 1];
    assert |c1| == |c2|;
    assert forall j :: 0 <= j < |c1| ==> c1[j] == c2[j];
  }

  /**
   * `getRootCause`: follows `getCause()` until an exception has no cause or
   * is its own cause, and returns that exception. The ghost `chain` is the
   * walk the loop makes; it exists exactly when the loop terminates.
   */
  method GetRootCause(e: Throwable, ghost chain: seq<Throwable>) returns (root: Throwable)
    requires CauseChain(e, chain)
    ensures root == chain[|chain| - 1] && Stops(root)
    ensures Stops(e) ==> root == e
  {
    root := e;
    ghost var i := 0;
    while root.cause != null && root != root.cause
      invariant 0 <= i < |chain| && root == chain[i]
      invariant i == 0 || !Stops(e)
      decreases |chain| - i
    {
      root := root.cause;
      i := i + 1;
    }
  }

  /** `{ "error": "<message>", "exception": "class <name>" }`, where a `null` message prints as `null`. */
  function ErrorBody(root: Throwable): string
  {
    "{ \"error\": \"" + Show(root.message) + "\", \"exception\": \"class " + root.className + "\" }"
  }

  /** `toErrorMessage`: the body is made from the root cause alone, never from the outer exception. */
  method ToErrorMessage(e: Throwable, ghost chain: seq<Throwable>) returns (body: string)
    requires CauseChain(e, chain)
    ensures body == ErrorBody(chain[|chain| - 1])
    ensures Stops(e) ==> body == ErrorBody(e)
  {
    var messageRoot := GetRootCause(e, chain);
    var classRoot := GetRootCause(e, chain);
    body := "{ \"error\": \"" + Show(messageRoot.message) + "\", \"exception\": \"class "
            + classRoot.className + "\" }";
  }

  predicate NoQuote(s: string)
  {
    forall i :: 0 <= i < |s| ==> s[i] != '"'
  }

  /** The index of the first `"` in `s`, or `|s|` when there is none. */
  function FirstQuote(s: string): (r: nat)
    ensures r <= |s|
  {
    if |s| == 0 || s[0] == '"' then 0 else 1 + FirstQuote(s[1..])
  }

  /** In a message without quotes followed by a quote, the first quote ends the message. */
  lemma {:induction false} FirstQuoteAfter(m: string, t: string)
    requires NoQuote(m)
    ensures FirstQuote(m + "\"" + t) == |m|
  {
    if |m| > 0 {
      assert (m + "\"" + t)[1..] == m[1..] + "\"" + t;
      FirstQuoteAfter(m[1..], t);
    }
  }

  /**
   * A body names its root cause: when the messages hold no `"`, equal
   * bodies come from equal messages and equal class names.
   */
  lemma ErrorBodyNamesRoot(a: Throwable, b: Throwable)
    requires NoQuote(Show(a.message)) && NoQuote(Show(b.message))
    requires ErrorBody(a) == ErrorBody(b)
    ensures Show(a.message) == Show(b.message) && a.className == b.className
  {
    var prefix, middle, suffix := "{ \"error\": \"", "\", \"exception\": \"class ", "\" }";
    var ma, mb := Show(a.message), Show(b.message);
    var body := ErrorBody(a);
    var rest := body[|prefix|..];
    assert rest == ma + "\"" + (middle[1..] + a.className + suffix);
    assert rest == mb + "\"" + (middle[1..] + b.className + suffix);
    FirstQuoteAfter(ma, middle[1..] + a.className + suffix);
    FirstQuoteAfter(mb, middle[1..] + b.className + suffix);
    assert ma == rest[..|ma|] == mb;
    var start := |prefix| + |ma| + |middle|;
    assert a.className == body[start..|body| - |suffix|] == b.className;
  }

  /** The HTTP status each handler answers with. */
  function Status(kind: Kind): int
  {
    match kind
    case CanNotFindKind => 404
    case AlreadyExistsKind => 409
    case PersistentLayerProblemsKind => 409
    case IllegalArgumentKind => 400
    case OtherKind => 500
  }

  datatype Response = Response(status: int, contentType: string, body: string)

  /**
   * `handleException`: the handler chosen by the exception's own type sets
   * the status; the body describes the root cause.
   */
  method HandleException(ex: Throwable, ghost chain: seq<Throwable>) returns (response: Response)
    requires CauseChain(ex, chain)
    ensures response.status == Status(ex.kind) && response.contentType == "application/json"
    ensures response.body == ErrorBody(chain[|chain| - 1])
  {
    var body := ToErrorMessage(ex, chain);
    response := Response(Status(ex.kind), "application/json", body);
  }

  /** The handler a service error reaches. */
  function KindOf(error: Services.ServiceError): Kind
  {
    match error
    case IllegalArgument => IllegalArgumentKind
    case CanNotFind => CanNotFindKind
    case AlreadyExists => AlreadyExistsKind
    case PersistentLayerProblems => PersistentLayerProblemsKind
  }

  /**
   * What a client sees of a service error: 404 exactly for "not found",
   * 409 exactly for a duplicate or a storage problem, 400 exactly for a
   * bad argument, and never 500, which is left for every other exception.
   */
  lemma ServiceErrorStatus(error: Services.ServiceError)
    ensures Status(KindOf(error)) == 404 <==> error == Services.CanNotFind
    ensures Status(KindOf(error)) == 409 <==> error == Services.AlreadyExists || error == Services.PersistentLayerProblems
    ensures Status(KindOf(error)) == 400 <==> error == Services.IllegalArgument
    ensures Status(KindOf(error)) != 500 && Status(OtherKind) == 500
  {
  }
}
