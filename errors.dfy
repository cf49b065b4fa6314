/** The application error type: an HTTP status code, a client message and
    an optional underlying cause. */
module Errors {
  import opened Wrappers

  /** A Go `error` value: a sentinel made by errors.New, or an AppError. */
  datatype GoError =
    | Sentinel(text: string)
    | App(app: AppError)
  {
    /** The error's Error() text: the text the innermost error of its
        Unwrap chain carries. */
    function Text(): (r: string)
      ensures r == RootText(this)
      decreases this, 1
    {
      match this
      case Sentinel(t) => t
      case App(e) => e.Error()
    }

    /** errors.Unwrap: nothing for a sentinel, the AppError's Unwrap
        otherwise. */
    function Unwrapped(): (r: Option<GoError>)
      ensures r.Some? <==> App? && app.err.Some?
      ensures r.Some? ==> r.value == app.err.value
    {
      match this
      case Sentinel(_) => None
      case App(e) => e.Unwrap()
    }
  }

  datatype AppError = AppError(code: int, message: string, err: Option<GoError>)
  {
    /** Error: the cause's text when there is a cause, else the message;
        down a chain of causes, the text of the innermost error. */
    function Error(): (r: string)
      ensures err.None? ==> r == message
      ensures err.Some? ==> r == RootText(err.value)
      decreases this, 0
    {
      match err
      case Some(cause) => cause.Text()
      case None => message
    }

    /** Unwrap: the stored cause, for errors.Is and errors.As. */
    function Unwrap(): (r: Option<GoError>)
      ensures r.Some? <==> err.Some?
      ensures r.Some? ==> r.value == err.value
    {
      err
    }
  }

  const StatusBadRequest := 400
  const StatusNotFound := 404
  const StatusInternalServerError := 500

  const ErrNotFound := Sentinel("resource not found")
  const ErrInvalidInput := Sentinel("invalid input")
  const ErrDatabase := Sentinel("database error")
  const ErrUnauthorized := Sentinel("unauthorized")
  const ErrInternalServer := Sentinel("internal server error")

  /** The Unwrap chain of `e`: `e`, what it unwraps to, and so on. */
  function Chain(e: GoError): (r: seq<GoError>)
    ensures |r| > 0 && r[0] == e && r[|r| - 1].Unwrapped().None?
    ensures forall i :: 0 <= i < |r| - 1 ==> r[i].Unwrapped() == Some(r[i + 1])
    decreases e
  {
    match e.Unwrapped()
    case None => [e]
    case Some(c) => [e] + Chain(c)
  }

  /** errors.Is: `target` is `e` or is reached from it through Unwrap. */
  function Is(e: GoError, target: GoError): (r: bool)
    ensures r <==> target in Chain(e)
    decreases e
  {
    e == target || match e.Unwrapped()
      case None => false
      case Some(c) => Is(c, target)
  }

  /** The innermost error of the Unwrap chain. */
  function Root(e: GoError): (r: GoError)
    ensures r.Unwrapped().None?
    ensures Is(e, r)
    decreases e
  {
    match e.Unwrapped()
    case None => e
    case Some(c) => Root(c)
  }

  /** The text an innermost error shows: a sentinel's text, or the message
      of an AppError without a cause. */
  function RootText(e: GoError): string
  {
    match Root(e)
    case Sentinel(t) => t
    case App(a) => a.message
  }

  /** NewAppError: the fields as given; the error reads as the message
      without a cause and as the cause's text with one, and every error
      errors.Is finds in the cause it finds in the new error too. */
  function NewAppError(code: int, message: string, err: Option<GoError>): (e: AppError)
    ensures e.code == code && e.message == message && e.Unwrap() == err
    ensures err.None? ==> e.Error() == message
    ensures err.Some? ==> e.Error() == err.value.Text()
    ensures forall t :: err.Some? && Is(err.value, t) ==> Is(App(e), t)
  {
    AppError(code, message, err)
  }

  /** NewNotFoundError: status 404; the error reads "resource not found"
      whatever the message, and errors.Is finds ErrNotFound in it. */
  function NewNotFoundError(message: string): (e: AppError)
    ensures e.code == StatusNotFound && e.message == message
    ensures e.Error() == "resource not found"
    ensures Is(App(e), ErrNotFound)
  {
    AppError(StatusNotFound, message, Some(ErrNotFound))
  }

  /** NewBadRequestError: status 400; the error reads "invalid input"
      whatever the message, and errors.Is finds ErrInvalidInput in it. */
  function NewBadRequestError(message: string): (e: AppError)
    ensures e.code == StatusBadRequest && e.message == message
    ensures e.Error() == "invalid input"
    ensures Is(App(e), ErrInvalidInput)
  {
    AppError(StatusBadRequest, message, Some(ErrInvalidInput))
  }

  /** NewInternalServerError: status 500, with the same reading and the
      same errors.Is behaviour as NewAppError. */
  function NewInternalServerError(message: string, err: Option<GoError>): (e: AppError)
    ensures e.code == StatusInternalServerError && e.message == message && e.Unwrap() == err
    ensures err.None? ==> e.Error() == message
    ensures err.Some? ==> e.Error() == err.value.Text()
    ensures forall t :: err.Some? && Is(err.value, t) ==> Is(App(e), t)
  {
    AppError(StatusInternalServerError, message, err)
  }

  /** Wrapping twice keeps the innermost error: an AppError wrapping an
      AppError reads as, and errors.Is reaches, what the inner one wraps. */
  lemma {:induction false} WrapTwice(outer: int, inner: int, m1: string, m2: string, cause: GoError)
    ensures var e := NewAppError(outer, m1, Some(App(NewAppError(inner, m2, Some(cause)))));
      e.Error() == cause.Text() && Is(App(e), cause) && Is(App(e), Root(cause))
  {
    var i := NewAppError(inner, m2, Some(cause));
    assert Is(App(i), cause);
    assert Is(cause, Root(cause));
  }
}
