/**
 * How the FastAPI routers turn the outcome of a handler's `try` block into an HTTP response.
 * A handler body either returns a value or raises; what it raises is an `HTTPException`
 * (status, detail, optional `WWW-Authenticate: Bearer` header) or any other exception.
 * Every external call (a Supabase query, a Gemini generation, Supabase Auth) is a `Call`
 * parameter: the value it returned, or the text of the exception it raised.
 */
module Http {

  datatype HttpError = HttpError(status: nat, detail: string, bearerChallenge: bool)

  datatype Response<T> = Ok(value: T) | Fail(error: HttpError)

  datatype Exception = HttpException(error: HttpError) | OtherException(message: string)

  /** What a `try` block does: returns a value or raises. */
  datatype Body<T> = Return(value: T) | Raise(exception: Exception)

  /** What an external call does: returns a value or raises with a message. */
  datatype Call<T> = Returned(value: T) | Threw(message: string)

  function Digit(d: nat): char
    requires d < 10
  {
    "0123456789"[d]
  }

  function Decimal(n: nat): (r: string)
    ensures |r| >= 1
  {
    if n < 10 then [Digit(n)] else Decimal(n / 10) + [Digit(n % 10)]
  }

  /** `str(e)`: Starlette renders an `HTTPException` as "<status>: <detail>". */
  function Describe(e: Exception): string {
    match e
    case HttpException(err) => Decimal(err.status) + ": " + err.detail
    case OtherException(m) => m
  }

  /** The prefix the notes and auth routers put before an unexpected error's text. */
  const InternalPrefix: string := "Error interno: "

  function InternalError(detail: string): HttpError {
    HttpError(500, detail, false)
  }

  /**
   * `except HTTPException: raise` followed by `except Exception as e:` raising 500 with
   * `prefix + str(e)`: an `HTTPException` goes out unchanged, anything else becomes 500.
   */
  function ReRaiseHttp<T>(b: Body<T>, prefix: string): (r: Response<T>)
    ensures b.Return? ==> r == Ok(b.value)
    ensures b.Raise? && b.exception.HttpException? ==> r == Fail(b.exception.error)
    ensures b.Raise? && b.exception.OtherException? ==> r == Fail(InternalError(prefix + b.exception.message))
  {
    match b
    case Return(v) => Ok(v)
    case Raise(HttpException(err)) => Fail(err)
    case Raise(OtherException(m)) => Fail(InternalError(prefix + m))
  }

  /**
   * A lone `except Exception as e:` raising 500 with `prefix + str(e)`: since `HTTPException`
   * is an `Exception`, whatever the body raises, its own `HTTPException`s included, becomes 500.
   */
  function CatchAll<T>(b: Body<T>, prefix: string): (r: Response<T>)
    ensures b.Return? ==> r == Ok(b.value)
    ensures b.Raise? ==> r == Fail(InternalError(prefix + Describe(b.exception)))
  {
    match b
    case Return(v) => Ok(v)
    case Raise(e) => Fail(InternalError(prefix + Describe(e)))
  }
}
