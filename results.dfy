/** The value shapes shared by the client and every tool handler: optional
    values, values that may also be `null`, what a `throw` carries, what a
    client call yields, and the `{success, data} | {success, error}` result
    every handler returns. */
module Results {
  import opened Json

  /** A property that may be absent (`undefined`). */
  datatype Option<+T> = None | Some(value: T) {
    /** Optional chaining `x?.f`. */
    function Map<U>(f: T -> U): Option<U> {
      match this
      case None => None
      case Some(v) => Some(f(v))
    }
  }

  /** A property typed `T | null` that may also be absent. */
  datatype Nullable<+T> = Undefined | Null | Value(value: T)

  /** What a `throw` carries: an `Error` with its message, or any other value. */
  datatype Thrown = ErrorObject(message: string) | NonError(value: Json)

  /** The outcome of one awaited client call: the payload, or what it threw. */
  datatype Outcome<+T> = Returned(value: T) | Raised(thrown: Thrown)

  /** The result every handler returns; handlers never throw. */
  datatype ToolResult<+T> = Success(data: T) | Failure(error: string) {
    function MapData<U>(f: T -> U): (r: ToolResult<U>)
      ensures Success? <==> r.Success?
      ensures Success? ==> r.data == f(data)
      ensures Failure? ==> r.error == error
    {
      match this
      case Success(d) => Success(f(d))
      case Failure(e) => Failure(e)
    }
  }

  /** The `catch (error)` block shared by all handlers. */
  function FailureOf<T>(t: Thrown): (r: ToolResult<T>)
    ensures r.Failure?
    ensures t.ErrorObject? ==> r.error == t.message
    ensures t.NonError? ==> r.error == "Unknown error occurred"
  {
    match t
    case ErrorObject(m) => Failure(m)
    case NonError(_) => Failure("Unknown error occurred")
  }

  /** `try { const p = await call; return {success: true, data: project(p)} }
      catch (error) { ... }`: a handler body around one client call. */
  function Handle<P, D>(o: Outcome<P>, project: P -> D): (r: ToolResult<D>)
    ensures o.Returned? <==> r.Success?
    ensures o.Returned? ==> r.data == project(o.value)
    ensures o.Raised? ==> r == FailureOf(o.thrown)
  {
    match o
    case Returned(p) => Success(project(p))
    case Raised(t) => FailureOf(t)
  }
}
