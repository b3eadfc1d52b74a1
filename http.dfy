/** The JSON replies the Express routes send: a status code and the reply's fields. */
module Http {
  import opened Base

  /** `res.status(status).json({ error, message, data })`, absent fields omitted. */
  datatype Response<T> = Response(status: int, error: Option<string>, message: Option<string>, data: Option<T>)

  function Fail<T>(status: int, error: string): Response<T>
  {
    Response(status, Some(error), None, None)
  }

  function Success<T>(status: int, message: Option<string>, data: Option<T>): Response<T>
  {
    Response(status, None, message, data)
  }
}
