/**
 * The vocabulary the middlewares and controllers share: request-body fields,
 * the errors handed to `next(error)`, the three things a middleware can do,
 * and the JSON responses that are sent.
 */
module Http {

  datatype Option<+T> = None | Some(value: T)

  /** A field of a request body: `undefined` when the client left it out. */
  datatype Field<+T> = Absent | Given(value: T)

  /** `field || ''`: the text written for a body field, '' when it is left out or empty. */
  function OrEmpty(f: Field<string>): (r: string)
    ensures f.Given? ==> r == f.value
    ensures f.Absent? ==> r == ""
  {
    if f.Given? then f.value else ""
  }

  /** One entry of the `errors` array of a Sequelize error. */
  datatype ErrorItem = ErrorItem(message: string, path: string)

  /**
   * An error passed to `next(error)`. `table` and `index` are only set on a
   * foreign-key error; `errors` is empty for errors that are not Sequelize's.
   */
  datatype AppError = AppError(name: string, errors: seq<ErrorItem>, table: string, index: string)

  /** An error that carries nothing but its name, such as a `TypeError`. */
  function Plain(name: string): AppError
  {
    AppError(name, [], "", "")
  }

  /**
   * The `message` key of a message body: a string, an array of strings, or
   * `undefined` (JSON serialisation then drops the key and the body is `{}`).
   */
  datatype Message = Undefined | Text(text: string) | List(items: seq<string>)

  /** A response body: `{ message }`, or the resource data of a handler. */
  datatype Payload<+B> = MessageBody(message: Message) | DataBody(data: B)

  datatype Response<+B> = Response(status: int, payload: Payload<B>)

  function Reply<B>(status: int, message: string): Response<B>
  {
    Response(status, MessageBody(Text(message)))
  }

  /**
   * What an Express middleware does with a request: call `next()`, call
   * `next(error)`, or answer with `res.status(status).json({ message })`.
   */
  datatype Step = Next | NextError(error: AppError) | Respond(status: int, message: string)

  /** What a route handler does: send a response, or hand an error to `next`. */
  datatype Outcome<+B> = Sent(response: Response<B>) | Failed(error: AppError)
}
