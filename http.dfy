/**
 * Responses as both services render them: a status code and a JSON body. The
 * record views carry no database id.
 */
module Http {
  import opened Common

  /** `chat_response` and Go's `ChatResponse`. */
  datatype ChatView = ChatView(number: int, messagesCount: int, createdAt: Timestamp, updatedAt: Timestamp)

  /** `message_response` and Go's `MessageResponse`. */
  datatype MessageView = MessageView(number: int, body: string, createdAt: Timestamp, updatedAt: Timestamp)

  /**
   * The JSON body. `Error` carries an error payload's `error` field, its
   * `message` field as `reason` and its `details` field, each when present.
   */
  datatype Body =
    | ChatBody(chat: ChatView)
    | MessageBody(message: MessageView)
    | ChatList(chats: seq<ChatView>)
    | MessageList(messages: seq<MessageView>)
    | SearchResults(results: seq<MessageView>, query: string, total: nat)
    | ValidationErrors(errors: seq<string>)
    | Error(error: string, reason: Option<string>, details: Option<string>)

  datatype Response = Response(status: int, body: Body)

  const Ok: int := 200
  const Created: int := 201
  const BadRequest: int := 400
  const Unauthorized: int := 401
  const NotFound: int := 404
  const UnprocessableEntity: int := 422
  const InternalServerError: int := 500
  const ServiceUnavailable: int := 503

  /**
   * The Rails `not_found` rescue for `ActiveRecord::RecordNotFound`: 404 with
   * "Not Found" and the exception's message, which names the model.
   */
  function NotFoundResponse(model: string): (r: Response)
    ensures r.status == NotFound && r.body.Error? && r.body.error == "Not Found"
  {
    Response(NotFound, Error("Not Found", Some("Couldn't find " + model), None))
  }

  /**
   * Go's `respondError`: the status, the message as `error` and the details as
   * `message`, which `omitempty` drops when empty.
   */
  function RespondError(status: int, message: string, details: string): Response {
    Response(status, Error(message, if details == [] then None else Some(details), None))
  }

  /** A request body as `json.Decoder` leaves it: the decoded value, or the decoder's error text. */
  datatype Decoded<T> = Decoded(request: T) | Undecodable(reason: string)

  /** The outcome of a handler's checks: the response that ends it early, or the value it goes on with. */
  datatype Checked<T> = Reject(resp: Response) | Proceed(value: T)
}
