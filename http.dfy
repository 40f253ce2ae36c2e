/** What an Express handler answers: a status code, the headers the
    handler sets itself and a body. Headers that Express adds on its own
    (`Content-Type` of a JSON body, `ETag`, ...) are not modelled. */
module Http {
  /** No body (`res.end()`), a JSON `{message}`, or a route-specific payload. */
  datatype Body<+P> = Empty | Message(text: string) | Payload(value: P)

  datatype Reply<+P> = Reply(status: nat, headers: map<string, string>, body: Body<P>)

  /** `res.status(status).json({message: text})`. */
  function JsonMessage<P>(status: nat, text: string): Reply<P>
  {
    Reply(status, map[], Message(text))
  }
}
