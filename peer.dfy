/** How the gateway reads the replies of its peer services. */
module Peer {
  import opened Common

  /** The message every GraphQL call to the team service raises when the
      service gave no reply. */
  const TeamServiceSilent: string := "No response received from the team service"

  /** What one HTTP POST to a peer ended in. */
  datatype Transport<J> =
    | StatusError(code: int)   // raise_for_status() refused the status
    | RequestError             // the request could not be sent or answered
    | UnexpectedError          // any other exception, e.g. an undecodable body
    | Delivered(body: J)       // the decoded JSON body

  /** send_request: the decoded body when the POST succeeded, and the empty
      JSON object `empty` after every kind of failure. No failure escapes. */
  function SendRequest<J>(t: Transport<J>, empty: J): (r: J)
    ensures t.Delivered? ==> r == t.body
    ensures !t.Delivered? ==> r == empty
  {
    match t
    case Delivered(body) => body
    case _ => empty
  }

  /** A GraphQL reply once decoded:
      - NoReply: nothing (the falsy `{}`);
      - ErrorsOnly: an object without a `data` key, as a server sends when
        it rejects the request before executing it;
      - Unreadable: a truthy body on which `response["data"][field]` is a
        type error: `data` is null, or the body is not a JSON object;
      - Reply: the field the query asked for (present or null) with the
        messages of `errors`. */
  datatype GraphqlReply<T> =
    | NoReply
    | ErrorsOnly
    | Unreadable
    | Reply(data: Option<T>, errors: seq<string>)

  /** A REST reply of the frontend once decoded: nothing (the falsy `{}`), an
      object whose keys are exactly the record's fields, or any other body. */
  datatype RestReply<T> = EmptyBody | Fits(record: T) | Misfit

  /** The rule every GraphQL call of the gateway applies to its reply:
      no reply raises `errorClass` with `noReplyMessage`; a reply without
      `data` fails on the lookup and an unreadable one on its type, before
      `errorClass` is reached; a non-null field is the result; a null field
      raises `errorClass` with the first error's message, and an empty error
      list fails on the lookup itself. */
  function Interpret<T>(reply: GraphqlReply<T>, errorClass: ErrorClass, noReplyMessage: string): (r: Outcome<T>)
    ensures r.Ok? <==> reply.Reply? && reply.data.Some?
    ensures r.Ok? ==> r.value == reply.data.value
    ensures reply.NoReply? ==> r == Fail(Raised(errorClass, noReplyMessage))
    ensures reply.ErrorsOnly? ==> r == Fail(LookupError)
    ensures reply.Unreadable? ==> r == Fail(TypeError)
    ensures r.Fail? && r.failure.Raised? ==> r.failure.errorClass == errorClass
    ensures reply.Reply? && reply.data.None? ==>
              (r == Fail(LookupError) <==> reply.errors == [])
    ensures reply.Reply? && reply.data.None? && reply.errors != [] ==>
              r == Fail(Raised(errorClass, reply.errors[0]))
  {
    match reply
    case NoReply => Fail(Raised(errorClass, noReplyMessage))
    case ErrorsOnly => Fail(LookupError)
    case Unreadable => Fail(TypeError)
    case Reply(Some(value), _) => Ok(value)
    case Reply(None, errors) =>
      if |errors| > 0 then Fail(Raised(errorClass, errors[0])) else Fail(LookupError)
  }

  /** Every transport failure reaches Interpret as the empty reply, so it
      surfaces as the call's own "no response" error and as nothing else. */
  lemma TransportFailureIsNoResponse<T>(t: Transport<GraphqlReply<T>>, errorClass: ErrorClass, noReplyMessage: string)
    requires !t.Delivered?
    ensures Interpret(SendRequest(t, NoReply), errorClass, noReplyMessage)
            == Fail(Raised(errorClass, noReplyMessage))
  {
  }
}
