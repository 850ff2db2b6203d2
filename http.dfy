/**
 * The part of net/http the handlers use: method names, status codes and a
 * ResponseWriter that records its header, its status and what was written.
 */
module Http {
  import opened Wrappers
  import opened Errors
  import opened Json

  const MethodGet: string := "GET"
  const MethodPost: string := "POST"
  const MethodPut: string := "PUT"
  const MethodDelete: string := "DELETE"

  const StatusOK: int := 200
  const StatusCreated: int := 201
  const StatusNoContent: int := 204
  const StatusBadRequest: int := 400
  const StatusNotFound: int := 404
  const StatusInternalServerError: int := 500

  /**
   * What a ResponseWriter has recorded: the header map, the status once
   * written, and the documents written as the body, in order.
   */
  datatype Response = Response(header: map<string, string>, status: Option<int>, body: seq<Json>)

  /** A writer nothing has been done to; if a handler leaves it so, the server sends 200 with no body. */
  const Fresh: Response := Response(map[], None, [])

  /** Statuses that may carry a body (net/http refuses one for 1xx, 204 and 304). */
  predicate BodyAllowed(code: int)
  {
    !(100 <= code <= 199) && code != 204 && code != 304
  }

  const ErrBodyNotAllowed: Error := Other("http: request method or response status code does not allow body")

  /** WriteHeader: the first status written is the one sent; later calls are ignored. */
  function AfterWriteHeader(r: Response, code: int): Response
  {
    if r.status.Some? then r else r.(status := Some(code))
  }

  /** Write: sends status 200 first if none was written, then the body if the status allows one. */
  function AfterWrite(r: Response, data: Json): Response
  {
    var sent := AfterWriteHeader(r, StatusOK);
    if BodyAllowed(sent.status.value) then sent.(body := sent.body + [data]) else sent
  }

  class ResponseWriter {
    var header: map<string, string>
    var status: Option<int>
    var body: seq<Json>

    constructor ()
      ensures State() == Fresh
    {
      header, status, body := map[], None, [];
    }

    function State(): Response
      reads this
    {
      Response(header, status, body)
    }

    /** Header().Set(key, value). */
    method SetHeader(key: string, value: string)
      modifies this
      ensures State() == old(State()).(header := old(header)[key := value])
    {
      header := header[key := value];
    }

    method WriteHeader(code: int)
      modifies this
      ensures State() == AfterWriteHeader(old(State()), code)
    {
      if status.None? {
        status := Some(code);
      }
    }

    method Write(data: Json) returns (err: Option<Error>)
      modifies this
      ensures State() == AfterWrite(old(State()), data)
      ensures status.Some?
      ensures err == if BodyAllowed(status.value) then None else Some(ErrBodyNotAllowed)
    {
      if status.None? {
        status := Some(StatusOK);
      }
      if BodyAllowed(status.value) {
        body := body + [data];
        err := None;
      } else {
        err := Some(ErrBodyNotAllowed);
      }
    }
  }
}
