/**
 * handlers/car/write_response.go: the status table that maps an error kind,
 * or a request method on success, to the response written.
 */
module WriteResponse {
  import opened Wrappers
  import opened Errors
  import opened Json
  import opened Types
  import opened Models
  import opened Http

  /** The `data interface{}` handed to setStatusCode: nil, one car, or a list of cars. */
  datatype Payload = NilData | OneCar(car: Car) | CarList(cars: seq<Car>)

  /** Every car the payload carries has one of the three fuel constants. */
  predicate Encodable(p: Payload)
  {
    match p
    case NilData => true
    case OneCar(c) => IsValid(c.fuelType)
    case CarList(cs) => forall i :: 0 <= i < |cs| ==> IsValid(cs[i].fuelType)
  }

  function MarshalCars(cs: seq<Car>): Option<seq<Json>>
  {
    if cs == [] then Some([])
    else
      match (MarshalCar(cs[0]), MarshalCars(cs[1..]))
      case (Some(j), Some(js)) => Some([j] + js)
      case _ => None
  }

  /** json.Marshal(data). */
  function Marshal(p: Payload): Option<Json>
  {
    match p
    case NilData => Some(JNull)
    case OneCar(c) => MarshalCar(c)
    case CarList(cs) =>
      match MarshalCars(cs)
      case Some(js) => Some(JArray(js))
      case None => None
  }

  /** A list encodes exactly when every car in it does, element by element. */
  lemma {:induction false} MarshalCarsSound(cs: seq<Car>)
    ensures MarshalCars(cs).Some? <==> forall i :: 0 <= i < |cs| ==> IsValid(cs[i].fuelType)
    ensures MarshalCars(cs).Some? ==>
              |MarshalCars(cs).value| == |cs| &&
              forall i :: 0 <= i < |cs| ==> MarshalCars(cs).value[i] == MarshalCar(cs[i]).value
  {
    if cs != [] {
      var tail := cs[1..];
      MarshalCarsSound(tail);
      if MarshalCar(cs[0]).Some? && MarshalCars(tail).Some? {
        var js := MarshalCars(cs).value;
        assert js == [MarshalCar(cs[0]).value] + MarshalCars(tail).value;
        forall i | 0 <= i < |cs| ensures IsValid(cs[i].fuelType) && js[i] == MarshalCar(cs[i]).value {
          if i > 0 {
            assert cs[i] == tail[i - 1];
          }
        }
      } else if MarshalCar(cs[0]).None? {
        assert !IsValid(cs[0].fuelType);
      } else {
        var k :| 0 <= k < |tail| && !IsValid(tail[k].fuelType);
        assert cs[k + 1] == tail[k];
      }
    }
  }

  /** json.Marshal fails exactly when some car carries a fuel outside the three constants. */
  lemma MarshalSucceeds(p: Payload)
    ensures Marshal(p).Some? <==> Encodable(p)
    ensures p == NilData ==> Marshal(p) == Some(JNull)
  {
    if p.CarList? {
      MarshalCarsSound(p.cars);
    }
  }

  /** The status setStatusCode writes for a non-nil error. */
  function ErrorStatus(e: Error): (code: int)
    ensures code == StatusOK <==> e.EntityAlreadyExists?
    ensures code == StatusBadRequest <==> e.MissingParam? || e.InvalidParam?
    ensures code == StatusNotFound <==> e.EntityNotFound?
    ensures code == StatusInternalServerError <==> e.Other?
  {
    match e
    case EntityAlreadyExists(_) => StatusOK
    case MissingParam(_) => StatusBadRequest
    case InvalidParam(_) => StatusBadRequest
    case EntityNotFound(_, _) => StatusNotFound
    case _ => StatusInternalServerError
  }

  /** The status writeSuccessResponse chooses by method; none for a method the switch does not list. */
  function SuccessStatus(verb: string): (code: Option<int>)
    ensures code == Some(StatusCreated) <==> verb == MethodPost
    ensures code == Some(StatusOK) <==> verb == MethodGet || verb == MethodPut
    ensures code == Some(StatusNoContent) <==> verb == MethodDelete
    ensures code.None? <==> verb !in {MethodPost, MethodGet, MethodPut, MethodDelete}
  {
    if verb == MethodPost then Some(StatusCreated)
    else if verb == MethodGet then Some(StatusOK)
    else if verb == MethodPut then Some(StatusOK)
    else if verb == MethodDelete then Some(StatusNoContent)
    else None
  }

  const ContentType: string := "Content-Type"
  const ApplicationJson: string := "application/json"

  /** The writer after writeResponseBody. */
  function ResponseBodyWritten(r: Response, code: int, data: Payload): Response
  {
    var typed := r.(header := r.header[ContentType := ApplicationJson]);
    match Marshal(data)
    case None => AfterWriteHeader(typed, StatusInternalServerError)
    case Some(doc) => AfterWrite(AfterWriteHeader(typed, code), doc)
  }

  /** The writer after writeSuccessResponse. */
  function SuccessResponseWritten(r: Response, verb: string, data: Payload): Response
  {
    match SuccessStatus(verb)
    case None => r
    case Some(code) => ResponseBodyWritten(r, code, data)
  }

  /** The writer after setStatusCode. */
  function StatusCodeSet(r: Response, verb: string, data: Payload, err: Option<Error>): Response
  {
    match err
    case Some(e) => AfterWriteHeader(r, ErrorStatus(e))
    case None => SuccessResponseWritten(r, verb, data)
  }

  method WriteResponseBody(w: ResponseWriter, statusCode: int, data: Payload)
    modifies w
    ensures w.State() == ResponseBodyWritten(old(w.State()), statusCode, data)
  {
    w.SetHeader(ContentType, ApplicationJson);
    var resp := Marshal(data);
    if resp.None? {
      w.WriteHeader(StatusInternalServerError);
      return;
    }
    w.WriteHeader(statusCode);
    var err := w.Write(resp.value);
    // A failed write is only logged.
  }

  method WriteSuccessResponse(verb: string, w: ResponseWriter, data: Payload)
    modifies w
    ensures w.State() == SuccessResponseWritten(old(w.State()), verb, data)
  {
    if verb == MethodPost {
      WriteResponseBody(w, StatusCreated, data);
    } else if verb == MethodGet {
      WriteResponseBody(w, StatusOK, data);
    } else if verb == MethodPut {
      WriteResponseBody(w, StatusOK, data);
    } else if verb == MethodDelete {
      WriteResponseBody(w, StatusNoContent, data);
    }
  }

  method SetStatusCode(w: ResponseWriter, verb: string, data: Payload, err: Option<Error>)
    modifies w
    ensures w.State() == StatusCodeSet(old(w.State()), verb, data, err)
  {
    match err {
      case Some(e) =>
        w.WriteHeader(ErrorStatus(e));
      case None =>
        WriteSuccessResponse(verb, w, data);
    }
  }

  /** On a fresh writer an error writes its status and nothing else: no header, no body. */
  lemma ErrorReply(verb: string, data: Payload, e: Error)
    ensures StatusCodeSet(Fresh, verb, data, Some(e)) == Response(map[], Some(ErrorStatus(e)), [])
  {
  }

  /**
   * On a fresh writer success on a listed method sets Content-Type first; then
   * either the method's status with the encoded data as body (none for 204),
   * or, when the data cannot be encoded, 500 with no body.
   */
  lemma SuccessReply(verb: string, data: Payload)
    requires SuccessStatus(verb).Some?
    ensures StatusCodeSet(Fresh, verb, data, None).header == map[ContentType := ApplicationJson]
    ensures !Encodable(data) ==>
              StatusCodeSet(Fresh, verb, data, None).status == Some(StatusInternalServerError) &&
              StatusCodeSet(Fresh, verb, data, None).body == []
    ensures Encodable(data) ==>
              StatusCodeSet(Fresh, verb, data, None).status == SuccessStatus(verb) &&
              StatusCodeSet(Fresh, verb, data, None).body ==
                (if BodyAllowed(SuccessStatus(verb).value) then [Marshal(data).value] else [])
  {
    MarshalSucceeds(data);
  }

  /** With a nil error and a method the switch does not list, nothing at all is written. */
  lemma UnknownMethodWritesNothing(r: Response, verb: string, data: Payload)
    requires verb !in {MethodPost, MethodGet, MethodPut, MethodDelete}
    ensures StatusCodeSet(r, verb, data, None) == r
  {
  }

  /** A successful DELETE answers 204 with an empty body, whatever data it is given. */
  lemma DeleteReply(data: Payload)
    requires Encodable(data)
    ensures StatusCodeSet(Fresh, MethodDelete, data, None).status == Some(StatusNoContent)
    ensures StatusCodeSet(Fresh, MethodDelete, data, None).body == []
  {
    SuccessReply(MethodDelete, data);
  }
}
