/**
 * handlers/car/handler.go: the five car handlers, the helpers that read the
 * path id and the body, and this file's own variant of the status table.
 *
 * Each handler computes the error and data it hands to setStatusCode (an
 * Outcome) and at most one service call. The file's calls bind to its own
 * setStatusCode, while write_response.go holds the table the tests expect, so
 * every handler takes the table to answer with as a parameter.
 */
module CarHandler {
  import opened Wrappers
  import opened Errors
  import opened Bytes
  import opened Uuids
  import opened Models
  import opened Http
  import opened WriteResponse

  /** filters.Car as the handler builds it (the filters package is not part of this model). */
  datatype CarFilter = CarFilter(brand: string, engine: bool)

  /**
   * An incoming request: its method, the path variables the router extracted,
   * the query, and what io.ReadAll makes of the body.
   */
  datatype Request = Request(
    verb: string,
    vars: map<string, string>,
    query: map<string, seq<string>>,
    body: Result<seq<byte>, Error>)

  /** A Go (value, error) pair. */
  datatype Returned<T> = Returned(value: T, err: Option<Error>)

  /** services.Car: each call answers with a result and an error, or only an error. */
  datatype Service = Service(
    create: Car -> Returned<Car>,
    getAll: CarFilter -> Returned<seq<Car>>,
    getByID: Uuid -> Returned<Car>,
    update: Car -> Returned<Car>,
    delete: Uuid -> Option<Error>)

  /** The library decoders the handlers rely on: uuid.Parse past its length check, and json.Unmarshal into a Car. */
  datatype Decoders = Decoders(
    parseUuid: string -> Option<Uuid>,
    unmarshalCar: seq<byte> -> Result<Car, Error>)

  /** The one service call a handler makes, with its argument. */
  datatype ServiceCall =
    | CreateCall(car: Car)
    | GetAllCall(filter: CarFilter)
    | GetByIDCall(id: Uuid)
    | UpdateCall(car: Car)
    | DeleteCall(id: Uuid)

  /** What a handler hands to setStatusCode, and the service call it made on the way. */
  datatype Outcome = Outcome(call: Option<ServiceCall>, err: Option<Error>, data: Payload)

  /** Which setStatusCode answers: write_response.go's (Canonical) or handler.go's (Variant). */
  datatype StatusTable = Canonical | Variant

  /** url.Values.Get: the first value of a key, or "" when there is none. */
  function QueryGet(query: map<string, seq<string>>, key: string): string
  {
    if key in query && |query[key]| > 0 then query[key][0] else ""
  }

  /** The filter GetAll builds from the query. */
  function FilterOf(query: map<string, seq<string>>): (f: CarFilter)
    ensures f.engine <==> QueryGet(query, "engine") == "true"
    ensures f.brand == QueryGet(query, "brand")
  {
    var engine := QueryGet(query, "engine") == "true";
    CarFilter(QueryGet(query, "brand"), engine)
  }

  /** mux.Vars(r)["id"]: "" when the router set no id. */
  function IdParam(r: Request): string
  {
    if "id" in r.vars then r.vars["id"] else ""
  }

  /** The text lengths uuid.Parse accepts: bare hex, canonical, braced, and urn:uuid: prefixed. */
  const UuidLengths: set<int> := {32, 36, 38, 45}

  /** The handler value: the service it calls, and the library decoders it relies on. */
  datatype Handler = Handler(service: Service, decoders: Decoders) {

    /**
     * uuid.Parse: the library counts bytes and accepts only hex digits, '-',
     * braces and the urn prefix, so a text that is not ASCII, or whose length
     * is not one of UuidLengths, is refused before the decoder looks at it.
     */
    function ParseUuid(s: string): Option<Uuid>
    {
      if IsAscii(s) && |s| in UuidLengths then decoders.parseUuid(s) else None
    }

    /** getID: the parsed path id, or the nil UUID with InvalidParam on any parse failure. */
    function GetID(r: Request): (res: Returned<Uuid>)
      ensures res.err.None? <==> ParseUuid(IdParam(r)).Some?
      ensures res.err.None? ==> res.value == ParseUuid(IdParam(r)).value
      ensures res.err.Some? ==> res == Returned(Nil, Some(InvalidParam([])))
      ensures IdParam(r) == "" ==> res.err.Some?
    {
      match ParseUuid(IdParam(r))
      case Some(id) => Returned(id, None)
      case None => Returned(Nil, Some(InvalidParam([])))
    }

    /** getCar: the decoded body, or the zero car with the reader's or the decoder's own error. */
    function GetCar(r: Request): (res: Returned<Car>)
      ensures res.err.None? <==> r.body.Success? && decoders.unmarshalCar(r.body.value).Success?
      ensures res.err.None? ==> res.value == decoders.unmarshalCar(r.body.value).value
      ensures res.err.Some? ==> res.value == ZeroCar
      ensures r.body.Failure? ==> res.err == Some(r.body.error)
      ensures r.body.Success? && decoders.unmarshalCar(r.body.value).Failure? ==>
                res.err == Some(decoders.unmarshalCar(r.body.value).error)
    {
      match r.body
      case Failure(e) => Returned(ZeroCar, Some(e))
      case Success(bytes) =>
        match decoders.unmarshalCar(bytes)
        case Failure(e) => Returned(ZeroCar, Some(e))
        case Success(car) => Returned(car, None)
    }

    function CreateFlow(r: Request): Outcome
    {
      var got := GetCar(r);
      if got.err.Some? then Outcome(None, got.err, OneCar(got.value))
      else
        var ret := service.create(got.value);
        Outcome(Some(CreateCall(got.value)), ret.err, OneCar(ret.value))
    }

    function GetAllFlow(r: Request): Outcome
    {
      var filter := FilterOf(r.query);
      var ret := service.getAll(filter);
      Outcome(Some(GetAllCall(filter)), ret.err, CarList(ret.value))
    }

    function GetByIDFlow(r: Request): Outcome
    {
      var id := GetID(r);
      if id.err.Some? then Outcome(None, Some(InvalidParam([])), NilData)
      else
        var ret := service.getByID(id.value);
        Outcome(Some(GetByIDCall(id.value)), ret.err, OneCar(ret.value))
    }

    function UpdateFlow(r: Request): Outcome
    {
      var id := GetID(r);
      if id.err.Some? then Outcome(None, Some(InvalidParam([])), NilData)
      else
        var got := GetCar(r);
        if got.err.Some? then Outcome(None, got.err, OneCar(got.value))
        else
          var ret := service.update(got.value);
          Outcome(Some(UpdateCall(got.value)), ret.err, OneCar(ret.value))
    }

    function DeleteFlow(r: Request): Outcome
    {
      var id := GetID(r);
      if id.err.Some? then Outcome(None, Some(InvalidParam([])), NilData)
      else Outcome(Some(DeleteCall(id.value)), service.delete(id.value), NilData)
    }

    method Create(w: ResponseWriter, r: Request, table: StatusTable) returns (call: Option<ServiceCall>)
      modifies w
      ensures call == CreateFlow(r).call
      ensures w.State() == Responded(table, old(w.State()), r.verb, CreateFlow(r))
    {
      var got := GetCar(r);
      var car, err := got.value, got.err;
      if err.Some? {
        Respond(w, table, r.verb, OneCar(car), err);
        return None;
      }
      var ret := service.create(car);
      call := Some(CreateCall(car));
      car, err := ret.value, ret.err;
      Respond(w, table, r.verb, OneCar(car), err);
    }

    method GetAll(w: ResponseWriter, r: Request, table: StatusTable) returns (call: Option<ServiceCall>)
      modifies w
      ensures call == GetAllFlow(r).call
      ensures w.State() == Responded(table, old(w.State()), r.verb, GetAllFlow(r))
    {
      var engine := false;
      if QueryGet(r.query, "engine") == "true" {
        engine := true;
      }
      var filter := CarFilter(QueryGet(r.query, "brand"), engine);
      var ret := service.getAll(filter);
      call := Some(GetAllCall(filter));
      Respond(w, table, r.verb, CarList(ret.value), ret.err);
    }

    method GetByID(w: ResponseWriter, r: Request, table: StatusTable) returns (call: Option<ServiceCall>)
      modifies w
      ensures call == GetByIDFlow(r).call
      ensures w.State() == Responded(table, old(w.State()), r.verb, GetByIDFlow(r))
    {
      var id := GetID(r);
      if id.err.Some? {
        Respond(w, table, r.verb, NilData, Some(InvalidParam([])));
        return None;
      }
      var ret := service.getByID(id.value);
      call := Some(GetByIDCall(id.value));
      Respond(w, table, r.verb, OneCar(ret.value), ret.err);
    }

    method Update(w: ResponseWriter, r: Request, table: StatusTable) returns (call: Option<ServiceCall>)
      modifies w
      ensures call == UpdateFlow(r).call
      ensures w.State() == Responded(table, old(w.State()), r.verb, UpdateFlow(r))
    {
      var id := GetID(r);
      if id.err.Some? {
        Respond(w, table, r.verb, NilData, Some(InvalidParam([])));
        return None;
      }
      var car := ZeroCar.(id := id.value);
      var got := GetCar(r);
      var err;
      car, err := got.value, got.err;
      if err.Some? {
        Respond(w, table, r.verb, OneCar(car), err);
        return None;
      }
      var ret := service.update(car);
      call := Some(UpdateCall(car));
      car, err := ret.value, ret.err;
      Respond(w, table, r.verb, OneCar(car), err);
    }

    method Delete(w: ResponseWriter, r: Request, table: StatusTable) returns (call: Option<ServiceCall>)
      modifies w
      ensures call == DeleteFlow(r).call
      ensures w.State() == Responded(table, old(w.State()), r.verb, DeleteFlow(r))
    {
      var id := GetID(r);
      if id.err.Some? {
        Respond(w, table, r.verb, NilData, Some(InvalidParam([])));
        return None;
      }
      var err := service.delete(id.value);
      call := Some(DeleteCall(id.value));
      Respond(w, table, r.verb, NilData, err);
    }
  }

  /** handler.go's status for a non-nil error: EntityNotFound has no case of its own. */
  function VariantErrorStatus(e: Error): (code: int)
    ensures code == StatusOK <==> e.EntityAlreadyExists?
    ensures code == StatusBadRequest <==> e.MissingParam? || e.InvalidParam?
    ensures code == StatusInternalServerError <==> e.EntityNotFound? || e.Other?
  {
    match e
    case EntityAlreadyExists(_) => StatusOK
    case MissingParam(_) => StatusBadRequest
    case InvalidParam(_) => StatusBadRequest
    case _ => StatusInternalServerError
  }

  /** handler.go's success status: a POST with nil data answers 200 rather than 201. */
  function VariantSuccessStatus(verb: string, data: Payload): (code: Option<int>)
    ensures code == Some(StatusCreated) <==> verb == MethodPost && data != NilData
    ensures code == Some(StatusOK) <==> verb == MethodGet || verb == MethodPut || (verb == MethodPost && data == NilData)
    ensures code == Some(StatusNoContent) <==> verb == MethodDelete
    ensures code.None? <==> verb !in {MethodPost, MethodGet, MethodPut, MethodDelete}
  {
    if verb == MethodPost then (if data != NilData then Some(StatusCreated) else Some(StatusOK))
    else if verb == MethodGet then Some(StatusOK)
    else if verb == MethodPut then Some(StatusOK)
    else if verb == MethodDelete then Some(StatusNoContent)
    else None
  }

  /** The writer after handler.go's setStatusCode (its writeResponseBody is write_response.go's, line for line). */
  function VariantStatusCodeSet(r: Response, verb: string, data: Payload, err: Option<Error>): Response
  {
    match err
    case Some(e) => AfterWriteHeader(r, VariantErrorStatus(e))
    case None =>
      match VariantSuccessStatus(verb, data)
      case None => r
      case Some(code) => ResponseBodyWritten(r, code, data)
  }

  /** The writer after a handler hands its outcome to the chosen table. */
  function Responded(table: StatusTable, r: Response, verb: string, o: Outcome): Response
  {
    match table
    case Canonical => StatusCodeSet(r, verb, o.data, o.err)
    case Variant => VariantStatusCodeSet(r, verb, o.data, o.err)
  }

  method WriteSuccessResponseVariant(verb: string, w: ResponseWriter, data: Payload)
    modifies w
    ensures w.State() == VariantStatusCodeSet(old(w.State()), verb, data, None)
  {
    if verb == MethodPost {
      if data != NilData {
        WriteResponseBody(w, StatusCreated, data);
        return;
      }
      WriteResponseBody(w, StatusOK, data);
    } else if verb == MethodGet {
      WriteResponseBody(w, StatusOK, data);
    } else if verb == MethodPut {
      WriteResponseBody(w, StatusOK, data);
    } else if verb == MethodDelete {
      WriteResponseBody(w, StatusNoContent, data);
    }
  }

  method SetStatusCodeVariant(w: ResponseWriter, err: Option<Error>, verb: string, data: Payload)
    modifies w
    ensures w.State() == VariantStatusCodeSet(old(w.State()), verb, data, err)
  {
    match err {
      case Some(e) =>
        w.WriteHeader(VariantErrorStatus(e));
      case None =>
        WriteSuccessResponseVariant(verb, w, data);
    }
  }

  method Respond(w: ResponseWriter, table: StatusTable, verb: string, data: Payload, err: Option<Error>)
    modifies w
    ensures w.State() == Responded(table, old(w.State()), verb, Outcome(None, err, data))
  {
    if table == Canonical {
      SetStatusCode(w, verb, data, err);
    } else {
      SetStatusCodeVariant(w, err, verb, data);
    }
  }

  /** Any error outcome writes its table's status and nothing else on a fresh writer. */
  lemma ErrorOutcomeReply(table: StatusTable, verb: string, o: Outcome)
    requires o.err.Some?
    ensures Responded(table, Fresh, verb, o) ==
              Response(map[], Some(if table == Canonical then ErrorStatus(o.err.value) else VariantErrorStatus(o.err.value)), [])
  {
  }

  /**
   * When the path id does not parse, GetByID, Update and Delete never call the
   * service and answer 400 with no body, under either table.
   */
  lemma BadIdSkipsService(h: Handler, r: Request, table: StatusTable)
    requires h.ParseUuid(IdParam(r)).None?
    ensures h.GetByIDFlow(r) == h.UpdateFlow(r) == h.DeleteFlow(r) == Outcome(None, Some(InvalidParam([])), NilData)
    ensures Responded(table, Fresh, r.verb, h.GetByIDFlow(r)) == Response(map[], Some(StatusBadRequest), [])
  {
  }

  /** A request without an id (or with an empty one) is refused before the service is called. */
  lemma MissingIdSkipsService(h: Handler, r: Request)
    requires "id" !in r.vars || r.vars["id"] == ""
    ensures h.GetByIDFlow(r).call.None? && h.UpdateFlow(r).call.None? && h.DeleteFlow(r).call.None?
    ensures h.DeleteFlow(r).err == Some(InvalidParam([]))
  {
  }

  /**
   * When the body cannot be read or decoded, Create and Update never call the
   * service and hand on that very error, so an I/O or syntax error answers 500.
   */
  lemma BodyFailureSkipsService(h: Handler, r: Request)
    requires h.GetCar(r).err.Some?
    ensures h.CreateFlow(r).call.None? && h.CreateFlow(r).err == h.GetCar(r).err
    ensures h.ParseUuid(IdParam(r)).Some? ==> h.UpdateFlow(r).call.None? && h.UpdateFlow(r).err == h.GetCar(r).err
    ensures h.GetCar(r).err.value.Other? ==>
              StatusCodeSet(Fresh, r.verb, h.CreateFlow(r).data, h.CreateFlow(r).err).status == Some(StatusInternalServerError)
  {
  }

  /**
   * Update forwards the car decoded from the body: the path id is never part of
   * it, so two requests that differ only in a well-formed path id behave alike.
   */
  lemma UpdateForwardsBodyCar(h: Handler, r: Request, otherId: string)
    requires h.ParseUuid(IdParam(r)).Some? && h.GetCar(r).err.None?
    requires h.ParseUuid(otherId).Some?
    ensures h.UpdateFlow(r).call == Some(UpdateCall(h.decoders.unmarshalCar(r.body.value).value))
    ensures h.UpdateFlow(r.(vars := r.vars["id" := otherId])) == h.UpdateFlow(r)
  {
  }

  /** GetAll always calls the service, with the engine flag set only by the exact value "true". */
  lemma GetAllFilter(h: Handler, r: Request)
    ensures h.GetAllFlow(r).call == Some(GetAllCall(FilterOf(r.query)))
    ensures FilterOf(map["engine" := ["True"]]) == CarFilter("", false)
    ensures FilterOf(map["engine" := ["true", "false"], "brand" := ["BMW"]]) == CarFilter("BMW", true)
  {
  }

  /** Outside EntityNotFound and a successful POST with nil data, the two tables write the same response. */
  lemma TablesAgreeElsewhere(r: Response, verb: string, data: Payload, err: Option<Error>)
    requires err.Some? ==> !err.value.EntityNotFound?
    requires err.None? && verb == MethodPost ==> data != NilData
    ensures VariantStatusCodeSet(r, verb, data, err) == StatusCodeSet(r, verb, data, err)
  {
  }

  /** The two places where they part: EntityNotFound (404 against 500), and POST with nil data (201 against 200). */
  lemma TablesDiverge(verb: string, data: Payload, entity: string, id: string)
    ensures StatusCodeSet(Fresh, verb, data, Some(EntityNotFound(entity, id))).status == Some(StatusNotFound)
    ensures VariantStatusCodeSet(Fresh, verb, data, Some(EntityNotFound(entity, id))).status == Some(StatusInternalServerError)
    ensures StatusCodeSet(Fresh, MethodPost, NilData, None).status == Some(StatusCreated)
    ensures VariantStatusCodeSet(Fresh, MethodPost, NilData, None).status == Some(StatusOK)
  {
  }

  /**
   * Create always hands a car, never nil, to setStatusCode, so the variant's
   * POST-with-nil branch is out of its reach: the tables agree on Create
   * unless the service reports EntityNotFound.
   */
  lemma CreateTablesAgree(h: Handler, r: Request, before: Response)
    requires h.CreateFlow(r).err.Some? ==> !h.CreateFlow(r).err.value.EntityNotFound?
    ensures h.CreateFlow(r).data.OneCar?
    ensures Responded(Variant, before, r.verb, h.CreateFlow(r)) == Responded(Canonical, before, r.verb, h.CreateFlow(r))
  {
  }

  /** An Update whose service reports EntityNotFound answers 404 under write_response.go's table and 500 under handler.go's. */
  lemma UpdateNotFoundScenario(h: Handler, r: Request)
    requires h.ParseUuid(IdParam(r)).Some? && h.GetCar(r).err.None?
    requires h.service.update(h.GetCar(r).value).err.Some?
    requires h.service.update(h.GetCar(r).value).err.value.EntityNotFound?
    ensures Responded(Canonical, Fresh, MethodPut, h.UpdateFlow(r)).status == Some(StatusNotFound)
    ensures Responded(Variant, Fresh, MethodPut, h.UpdateFlow(r)).status == Some(StatusInternalServerError)
  {
  }

  /** A Delete the service accepts answers 204 with Content-Type set and no body, under both tables. */
  lemma DeleteSuccessScenario(h: Handler, r: Request, table: StatusTable)
    requires h.ParseUuid(IdParam(r)).Some?
    requires h.service.delete(h.ParseUuid(IdParam(r)).value).None?
    ensures h.DeleteFlow(r).call == Some(DeleteCall(h.ParseUuid(IdParam(r)).value))
    ensures Responded(table, Fresh, MethodDelete, h.DeleteFlow(r)) ==
              Response(map[ContentType := ApplicationJson], Some(StatusNoContent), [])
  {
  }
}
