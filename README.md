# Car dealership: fuel codec, status table and car handlers in Dafny

This project models the request-handling edge of a small Go CRUD service for cars and their engines:

- **Fuel codec** (`types/fuel.go`, module `Types`). `Fuel` is a Go `int` with three named constants: Diesel = 0, Petrol = 1 and Electric = 2. It has a JSON codec (`MarshalJSON` / `UnmarshalJSON`) and a database codec (`Value` / `Scan`). Both use the names "diesel", "petrol" and "electric". The two encoders are functions. The two decoders are methods of `FuelRef`, a class standing for the `*Fuel` receiver. They write the receiver only when the input matches a name, and otherwise leave it as it was.
- **Records** (`models/car.go`, `models/engine.go`, module `Models`). `Car` and `Engine` are plain datatypes. Each has the JSON document that `encoding/json` builds from its struct tags. The engine id is tagged `"-"`, so it is never written. A car fails to encode exactly when its fuel type is not one of the three constants.
- **Canonical status table** (`handlers/car/write_response.go`, module `WriteResponse`).
  - `setStatusCode` maps an error kind to a status.
  - `writeSuccessResponse` maps the request method to a status on success.
  - `writeResponseBody` sets Content-Type, then writes the status, then the body. It writes 500 instead when the data cannot be encoded.
  - The `http.ResponseWriter` is a class (module `Http`) recording the header map, the status and the written documents. It follows net/http: the first status written wins, `Write` sends 200 if no status was written, and 1xx, 204 and 304 carry no body.
- **Car handlers** (`handlers/car/handler.go`, module `CarHandler`).
  - `Create`, `GetAll`, `GetByID`, `Update` and `Delete` are methods of the `Handler` value. Each returns the one service call it made, if any, and writes to the writer.
  - For each handler, a function (`CreateFlow`, …) gives the error and data it hands to `setStatusCode`, and the call.
  - `getID`, `getCar` and the `GetAll` filter are functions.
  - This file has its own variant of the status table (`VariantErrorStatus`, `VariantSuccessStatus`).

Both files define `setStatusCode`, `writeSuccessResponse` and `writeResponseBody` in the same Go package. The handlers' calls use handler.go's argument order, but the handler tests expect write_response.go's table (404 for EntityNotFound). So every handler method takes a `StatusTable`: `Canonical` for write_response.go, `Variant` for handler.go. The two tables stay separate. `TablesAgreeElsewhere` and `TablesDiverge` state exactly where they differ. handler.go's `writeResponseBody` (lines 163-181) matches write_response.go's line for line, so it is modelled once.

Library operations are abstract:

- `uuid.Parse` is a function parameter (`Decoders.parseUuid`). Only the library's first checks are modelled: it refuses any text that is not ASCII, and any text whose length in bytes is not 32, 36, 38 or 45. The length check makes an empty or missing id fail.
- `io.ReadAll(r.Body)` is the request's `body` field, a `Result`.
- `json.Unmarshal` into a `Car` is a function parameter (`Decoders.unmarshalCar`).
- The car service (`services.Car`) is a value of functions. Each returns a result and an error kind. Calling such a function has no effect the model can observe, so each handler reports the call it makes as its `call` out-parameter, and the `...Flow` functions state which call that is. The statement that a handler never calls the service is made about this record.

## Model

| member | source | states |
|---|---|---|
| `Types.MarshalJSON` | types/fuel.go:19-33 | succeeds exactly for the three constants, encoding each as the JSON string of its name (read from the by-value name table); any other integer fails with InvalidParam(fuelType) |
| `Types.Value` | types/fuel.go:55-66 | succeeds exactly for the three constants, giving the Go string of the name; any other integer fails with InvalidParam(fuelType) |
| `Types.FuelRef.UnmarshalJSON` | types/fuel.go:35-53 | on success stores the fuel the decoded token names, case-insensitively; on any failure returns the decoder's error or InvalidParam(fuelType) and leaves the receiver unchanged |
| `Types.FuelRef.Scan` | types/fuel.go:68-86 | on success stores the fuel whose exact name the byte slice holds; a non-byte value or any other bytes give InvalidParam(fuelType) and leave the receiver unchanged |
| `Types.NamesAgree` | types/fuel.go:19-66 | the JSON codec and the database codec accept the same integers and use the same name for each |
| `Types.JsonRoundTrip` | types/fuel.go:19-53 | unmarshalling what MarshalJSON produced gives back the original constant |
| `Types.UnmarshalAccepts` | types/fuel.go:41-50 | a JSON string is accepted if and only if its lower-case form is one of the names, and it yields the constant with that name; otherwise the error is InvalidParam(fuelType) |
| `Types.UnmarshalIgnoresCase` | types/fuel.go:41 | a string decodes exactly as its lower-case form does |
| `Types.UnmarshalCases` | types/fuel.go:35-53 | "PETROL", "Petrol" and "DİESEL" are accepted; "gas" and JSON null give InvalidParam(fuelType); a number or malformed input gives the decoder's own error |
| `Types.ScanAccepts` | types/fuel.go:68-86 | Scan succeeds if and only if it is given a byte slice equal to one of the names, and it yields the constant with that name |
| `Types.ScanRoundTrip` | types/fuel.go:55-86 | scanning the bytes of the string Value(f) produces gives back f, for each constant |
| `Types.ScanRefusesValueAsIs` | types/fuel.go:55-72 | Scan refuses the Go string that Value returns; the round trip depends on the driver turning it into bytes |
| `Types.ScanIsCaseSensitive` | types/fuel.go:41-83 | Scan refuses "Petrol" and "PETROL", which UnmarshalJSON accepts |
| `Models.MarshalCar` | models/car.go:9-16 | a car encodes if and only if its fuel type is one of the constants; the fuelType member is that name and the engine member is the engine's document |
| `Models.EngineIdNotEncoded` | models/engine.go:5-10 | the engine id (tag "-") never reaches the document |
| `Models.ZeroCarEncodes` | handlers/car/handler.go:112-123 | the zero car that getCar returns on failure can always be encoded |
| `WriteResponse.MarshalCarsSound` | handlers/car/write_response.go:45 | a list of cars encodes if and only if every car does, and element i of the result is car i's document |
| `WriteResponse.MarshalSucceeds` | handlers/car/write_response.go:45-50 | json.Marshal of the data fails exactly when some car in it has a fuel outside the three constants; nil encodes as null |
| `WriteResponse.ErrorStatus` | handlers/car/write_response.go:12-25 | 200 if and only if EntityAlreadyExists; 400 if and only if MissingParam or InvalidParam; 404 if and only if EntityNotFound; 500 if and only if any other error |
| `WriteResponse.SuccessStatus` | handlers/car/write_response.go:28-39 | POST gives 201, GET and PUT give 200, DELETE gives 204, each if and only if; any other method gives no status |
| `WriteResponse.WriteResponseBody` | handlers/car/write_response.go:42-60 | the writer ends with Content-Type set, then either 500 with no body when the data cannot be encoded, or the given status followed by the encoded data |
| `WriteResponse.WriteSuccessResponse` | handlers/car/write_response.go:28-39 | the writer ends as writeResponseBody leaves it for the method's status, or is untouched for an unlisted method |
| `WriteResponse.SetStatusCode` | handlers/car/write_response.go:12-25 | the writer ends with the error's status, or as writeSuccessResponse leaves it for a nil error |
| `WriteResponse.ErrorReply` | handlers/car/write_response.go:12-24 | on a fresh writer an error writes only its status: no header and no body |
| `WriteResponse.SuccessReply` | handlers/car/write_response.go:42-60 | on success with a listed method, Content-Type is set; unencodable data gives 500 with no body; otherwise the method's status and the encoded data, with no body for 204 |
| `WriteResponse.UnknownMethodWritesNothing` | handlers/car/write_response.go:29-38 | with a nil error and an unlisted method the writer is left exactly as it was |
| `WriteResponse.DeleteReply` | handlers/car/write_response.go:36-37 | a successful DELETE answers 204 with an empty body |
| `CarHandler.FilterOf` | handlers/car/handler.go:43-53 | the engine flag is true if and only if the first "engine" query value is exactly "true"; the brand is the first "brand" value, or "" |
| `CarHandler.Handler.GetID` | handlers/car/handler.go:184-194 | returns the parsed id with no error if and only if the path id parses; otherwise the nil UUID with InvalidParam, which always happens for an empty or missing id |
| `CarHandler.Handler.GetCar` | handlers/car/handler.go:112-126 | returns the decoded car with no error if and only if the body is read and decodes; otherwise the zero car with the reader's or the decoder's own error |
| `CarHandler.Handler.Create` | handlers/car/handler.go:27-39 | makes the service call CreateFlow names and leaves the writer as the chosen table answers CreateFlow's outcome |
| `CarHandler.Handler.GetAll` | handlers/car/handler.go:42-57 | calls the service with the filter built from the query and answers its result and error |
| `CarHandler.Handler.GetByID` | handlers/car/handler.go:60-73 | makes the call GetByIDFlow names and answers its outcome |
| `CarHandler.Handler.Update` | handlers/car/handler.go:76-96 | makes the call UpdateFlow names and answers its outcome |
| `CarHandler.Handler.Delete` | handlers/car/handler.go:99-109 | makes the call DeleteFlow names and answers its outcome with nil data |
| `CarHandler.VariantErrorStatus` | handlers/car/handler.go:129-140 | 200 if and only if EntityAlreadyExists; 400 if and only if MissingParam or InvalidParam; 500 for EntityNotFound and every other error |
| `CarHandler.VariantSuccessStatus` | handlers/car/handler.go:143-160 | POST gives 201 with non-nil data and 200 with nil data; GET and PUT give 200; DELETE gives 204; any other method gives no status |
| `CarHandler.SetStatusCodeVariant` | handlers/car/handler.go:129-140 | the writer ends as handler.go's table answers the error, method and data |
| `CarHandler.WriteSuccessResponseVariant` | handlers/car/handler.go:143-160 | the writer ends as handler.go's table answers success for the method and data |
| `CarHandler.ErrorOutcomeReply` | handlers/car/handler.go:129-139 | under either table, an error outcome on a fresh writer writes only that table's status |
| `CarHandler.BadIdSkipsService` | handlers/car/handler.go:61-105 | when the path id does not parse, GetByID, Update and Delete make no service call and answer 400 with no body under either table |
| `CarHandler.MissingIdSkipsService` | handlers/car/handler.go:184-193 | a missing or empty id never reaches the service and gives InvalidParam |
| `CarHandler.BodyFailureSkipsService` | handlers/car/handler.go:112-123 | when the body cannot be read or decoded, Create and Update make no service call and pass on that same error; an I/O or syntax error therefore answers 500 |
| `CarHandler.UpdateForwardsBodyCar` | handlers/car/handler.go:84-94 | Update forwards the car decoded from the body; two requests that differ only in a valid path id behave identically |
| `CarHandler.GetAllFilter` | handlers/car/handler.go:45-55 | GetAll always calls the service with the query's filter; "True" does not set the engine flag, and only the first "engine" value counts |
| `CarHandler.TablesAgreeElsewhere` | handlers/car/handler.go:129-160 | apart from EntityNotFound and a successful POST with nil data, the two tables leave the writer in the same state |
| `CarHandler.TablesDiverge` | handlers/car/handler.go:129-160 | EntityNotFound gives 404 in the canonical table and 500 in the variant; a successful POST with nil data gives 201 and 200 respectively |
| `CarHandler.CreateTablesAgree` | handlers/car/handler.go:27-39 | Create always hands over a car, never nil, so the two tables agree on Create unless the service reports EntityNotFound |
| `CarHandler.UpdateNotFoundScenario` | handlers/car/handler_test.go:275-276 | an Update whose service reports EntityNotFound answers 404 in the canonical table and 500 in the variant |
| `CarHandler.DeleteSuccessScenario` | handlers/car/handler_test.go:313 | a Delete that the service accepts calls it with the parsed id and answers 204 with no body under either table |

## Code and tests

The model follows the code where the handler tests expect something else:

- Test_getID (handlers/car/handler_test.go:377-378) expects MissingParam("id") for an empty id and InvalidParam naming "id" for a malformed one. `getID` returns InvalidParam with no parameter in both cases.
- Test_getCar (handlers/car/handler_test.go:350-351) expects InvalidParam naming "body". `getCar` hands on the reader's or the decoder's own error.
- For that reason, an unreadable body in Create answers 500, not the 400 that Test_CreateInvalidBody expects.
- The service interface returns `*models.Car`, while the handlers assign the result to a `models.Car`. The service is modelled as returning a car value.

## Left out

- The car service (services/car/service.go) is a stub: every method returns zero values. The validation rules (`checkCar`, `checkEngine`) and the two-table create/update/delete orchestration exist only in its tests, not in code. The handlers treat the service as an abstract value of functions.
- The SQL stores, the mocks, routing and database setup (main.go, drivers/mysql.go) and the Api-Key middleware are not part of this model. They are I/O or wiring.
- The messages of the error types (their `Error()` methods) are not modelled; only the error kinds are.
- JSON is modelled at the level of decoded values, not bytes. Quoting, escaping, whitespace, and the byte output of `json.Marshal` are not modelled. A nil `[]models.Car` encodes as `null` in Go, but the model encodes every list as an array.
- `uuid.Parse` is abstract beyond its length check. `json.Unmarshal` into a car is abstract, and so is the way a car's fuel field reaches `UnmarshalJSON` during that decoding.
- `Types.Lower` models `strings.ToLower` only for runes whose lower case is ASCII: the ASCII capitals, U+0130 and U+212A. Other runes are kept as they are. This cannot change which names match, because every other rune lowers to a non-ASCII rune.
- `Types.Fuel` is an unbounded integer. Go's `int` is 64 bits, so the model also admits values no Go `Fuel` can hold. All of them are rejected the same way.
- `Types.DbValue` shows only the driver value forms that matter here: bytes, string, int64 and nil. Every other form is refused by `Scan` in the same way.
- Http.ResponseWriter: a header change after the status is written still updates the recorded map, whereas net/http would no longer send it. The handlers never do this. Panics on invalid status codes are not modelled.
- The "error in writing response" log line is not modelled. A failed `Write` leaves the writer's state as `Http.AfterWrite` describes.
