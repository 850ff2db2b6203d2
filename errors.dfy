/**
 * The error values of the errors package, reduced to the kinds the HTTP layer
 * tells apart. Message formatting (the Error() methods) is not modelled.
 */
module Errors {

  datatype Error =
    | EntityAlreadyExists(entity: string)
    | MissingParam(param: string)
    | InvalidParam(params: seq<string>)
    | EntityNotFound(entity: string, id: string)
      /** Any other error value: a database error, an I/O error, a JSON decoding error. */
    | Other(message: string)

  /** The error every fuel codec returns for a value it does not know. */
  const FuelTypeInvalid: Error := InvalidParam(["fuelType"])
}
