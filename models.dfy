/**
 * The records of the models package (models/car.go, models/engine.go) and the
 * JSON documents encoding/json makes of them under their struct tags.
 */
module Models {
  import opened Wrappers
  import opened Json
  import opened Types
  import opened Uuids

  datatype Engine = Engine(id: Uuid, displacement: int, nCylinder: int, range: int)

  datatype Car = Car(
    id: Uuid,
    model: string,
    manufactureYear: int,
    brand: string,
    fuelType: Fuel,
    engine: Engine)

  const ZeroEngine: Engine := Engine(Nil, 0, 0, 0)

  /** models.Car{}: every field at its zero value, the fuel at Diesel. */
  const ZeroCar: Car := Car(Nil, "", 0, "", Diesel, ZeroEngine)

  /** An Engine's document; the id carries the tag "-" and is never written. */
  function MarshalEngine(e: Engine): Json
  {
    JObject([("displacement", JNumber(e.displacement)), ("NCylinder", JNumber(e.nCylinder)), ("range", JNumber(e.range))])
  }

  /** A Car's document; the only field whose encoding can fail is the fuel type. */
  function MarshalCar(c: Car): (r: Option<Json>)
    ensures r.Some? <==> IsValid(c.fuelType)
    ensures r.Some? ==> r.value.JObject? && |r.value.members| == 6
    ensures r.Some? ==> r.value.members[4] == ("fuelType", JString(Names[c.fuelType]))
    ensures r.Some? ==> r.value.members[5] == ("engine", MarshalEngine(c.engine))
  {
    match MarshalJSON(c.fuelType)
    case Failure(_) => None
    case Success(fuel) =>
      Some(JObject([
        ("id", JString(Format(c.id))),
        ("model", JString(c.model)),
        ("yearOfManufacture", JNumber(c.manufactureYear)),
        ("brand", JString(c.brand)),
        ("fuelType", fuel),
        ("engine", MarshalEngine(c.engine))]))
  }

  /** The engine id never reaches the document: cars that differ only there encode alike. */
  lemma EngineIdNotEncoded(c: Car, other: Uuid)
    ensures MarshalCar(c.(engine := c.engine.(id := other))) == MarshalCar(c)
  {
  }

  /** The zero car, which getCar returns on failure, can always be encoded. */
  lemma ZeroCarEncodes()
    ensures MarshalCar(ZeroCar).Some?
  {
  }
}
