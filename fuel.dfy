/**
 * The fuel type of a car (types/fuel.go): an integer enumeration with a JSON
 * codec and a database codec, both using the lower-case names of the constants.
 */
module Types {
  import opened Wrappers
  import opened Errors
  import opened Bytes
  import opened Json

  /** Go's `type Fuel int`: any integer can be held, only three are named. */
  type Fuel = int

  const Diesel: Fuel := 0
  const Petrol: Fuel := 1
  const Electric: Fuel := 2

  /** The name of each constant, indexed by its value. */
  const Names: seq<string> := ["diesel", "petrol", "electric"]

  /** The same names as the byte slices a database driver hands to Scan. */
  const NameBytes: seq<seq<byte>> := [AsciiBytes("diesel"), AsciiBytes("petrol"), AsciiBytes("electric")]

  predicate IsValid(f: Fuel)
  {
    Diesel <= f <= Electric
  }

  /** The position of the first occurrence of x in xs, if any. */
  function IndexOf<T(==)>(xs: seq<T>, x: T): (r: Option<nat>)
    ensures r.Some? ==> r.value < |xs| && xs[r.value] == x && x !in xs[..r.value]
    ensures r.None? ==> x !in xs
  {
    if xs == [] then None
    else if xs[0] == x then Some(0)
    else
      match IndexOf(xs[1..], x)
      case None => None
      case Some(k) =>
        assert xs[..k + 1] == [xs[0]] + xs[1..][..k];
        Some(k + 1)
  }

  /** A driver value as database/sql hands it over: only some of its forms are shown. */
  datatype DbValue =
    | DbBytes(bytes: seq<byte>)
    | DbString(s: string)
    | DbInt64(n: int)
    | DbNull

  /** MarshalJSON, at the level of the JSON value it encodes. */
  function MarshalJSON(f: Fuel): (r: Result<Json, Error>)
    ensures r.Success? <==> IsValid(f)
    ensures r.Success? ==> r.value == JString(Names[f])
    ensures r.Failure? ==> r.error == FuelTypeInvalid
  {
    if f == Petrol then Success(JString("petrol"))
    else if f == Diesel then Success(JString("diesel"))
    else if f == Electric then Success(JString("electric"))
    else Failure(FuelTypeInvalid)
  }

  /** Value: the database form of a fuel, a Go string. */
  function Value(f: Fuel): (r: Result<DbValue, Error>)
    ensures r.Success? <==> IsValid(f)
    ensures r.Success? ==> r.value == DbString(Names[f])
    ensures r.Failure? ==> r.error == FuelTypeInvalid
  {
    if f == Diesel then Success(DbString("diesel"))
    else if f == Petrol then Success(DbString("petrol"))
    else if f == Electric then Success(DbString("electric"))
    else Failure(FuelTypeInvalid)
  }

  /**
   * unicode.ToLower on one rune, as far as it can produce ASCII: the ASCII
   * capitals, U+0130 (capital I with dot above, lowered to 'i') and U+212A
   * (the Kelvin sign, lowered to 'k'). Every other rune is kept.
   */
  function LowerRune(c: char): char
  {
    if 'A' <= c <= 'Z' then (c as int + 32) as char
    else if c == '\U{0130}' then 'i'
    else if c == '\U{212A}' then 'k'
    else c
  }

  /** strings.ToLower. */
  function Lower(s: string): (r: string)
    ensures |r| == |s|
    ensures forall i :: 0 <= i < |s| ==> r[i] == LowerRune(s[i])
  {
    seq(|s|, i requires 0 <= i < |s| => LowerRune(s[i]))
  }

  /** The fuel a decoded JSON token stands for: what UnmarshalJSON stores. */
  function UnmarshalFuel(t: Text): Result<Fuel, Error>
  {
    match UnmarshalString(t)
    case Failure(e) => Failure(e)
    case Success(s) =>
      match IndexOf(Names, Lower(s))
      case Some(i) => Success(i)
      case None => Failure(FuelTypeInvalid)
  }

  /** The fuel a driver value stands for: what Scan stores. */
  function ScanFuel(v: DbValue): Result<Fuel, Error>
  {
    if !v.DbBytes? then Failure(FuelTypeInvalid)
    else
      match IndexOf(NameBytes, v.bytes)
      case Some(i) => Success(i)
      case None => Failure(FuelTypeInvalid)
  }

  /** A *Fuel: the receiver that UnmarshalJSON and Scan write through. */
  class FuelRef {
    var value: Fuel

    constructor (f: Fuel)
      ensures value == f
    {
      value := f;
    }

    /** UnmarshalJSON: decodes a JSON string, case-insensitively; the receiver is written only on a match. */
    method UnmarshalJSON(b: Text) returns (err: Option<Error>)
      modifies this
      ensures UnmarshalFuel(b).Success? ==> err == None && value == UnmarshalFuel(b).value
      ensures UnmarshalFuel(b).Failure? ==> err == Some(UnmarshalFuel(b).error) && value == old(value)
    {
      var s := UnmarshalString(b);
      if s.Failure? {
        return Some(s.error);
      }
      var name := Lower(s.value);
      if name == "petrol" {
        value := Petrol;
      } else if name == "diesel" {
        value := Diesel;
      } else if name == "electric" {
        value := Electric;
      } else {
        return Some(FuelTypeInvalid);
      }
      return None;
    }

    /** Scan: accepts only a byte slice holding one of the exact names; the receiver is written only on a match. */
    method Scan(v: DbValue) returns (err: Option<Error>)
      modifies this
      ensures ScanFuel(v).Success? ==> err == None && value == ScanFuel(v).value
      ensures ScanFuel(v).Failure? ==> err == Some(ScanFuel(v).error) && value == old(value)
    {
      if !v.DbBytes? {
        return Some(FuelTypeInvalid);
      }
      if v.bytes == AsciiBytes("diesel") {
        value := Diesel;
      } else if v.bytes == AsciiBytes("petrol") {
        value := Petrol;
      } else if v.bytes == AsciiBytes("electric") {
        value := Electric;
      } else {
        return Some(FuelTypeInvalid);
      }
      return None;
    }
  }

  /** The JSON name and the database name of a fuel agree, and both exist for exactly the three constants. */
  lemma NamesAgree(f: Fuel)
    ensures MarshalJSON(f).Success? <==> Value(f).Success?
    ensures IsValid(f) ==> MarshalJSON(f).value == JString(Value(f).value.s)
  {
  }

  lemma LowerNames(f: Fuel)
    requires IsValid(f)
    ensures Lower(Names[f]) == Names[f]
  {
  }

  /** Unmarshalling what MarshalJSON produced gives back the constant. */
  lemma JsonRoundTrip(f: Fuel)
    requires IsValid(f)
    ensures UnmarshalFuel(Parsed(MarshalJSON(f).value)) == Success(f)
  {
    LowerNames(f);
    var r := IndexOf(Names, Names[f]);
    assert r.Some?;
    assert r.value == f by {
      assert Names[0] != Names[1] && Names[0] != Names[2] && Names[1] != Names[2] by {
        assert Names[0][0] == 'd' && Names[1][0] == 'p' && Names[2][0] == 'e';
      }
      assert Names[f] !in Names[..r.value];
    }
  }

  /** A JSON string is accepted exactly when its lower-case form is one of the names, and names the fuel at that index. */
  lemma UnmarshalAccepts(s: string)
    ensures UnmarshalFuel(Parsed(JString(s))).Success? <==> Lower(s) in Names
    ensures UnmarshalFuel(Parsed(JString(s))).Success? ==>
              IsValid(UnmarshalFuel(Parsed(JString(s))).value) &&
              Names[UnmarshalFuel(Parsed(JString(s))).value] == Lower(s)
    ensures UnmarshalFuel(Parsed(JString(s))).Failure? ==>
              UnmarshalFuel(Parsed(JString(s))).error == FuelTypeInvalid
  {
  }

  lemma LowerIdempotent(s: string)
    ensures Lower(Lower(s)) == Lower(s)
  {
  }

  /** UnmarshalJSON ignores case: a string decodes as its lower-case form does. */
  lemma UnmarshalIgnoresCase(s: string)
    ensures UnmarshalFuel(Parsed(JString(s))) == UnmarshalFuel(Parsed(JString(Lower(s))))
  {
    LowerIdempotent(s);
  }

  /**
   * Upper- and mixed-case names are accepted, including U+0130, which Go lowers
   * to 'i'; the empty string, JSON null and non-string documents are refused,
   * the last with the decoder's own error rather than InvalidParam.
   */
  lemma UnmarshalCases()
    ensures UnmarshalFuel(Parsed(JString("PETROL"))) == Success(Petrol)
    ensures UnmarshalFuel(Parsed(JString("Petrol"))) == Success(Petrol)
    ensures UnmarshalFuel(Parsed(JString("D\U{0130}ESEL"))) == Success(Diesel)
    ensures UnmarshalFuel(Parsed(JString("gas"))) == Failure(FuelTypeInvalid)
    ensures UnmarshalFuel(Parsed(JNull)) == Failure(FuelTypeInvalid)
    ensures UnmarshalFuel(Parsed(JNumber(1))) == Failure(StringTypeError)
    ensures UnmarshalFuel(Malformed) == Failure(SyntaxError)
  {
    assert Lower("PETROL") == "petrol";
    assert Lower("Petrol") == "petrol";
    assert Lower("D\U{0130}ESEL") == "diesel";
    assert Lower("gas") == "gas";
  }

  /** Scan accepts exactly a byte slice equal to one of the names, and stores the fuel at that index. */
  lemma ScanAccepts(v: DbValue)
    ensures ScanFuel(v).Success? <==> v.DbBytes? && v.bytes in NameBytes
    ensures ScanFuel(v).Success? ==> IsValid(ScanFuel(v).value) && NameBytes[ScanFuel(v).value] == v.bytes
    ensures ScanFuel(v).Failure? ==> ScanFuel(v).error == FuelTypeInvalid
  {
  }

  /** Scanning the bytes of Value(f), as the driver returns them, gives back f. */
  lemma ScanRoundTrip(f: Fuel)
    requires IsValid(f)
    ensures IsAscii(Value(f).value.s)
    ensures ScanFuel(DbBytes(AsciiBytes(Value(f).value.s))) == Success(f)
  {
    var b := AsciiBytes(Names[f]);
    assert b == NameBytes[f];
    var r := IndexOf(NameBytes, b);
    assert r.Some?;
    assert r.value == f by {
      assert NameBytes[0][0] != NameBytes[1][0] && NameBytes[0][0] != NameBytes[2][0] && NameBytes[1][0] != NameBytes[2][0];
      assert b !in NameBytes[..r.value];
    }
  }

  /** Value hands back a Go string, which Scan refuses: the round trip needs the driver's conversion to bytes. */
  lemma ScanRefusesValueAsIs(f: Fuel)
    requires IsValid(f)
    ensures ScanFuel(Value(f).value) == Failure(FuelTypeInvalid)
  {
  }

  /** Scan is case-sensitive where UnmarshalJSON is not. */
  lemma ScanIsCaseSensitive()
    ensures ScanFuel(DbBytes(AsciiBytes("Petrol"))).Failure?
    ensures ScanFuel(DbBytes(AsciiBytes("PETROL"))).Failure?
    ensures UnmarshalFuel(Parsed(JString("Petrol"))) == Success(Petrol)
    ensures UnmarshalFuel(Parsed(JString("PETROL"))) == Success(Petrol)
  {
    UnmarshalCases();
    var p := AsciiBytes("Petrol");
    var q := AsciiBytes("PETROL");
    assert p[0] != NameBytes[0][0] && p[0] != NameBytes[1][0] && p[0] != NameBytes[2][0];
    assert q[0] != NameBytes[0][0] && q[0] != NameBytes[1][0] && q[0] != NameBytes[2][0];
  }
}
