/**
 * The plain key/value records that accounts and transactions are converted to
 * for storage (the dictionaries and lists that are written out as JSON), and
 * the errors raised while reading them back.
 */
module Records {
  import opened Wrappers

  datatype Value =
    | Str(s: string)
    | Int(i: int)
    | Num(r: real)
    | List(items: seq<Value>)
    | Object(fields: map<string, Value>)

  datatype Error =
    | NotAnObject            // the record is not a dictionary
    | MissingKey(key: string) // a lookup of an absent key
    | WrongType(key: string)  // the key holds a value of another shape
    | BadDate(text: string)   // the date does not match "%Y-%m-%d %H:%M:%S"

  function GetString(fields: map<string, Value>, key: string): (r: Result<string, Error>)
    ensures r.Ok? <==> key in fields && fields[key].Str?
    ensures r.Ok? ==> fields[key] == Str(r.value)
  {
    if key !in fields then Err(MissingKey(key))
    else if fields[key].Str? then Ok(fields[key].s)
    else Err(WrongType(key))
  }

  /** A number field; an integer and a floating-point value both read as a number. */
  function GetNumber(fields: map<string, Value>, key: string): (r: Result<real, Error>)
    ensures r.Ok? <==> key in fields && (fields[key].Num? || fields[key].Int?)
    ensures key in fields && fields[key].Num? ==> r == Ok(fields[key].r)
    ensures key in fields && fields[key].Int? ==> r == Ok(fields[key].i as real)
  {
    if key !in fields then Err(MissingKey(key))
    else match fields[key]
      case Num(x) => Ok(x)
      case Int(n) => Ok(n as real)
      case _ => Err(WrongType(key))
  }

  function GetInt(fields: map<string, Value>, key: string): (r: Result<int, Error>)
    ensures r.Ok? <==> key in fields && fields[key].Int?
    ensures r.Ok? ==> fields[key] == Int(r.value)
  {
    if key !in fields then Err(MissingKey(key))
    else if fields[key].Int? then Ok(fields[key].i)
    else Err(WrongType(key))
  }

  function GetList(fields: map<string, Value>, key: string): (r: Result<seq<Value>, Error>)
    ensures r.Ok? <==> key in fields && fields[key].List?
    ensures r.Ok? ==> fields[key] == List(r.value)
  {
    if key !in fields then Err(MissingKey(key))
    else if fields[key].List? then Ok(fields[key].items)
    else Err(WrongType(key))
  }
}
