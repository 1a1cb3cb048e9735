/** The values that query rows and point fields hold, the exceptions the uploader meets, and `float()`. */
module Values {
  import opened Wrappers

  /** A column value as the InfluxDB client returns it from a query: int, float, bool, str or None. */
  datatype Value = Int(i: int) | Float(x: real) | Bool(b: bool) | Str(s: string) | Null

  /** The exceptions that reach the uploader's handlers. */
  datatype Error =
    | ConnectionError(detail: string)   // requests.ConnectionError: the store is unreachable
    | ClientError(detail: string)       // influxdb InfluxDBClientError: the store rejected a request
    | KeyError(key: string)             // a missing dictionary key
    | TypeError(operand: Value)         // float(None)
    | ValueError(text: string)          // float() of text that is not a number
    | OtherError(detail: string)        // any other exception a client call raises

  /**
    Python's `float(v)`. Integers and booleans convert exactly (no rounding
    to a double is modelled), a float is returned as it is, `None` raises
    TypeError, and text is read by `parse`, which stands for float()'s own
    number parser and yields None where float() raises ValueError.
   */
  function ToFloat(v: Value, parse: string -> Option<real>): (r: Result<real, Error>)
    ensures r.Err? <==> v.Null? || (v.Str? && parse(v.s).None?)
    ensures v.Float? ==> r == Ok(v.x)
    ensures v.Int? ==> r == Ok(v.i as real)
  {
    match v
    case Int(i) => Ok(i as real)
    case Float(x) => Ok(x)
    case Bool(b) => Ok(if b then 1.0 else 0.0)
    case Str(s) => if parse(s).Some? then Ok(parse(s).value) else Err(ValueError(s))
    case Null => Err(TypeError(Null))
  }
}
