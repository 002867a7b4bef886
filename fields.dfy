/** Optional values, and the three states a key of a decoded JSON object can be in. */
module Fields {

  /** Python's `None` or a value. */
  datatype Option<+T> = None | Some(value: T) {

    /** The value; None reads as `default`. */
    function GetOr(default: T): T {
      match this
      case Some(v) => v
      case None => default
    }
  }

  /** A key of a JSON object (a tool call's arguments, or a monitor record):
      missing, present with the value null, or present with a value. */
  datatype Field<+T> = Absent | Null | Present(value: T) {

    /** `d.get(key)`: a missing key and an explicit null both read as None. */
    function Get(): (r: Option<T>)
      ensures r.Some? <==> Present?
      ensures r.Some? ==> r.value == value
    {
      if Present? then Some(value) else None
    }

    /** `d.get(key, default)`: only a missing key falls back to the default;
        an explicit null still reads as None. */
    function GetOr(default: T): (r: Option<T>)
      ensures r.None? <==> Null?
      ensures Absent? ==> r == Some(default)
      ensures Present? ==> r == Some(value)
    {
      match this
      case Absent => Some(default)
      case Null => None
      case Present(v) => Some(v)
    }
  }
}
