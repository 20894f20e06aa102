/** Values shared by the handlers and the services. */
module Common {

  datatype Option<+T> = None | Some(value: T)

  datatype Result<+T, +E> = Success(value: T) | Failure(error: E)

  /** A request or record field as Python sees it after JSON decoding:
      `None` (JSON `null`, or a key that `dict.get` did not find) or a string. */
  datatype Text = Null | Str(s: string)

  /** Python's `f"{v}"` for a value that is a `str` or `None`. */
  function Render(t: Text): string
  {
    match t
    case Null => "None"
    case Str(s) => s
  }

  /** Python's `data.get(key, default)`. */
  function Get(data: map<string, Text>, key: string, default: Text): Text
  {
    if key in data then data[key] else default
  }

  /** The decimal digit character for `d`. */
  function DigitChar(d: nat): (c: char)
    requires d < 10
    ensures '0' <= c <= '9'
  {
    ('0' as int + d) as char
  }
}
