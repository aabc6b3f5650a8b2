/** What `json.loads` makes of a tool call's argument string, as far as the
    agent looks at it. */
module Json {
  import opened Text

  /** One decoded argument value. */
  datatype Value =
    | Str(s: string)
    | Int(i: int)
    | Bool(b: bool)
    | Null
      /** a float, list or object, with the text Python's `str()` gives it */
    | Other(text: string)

  /** The three outcomes of decoding `tool_call["function"]["arguments"]`. */
  datatype Arguments =
    | Object(fields: map<string, Value>)
      /** decoded, but not to an object: `.get` on it raises with this text */
    | NonObject(error: string)
      /** `json.loads` raised with this text */
    | Undecodable(error: string)

  /** `fields.get(key)`: the value, or `None` when the key is absent. */
  function Get(fields: map<string, Value>, key: string): Value
  {
    if key in fields then fields[key] else Null
  }

  /** `fields.get(key, default)` */
  function GetOr(fields: map<string, Value>, key: string, default: Value): Value
  {
    if key in fields then fields[key] else default
  }

  /** How an f-string renders a value: `str(v)`. */
  function Render(v: Value): string
  {
    match v
    case Str(s) => s
    case Int(i) => IntToString(i)
    case Bool(b) => if b then "True" else "False"
    case Null => "None"
    case Other(text) => text
  }
}
