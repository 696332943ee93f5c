/** The JSON-shaped dictionaries the service and the detector hand to their callers. */
module Json {
  /** A dictionary value: the source only ever stores strings, booleans and floats. */
  datatype Value = JString(str: string) | JBool(flag: bool) | JNumber(num: real)

  /** A Python `Dict[str, Any]` restricted to the values above. */
  type Object = map<string, Value>
}
