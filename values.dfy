/** The values held in metadata dictionaries and point payloads. */
module Values {
  datatype Value = VStr(s: string) | VInt(i: int)

  /** A JSON-like dictionary with string keys. */
  type Dict = map<string, Value>
}
