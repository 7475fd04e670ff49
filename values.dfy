/** The dynamically typed values (`any`) that flow through the tool: data decoded from YAML or
    JSON variable files and request bodies, and the values the CEL engine produces. */
module Values {

  datatype Value =
    | Null
    | Bool(b: bool)
    | Int(i: int)
    | Float(bits: bv64)          // IEEE-754 bits; no floating-point arithmetic is modelled
    | Str(s: string)
    | List(items: seq<Value>)
    | Map(entries: map<string, Value>)
    | Opaque(typeName: string, text: string)  // engine-specific values (timestamps, types, ...)
}
