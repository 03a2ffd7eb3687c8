/** JSON values as Python's json module produces them (numbers restricted to integers). */
module Json {
  datatype Json =
    | Null
    | Bool(b: bool)
    | Num(n: int)
    | Str(s: string)
    | Arr(items: seq<Json>)
    | Obj(fields: map<string, Json>)

  /** The empty dict `{}` that both tools return on failure. */
  const EmptyObject: Json := Obj(map[])
}
