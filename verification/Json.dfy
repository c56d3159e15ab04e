/** JSON values as the Go code decodes them: objects are maps from names to values. */
module Json {
  datatype Json =
    | Null
    | Bool(b: bool)
    | Number(n: real)
    | Str(s: string)
    | Arr(items: seq<Json>)
    | Obj(fields: map<string, Json>)

  /** The string at a name, or "" when it is missing or something else. */
  function StringAt(fields: map<string, Json>, name: string): string {
    if name in fields && fields[name].Str? then fields[name].s else ""
  }

  function ObjectAt(fields: map<string, Json>, name: string): map<string, Json> {
    if name in fields && fields[name].Obj? then fields[name].fields else map[]
  }

  function ListAt(fields: map<string, Json>, name: string): seq<Json> {
    if name in fields && fields[name].Arr? then fields[name].items else []
  }
}
