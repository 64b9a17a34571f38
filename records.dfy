/** Values exchanged with the Satellite API and stored in the cache files. */
module Records {

  /** A decoded JSON document. Host detail records are kept opaque as JSON. */
  datatype Json =
    | Null
    | Bool(b: bool)
    | Number(n: int)
    | Str(s: string)
    | Array(items: seq<Json>)
    | Object(fields: map<string, Json>)

  /** The two fields of a host record in the `hosts` API answer that the
      inventory reads: its `name` and its `hostgroup_name`. */
  datatype HostRecord = HostRecord(name: string, hostgroupName: string)

  datatype Option<T> = None | Some(value: T)

  /** The pretty-printed empty object `{}` written for an unknown host. */
  const EmptyObject: Json := Object(map[])
}
