/** JSON values as the gateway reads them back from Redis and from Celery's result backend. */
module Json {

  datatype Json =
    | JNull
    | JBool(b: bool)
    | JInt(i: int)
    | JReal(r: real)
    | JStr(s: string)
    | JArr(items: seq<Json>)
    | JObj(fields: map<string, Json>)

  /** `d.get(key, default)` on a dictionary. */
  function Get(fields: map<string, Json>, key: string, default: Json): Json {
    if key in fields then fields[key] else default
  }
}

/** Celery's view of one task: its state name and its `info` payload. */
module Tasks {
  import opened Wrappers
  import opened Json

  /** What reading `AsyncResult(task_id).info` yields. The payload is untrusted: it may be a
      dictionary, a reconstructed exception, another object, nothing, or a record that cannot
      be decoded at all, in which case reading it raises. */
  datatype Payload =
    | NoInfo
    | DictInfo(fields: map<string, Json>)
    | ExceptionInfo(message: string)
    // another Python object: its truth value, and `str()` of it (None when `str` raises)
    | OtherInfo(truthy: bool, text: Option<string>)
    // the stored payload could not be decoded: reading `.info` raises with this message
    | Unreadable(message: string)

  /** A task's entry in Celery's result backend. Unknown ids read as PENDING with no info. */
  datatype Record = Record(state: string, info: Payload)

  const Unknown := Record("PENDING", NoInfo)
}
