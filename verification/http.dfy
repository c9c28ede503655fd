/** The request and response shapes of the relay's routes. */
module Http {
  import opened JsValue

  /** An incoming request. Header names are lower-case (header lookup is
      case-insensitive); `body` is the parsed JSON body, `Undefined` when absent. */
  datatype Request = Request(headers: map<string, string>, query: map<string, string>, body: Value)

  /** The JSON envelope of a reply. */
  datatype Reply =
    | Failed(error: string)                              // { ok: false, error }
    | SentOne(id: string)                                // { ok: true, id }
    | NoAdminTokens                                      // { ok: true, sent: 0, note: "No admin tokens" }
    | Broadcast(total: nat, success: nat, failure: nat)  // { ok: true, total, success, failure }

  datatype Response = Response(status: nat, reply: Reply)

  /** `(req.body || {})[name]`: a field of an object body, `Undefined` otherwise. */
  function Field(body: Value, name: string): (r: Value)
    ensures !body.Obj? ==> r == Undefined
    ensures body.Obj? && name !in body.fields ==> r == Undefined
    ensures body.Obj? && name in body.fields ==> r == body.fields[name]
  {
    if body.Obj? && name in body.fields then body.fields[name] else Undefined
  }
}
