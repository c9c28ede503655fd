/** The relay's two POST routes, `/send` and `/send_admins`, as functions from
    a request to a response plus the gateway calls made on the way. The
    configured API key, the admin token records read from the store and the
    push gateway are parameters. */
module Server {
  import opened Wrappers
  import opened Seqs
  import opened JsValue
  import opened Http
  import opened Auth
  import opened Batching
  import opened AdminFilter

  const DefaultTitle := "Notification"
  const MissingTo := "Missing 'to' token"
  const MissingSenderText := "Missing senderEmail/text"
  const AdminChatTitle := "رسالة جديدة في شات الأدمنية"
  const AdminChatType := "admin_chat"
  const HighPriority := "high"
  /** Length of the admin chat notification preview. */
  const PreviewLength: nat := 120

  /** A single-device message as handed to the gateway's `send`. */
  datatype Message = Message(token: string, title: Value, body: Value, data: Value, androidPriority: string)

  /** The multicast payload shared by every slice of an admin broadcast. */
  datatype Payload = Payload(title: string, body: string, data: map<string, string>, androidPriority: string)

  /** One call into the push gateway. */
  datatype GatewayCall = SendOne(message: Message) | Multicast(tokens: seq<string>, payload: Payload)

  /** What a route handler does: the response it writes and the gateway calls it made, in order. */
  datatype Handled = Handled(response: Response, calls: seq<GatewayCall>)

  // ----- POST /send -----

  /** The validated `/send` body. */
  datatype SendBody = SendBody(to: string, title: Value, body: Value, data: Value)

  /** `/send` body validation: `to` must be a truthy string. */
  function ParseSendBody(body: Value): (r: Result<SendBody, string>)
    ensures r.Ok? <==> Field(body, "to").Str? && Field(body, "to").s != ""
    ensures r.Ok? ==> r.value == SendBody(Field(body, "to").s, Field(body, "title"), Field(body, "body"), Field(body, "data"))
    ensures r.Err? ==> r.error == MissingTo
  {
    var to := Field(body, "to");
    if !Truthy(to) || !to.Str? then Err(MissingTo)
    else Ok(SendBody(to.s, Field(body, "title"), Field(body, "body"), Field(body, "data")))
  }

  /** The message `/send` builds: `title || "Notification"`, `body || ""`, `data || {}`. */
  function MessageFor(sb: SendBody): (m: Message)
    ensures m.token == sb.to && m.androidPriority == HighPriority
    ensures Truthy(m.title) && Truthy(m.data)
    ensures Truthy(sb.title) ==> m.title == sb.title
    ensures !Truthy(sb.title) ==> m.title == Str(DefaultTitle)
    ensures Truthy(sb.body) ==> m.body == sb.body
    ensures !Truthy(sb.body) ==> m.body == Str("")
    ensures Truthy(sb.data) ==> m.data == sb.data
    ensures !Truthy(sb.data) ==> m.data == Obj(map[])
  {
    Message(sb.to,
            OrElse(sb.title, Str(DefaultTitle)),
            OrElse(sb.body, Str("")),
            OrElse(sb.data, Obj(map[])),
            HighPriority)
  }

  /** Applying the defaults to an already-defaulted message changes nothing. */
  lemma MessageDefaultsIdempotent(sb: SendBody)
    ensures var m := MessageFor(sb);
      MessageFor(SendBody(m.token, m.title, m.body, m.data)) == m
  {
  }

  /** POST /send. `send` is the gateway's single-device send; it returns the message id. */
  function HandleSend(req: Request, apiKeyEnv: string, send: Message -> string): (h: Handled)
    ensures Gate(req, apiKeyEnv).Some? ==> h == Handled(Gate(req, apiKeyEnv).value, [])
    ensures Gate(req, apiKeyEnv).None? && ParseSendBody(req.body).Err?
            ==> h == Handled(Response(400, Failed(MissingTo)), [])
    ensures h.response.status == 200 <==> Gate(req, apiKeyEnv).None? && ParseSendBody(req.body).Ok?
    ensures h.response.status == 200 ==>
      var m := MessageFor(ParseSendBody(req.body).value);
      h.calls == [SendOne(m)] && h.response.reply == SentOne(send(m))
  {
    match Gate(req, apiKeyEnv)
    case Some(refused) => Handled(refused, [])
    case None =>
      match ParseSendBody(req.body)
      case Err(e) => Handled(Response(400, Failed(e)), [])
      case Ok(sb) =>
        var m := MessageFor(sb);
        Handled(Response(200, SentOne(send(m))), [SendOne(m)])
  }

  // ----- POST /send_admins -----

  /** The validated `/send_admins` body. */
  datatype AdminBody = AdminBody(senderEmail: Value, text: Value)

  /** `/send_admins` body validation: both `senderEmail` and `text` must be truthy. */
  function ParseAdminBody(body: Value): (r: Result<AdminBody, string>)
    ensures r.Ok? <==> Truthy(Field(body, "senderEmail")) && Truthy(Field(body, "text"))
    ensures r.Ok? ==> r.value == AdminBody(Field(body, "senderEmail"), Field(body, "text"))
    ensures r.Err? ==> r.error == MissingSenderText
  {
    var senderEmail := Field(body, "senderEmail");
    var text := Field(body, "text");
    if !Truthy(senderEmail) || !Truthy(text) then Err(MissingSenderText)
    else Ok(AdminBody(senderEmail, text))
  }

  /** `String(text).slice(0, 120)`. */
  function Preview(text: string): (r: string)
    ensures |r| == Min(|text|, PreviewLength)
    ensures r == text[..|r|]
  {
    if |text| <= PreviewLength then text else text[..PreviewLength]
  }

  /** The preview of a preview is the same preview, and short texts pass through whole. */
  lemma PreviewStable(text: string)
    ensures Preview(Preview(text)) == Preview(text)
    ensures |text| <= PreviewLength ==> Preview(text) == text
  {
  }

  /** The admin chat payload: fixed title, the text's preview as body, the sender in the data. */
  function AdminPayload(ab: AdminBody): (p: Payload)
    ensures p.title == AdminChatTitle && p.androidPriority == HighPriority
    ensures |p.body| == Min(|ToJsString(ab.text)|, PreviewLength) && p.body == ToJsString(ab.text)[..|p.body|]
    ensures p.data.Keys == {"type", "senderEmail"}
    ensures "type" in p.data && p.data["type"] == AdminChatType
    ensures "senderEmail" in p.data && p.data["senderEmail"] == ToJsString(ab.senderEmail)
  {
    Payload(AdminChatTitle,
            Preview(ToJsString(ab.text)),
            map["type" := AdminChatType, "senderEmail" := ToJsString(ab.senderEmail)],
            HighPriority)
  }

  /** One multicast call per delivered slice, in order. */
  function MulticastCalls(batches: seq<seq<string>>, payload: Payload): seq<GatewayCall>
  {
    seq(|batches|, k requires 0 <= k < |batches| => Multicast(batches[k], payload))
  }

  /** POST /send_admins. `admins` are the `fcm_tokens` records with role "admin",
      in store order; `multicast` is the gateway's multicast send. */
  function HandleSendAdmins(req: Request, apiKeyEnv: string, admins: seq<TokenRecord>,
                            multicast: (seq<string>, Payload) -> Counts): (h: Handled)
    ensures Gate(req, apiKeyEnv).Some? ==> h == Handled(Gate(req, apiKeyEnv).value, [])
    ensures Gate(req, apiKeyEnv).None? && ParseAdminBody(req.body).Err?
            ==> h == Handled(Response(400, Failed(MissingSenderText)), [])
    ensures h.response.status == 200 <==> Gate(req, apiKeyEnv).None? && ParseAdminBody(req.body).Ok?
    ensures h.response.status == 200 ==>
      var ab := ParseAdminBody(req.body).value;
      var tokens := AdminTokens(admins, ab.senderEmail);
      && (h.response.reply == NoAdminTokens <==> |tokens| == 0)
      && (|tokens| == 0 ==> h.calls == [])
      && (|tokens| > 0 ==>
            var d := SendToMany(tokens, AdminPayload(ab), multicast);
            h.response.reply == Broadcast(|tokens|, d.success, d.failure) && |h.calls| == ChunkCount(|tokens|))
      && (forall k :: 0 <= k < |h.calls| ==> h.calls[k] == Multicast(Chunks(tokens)[k], AdminPayload(ab)))
  {
    match Gate(req, apiKeyEnv)
    case Some(refused) => Handled(refused, [])
    case None =>
      match ParseAdminBody(req.body)
      case Err(e) => Handled(Response(400, Failed(e)), [])
      case Ok(ab) =>
        var tokens := AdminTokens(admins, ab.senderEmail);
        if |tokens| == 0 then Handled(Response(200, NoAdminTokens), [])
        else
          var payload := AdminPayload(ab);
          var d := SendToMany(tokens, payload, multicast);
          Handled(Response(200, Broadcast(|tokens|, d.success, d.failure)), MulticastCalls(d.batches, payload))
  }

  // ----- properties across calls -----

  /** A gateway call happens only on a 200 response; refused and invalid requests reach no gateway. */
  lemma NoDeliveryUnlessAccepted(req: Request, apiKeyEnv: string, send: Message -> string,
                                 admins: seq<TokenRecord>, multicast: (seq<string>, Payload) -> Counts)
    ensures HandleSend(req, apiKeyEnv, send).calls != [] ==> HandleSend(req, apiKeyEnv, send).response.status == 200
    ensures HandleSendAdmins(req, apiKeyEnv, admins, multicast).calls != []
            ==> HandleSendAdmins(req, apiKeyEnv, admins, multicast).response.status == 200
  {
  }

  /** Authorisation comes before validation: an unauthorised request gets the same
      reply whatever its body. */
  lemma RefusalIgnoresBody(req: Request, other: Request, apiKeyEnv: string, send: Message -> string,
                           admins: seq<TokenRecord>, multicast: (seq<string>, Payload) -> Counts)
    requires req.headers == other.headers && req.query == other.query
    requires Gate(req, apiKeyEnv).Some?
    ensures HandleSend(req, apiKeyEnv, send) == HandleSend(other, apiKeyEnv, send)
    ensures HandleSendAdmins(req, apiKeyEnv, admins, multicast) == HandleSendAdmins(other, apiKeyEnv, admins, multicast)
  {
    GateIgnoresBody(req, other, apiKeyEnv);
  }

  /** Gateway tokens of a run of calls, concatenated in call order. */
  function CalledTokens(calls: seq<GatewayCall>): seq<string>
  {
    if |calls| == 0 then []
    else (if calls[0].Multicast? then calls[0].tokens else []) + CalledTokens(calls[1..])
  }

  lemma {:induction false} CalledTokensOfMulticasts(batches: seq<seq<string>>, payload: Payload)
    ensures CalledTokens(MulticastCalls(batches, payload)) == Flatten(batches)
    decreases |batches|
  {
    if |batches| > 0 {
      CalledTokensOfMulticasts(batches[1..], payload);
      assert MulticastCalls(batches, payload)[1..] == MulticastCalls(batches[1..], payload);
    }
  }

  /** An admin broadcast sends to exactly the filtered recipient list, in order,
      in slices of at most 500. */
  lemma {:induction false} AdminBroadcastRecipients(req: Request, apiKeyEnv: string, admins: seq<TokenRecord>,
                                 multicast: (seq<string>, Payload) -> Counts)
    requires Gate(req, apiKeyEnv).None? && ParseAdminBody(req.body).Ok?
    ensures var h := HandleSendAdmins(req, apiKeyEnv, admins, multicast);
      var ab := ParseAdminBody(req.body).value;
      && CalledTokens(h.calls) == AdminTokens(admins, ab.senderEmail)
      && forall k :: 0 <= k < |h.calls| ==> h.calls[k].Multicast? && 0 < |h.calls[k].tokens| <= MaxMulticast
  {
    var ab := ParseAdminBody(req.body).value;
    var tokens := AdminTokens(admins, ab.senderEmail);
    if |tokens| > 0 {
      var payload := AdminPayload(ab);
      var d := SendToMany(tokens, payload, multicast);
      CalledTokensOfMulticasts(d.batches, payload);
    }
  }

  /** Every call of an admin broadcast carries the fixed title, high priority, the
      sender in its data, and a preview of at most 120 characters of the text. */
  lemma AdminBroadcastContent(req: Request, apiKeyEnv: string, admins: seq<TokenRecord>,
                              multicast: (seq<string>, Payload) -> Counts)
    requires Gate(req, apiKeyEnv).None? && ParseAdminBody(req.body).Ok?
    ensures var h := HandleSendAdmins(req, apiKeyEnv, admins, multicast);
      var ab := ParseAdminBody(req.body).value;
      forall k :: 0 <= k < |h.calls| ==>
        && h.calls[k].Multicast?
        && h.calls[k].payload.title == AdminChatTitle
        && h.calls[k].payload.androidPriority == HighPriority
        && h.calls[k].payload.data == map["type" := AdminChatType, "senderEmail" := ToJsString(ab.senderEmail)]
        && |h.calls[k].payload.body| <= PreviewLength
        && h.calls[k].payload.body == ToJsString(ab.text)[..|h.calls[k].payload.body|]
  {
  }

  /** When every multicast response accounts for each token of its slice once,
      the broadcast's success and failure add up to its total. */
  lemma AdminBroadcastAccounts(req: Request, apiKeyEnv: string, admins: seq<TokenRecord>,
                               multicast: (seq<string>, Payload) -> Counts)
    requires forall c, p :: Accounts(multicast, p, c)
    ensures var h := HandleSendAdmins(req, apiKeyEnv, admins, multicast);
      h.response.reply.Broadcast? ==> h.response.reply.success + h.response.reply.failure == h.response.reply.total
  {
    if Gate(req, apiKeyEnv).None? && ParseAdminBody(req.body).Ok? {
      var ab := ParseAdminBody(req.body).value;
      var tokens := AdminTokens(admins, ab.senderEmail);
      SendToManyAccounts(tokens, AdminPayload(ab), multicast);
    }
  }
}
