/** The whole request handler of `api/create-pix-payevo.js`, with the
    outbound `fetch` and its `json()` taken as an input. */
module Handler {
  import opened Js
  import opened Http
  import opened Gating
  import opened Payload
  import opened Normalise

  const TransactionsUrl := "https://apiv2.payevo.com.br/functions/v1/transactions"
  const InternalErrorMessage := "Internal Server Error"

  /** The one outbound call: a `POST` to the provider of the payload
      object, authenticated with the secret (sent Basic-encoded). */
  datatype Outbound = Outbound(url: string, secretKey: string, body: Value)

  /** What the call gives back: a status and the parsed body, or a
      rejection of `fetch` or of `json()`. */
  datatype Exchange = Answered(status: int, data: Value) | CallFailed

  /** The call that was made, if any, and the response sent to the caller. */
  datatype Trace = Trace(sent: Option<Outbound>, response: Response)

  /** The handler. The provider is a parameter: whatever it answers, the
      trace says whether it was called and with what. Every exception inside
      the `try` block ends in 500 "Internal Server Error". */
  function Handle(verb: string, secret: Option<string>, body: Value, provider: Outbound -> Exchange): (t: Trace)
    ensures t.sent.Some? <==> Decide(verb, secret).Proceed? && BuildPayload(body).Normal?
    ensures t.sent.Some? ==>
      t.sent.value == Outbound(TransactionsUrl, secret.value, PayloadObject(BuildPayload(body).value))
  {
    match Decide(verb, secret)
    case Proceed(key) =>
      (match BuildPayload(body)
       case Throw => Trace(None, Response(500, Json(ErrorObject(InternalErrorMessage))))
       case Normal(payload) =>
         var call := Outbound(TransactionsUrl, key, PayloadObject(payload));
         match provider(call)
         case CallFailed => Trace(Some(call), Response(500, Json(ErrorObject(InternalErrorMessage))))
         case Answered(status, data) => Trace(Some(call), NormaliseReply(status, data)))
    case g => Trace(None, Refusal(g))
  }

  /** `OPTIONS` is answered 200 with no body before anything else is looked
      at, even when the secret is missing, and nothing is sent. */
  lemma PreflightFirst(secret: Option<string>, body: Value, provider: Outbound -> Exchange)
    ensures Handle("OPTIONS", secret, body, provider) == Trace(None, Response(200, Empty))
  {
  }

  /** Any other method but `POST` is refused with 405 and nothing is sent. */
  lemma OtherMethodsRefused(verb: string, secret: Option<string>, body: Value, provider: Outbound -> Exchange)
    requires verb != "OPTIONS" && verb != "POST"
    ensures Handle(verb, secret, body, provider) ==
      Trace(None, Response(405, Json(Obj(map["error" := Str("Method Not Allowed")]))))
  {
  }

  /** A `POST` without a usable secret is refused with 500 and the
      misconfiguration message, before the body is read and without a call. */
  lemma MissingSecretRefused(secret: Option<string>, body: Value, provider: Outbound -> Exchange)
    requires secret.None? || secret.value == ""
    ensures Handle("POST", secret, body, provider) ==
      Trace(None, Response(500, Json(Obj(map["error" := Str("Server misconfiguration: PayEvo API Key missing")]))))
  {
  }

  /** A body the payload cannot be built from (no body, a truthy non-array
      `items`, a `null` or `undefined` item) ends in 500 without any call. */
  lemma UnbuildableBody(key: string, body: Value, provider: Outbound -> Exchange)
    requires key != ""
    requires BuildPayload(body).Throw?
    ensures Handle("POST", Some(key), body, provider) ==
      Trace(None, Response(500, Json(Obj(map["error" := Str("Internal Server Error")]))))
  {
  }

  /** For instance, an `items` array holding `null` throws at `item.title`. */
  lemma NullItemIsInternalError(key: string, provider: Outbound -> Exchange)
    requires key != ""
    ensures Handle("POST", Some(key), Obj(map["items" := Arr([Null])]), provider) ==
      Trace(None, Response(500, Json(Obj(map["error" := Str("Internal Server Error")]))))
  {
    var body := Obj(map["items" := Arr([Null])]);
    assert Nullish(ListedItems(body)[0]);
  }

  /** Past the gate with a buildable body, exactly one call is made, with
      the built payload object and the secret; its answer is normalised, and a
      failed call ends in 500. */
  lemma CallAndNormalise(key: string, body: Value, provider: Outbound -> Exchange)
    requires key != "" && BuildPayload(body).Normal?
    ensures var call := Outbound(TransactionsUrl, key, PayloadObject(BuildPayload(body).value));
      var t := Handle("POST", Some(key), body, provider);
      && t.sent == Some(call)
      && (provider(call).Answered? ==> t.response == NormaliseReply(provider(call).status, provider(call).data))
      && (provider(call).CallFailed? ==> t.response == Response(500, Json(ErrorObject(InternalErrorMessage))))
  {
  }

  /** Only the preflight has an empty body; every other response is a JSON
      object carrying an `error` string or a `success` flag. */
  lemma EveryOtherResponseIsJson(verb: string, secret: Option<string>, body: Value, provider: Outbound -> Exchange)
    ensures var r := Handle(verb, secret, body, provider).response;
      && (r.body.Empty? <==> verb == "OPTIONS")
      && (r.body.Json? ==> r.body.value.Obj? && (Get(r.body.value, "error").Str? || Get(r.body.value, "success").Bool?))
  {
  }
}
