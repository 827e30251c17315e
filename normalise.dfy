/** Turning PayEvo's parsed reply and HTTP status into the common result
    shape that the checkout page reads. */
module Normalise {
  import opened Js
  import opened Http

  const GenericErrorMessage := "Erro ao processar pagamento via PayEvo"
  const UnexpectedMessage := "Resposta inesperada da PayEvo"

  /** The three shapes of provider reply the handler tells apart. */
  datatype ProviderReply =
    | Created(id: Value, pix: Value)     // truthy reply with truthy `id` and `pix`
    | Rejected(error: Value)             // otherwise, truthy reply with truthy `error`
    | Unrecognised(raw: Value)           // anything else, kept for diagnostics

  /** Decodes the reply once, trying the shapes in the handler's order. */
  function Classify(data: Value): (r: ProviderReply)
    ensures r.Created? <==> Truthy(data) && Truthy(Get(data, "id")) && Truthy(Get(data, "pix"))
    ensures r.Rejected? <==> !r.Created? && Truthy(data) && Truthy(Get(data, "error"))
    ensures r.Created? ==> r.id == Get(data, "id") && r.pix == Get(data, "pix")
    ensures r.Rejected? ==> r.error == Get(data, "error")
    ensures r.Unrecognised? ==> r.raw == data
  {
    if Truthy(data) && Truthy(Get(data, "id")) && Truthy(Get(data, "pix")) then
      Created(Get(data, "id"), Get(data, "pix"))
    else if Truthy(data) && Truthy(Get(data, "error")) then
      Rejected(Get(data, "error"))
    else
      Unrecognised(data)
  }

  datatype PaymentData = PaymentData(qrCodeBase64: Value, qrCode: Value, copyPaste: Value, expiresAt: Value)

  /** The common result: a created transaction, or a failure with a message
      and, for an unrecognised reply, the raw provider body. */
  datatype PaymentResult =
    | Paid(transactionId: Value, paymentData: PaymentData)
    | Failed(message: Value, raw: Option<Value>)

  /** The result each reply shape maps to. PayEvo sends no QR image, so
      `qrCodeBase64` is always `null`; the PIX code doubles as `qrCode` and
      `copyPaste`. */
  function ResultOf(reply: ProviderReply): (res: PaymentResult)
    ensures res.Paid? <==> reply.Created?
    ensures res.Paid? ==> res.transactionId == reply.id && res.paymentData.qrCodeBase64 == Null
    ensures res.Paid? ==> res.paymentData.qrCode == res.paymentData.copyPaste
    ensures res.Failed? ==> Truthy(res.message) && (res.raw.Some? <==> reply.Unrecognised?)
  {
    match reply
    case Created(id, pix) =>
      var code := Or(Get(pix, "qrcode"), Str(""));
      Paid(id, PaymentData(Null, code, code, Or(Get(pix, "expirationDate"), Null)))
    case Rejected(error) =>
      Failed(Or(Or(Get(error, "message"), error), Str(GenericErrorMessage)), None)
    case Unrecognised(raw) =>
      Failed(Str(UnexpectedMessage), Some(raw))
  }

  /** The JSON object sent to the caller. */
  function ResultObject(res: PaymentResult): (v: Value)
    ensures v.Obj? && Get(v, "success") == Bool(res.Paid?)
    ensures res.Paid? ==> v.fields.Keys == {"success", "data"}
    ensures res.Failed? ==> Get(v, "message") == res.message
    ensures res.Failed? ==> v.fields.Keys == if res.raw.Some? then {"success", "message", "raw"} else {"success", "message"}
    ensures res.Failed? && res.raw.Some? ==> Get(v, "raw") == res.raw.value
  {
    match res
    case Paid(id, pd) =>
      Obj(map[
        "success" := Bool(true),
        "data" := Obj(map[
          "transactionId" := id,
          "paymentData" := Obj(map[
            "qrCodeBase64" := pd.qrCodeBase64,
            "qrCode" := pd.qrCode,
            "copyPaste" := pd.copyPaste,
            "expiresAt" := pd.expiresAt])])])
    case Failed(message, None) =>
      Obj(map["success" := Bool(false), "message" := message])
    case Failed(message, Some(raw)) =>
      Obj(map["success" := Bool(false), "message" := message, "raw" := raw])
  }

  /** The response for a provider reply: 200 for a created transaction,
      the provider's own status for both kinds of failure. */
  function NormaliseReply(status: int, data: Value): (r: Response)
    ensures r.body.Json?
    ensures r.status == if Classify(data).Created? then 200 else status
  {
    var res := ResultOf(Classify(data));
    Response(if res.Paid? then 200 else status, Json(ResultObject(res)))
  }

  /** A reply with truthy `id` and `pix` is a success, whatever else it holds
      (an `error` member included): 200, `success: true`, the provider's id, no
      image, the PIX code or "" twice, and the expiry date or `null`. */
  lemma SuccessReply(status: int, data: Value)
    requires Truthy(data) && Truthy(Get(data, "id")) && Truthy(Get(data, "pix"))
    ensures var pix := Get(data, "pix");
      var code := if Truthy(Get(pix, "qrcode")) then Get(pix, "qrcode") else Str("");
      var expiry := if Truthy(Get(pix, "expirationDate")) then Get(pix, "expirationDate") else Null;
      NormaliseReply(status, data) == Response(200, Json(Obj(map[
        "success" := Bool(true),
        "data" := Obj(map[
          "transactionId" := Get(data, "id"),
          "paymentData" := Obj(map[
            "qrCodeBase64" := Null,
            "qrCode" := code,
            "copyPaste" := code,
            "expiresAt" := expiry])])])))
  {
  }

  /** An error reply relays the provider status with `success: false` and
      the error's `message` if truthy, else the error itself. Since this
      branch needs a truthy `error`, the generic message
      "Erro ao processar pagamento via PayEvo" can never be chosen. */
  lemma ErrorReply(status: int, data: Value)
    requires !(Truthy(data) && Truthy(Get(data, "id")) && Truthy(Get(data, "pix")))
    requires Truthy(data) && Truthy(Get(data, "error"))
    ensures var error := Get(data, "error");
      var message := if Truthy(Get(error, "message")) then Get(error, "message") else error;
      NormaliseReply(status, data) == Response(status, Json(Obj(map[
        "success" := Bool(false),
        "message" := message])))
  {
  }

  /** Any other reply, a falsy one included, is relayed with the provider
      status, `success: false`, the fixed message, and the reply as `raw`. */
  lemma UnexpectedReply(status: int, data: Value)
    requires !(Truthy(data) && Truthy(Get(data, "id")) && Truthy(Get(data, "pix")))
    requires !(Truthy(data) && Truthy(Get(data, "error")))
    ensures NormaliseReply(status, data) == Response(status, Json(Obj(map[
        "success" := Bool(false),
        "message" := Str(UnexpectedMessage),
        "raw" := data])))
  {
  }

  /** The three worked examples of the handler's contract. */
  lemma WorkedExamples()
    ensures var pix := Obj(map["qrcode" := Str("000201"), "expirationDate" := Str("2024-01-01T00:00:00Z")]);
      NormaliseReply(201, Obj(map["id" := Str("tx1"), "pix" := pix])) == Response(200, Json(Obj(map[
        "success" := Bool(true),
        "data" := Obj(map[
          "transactionId" := Str("tx1"),
          "paymentData" := Obj(map[
            "qrCodeBase64" := Null,
            "qrCode" := Str("000201"),
            "copyPaste" := Str("000201"),
            "expiresAt" := Str("2024-01-01T00:00:00Z")])])])))
    ensures var data := Obj(map["error" := Obj(map["message" := Str("insufficient funds")])]);
      NormaliseReply(402, data) == Response(402, Json(Obj(map[
        "success" := Bool(false), "message" := Str("insufficient funds")])))
    ensures var data := Obj(map["foo" := Str("bar")]);
      NormaliseReply(200, data) == Response(200, Json(Obj(map[
        "success" := Bool(false), "message" := Str(UnexpectedMessage), "raw" := data])))
  {
  }
}
