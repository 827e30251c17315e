# PayEvo PIX handler — a Dafny model

This project models the serverless handler `api/create-pix-payevo.js`, which
takes a checkout request from the front end, forwards it to the PayEvo payment
provider as a PIX transaction, and rewrites PayEvo's reply into the common
result shape the checkout page reads (`success`, `data.transactionId`,
`data.paymentData`, or `message` and `raw`). The handler has no loops and no
state of its own, so the model is a set of pure functions over an abstract
JavaScript value, with lemmas stating what the handler promises.

Modules, one per concern of the handler:

- `Js` (`js.dfy`): JavaScript values as `JSON.parse` yields them plus
  `undefined`; `Truthy` (ToBoolean: `undefined`, `null`, `false`, `0` and `""`
  are falsy, every array and object is truthy), `Or` (the `||` operator),
  `Get` (`v?.key`), `First` (`v?.[0]`), and `Completion` for an expression that
  throws a `TypeError`.
- `Http` (`http.dfy`): the emitted response, a status and either no body or a
  JSON body.
- `Gating` (`gating.dfy`): the ordered checks for preflight, method and secret.
- `Payload` (`payload.dfy`): the payload sent to PayEvo, with its defaults.
- `Normalise` (`normalise.dfy`): PayEvo's reply decoded into a tagged union
  and mapped to the emitted `(status, body)`.
- `Handler` (`handler.dfy`): the handler end to end. The outbound call is a
  function parameter, and the result records which call, if any, was made.

Notes on the code as written:

- The secret is checked for truthiness, so an empty secret counts as missing,
  exactly as an absent one does.
- The error branch of the reply mapping tests `data.error` for truthiness, not
  for presence. A reply whose `error` is `""`, `0` or `false` is therefore
  "unexpected" and is relayed with `raw`.
- The error branch is entered only when `data.error` is truthy, so the
  last default in `data.error.message || data.error || 'Erro ao processar
  pagamento via PayEvo'` is never chosen. `Normalise.ErrorReply` proves the
  message is always the error's `message` or the error itself.
- A reply with truthy `id` and `pix` is a success even if it also carries an
  `error` member, because the success test comes first.
- Plain `.` reads throw on `null`/`undefined`, and calling `.map` on a truthy
  non-array throws. Both land in the `catch` block as a 500
  "Internal Server Error" with no outbound call. This covers a missing body, any
  truthy non-array `items` (`true`, a number, a string, an object), and a `null` item.

## Model

| member | source | states |
|---|---|---|
| Js.Truthy | api/create-pix-payevo.js:24-84 | JavaScript ToBoolean as the `!`, `\|\|` and `&&` tests use it: every array and object is truthy, a string is truthy iff non-empty, `null`/`undefined` are falsy |
| Js.Nullish | api/create-pix-payevo.js:33-42 | the values on which a plain `.` read throws; they are all falsy, and the other falsy values are `false`, `0` and `""` |
| Js.Or | api/create-pix-payevo.js:35-45 | `a \|\| b` is the left operand when it is truthy and the right one otherwise, and is truthy iff either operand is |
| Js.Get | api/create-pix-payevo.js:37-39 | optional property read: the member's value on an object that has it, `undefined` on anything else (including `null`/`undefined`) |
| Js.First | api/create-pix-payevo.js:35 | `v?.[0]`: first element of a non-empty array, first character of a non-empty string, member "0" of an object, else `undefined` |
| Js.OrChain | api/create-pix-payevo.js:45 | a three-step `\|\|` chain picks the first truthy operand, falls back to the last one, and is truthy when the last one is |
| Http.ErrorObject | api/create-pix-payevo.js:19-25 | the handler's own error body is an object whose only member `error` holds the message |
| Gating.Decide | api/create-pix-payevo.js:12-26 | `OPTIONS` is a preflight; any other non-`POST` is refused; a `POST` with an absent or empty secret is a misconfiguration; a `POST` with a non-empty secret proceeds carrying that secret (each an if-and-only-if) |
| Gating.Refusal | api/create-pix-payevo.js:12-26 | preflight gives 200 with no body, a refused method 405 `{error:'Method Not Allowed'}`, a missing secret 500 with the misconfiguration message |
| Gating.PreflightIgnoresSecret | api/create-pix-payevo.js:12-15 | `OPTIONS` yields 200 with an empty body whatever the secret is |
| Gating.RefusalsAreErrors | api/create-pix-payevo.js:17-26 | every refusal other than the preflight has an error status (4xx/5xx) and a JSON body with an `error` string |
| Payload.ItemFor | api/create-pix-payevo.js:41-46 | every mapped item has a truthy title, quantity and reference, and the unit price copied unchanged |
| Payload.ListedItems | api/create-pix-payevo.js:41 | the elements `(body.items \|\| [])` maps over: none when `items` is falsy, the array's elements when it is an array |
| Payload.BuildItems | api/create-pix-payevo.js:41-46 | `items.map(...)` succeeds iff no element is `null`/`undefined`; then the output has the input's length and item i is built from input item i |
| Payload.BuildPayload | api/create-pix-payevo.js:29-47 | building throws iff the body is nullish, `items` is truthy but not an array, or an item is nullish; otherwise `paymentMethod` is "PIX", `amount` is the body's unchanged, and output item i is built from input item i with the body's `externalRef` (none when `items` is falsy) |
| Payload.ItemObject | api/create-pix-payevo.js:41-46 | the item object has exactly the members title, unitPrice, quantity, externalRef, holding the item's fields |
| Payload.PayloadObject | api/create-pix-payevo.js:32-47 | the payload object sent has exactly the members amount, paymentMethod, description, customer, items, carrying the payload's fields; customer has exactly name, email, phone; items is an array of the item objects in order |
| Payload.ItemsFollowInput | api/create-pix-payevo.js:41-44 | output item i keeps input item i's unit price, takes its title (else "Pagamento") and quantity (else 1) when truthy, and its reference is the body's `externalRef` if truthy, else item i's raw title if truthy, else "PIX" |
| Payload.NoItemsGiveEmptyList | api/create-pix-payevo.js:41 | a missing or falsy `items` gives an empty item list and no error |
| Payload.FalsyItemFieldsAreReplaced | api/create-pix-payevo.js:42-44 | quantity 0 becomes 1 and an empty title becomes "Pagamento" |
| Payload.ExternalRefChain | api/create-pix-payevo.js:45 | for any top-level reference `topRef`, the mapped item's reference is `topRef` if truthy, else the item's raw title if truthy, else "PIX" (even though the title itself then becomes "Pagamento") |
| Payload.DescriptionAndCustomerDefaults | api/create-pix-payevo.js:35-39 | description is the first item's title or "Pagamento PIX"; name, email and phone each fall back to "Cliente", "cliente@pedagiodigital.com.br", "11999999999" on their own |
| Normalise.Classify | api/create-pix-payevo.js:65-93 | the reply is a creation iff it and its `id` and `pix` are truthy; a rejection iff not a creation and it and its `error` are truthy; otherwise unrecognised and kept whole |
| Normalise.ResultOf | api/create-pix-payevo.js:65-93 | a created reply, and only it, gives a paid result with the provider's id, a `null` image and equal `qrCode`/`copyPaste`; every failure has a truthy message, and `raw` exactly for an unrecognised reply |
| Normalise.ResultObject | api/create-pix-payevo.js:66-93 | the body's `success` flag is true iff the result is paid; its members are exactly success and data, or success, message and (for unrecognised replies) raw |
| Normalise.NormaliseReply | api/create-pix-payevo.js:61-93 | the status is 200 for a created transaction and the provider's own status otherwise, with a JSON body |
| Normalise.SuccessReply | api/create-pix-payevo.js:65-77 | a truthy reply with truthy `id` and `pix` gives 200 `{success:true, data:{transactionId:id, paymentData:{qrCodeBase64:null, qrCode, copyPaste, expiresAt}}}` with the PIX code or "" and the expiry or `null`, whatever else the reply holds |
| Normalise.ErrorReply | api/create-pix-payevo.js:80-86 | otherwise a truthy `error` relays the provider status with `success:false` and the error's message if truthy, else the error itself |
| Normalise.UnexpectedReply | api/create-pix-payevo.js:88-93 | any other reply relays the provider status with `success:false`, "Resposta inesperada da PayEvo" and the reply unchanged as `raw` |
| Normalise.WorkedExamples | api/create-pix-payevo.js:65-93 | a reply `{id:"tx1", pix:{...}}` maps to the paid body, `{error:{message:"insufficient funds"}}` with 402 to 402 and that message, `{foo:"bar"}` with 200 to 200 unexpected with `raw` |
| Handler.Handle | api/create-pix-payevo.js:12-98 | a call is made iff the gate lets the request through and the payload can be built, and then it carries the transactions URL, the secret and the object of the built payload |
| Handler.PreflightFirst | api/create-pix-payevo.js:12-15 | `OPTIONS` gives 200 with no body and no call, regardless of the secret and the body |
| Handler.OtherMethodsRefused | api/create-pix-payevo.js:17-20 | any method other than `OPTIONS` and `POST` gives 405 `{error:'Method Not Allowed'}` and no call |
| Handler.MissingSecretRefused | api/create-pix-payevo.js:22-26 | a `POST` with an absent or empty secret gives 500 with the misconfiguration message and no call |
| Handler.UnbuildableBody | api/create-pix-payevo.js:28-98 | every body the payload cannot be built from (missing body, truthy non-array `items`, a `null`/`undefined` item) gives 500 "Internal Server Error" with no call |
| Handler.NullItemIsInternalError | api/create-pix-payevo.js:41-97 | a body `{items:[null]}` gives 500 "Internal Server Error" with no call |
| Handler.CallAndNormalise | api/create-pix-payevo.js:50-97 | otherwise exactly the one call is made, with the payload object; its answer is normalised, and a failed call or parse gives 500 "Internal Server Error" |
| Handler.EveryOtherResponseIsJson | api/create-pix-payevo.js:12-97 | only the preflight has an empty body; every other response is a JSON object with an `error` string or a `success` flag |

## Left out

- `api/create-pix.js`, the BlackCat handler: it forwards the body unchanged and relays the provider's status and body, and its gating repeats the one modelled here with a different message; api/create-pix.js is not part of this model.
- The CORS headers (api/create-pix-payevo.js:3-9): constant response headers with no logic.
- The environment lookup of the secret: it is the `secret` parameter.
- `console.error` logging in the `catch` block: diagnostic output only.
- The `fetch` call and `externalResponse.json()`: the provider is a parameter of `Handler.Handle`, and its answer is either a status with a parsed value or a failure.
- The Basic authentication token `Buffer.from(secretKey).toString('base64')`: the model records the raw secret in the outbound call, not its base64 encoding (section 4 of RFC 4648).
- `JSON.stringify`: the payload and the response bodies are modelled as the JavaScript objects before serialisation. Member order is not modelled (objects are maps), and neither is the dropping of `undefined` members (for example a missing `amount` or `unitPrice`).
- Js.Get: models own-property lookup only. This is exact for the names the handler reads, none of which is `length`, an index, or an inherited property. It does not model reading arbitrary inherited names.
- JavaScript numbers are modelled as exact reals. No arithmetic is performed on them, and `NaN` cannot come out of JSON. String indexing by UTF-16 code unit is modelled as indexing by character.
