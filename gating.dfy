/** The checks the handler makes before it touches the request body: the
    CORS preflight, the HTTP method, and the presence of the provider secret. */
module Gating {
  import opened Js
  import opened Http

  const MethodNotAllowedMessage := "Method Not Allowed"
  const MissingSecretMessage := "Server misconfiguration: PayEvo API Key missing"

  datatype Gate =
    | Preflight        // `OPTIONS`: answered before anything else
    | NotAllowed       // any other method that is not `POST`
    | MissingSecret    // `POST`, but the secret is absent or empty
    | Proceed(secretKey: string)

  /** The ordered decision: preflight first, then the method, then the
      secret, which is read from the environment only for a `POST`. An
      empty secret is falsy and counts as missing. */
  function Decide(verb: string, secret: Option<string>): (g: Gate)
    ensures g.Preflight? <==> verb == "OPTIONS"
    ensures g.NotAllowed? <==> verb != "OPTIONS" && verb != "POST"
    ensures g.MissingSecret? <==> verb == "POST" && (secret.None? || secret.value == "")
    ensures g.Proceed? <==> verb == "POST" && secret.Some? && secret.value != ""
    ensures g.Proceed? ==> secret == Some(g.secretKey)
  {
    if verb == "OPTIONS" then Preflight
    else if verb != "POST" then NotAllowed
    else match secret
      case None => MissingSecret
      case Some(key) => if key == "" then MissingSecret else Proceed(key)
  }

  /** The response sent when the decision stops the request. */
  function Refusal(g: Gate): (r: Response)
    requires !g.Proceed?
    ensures g.Preflight? ==> r == Response(200, Empty)
    ensures g.NotAllowed? ==> r == Response(405, Json(ErrorObject(MethodNotAllowedMessage)))
    ensures g.MissingSecret? ==> r == Response(500, Json(ErrorObject(MissingSecretMessage)))
  {
    match g
    case Preflight => Response(200, Empty)
    case NotAllowed => Response(405, Json(ErrorObject(MethodNotAllowedMessage)))
    case MissingSecret => Response(500, Json(ErrorObject(MissingSecretMessage)))
  }

  /** A preflight is answered with 200 and no body whatever the secret is. */
  lemma PreflightIgnoresSecret(secret: Option<string>)
    ensures Decide("OPTIONS", secret) == Preflight
    ensures Refusal(Decide("OPTIONS", secret)) == Response(200, Empty)
  {
  }

  /** Only a `POST` with a non-empty secret gets past the gate, and every
      refusal but the preflight is an error status with an `error` message. */
  lemma RefusalsAreErrors(verb: string, secret: Option<string>)
    requires !Decide(verb, secret).Proceed?
    ensures verb != "OPTIONS" ==>
      var r := Refusal(Decide(verb, secret));
      r.status >= 400 && r.body.Json? && Get(r.body.value, "error").Str?
  {
  }
}
