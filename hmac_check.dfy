/** The request check `verifyShopifyRequest` of LMserver.js: the
    X-Shopify-Hmac-Sha256 header must be present and equal, as a string, to the
    base64 HMAC-SHA256 of the re-serialised body under the shared secret. The
    keyed hash is a parameter: the model does not compute it. The check is
    defined in LMserver.js but not attached to the proxy route, so it is kept
    apart from ProxyRoute.
 */
module HmacCheck {
  import opened JsValues

  datatype HmacError = HmacHeaderMissing | Unauthorized

  /** Either the request may go on to the route (`next()`), or it is answered
      with an error. */
  datatype Verdict = Proceed | Refuse(error: HmacError)
  {
    /** The status of the reply to a refused request. A request that
        proceeds gets no reply here (`next()`), so it has no status. */
    function Status(): (s: nat)
      requires Refuse?
      ensures s == 400 <==> error == HmacHeaderMissing
      ensures s == 401 <==> error == Unauthorized
    {
      match error
      case HmacHeaderMissing => 400
      case Unauthorized => 401
    }
  }

  /** `header` is the header's value if sent, `body` the serialised request
      body and `hmacBase64(secret, body)` the digest the server computes. */
  function Verify(header: Option<string>, secret: string, body: string,
                  hmacBase64: (string, string) -> string): (v: Verdict)
    ensures v == Proceed <==> header.Some? && header.value != "" && header.value == hmacBase64(secret, body)
    ensures v == Refuse(HmacHeaderMissing) <==> !Present(header)
    ensures v == Refuse(Unauthorized) <==> Present(header) && header.value != hmacBase64(secret, body)
    ensures v.Refuse? && v.Status() == 400 <==> !Present(header)
    ensures v.Refuse? && v.Status() == 401 <==> Present(header) && header.value != hmacBase64(secret, body)
  {
    if !Present(header) then Refuse(HmacHeaderMissing)
    else if hmacBase64(secret, body) != header.value then Refuse(Unauthorized)
    else Proceed
  }

  /** Assuming the digest of a changed body differs from the digest of the
      body a header was made for, the changed body is refused with 401. */
  lemma ChangedBodyRefused(header: Option<string>, secret: string, body1: string, body2: string,
                           hmacBase64: (string, string) -> string)
    requires Verify(header, secret, body1, hmacBase64) == Proceed
    requires hmacBase64(secret, body2) != hmacBase64(secret, body1)
    ensures Verify(header, secret, body2, hmacBase64) == Refuse(Unauthorized)
    ensures Verify(header, secret, body2, hmacBase64).Status() == 401
  {
  }
}
