/** Webhook authenticity: the store signs the raw request body with the
    shared secret (HMAC-SHA256, base64-encoded) and sends the result in the
    `X-Shopify-Hmac-Sha256` header. The keyed digest is a foreign library
    call, so it enters the model as the parameter `sign`. */
module Signature {
  import opened Search

  /** `sign(secret, rawBody)` is base64(HMAC-SHA256(secret, rawBody)). */
  type Signer = (string, string) -> string

  /** Both revisions reject a missing or empty (falsy) header, and otherwise
      accept exactly when the recomputed digest equals the header string. */
  function Authentic(header: Option<string>, secret: string, rawBody: string, sign: Signer): (ok: bool)
    ensures ok <==> header.Some? && header.value != "" && header.value == sign(secret, rawBody)
  {
    match header
    case None => false
    case Some(h) => h != "" && sign(secret, rawBody) == h
  }

  /** A body delivered with the header the store computed for it is accepted. */
  lemma SignedBodyAccepted(secret: string, rawBody: string, sign: Signer)
    requires sign(secret, rawBody) != ""
    ensures Authentic(Some(sign(secret, rawBody)), secret, rawBody, sign)
  {
  }

  /** A body altered after signing is rejected unless its digest collides
      with the original one. */
  lemma AlteredBodyRejected(secret: string, signed: string, delivered: string, sign: Signer)
    requires sign(secret, delivered) != sign(secret, signed)
    ensures !Authentic(Some(sign(secret, signed)), secret, delivered, sign)
  {
  }
}
