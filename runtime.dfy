/**
 * The library and platform calls the core makes but does not implement, as the fields of one
 * value: `JSON.parse`, Node's `Buffer` base64url decoding, the browser's `atob`,
 * `crypto.createPublicKey`, the parts of `jsonwebtoken` that decode a token and check its
 * signature, the UTF-8 percent-encoding of non-ASCII characters done by `URLSearchParams`
 * and `encodeURIComponent`, and JavaScript's string-to-number conversion. Every operation
 * that calls one of them takes the `Platform` as a parameter, so each property proved below
 * holds for every implementation of these calls.
 */
module Runtime {
  import opened Wrappers
  import opened JsonValues

  /** A public key built by `crypto.createPublicKey` from an RSA JWK's modulus and exponent. */
  datatype PublicKey = RsaPublicKey(n: string, e: string)

  /**
   * What `jsonwebtoken` reads from a token before checking it: the header's `alg` and the
   * payload object. (A payload that is not an object can never carry the `iss` claim this core
   * demands, so the decoder is taken to refuse it.)
   */
  datatype DecodedJwt = DecodedJwt(alg: string, payload: map<string, Json>)

  datatype Platform = Platform(
    /** `JSON.parse`; `None` when it throws. */
    jsonParse: string -> Option<Json>,
    /** `Buffer.from(s, 'base64url').toString('utf8')`, which never throws. */
    base64UrlToText: string -> string,
    /** `atob`; `None` when it throws on a character outside the base64 alphabet. */
    atob: string -> Option<string>,
    /** Whether `crypto.createPublicKey` accepts this RSA modulus and exponent (it throws otherwise). */
    importRsa: (string, string) -> bool,
    /** The decoding step of `jwt.verify`; `None` for a malformed token. */
    decodeJwt: string -> Option<DecodedJwt>,
    /** The signature check of `jwt.verify` for a token under a key. */
    signatureValid: (string, PublicKey) -> bool,
    /** The `%XX` UTF-8 percent-encoding of one non-ASCII character. */
    percentEncodeNonAscii: char -> string,
    /** `Number(v)` for a string or an array (which converts through its string form); `None` for `NaN`. */
    numberOf: Json -> Option<real>
  )
}
