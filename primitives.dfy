/** The cryptographic and encoding functions the gateway calls but does not define.
    They are left uninterpreted: each is a field of `Primitives`, so every statement
    about the gateway holds for whatever functions PHP and WordPress provide. */
module Primitives {
  import opened Php

  datatype Option<+T> = None | Some(value: T)

  datatype Primitives = Primitives(
    /** `hash('sha256', $data, true)`: the raw digest. */
    sha256: string -> string,
    /** `hash_hmac('sha256', $data, $key, true)`: the raw MAC of `$data` under `$key`. */
    hmacSha256: (string, string) -> string,
    /** `base64_encode($s)`. */
    base64Encode: string -> string,
    /** `base64_decode($s, true)`: `None` where PHP returns false. */
    base64DecodeStrict: string -> Option<string>,
    /** `wp_json_encode($v)`. */
    jsonEncode: Value -> string,
    /** `json_decode($s, true)`: `Null` where PHP returns null (invalid JSON included). */
    jsonDecode: string -> Value)

  /** Decoding what was encoded gives the value back. The gateway depends on this when a
      response stored in the order's metadata is read again after the issuer redirect. */
  ghost predicate JsonRoundTrips(prims: Primitives, v: Value) {
    prims.jsonDecode(prims.jsonEncode(v)) == v
  }

  /** PHP's `json_decode('')` is null: an order meta that was never written reads as ""
      and decodes to nothing. */
  ghost predicate DecodesEmptyToNull(prims: Primitives) {
    prims.jsonDecode("") == Null
  }
}
