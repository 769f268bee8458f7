/** The cryptographic primitives the ledger calls into. They are foreign code (SHA-256 from
    FIPS 180-4, RSASSA-PSS from section 8.1 of RFC 8017, PEM encoding of a public key, and
    `json.dumps(..., sort_keys=True)` as the canonical serialisation), so they are modelled as
    uninterpreted functions carried in a `Suite`, about which only `Sound` is assumed. */
module Crypto {
  import opened PyJson

  /** An RSA private key, identified by an opaque number; its public half is derived from it. */
  type PrivateKey = nat

  datatype Suite = Suite(
    /** `hashlib.sha256(text.encode()).hexdigest()` */
    sha256Hex: string -> string,
    /** `json.dumps(value, sort_keys=True)` */
    canonicalJson: Json -> string,
    /** the SubjectPublicKeyInfo PEM text of the key's public half */
    publicPem: PrivateKey -> string,
    /** RSASSA-PSS signature of a message, as hex text */
    sign: (PrivateKey, string) -> string,
    /** `verify(pem, message, signatureHex)`: false wherever the library raises */
    verify: (string, string, string) -> bool)

  /** What the ledger relies on: a hex digest is 64 characters long, and a signature made with
      a key verifies against that key's public PEM. */
  ghost predicate Sound(cs: Suite)
  {
    && (forall text :: |cs.sha256Hex(text)| == 64)
    && (forall k, m :: cs.verify(cs.publicPem(k), m, cs.sign(k, m)))
  }
}
