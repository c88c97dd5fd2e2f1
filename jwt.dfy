/**
  src/api/helpers/jwt.ts: signJwt(payload, options) and verifyJwt(token),
  both with the access-token key pair. RS256 signing lives inside
  jsonwebtoken, so both directions are a `Codec` the callers pass in.
 */
module Jwt {
  import opened Wrappers

  /** The `options` argument of signJwt as the call sites pass it. */
  datatype SignArg =
    | ExpiresIn(text: string)  // { expiresIn: text }
    | KeyName(name: string)    // a key name passed where the helper expects its options

  /**
    jsonwebtoken with the configured keys: `sign` makes a token whose `sub`
    is the given id; `verify` gives the `sub` of a token it accepts, and None
    for a malformed, forged or expired one.
   */
  datatype Codec = Codec(sign: (string, SignArg) -> string, verify: string -> Option<string>)

  /** A codec whose tokens are never empty and are accepted with their subject. */
  ghost predicate RoundTrips(codec: Codec) {
    forall sub, options :: codec.sign(sub, options) != "" && codec.verify(codec.sign(sub, options)) == Some(sub)
  }

  /** signJwt: a token for `sub` that a round-tripping codec accepts with that subject. */
  function SignJwt(codec: Codec, sub: string, options: SignArg): (r: string)
    ensures RoundTrips(codec) ==> r != "" && codec.verify(r) == Some(sub)
  {
    codec.sign(sub, options)
  }

  /**
    verifyJwt: the decoded subject, or None. A missing or empty token is
    rejected too, because jwt.verify throws "jwt must be provided" on a falsy
    token and the helper turns every throw into null.
   */
  function VerifyJwt(codec: Codec, token: Option<string>): (r: Option<string>)
    ensures token.None? || token == Some("") ==> r.None?
  {
    if token.None? || token.value == "" then None else codec.verify(token.value)
  }

  /** What signJwt makes, verifyJwt accepts with the same subject, whatever the options. */
  lemma SignThenVerify(codec: Codec, sub: string, options: SignArg)
    requires RoundTrips(codec)
    ensures VerifyJwt(codec, Some(SignJwt(codec, sub, options))) == Some(sub)
  {
  }
}
