/** The password hasher (bcrypt's genSalt / hash / compare), reduced to an
    ideal salted digest: a digest remembers the salt it was made with and
    verifies exactly the secret it was made from. */
module Hashing {

  /** The cost factor the resolver passes to genSalt. */
  const CostFactor: nat := 10

  /** A salt: its cost factor and the random part, which the caller supplies. */
  datatype Salt = Salt(rounds: nat, nonce: nat)

  /** A stored password hash. */
  datatype Digest = Digest(salt: Salt, secret: string)

  /** genSalt(CostFactor), with the randomness passed in. */
  function GenerateSalt(nonce: nat): (salt: Salt)
    ensures salt.rounds == CostFactor
  {
    Salt(CostFactor, nonce)
  }

  /** compare(candidate, digest): does the candidate verify against the digest? */
  predicate Matches(candidate: string, d: Digest)
  {
    candidate == d.secret
  }

  /** hash(secret, salt). A digest verifies its own secret and no other. */
  function Hash(secret: string, salt: Salt): (d: Digest)
    ensures forall candidate :: Matches(candidate, d) <==> candidate == secret
    ensures d.salt == salt
  {
    Digest(salt, secret)
  }
}
