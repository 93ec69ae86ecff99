/**
 * bcrypt, modelled symbolically. A digest records the random salt that
 * `bcrypt.hash(password, 10)` draws and the part of the password bcrypt
 * reads: its first 72 characters. Nothing in the model reads the password
 * back out except `Compare`, which is what `bcrypt.compare` decides.
 */
module Bcrypt {

  /** bcrypt's key schedule takes at most this many bytes of the password. */
  const MAX_KEY_LENGTH := 72

  datatype Digest = Bcrypt(salt: nat, key: string)

  /** The part of a password bcrypt hashes; whatever follows it is ignored. */
  function Significant(password: string): (s: string)
    ensures |s| <= MAX_KEY_LENGTH
    ensures s <= password
    ensures |password| <= MAX_KEY_LENGTH ==> s == password
    ensures |password| > MAX_KEY_LENGTH ==> |s| == MAX_KEY_LENGTH
  {
    if |password| <= MAX_KEY_LENGTH then password else password[..MAX_KEY_LENGTH]
  }

  /**
   * `bcrypt.hash(password, 10)` with the salt it draws passed in: the digest
   * matches exactly the passwords that agree with this one in their first
   * 72 characters.
   */
  function Hash(password: string, salt: nat): (d: Digest)
    ensures Compare(password, d)
    ensures forall other :: Compare(other, d) <==> Significant(other) == Significant(password)
  {
    Bcrypt(salt, Significant(password))
  }

  /** `bcrypt.compare(password, digest)`. */
  predicate Compare(password: string, digest: Digest) {
    digest.key == Significant(password)
  }

  /** Two passwords that share their first 72 characters match each other's digest. */
  lemma LongPasswordsCollide(p: string, q: string, salt: nat)
    requires |p| >= MAX_KEY_LENGTH && |q| >= MAX_KEY_LENGTH && p[..MAX_KEY_LENGTH] == q[..MAX_KEY_LENGTH]
    ensures Compare(q, Hash(p, salt))
  {
  }
}
