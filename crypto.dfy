/** The two foreign libraries the account layer calls: bcryptjs for password
    digests and jsonwebtoken for session tokens. Their internals are not part of
    this model; each is an oracle record handed to the code that uses it, and a
    ghost predicate states what the model assumes of it. A small concrete
    instance of each shows that the assumptions can be met. */
module Crypto {
  import opened Wrappers
  import JsString

  /** The salt `bcrypt.genSalt(10)` draws at random; callers pass it in. */
  type Salt = nat

  /** `bcrypt.hash(plain, salt)` and `bcrypt.compare(plain, digest)`. */
  datatype PasswordHasher = PasswordHasher(
    hash: (string, Salt) -> string,
    compare: (string, string) -> bool)

  /** What the model relies on of bcrypt: a digest is never empty (bcrypt's
      are 60 characters long) and verifies against the plaintext it was made
      from, whatever the salt. */
  ghost predicate SoundHasher(h: PasswordHasher)
  {
    forall p, s :: h.hash(p, s) != "" && h.compare(p, h.hash(p, s))
  }

  /** The payload of a session token: the `{ id }` object passed to `jwt.sign`
      plus the `iat` and `exp` claims it adds, in seconds since the epoch. */
  datatype Claims = Claims(id: nat, iat: nat, exp: nat)

  /** `jwt.sign(claims, key)` and `jwt.verify(token, key)` at a given clock
      reading in seconds; `None` stands for every exception `verify` throws
      (bad signature, malformed token, expired token). */
  datatype TokenCodec = TokenCodec(
    sign: (Claims, string) -> string,
    verify: (string, string, nat) -> Option<Claims>)

  /** What the model relies on of jsonwebtoken: a signed token is a non-empty
      string without spaces (three base64url segments joined by dots); it
      verifies under the key it was signed with to its own claims exactly until
      its expiry (`verify` throws once the clock reaches `exp`). */
  ghost predicate SoundCodec(c: TokenCodec)
  {
    && (forall cl: Claims, key: string :: c.sign(cl, key) != "" && ' ' !in c.sign(cl, key))
    && (forall cl: Claims, key: string, now: nat ::
          c.verify(c.sign(cl, key), key, now) == if now < cl.exp then Some(cl) else None)
  }

  // ---------------------------------------------------------------------------
  // Witnesses: the assumptions above are satisfiable.

  function ToyHasher(): PasswordHasher
  {
    PasswordHasher((p, s) => "$toy$" + p, (p, d) => d == "$toy$" + p)
  }

  lemma ToyHasherSound()
    ensures SoundHasher(ToyHasher())
  {
  }

  function Unary(n: nat): (r: string)
    ensures |r| == n && '.' !in r
  {
    seq(n, _ => 'a')
  }

  predicate AllUnary(s: string)
  {
    forall i :: 0 <= i < |s| ==> s[i] == 'a'
  }

  /** Claims written in unary and separated by dots; the toy ignores the key. */
  function ToySign(cl: Claims, key: string): string
  {
    Unary(cl.id) + "." + Unary(cl.iat) + "." + Unary(cl.exp)
  }

  function ToyVerify(t: string, key: string, now: nat): Option<Claims>
  {
    var ps := JsString.Split(t, '.');
    if |ps| == 3 && AllUnary(ps[0]) && AllUnary(ps[1]) && AllUnary(ps[2]) && now < |ps[2]|
    then Some(Claims(|ps[0]|, |ps[1]|, |ps[2]|))
    else None
  }

  function ToyCodec(): TokenCodec
  {
    TokenCodec(ToySign, ToyVerify)
  }

  lemma {:induction false} ToySignSplits(cl: Claims, key: string)
    ensures JsString.Split(ToySign(cl, key), '.') == [Unary(cl.id), Unary(cl.iat), Unary(cl.exp)]
  {
    var a, b, c := Unary(cl.id), Unary(cl.iat), Unary(cl.exp);
    assert ToySign(cl, key) == a + ['.'] + (b + ['.'] + c);
    JsString.SplitNoSeparator(c, '.');
    JsString.SplitFirst(b, c, '.');
    JsString.SplitFirst(a, b + ['.'] + c, '.');
  }

  lemma ToyCodecSound()
    ensures SoundCodec(ToyCodec())
  {
    forall cl: Claims, key: string, now: nat
      ensures ToyVerify(ToySign(cl, key), key, now) == if now < cl.exp then Some(cl) else None
    {
      ToySignSplits(cl, key);
    }
    forall cl: Claims, key: string
      ensures ToySign(cl, key) != "" && ' ' !in ToySign(cl, key)
    {
      assert ToySign(cl, key)[|Unary(cl.id)|] == '.';
    }
  }
}
