/** The AS5 engine (internal/crypto/as5_engine.go) over symbolic terms: a compact JWE is a term that
    names its algorithms, its recipient key and its content, a compact JWS one that names its signer. */
module Crypto {
  import opened Basics

  const ALG_RSA_OAEP := "RSA-OAEP"
  const ALG_RSA_OAEP_256 := "RSA-OAEP-256"
  const SIG_RS256 := "RS256"
  const ENC_A256GCM := "A256GCM"

  /** An RSA key pair; its public and its private half go by the same name. */
  type KeyId = nat

  datatype KeyMaterial = Rsa(id: KeyId) | OtherKey(kind: string)

  datatype Jwk = Jwk(key: KeyMaterial, kid: string, alg: string, use: string)

  /** The cached JWKS column of a partner: empty, not decodable, or a key set. */
  datatype JwksText = NoJwks | MalformedJwks | KeySet(keys: seq<Jwk>)

  datatype Jws = Jws(alg: string, signer: KeyId, payload: Doc) | NotJws(text: string)

  datatype Cipher = Jwe(alg: string, enc: string, recipient: KeyId, content: Jws) | NotJwe(text: string)

  datatype OpenError = ParseJwe | DecryptJwe | ParseJws | VerifyJws

  /** Maps a wire name to the algorithm the encrypter is given; unknown names are refused. */
  function JoseKeyAlgorithm(alg: string): Result<string, string> {
    if alg == "" || alg == ALG_RSA_OAEP then Ok(ALG_RSA_OAEP)
    else if alg == ALG_RSA_OAEP_256 then Ok(ALG_RSA_OAEP_256)
    else Err("unsupported encryption algorithm")
  }

  /** The key-encryption algorithms decryption accepts. */
  predicate AcceptedKeyAlgorithm(alg: string) {
    alg == ALG_RSA_OAEP || alg == ALG_RSA_OAEP_256
  }

  datatype Engine = Engine(key: KeyId) {

    function SignAndEncryptWithAlg(payload: Doc, receiver: KeyId, alg: string): Result<Cipher, string> {
      match JoseKeyAlgorithm(alg)
      case Err(e) => Err(e)
      case Ok(keyAlg) => Ok(Jwe(keyAlg, ENC_A256GCM, receiver, Jws(SIG_RS256, key, payload)))
    }

    function DecryptAndVerify(c: Cipher, sender: KeyId): Result<Doc, OpenError> {
      if !c.Jwe? || !AcceptedKeyAlgorithm(c.alg) || c.enc != ENC_A256GCM then Err(ParseJwe)
      else if c.recipient != key then Err(DecryptJwe)
      else if !c.content.Jws? || c.content.alg != SIG_RS256 then Err(ParseJws)
      else if c.content.signer != sender then Err(VerifyJws)
      else Ok(c.content.payload)
    }

    /** The same RSA key published twice, once for signatures and once for encryption. */
    function ExportJwks(base: string): JwksText {
      KeySet([Jwk(Rsa(key), base + "-sig", SIG_RS256, "sig"), Jwk(Rsa(key), base + "-enc", ALG_RSA_OAEP, "enc")])
    }
  }

  /** The first RSA key of the list, restricted to one `use` when asked. */
  function FirstRsa(keys: seq<Jwk>, use: Option<string>): Option<KeyId> {
    if keys == [] then None
    else if keys[0].key.Rsa? && (use.None? || keys[0].use == use.value) then Some(keys[0].key.id)
    else FirstRsa(keys[1..], use)
  }

  function PublicKeyByUse(jwks: JwksText, use: string): Result<KeyId, string> {
    if !jwks.KeySet? then Err("failed to unmarshal JWKS")
    else
      match FirstRsa(jwks.keys, Some(use))
      case Some(k) => Ok(k)
      case None =>
        match FirstRsa(jwks.keys, None)
        case Some(k) => Ok(k)
        case None => Err("no RSA public key found in JWKS")
  }

  /** The key search answers with the first match, and only gives up when no key matches. */
  lemma {:induction false} FirstRsaIsFirst(keys: seq<Jwk>, use: Option<string>)
    ensures FirstRsa(keys, use).None? <==>
            forall k :: 0 <= k < |keys| ==> !(keys[k].key.Rsa? && (use.None? || keys[k].use == use.value))
    ensures FirstRsa(keys, use).Some? ==>
              exists k :: 0 <= k < |keys|
                && keys[k].key == Rsa(FirstRsa(keys, use).value) && (use.None? || keys[k].use == use.value)
                && forall l :: 0 <= l < k ==> !(keys[l].key.Rsa? && (use.None? || keys[l].use == use.value))
  {
    if keys == [] {
    } else {
      if keys[0].key.Rsa? && (use.None? || keys[0].use == use.value) {
      } else {
        FirstRsaIsFirst(keys[1..], use);
        var r := FirstRsa(keys[1..], use);
        if r.Some? {
          var k :| 0 <= k < |keys[1..]|
            && keys[1..][k].key == Rsa(r.value) && (use.None? || keys[1..][k].use == use.value)
            && forall l :: 0 <= l < k ==> !(keys[1..][l].key.Rsa? && (use.None? || keys[1..][l].use == use.value));
          assert keys[k + 1] == keys[1..][k];
          forall l | 0 <= l < k + 1
            ensures !(keys[l].key.Rsa? && (use.None? || keys[l].use == use.value))
          {
            if l > 0 {
              assert keys[l] == keys[1..][l - 1];
            }
          }
        } else {
          forall k | 0 <= k < |keys|
            ensures !(keys[k].key.Rsa? && (use.None? || keys[k].use == use.value))
          {
            if k > 0 {
              assert keys[k] == keys[1..][k - 1];
            }
          }
        }
      }
    }
  }

  predicate HasUse(j: Jwk, use: string) {
    j.key.Rsa? && j.use == use
  }

  /** The i-th key is the first RSA key published for the use, or else, if no RSA key is published for it, the
      first RSA key of all. */
  predicate OffersAt(keys: seq<Jwk>, use: string, i: nat)
    requires i < |keys|
  {
    if HasUse(keys[i], use) then forall j :: 0 <= j < i ==> !HasUse(keys[j], use)
    else
      && keys[i].key.Rsa?
      && (forall j :: 0 <= j < |keys| ==> !HasUse(keys[j], use))
      && (forall j :: 0 <= j < i ==> !keys[j].key.Rsa?)
  }

  /** The key a set offers for a use, by its position. */
  predicate KeyFor(jwks: JwksText, use: string, k: KeyId) {
    jwks.KeySet? && exists i :: 0 <= i < |jwks.keys| && jwks.keys[i].key == Rsa(k) && OffersAt(jwks.keys, use, i)
  }

  /** The key search finds the key a set offers for the use, and fails exactly on a text that is no key set
      and on a set without RSA keys. */
  lemma PublicKeyByUseExactly(jwks: JwksText, use: string, k: KeyId)
    ensures PublicKeyByUse(jwks, use) == Ok(k) <==> KeyFor(jwks, use, k)
    ensures PublicKeyByUse(jwks, use).Err?
       <==> !jwks.KeySet? || forall i :: 0 <= i < |jwks.keys| ==> !jwks.keys[i].key.Rsa?
  {
    if jwks.KeySet? {
      FirstRsaIsFirst(jwks.keys, Some(use));
      FirstRsaIsFirst(jwks.keys, None);
      hide FirstRsa;
    }
  }

  /** A set offers one key for a use at most. */
  lemma KeyForIsUnique(jwks: JwksText, use: string, k: KeyId, l: KeyId)
    requires KeyFor(jwks, use, k) && KeyFor(jwks, use, l)
    ensures k == l
  {
    PublicKeyByUseExactly(jwks, use, k);
    PublicKeyByUseExactly(jwks, use, l);
  }

  function Negotiate(ours: seq<string>, theirs: seq<string>): Result<string, string> {
    if theirs == [] then
      if ALG_RSA_OAEP in ours then Ok(ALG_RSA_OAEP) else Err("local node does not support RSA-OAEP")
    else if ALG_RSA_OAEP_256 in ours && ALG_RSA_OAEP_256 in theirs then Ok(ALG_RSA_OAEP_256)
    else if ALG_RSA_OAEP in ours && ALG_RSA_OAEP in theirs then Ok(ALG_RSA_OAEP)
    else Err("no mutually supported encryption algorithm")
  }

  const LOCAL_ALGORITHMS: seq<string> := [ALG_RSA_OAEP, ALG_RSA_OAEP_256]
}
