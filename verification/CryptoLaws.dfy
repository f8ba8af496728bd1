/** What negotiation, key choice and the engine promise together: the agreed algorithm depends on
    the two capability sets only, and a document sealed with published keys opens at the peer. */
module CryptoLaws {
  import opened Basics
  import opened Crypto

  /** The security block of an AS5 discovery document (internal/discovery/as5_config.go). */
  datatype As5Security = As5Security(encryptionAlgorithm: string, supported: seq<string>)

  /** What this node advertises. */
  const OWN_SECURITY := As5Security("RSA-OAEP", ["RSA-OAEP", "RSA-OAEP-256"])

  /** The newer list wins, the single legacy field is wrapped, and silence stays silence. */
  function ResolveSupported(cfg: Option<As5Security>): seq<string> {
    match cfg
    case None => []
    case Some(s) =>
      if s.supported != [] then s.supported
      else if s.encryptionAlgorithm != "" then [s.encryptionAlgorithm]
      else []
  }

  /** Strength of the algorithms the protocol knows; anything else has none. */
  function Rank(alg: string): nat {
    if alg == ALG_RSA_OAEP_256 then 2 else if alg == ALG_RSA_OAEP then 1 else 0
  }

  function Names(list: seq<string>): set<string> {
    set a | a in list
  }

  /** a is a known algorithm of the set and no member is stronger. */
  ghost predicate Strongest(a: string, common: set<string>) {
    a in common && Rank(a) > 0 && forall b :: b in common ==> Rank(b) <= Rank(a)
  }

  /** Negotiation answers exactly with the strongest known common algorithm, so it fails exactly
      when nothing known is shared; a silent peer is taken to speak RSA-OAEP. */
  lemma NegotiationFindsStrongest(ours: seq<string>, theirs: seq<string>, a: string)
    ensures theirs != [] ==> (Negotiate(ours, theirs) == Ok(a) <==> Strongest(a, Names(ours) * Names(theirs)))
    ensures theirs != [] ==>
              (Negotiate(ours, theirs).Err? <==> forall b :: b in Names(ours) * Names(theirs) ==> Rank(b) == 0)
    ensures theirs == [] ==> (Negotiate(ours, theirs) == Ok(a) <==> a == ALG_RSA_OAEP && a in Names(ours))
  {
    var common := Names(ours) * Names(theirs);
    assert ALG_RSA_OAEP in common <==> ALG_RSA_OAEP in ours && ALG_RSA_OAEP in theirs;
    assert ALG_RSA_OAEP_256 in common <==> ALG_RSA_OAEP_256 in ours && ALG_RSA_OAEP_256 in theirs;
    assert Rank(ALG_RSA_OAEP) == 1 && Rank(ALG_RSA_OAEP_256) == 2;
  }

  /** Order and repetition in either list do not matter. */
  lemma NegotiationIgnoresOrder(ours: seq<string>, theirs: seq<string>, ours': seq<string>, theirs': seq<string>)
    requires Names(ours) == Names(ours') && Names(theirs) == Names(theirs')
    ensures Negotiate(ours, theirs).Ok? == Negotiate(ours', theirs').Ok?
    ensures Negotiate(ours, theirs).Ok? ==> Negotiate(ours, theirs) == Negotiate(ours', theirs')
  {
    forall a ensures a in ours <==> a in ours' {
      assert a in Names(ours) <==> a in Names(ours');
    }
    forall a ensures a in theirs <==> a in theirs' {
      assert a in Names(theirs) <==> a in Names(theirs');
    }
    if theirs != [] {
      assert theirs[0] in theirs';
    }
    if theirs' != [] {
      assert theirs'[0] in theirs;
    }
  }

  /** Both ends agree on the outcome, except for a silent end facing one that speaks RSA-OAEP. */
  lemma NegotiationSymmetricExactly(a: seq<string>, b: seq<string>)
    ensures (Negotiate(a, b).Ok? == Negotiate(b, a).Ok? && (Negotiate(a, b).Ok? ==> Negotiate(a, b) == Negotiate(b, a)))
       <==> ((a != [] && b != []) || (ALG_RSA_OAEP !in a && ALG_RSA_OAEP !in b))
  {
    if a == [] && b != [] {
      assert Negotiate(a, b).Err?;
    }
    if a != [] && b == [] {
      assert Negotiate(b, a).Err?;
    }
  }

  /** A peer that advertises something and later advertises more never ends up weaker. */
  lemma GrowingPeerNeverWeakens(ours: seq<string>, theirs: seq<string>, more: seq<string>)
    requires theirs != [] && Names(theirs) <= Names(more)
    ensures Negotiate(ours, theirs).Ok? ==>
              Negotiate(ours, more).Ok? && Rank(Negotiate(ours, theirs).value) <= Rank(Negotiate(ours, more).value)
  {
    forall x | x in theirs ensures x in more {
      assert x in Names(theirs);
    }
    assert theirs[0] in more;
  }

  /** Sealing succeeds exactly under the two known names, the empty one standing for RSA-OAEP, and gives a JWE
      under that very name, for the receiver, around a JWS that this engine signed over the payload. */
  lemma SealsExactly(e: Engine, payload: Doc, receiver: KeyId, alg: string, c: Cipher)
    ensures e.SignAndEncryptWithAlg(payload, receiver, alg) == Ok(c)
       <==> (alg == "" || alg == "RSA-OAEP" || alg == "RSA-OAEP-256")
            && c == Jwe(if alg == "" then "RSA-OAEP" else alg, "A256GCM", receiver, Jws("RS256", e.key, payload))
    ensures e.SignAndEncryptWithAlg(payload, receiver, alg).Err?
       <==> alg != "" && alg != "RSA-OAEP" && alg != "RSA-OAEP-256"
  {
  }

  /** A JWE for this key, under an algorithm that decryption accepts. */
  predicate ForKey(c: Cipher, key: KeyId) {
    c.Jwe? && (c.alg == "RSA-OAEP" || c.alg == "RSA-OAEP-256") && c.enc == "A256GCM" && c.recipient == key
  }

  /** Opening succeeds with p exactly on a JWE for our key, under an accepted algorithm, around a
      JWS that the expected sender signed over p. */
  lemma OpensExactly(e: Engine, c: Cipher, sender: KeyId, p: Doc)
    ensures e.DecryptAndVerify(c, sender) == Ok(p) <==> ForKey(c, e.key) && c.content == Jws("RS256", sender, p)
    ensures e.DecryptAndVerify(c, sender) == Err(VerifyJws)
       <==> ForKey(c, e.key) && c.content.Jws? && c.content.alg == "RS256" && c.content.signer != sender
    ensures e.DecryptAndVerify(c, sender) == Err(ParseJws)
       <==> ForKey(c, e.key) && !(c.content.Jws? && c.content.alg == "RS256")
    ensures e.DecryptAndVerify(c, sender) == Err(DecryptJwe)
       <==> c.Jwe? && ForKey(c, c.recipient) && c.recipient != e.key
    ensures e.DecryptAndVerify(c, sender) == Err(ParseJwe) <==> !(c.Jwe? && ForKey(c, c.recipient))
  {
  }

  /** The published set labels its two keys as what they are for, and holds no other. */
  lemma ExportIsLabelled(e: Engine, base: string, use: string)
    requires use == "sig" || use == "enc"
    ensures var jwks := e.ExportJwks(base);
            && jwks.KeySet? && |jwks.keys| == 2
            && exists i :: 0 <= i < 2 && jwks.keys[i].use == use && jwks.keys[i].key == Rsa(e.key)
                 && jwks.keys[i].kid == base + "-" + use
                 && jwks.keys[i].alg == if use == "sig" then "RS256" else "RSA-OAEP"
  {
    var keys := e.ExportJwks(base).keys;
    assert keys[0].kid == base + "-sig" == base + "-" + "sig";
    assert keys[1].kid == base + "-enc" == base + "-" + "enc";
  }

  /** The key found by `use` in an exported set is the exporter's own. */
  lemma ExportedKeyByUse(e: Engine, base: string, use: string)
    ensures PublicKeyByUse(e.ExportJwks(base), use) == Ok(e.key)
  {
    var keys := e.ExportJwks(base).keys;
    assert FirstRsa(keys, None) == Some(e.key);
    if use == "sig" {
      assert FirstRsa(keys, Some(use)) == Some(e.key);
    } else {
      assert keys[1..] == [keys[1]] && keys[1..][1..] == [];
      assert FirstRsa(keys, Some(use)) == FirstRsa(keys[1..], Some(use));
      assert FirstRsa(keys[1..][1..], Some(use)) == None;
    }
  }

  /** The end-to-end round trip, for any two sets in which sender and receiver offer their keys by use, the same
      key for both uses or different ones, in whatever order and company: the keys are found, and if negotiation
      with the advertised list succeeds, the document comes back. With any other verification key, or at any
      other engine, the same cipher is refused. */
  lemma RoundTripThroughAnySets(
    sender: Engine, receiver: Engine, senderSet: JwksText, receiverSet: JwksText,
    advertised: seq<string>, payload: Doc, otherKey: KeyId, other: Engine)
    requires KeyFor(senderSet, "sig", sender.key) && KeyFor(receiverSet, "enc", receiver.key)
    requires Negotiate(LOCAL_ALGORITHMS, advertised).Ok?
    requires otherKey != sender.key && other.key != receiver.key
    ensures var alg := Negotiate(LOCAL_ALGORITHMS, advertised).value;
            && PublicKeyByUse(receiverSet, "enc") == Ok(receiver.key)
            && PublicKeyByUse(senderSet, "sig") == Ok(sender.key)
            && var c := sender.SignAndEncryptWithAlg(payload, receiver.key, alg);
               && c.Ok? && c.value.Jwe? && c.value.alg == alg
               && receiver.DecryptAndVerify(c.value, sender.key) == Ok(payload)
               && receiver.DecryptAndVerify(c.value, otherKey) == Err(VerifyJws)
               && other.DecryptAndVerify(c.value, sender.key) == Err(DecryptJwe)
  {
    PublicKeyByUseExactly(receiverSet, "enc", receiver.key);
    PublicKeyByUseExactly(senderSet, "sig", sender.key);
  }

  /** A partner that keeps two keys and publishes each for its use, in either order: neither is taken for the
      other. */
  lemma SplitKeysAreKeptApart(sig: KeyId, enc: KeyId, sigKid: string, encKid: string, sigFirst: bool)
    ensures var s, e := Jwk(Rsa(sig), sigKid, "RS256", "sig"), Jwk(Rsa(enc), encKid, "RSA-OAEP", "enc");
            var jwks := KeySet(if sigFirst then [s, e] else [e, s]);
            && KeyFor(jwks, "sig", sig) && KeyFor(jwks, "enc", enc)
            && PublicKeyByUse(jwks, "sig") == Ok(sig) && PublicKeyByUse(jwks, "enc") == Ok(enc)
  {
    var s, e := Jwk(Rsa(sig), sigKid, "RS256", "sig"), Jwk(Rsa(enc), encKid, "RSA-OAEP", "enc");
    var keys := if sigFirst then [s, e] else [e, s];
    var i := if sigFirst then 0 else 1;
    assert keys[i] == s && keys[1 - i] == e;
    assert OffersAt(keys, "sig", i) && OffersAt(keys, "enc", 1 - i);
    PublicKeyByUseExactly(KeySet(keys), "sig", sig);
    PublicKeyByUseExactly(KeySet(keys), "enc", enc);
  }

  /** The same through the sets that two nodes publish themselves. */
  lemma RoundTripThroughPublishedKeys(
    sender: Engine, receiver: Engine, senderBase: string, receiverBase: string,
    advertised: seq<string>, payload: Doc, otherKey: KeyId, other: Engine)
    requires Negotiate(LOCAL_ALGORITHMS, advertised).Ok?
    requires otherKey != sender.key && other.key != receiver.key
    ensures var alg := Negotiate(LOCAL_ALGORITHMS, advertised).value;
            var encKey := PublicKeyByUse(receiver.ExportJwks(receiverBase), "enc");
            var sigKey := PublicKeyByUse(sender.ExportJwks(senderBase), "sig");
            && JoseKeyAlgorithm(alg).Ok? && AcceptedKeyAlgorithm(JoseKeyAlgorithm(alg).value)
            && encKey.Ok? && sigKey.Ok?
            && var c := sender.SignAndEncryptWithAlg(payload, encKey.value, alg);
               && c.Ok?
               && receiver.DecryptAndVerify(c.value, sigKey.value) == Ok(payload)
               && receiver.DecryptAndVerify(c.value, otherKey) == Err(VerifyJws)
               && other.DecryptAndVerify(c.value, sigKey.value) == Err(DecryptJwe)
  {
    ExportedKeyByUse(receiver, receiverBase, "enc");
    ExportedKeyByUse(sender, senderBase, "sig");
    PublicKeyByUseExactly(receiver.ExportJwks(receiverBase), "enc", receiver.key);
    PublicKeyByUseExactly(sender.ExportJwks(senderBase), "sig", sender.key);
    RoundTripThroughAnySets(sender, receiver, sender.ExportJwks(senderBase), receiver.ExportJwks(receiverBase),
                            advertised, payload, otherKey, other);
  }

  /** What a published document makes of this node's negotiation, for every document: the newer list
      decides if there is one, else the legacy field, and silence counts as RSA-OAEP. */
  lemma PublishedDocumentDecides(cfg: Option<As5Security>)
    ensures var outcome := Negotiate(LOCAL_ALGORITHMS, ResolveSupported(cfg));
            var listed := cfg.Some? && cfg.value.supported != [];
            var legacy := if cfg.Some? then cfg.value.encryptionAlgorithm else "";
            && (outcome == Ok(ALG_RSA_OAEP_256)
                <==> if listed then ALG_RSA_OAEP_256 in cfg.value.supported else legacy == ALG_RSA_OAEP_256)
            && (outcome == Ok(ALG_RSA_OAEP)
                <==> if listed then ALG_RSA_OAEP_256 !in cfg.value.supported && ALG_RSA_OAEP in cfg.value.supported
                     else legacy == "" || legacy == ALG_RSA_OAEP)
            && (outcome.Ok? ==> outcome.value == ALG_RSA_OAEP || outcome.value == ALG_RSA_OAEP_256)
  {
    assert LOCAL_ALGORITHMS[0] == ALG_RSA_OAEP && LOCAL_ALGORITHMS[1] == ALG_RSA_OAEP_256;
    if cfg.Some? && cfg.value.supported == [] && cfg.value.encryptionAlgorithm != "" {
      assert ResolveSupported(cfg)[0] == cfg.value.encryptionAlgorithm;
    }
  }

  /** Two nodes that publish what this one does agree on the stronger algorithm, and a peer that reads the legacy
      field alone finds RSA-OAEP there. */
  lemma OwnDocumentNegotiatesTheStrongest()
    ensures Negotiate(LOCAL_ALGORITHMS, ResolveSupported(Some(OWN_SECURITY))) == Ok("RSA-OAEP-256")
    ensures Negotiate([OWN_SECURITY.encryptionAlgorithm], OWN_SECURITY.supported) == Ok("RSA-OAEP")
  {
    assert OWN_SECURITY.supported[0] == ALG_RSA_OAEP && OWN_SECURITY.supported[1] == ALG_RSA_OAEP_256;
    assert [OWN_SECURITY.encryptionAlgorithm][0] == ALG_RSA_OAEP;
    PublishedDocumentDecides(Some(OWN_SECURITY));
  }
}
