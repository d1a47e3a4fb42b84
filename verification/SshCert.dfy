/**
  packages/n8n-nodes/src/sshCertParser.ts: OpenSSH Ed25519 user certificates. `Parse` says what
  parseSshUserCert returns or throws; `Serialize` is the layout it accepts.
 */
module SshCert {
  import opened BigEndian
  import opened Common
  import opened Options
  import opened SshWire

  /** "ssh-ed25519-cert-v01@openssh.com" */
  const CERT_ALGO: bytes :=
    [115, 115, 104, 45, 101, 100, 50, 53, 53, 49, 57, 45, 99, 101, 114, 116, 45, 118, 48, 49, 64, 111, 112, 101, 110,
      115, 115, 104, 46, 99, 111, 109]

  /** "ssh-ed25519" */
  const KEY_ALGO: bytes := [115, 115, 104, 45, 101, 100, 50, 53, 53, 49, 57]

  const CERT_TYPE_USER := 1

  datatype Head = Head(nonce: bytes, pubkey: bytes, serial: nat)

  datatype Grant = Grant(keyId: bytes, principals: seq<bytes>, validAfter: nat, validBefore: nat)

  datatype Terms = Terms(criticalOptions: seq<Opt>, extensions: seq<Opt>, reserved: bytes, signatureKey: bytes)

  /** A user certificate, field by field in the order of the wire. */
  datatype Cert = Cert(head: Head, grant: Grant, terms: Terms, signature: bytes)

  /** What parseSshUserCert returns. */
  datatype Parsed = Parsed(nonce: bytes, pubkey: bytes, serial: nat, keyId: bytes, principals: seq<bytes>,
                           validAfter: nat, validBefore: nat, criticalOptions: map<bytes, bytes>,
                           extensions: map<bytes, bytes>, signatureKey: bytes, tbs: bytes, signature: bytes)

  // ---------------------------------------------------------------- parsing

  function TakeHead(b: bytes): (r: Result<Taken<Head>>)
    ensures r.Ok? ==> |r.value.rest| <= |b|
  {
    var algo :- TakeString(b);
    if algo.value != CERT_ALGO then Err(UnsupportedAlgorithm)
    else
      var nonce :- TakeString(algo.rest);
      var pubkey :- TakeString(nonce.rest);
      if |pubkey.value| != 32 then Err(BadPubkeyLength)
      else
        var serial :- TakeUint(pubkey.rest, 8);
        var kind :- TakeUint(serial.rest, 4);
        if kind.value != CERT_TYPE_USER then Err(NotUserCert)
        else Ok(Taken(Head(nonce.value, pubkey.value, serial.value), kind.rest))
  }

  /** A string field holding a list of strings. */
  function TakeNames(b: bytes): (r: Result<Taken<seq<bytes>>>)
    ensures r.Ok? ==> |r.value.rest| <= |b|
  {
    var s :- TakeString(b);
    var names :- TakeList(s.value);
    Ok(Taken(names, s.rest))
  }

  /** A string field holding options. */
  function TakeOptions(b: bytes): (r: Result<Taken<seq<Opt>>>)
    ensures r.Ok? ==> |r.value.rest| <= |b|
  {
    var s :- TakeString(b);
    var opts :- TakePairs(s.value);
    Ok(Taken(opts, s.rest))
  }

  function TakeGrant(b: bytes): (r: Result<Taken<Grant>>)
    ensures r.Ok? ==> |r.value.rest| <= |b|
  {
    var keyId :- TakeString(b);
    var principals :- TakeNames(keyId.rest);
    var validAfter :- TakeUint(principals.rest, 8);
    var validBefore :- TakeUint(validAfter.rest, 8);
    Ok(Taken(Grant(keyId.value, principals.value, validAfter.value, validBefore.value), validBefore.rest))
  }

  function TakeTerms(b: bytes): (r: Result<Taken<Terms>>)
    ensures r.Ok? ==> |r.value.rest| <= |b|
  {
    var critical :- TakeOptions(b);
    var extensions :- TakeOptions(critical.rest);
    var reserved :- TakeString(extensions.rest);
    var signatureKey :- TakeString(reserved.rest);
    Ok(Taken(Terms(critical.value, extensions.value, reserved.value, signatureKey.value), signatureKey.rest))
  }

  /** The result for these fields, with the bytes signed over. */
  function Fields(c: Cert, tbs: bytes): Parsed {
    Parsed(c.head.nonce, c.head.pubkey, c.head.serial,
           c.grant.keyId, c.grant.principals, c.grant.validAfter, c.grant.validBefore,
           OptionMap(c.terms.criticalOptions), OptionMap(c.terms.extensions), c.terms.signatureKey, tbs, c.signature)
  }

  /** The fields the signature covers. */
  datatype Signed = Signed(head: Head, grant: Grant, terms: Terms)

  function TakeSigned(b: bytes): (r: Result<Taken<Signed>>)
    ensures r.Ok? ==> |r.value.rest| <= |b|
  {
    var head :- TakeHead(b);
    var grant :- TakeGrant(head.rest);
    var terms :- TakeTerms(grant.rest);
    Ok(Taken(Signed(head.value, grant.value, terms.value), terms.rest))
  }

  function Parse(blob: bytes): Result<Parsed> {
    var signed :- TakeSigned(blob);
    var signature :- TakeString(signed.rest);
    var tbsEnd := |blob| - |signed.rest|;
    Ok(Fields(Cert(signed.value.head, signed.value.grant, signed.value.terms, signature.value), blob[..tbsEnd]))
  }

  // ---------------------------------------------------------------- serialising

  predicate HeadFits(h: Head) { Fits(h.nonce) && |h.pubkey| == 32 && h.serial < Pow256(8) }

  predicate GrantFits(g: Grant) {
    && Fits(g.keyId) && g.validAfter < Pow256(8) && g.validBefore < Pow256(8)
    && AllFit(g.principals) && Fits(ListBytes(g.principals))
  }

  predicate TermsFit(t: Terms) {
    && Fits(t.reserved) && Fits(t.signatureKey)
    && OptsFit(t.criticalOptions) && Fits(PairBytes(t.criticalOptions))
    && OptsFit(t.extensions) && Fits(PairBytes(t.extensions))
  }

  /** Every length and number fits its field. */
  predicate CertFits(c: Cert) { HeadFits(c.head) && GrantFits(c.grant) && TermsFit(c.terms) && Fits(c.signature) }

  function HeadBytes(h: Head): bytes
    requires HeadFits(h)
  {
    Str(CERT_ALGO) + (Str(h.nonce) + (Str(h.pubkey) + (ToBE(h.serial, 8) + ToBE(CERT_TYPE_USER, 4))))
  }

  function GrantBytes(g: Grant): bytes
    requires GrantFits(g)
  {
    Str(g.keyId) + (Str(ListBytes(g.principals)) + (ToBE(g.validAfter, 8) + ToBE(g.validBefore, 8)))
  }

  function TermsBytes(t: Terms): bytes
    requires TermsFit(t)
  {
    Str(PairBytes(t.criticalOptions)) + (Str(PairBytes(t.extensions)) + (Str(t.reserved) + Str(t.signatureKey)))
  }

  /** The signed part: everything before the signature's length prefix. */
  function Tbs(c: Cert): bytes
    requires CertFits(c)
  {
    HeadBytes(c.head) + (GrantBytes(c.grant) + TermsBytes(c.terms))
  }

  function Serialize(c: Cert): bytes
    requires CertFits(c)
  {
    Tbs(c) + Str(c.signature)
  }

  // ---------------------------------------------------------------- serialise, then parse

  lemma Regroup4(a: bytes, b: bytes, c: bytes, d: bytes, e: bytes)
    ensures (a + (b + (c + d))) + e == a + (b + (c + (d + e)))
  {
    Regroup(a, b + (c + d), e);
    Regroup(b, c + d, e);
    Regroup(c, d, e);
  }

  lemma TakeHeadOf(h: Head, rest: bytes)
    requires HeadFits(h)
    ensures TakeHead(HeadBytes(h) + rest) == Ok(Taken(h, rest))
  {
    var kind := ToBE(CERT_TYPE_USER, 4) + rest;
    var serial := ToBE(h.serial, 8) + kind;
    var pubkey := Str(h.pubkey) + serial;
    var nonce := Str(h.nonce) + pubkey;
    Regroup4(Str(h.nonce), Str(h.pubkey), ToBE(h.serial, 8), ToBE(CERT_TYPE_USER, 4), rest);
    Regroup(Str(CERT_ALGO), Str(h.nonce) + (Str(h.pubkey) + (ToBE(h.serial, 8) + ToBE(CERT_TYPE_USER, 4))), rest);
    TakeStringOf(CERT_ALGO, nonce);
    TakeStringOf(h.nonce, pubkey);
    TakeStringOf(h.pubkey, serial);
    TakeUintOf(h.serial, 8, kind);
    TakeUintOf(CERT_TYPE_USER, 4, rest);
  }

  lemma TakeGrantOf(g: Grant, rest: bytes)
    requires GrantFits(g)
    ensures TakeGrant(GrantBytes(g) + rest) == Ok(Taken(g, rest))
  {
    var names := ListBytes(g.principals);
    var before := ToBE(g.validBefore, 8) + rest;
    var after := ToBE(g.validAfter, 8) + before;
    Regroup4(Str(g.keyId), Str(names), ToBE(g.validAfter, 8), ToBE(g.validBefore, 8), rest);
    TakeStringOf(g.keyId, Str(names) + after);
    TakeStringOf(names, after);
    TakeListOf(g.principals);
    TakeUintOf(g.validAfter, 8, before);
    TakeUintOf(g.validBefore, 8, rest);
  }

  lemma TakeTermsOf(t: Terms, rest: bytes)
    requires TermsFit(t)
    ensures TakeTerms(TermsBytes(t) + rest) == Ok(Taken(t, rest))
  {
    var critical, extensions := PairBytes(t.criticalOptions), PairBytes(t.extensions);
    var key := Str(t.signatureKey) + rest;
    var reserved := Str(t.reserved) + key;
    Regroup4(Str(critical), Str(extensions), Str(t.reserved), Str(t.signatureKey), rest);
    TakeStringOf(critical, Str(extensions) + reserved);
    TakePairsOf(t.criticalOptions);
    TakeStringOf(extensions, reserved);
    TakePairsOf(t.extensions);
    TakeStringOf(t.reserved, key);
    TakeStringOf(t.signatureKey, rest);
  }

  /**
    Whatever follows it, a serialised certificate parses to its own fields, and `tbs` is exactly the
    bytes before the signature's length prefix.
   */
  /** `b` spells `text` in ASCII. */
  predicate Spells(b: bytes, text: string) {
    |b| == |text| && forall i :: 0 <= i < |b| ==> b[i] == text[i] as int
  }

  lemma Names()
    ensures Spells(CERT_ALGO, "ssh-ed25519-cert-v01@openssh.com") && Spells(KEY_ALGO, "ssh-ed25519")
    ensures Spells(PERMIT, "permit-port-forwarding") && Spells(PROTO, "__proto__")
  {
  }

  /** The layout of PROTOCOL.certkeys, field after field. */
  lemma Layout(c: Cert)
    requires CertFits(c)
    ensures Serialize(c) == Tbs(c) + Str(c.signature)
    ensures
      Tbs(c) == Str(CERT_ALGO) + Str(c.head.nonce) + Str(c.head.pubkey) + ToBE(c.head.serial, 8) + ToBE(1, 4)
                + Str(c.grant.keyId) + Str(ListBytes(c.grant.principals))
                + ToBE(c.grant.validAfter, 8) + ToBE(c.grant.validBefore, 8)
                + Str(PairBytes(c.terms.criticalOptions)) + Str(PairBytes(c.terms.extensions))
                + Str(c.terms.reserved) + Str(c.terms.signatureKey)
  {
    var h, g, t := c.head, c.grant, c.terms;
    Flatten(Str(CERT_ALGO), Str(h.nonce), Str(h.pubkey), ToBE(h.serial, 8), ToBE(1, 4));
    var head := HeadBytes(h);
    var names, critical := Str(ListBytes(g.principals)), Str(PairBytes(t.criticalOptions));
    Flatten(head, Str(g.keyId), names, ToBE(g.validAfter, 8), ToBE(g.validBefore, 8));
    Flatten(head + GrantBytes(g), critical, Str(PairBytes(t.extensions)), Str(t.reserved), Str(t.signatureKey));
    Regroup(head, GrantBytes(g), TermsBytes(t));
  }

  lemma Flatten(a: bytes, b: bytes, c: bytes, d: bytes, e: bytes)
    ensures a + (b + (c + (d + e))) == a + b + c + d + e
  {
    Regroup(a, b, c + (d + e));
    Regroup(a + b, c, d + e);
    Regroup(a + b + c, d, e);
  }

  /** Field by field, what parsing a serialised certificate returns. */
  lemma FieldsReturned(c: Cert, rest: bytes)
    requires CertFits(c)
    ensures Parse(Serialize(c) + rest).Ok?
    ensures
      var p := Parse(Serialize(c) + rest).value;
      && p.nonce == c.head.nonce && p.pubkey == c.head.pubkey && p.serial == c.head.serial
      && p.keyId == c.grant.keyId && p.principals == c.grant.principals
      && p.validAfter == c.grant.validAfter && p.validBefore == c.grant.validBefore
      && p.criticalOptions == OptionMap(c.terms.criticalOptions) && p.extensions == OptionMap(c.terms.extensions)
      && p.signatureKey == c.terms.signatureKey && p.signature == c.signature
      && Serialize(c) == p.tbs + Str(p.signature)
  {
    ParseSerialized(c, rest);
  }

  /** The three checks fail on what a blob begins with, whatever follows. */
  lemma ChecksFail(algo: bytes, nonce: bytes, pubkey: bytes, serial: nat, kind: nat, rest: bytes)
    requires Fits(algo) && Fits(nonce) && Fits(pubkey) && serial < Pow256(8) && kind < Pow256(4)
    ensures algo != CERT_ALGO ==> Parse(Str(algo) + rest) == Err(UnsupportedAlgorithm)
    ensures |pubkey| != 32 ==> Parse(Str(CERT_ALGO) + (Str(nonce) + (Str(pubkey) + rest))) == Err(BadPubkeyLength)
    ensures |pubkey| == 32 && kind != 1 ==>
      Parse(Str(CERT_ALGO) + (Str(nonce) + (Str(pubkey) + (ToBE(serial, 8) + (ToBE(kind, 4) + rest)))))
      == Err(NotUserCert)
  {
    var fields := ToBE(serial, 8) + (ToBE(kind, 4) + rest);
    TakeStringOf(algo, rest);
    TakeStringOf(CERT_ALGO, Str(nonce) + (Str(pubkey) + rest));
    TakeStringOf(nonce, Str(pubkey) + rest);
    TakeStringOf(pubkey, rest);
    TakeStringOf(CERT_ALGO, Str(nonce) + (Str(pubkey) + fields));
    TakeStringOf(nonce, Str(pubkey) + fields);
    TakeStringOf(pubkey, fields);
    TakeUintOf(serial, 8, ToBE(kind, 4) + rest);
    TakeUintOf(kind, 4, rest);
  }

  lemma ParseSerialized(c: Cert, rest: bytes)
    requires CertFits(c)
    ensures Parse(Serialize(c) + rest) == Ok(Fields(c, Tbs(c)))
  {
    var signed := Str(c.signature) + rest;
    var terms := TermsBytes(c.terms) + signed;
    var grant := GrantBytes(c.grant) + terms;
    var blob := Serialize(c) + rest;
    Regroup(Tbs(c), Str(c.signature), rest);
    Regroup(HeadBytes(c.head), GrantBytes(c.grant) + TermsBytes(c.terms), signed);
    Regroup(GrantBytes(c.grant), TermsBytes(c.terms), signed);
    TakeHeadOf(c.head, grant);
    TakeGrantOf(c.grant, terms);
    TakeTermsOf(c.terms, signed);
    TakeStringOf(c.signature, rest);
    assert blob == Tbs(c) + signed && blob[..|blob| - |signed|] == Tbs(c);
  }

  // ---------------------------------------------------------------- parse, then serialise

  lemma HeadTaken(b: bytes)
    requires TakeHead(b).Ok?
    ensures
      var t := TakeHead(b).value;
      HeadFits(t.value) && b == HeadBytes(t.value) + t.rest
  {
    StringTaken(b);
    var algo := TakeString(b).value;
    StringTaken(algo.rest);
    var nonce := TakeString(algo.rest).value;
    StringTaken(nonce.rest);
    var pubkey := TakeString(nonce.rest).value;
    UintTaken(pubkey.rest, 8);
    var serial := TakeUint(pubkey.rest, 8).value;
    UintTaken(serial.rest, 4);
    var t := TakeHead(b).value;
    Regroup4(Str(nonce.value), Str(pubkey.value), ToBE(serial.value, 8), ToBE(CERT_TYPE_USER, 4), t.rest);
    Regroup(Str(CERT_ALGO),
      Str(nonce.value) + (Str(pubkey.value) + (ToBE(serial.value, 8) + ToBE(CERT_TYPE_USER, 4))), t.rest);
  }

  lemma GrantTaken(b: bytes)
    requires TakeGrant(b).Ok?
    ensures
      var t := TakeGrant(b).value;
      GrantFits(t.value) && b == GrantBytes(t.value) + t.rest
  {
    StringTaken(b);
    var keyId := TakeString(b).value;
    StringTaken(keyId.rest);
    var names := TakeString(keyId.rest).value;
    ListTaken(names.value);
    UintTaken(names.rest, 8);
    var after := TakeUint(names.rest, 8).value;
    UintTaken(after.rest, 8);
    var before := TakeUint(after.rest, 8).value;
    Regroup4(Str(keyId.value), Str(names.value), ToBE(after.value, 8), ToBE(before.value, 8), before.rest);
  }

  lemma TermsTaken(b: bytes)
    requires TakeTerms(b).Ok?
    ensures
      var t := TakeTerms(b).value;
      TermsFit(t.value) && b == TermsBytes(t.value) + t.rest
  {
    StringTaken(b);
    var critical := TakeString(b).value;
    PairsTaken(critical.value);
    StringTaken(critical.rest);
    var extensions := TakeString(critical.rest).value;
    PairsTaken(extensions.value);
    StringTaken(extensions.rest);
    var reserved := TakeString(extensions.rest).value;
    StringTaken(reserved.rest);
    var key := TakeString(reserved.rest).value;
    Regroup4(Str(critical.value), Str(extensions.value), Str(reserved.value), Str(key.value), key.rest);
  }

  /** Whatever parses is a serialised certificate followed by bytes nobody reads, and parses to its fields. */
  lemma ParsedIsSerialized(blob: bytes) returns (c: Cert, rest: bytes)
    requires Parse(blob).Ok?
    ensures CertFits(c) && blob == Serialize(c) + rest && Parse(blob) == Ok(Fields(c, Tbs(c)))
  {
    HeadTaken(blob);
    var head := TakeHead(blob).value;
    GrantTaken(head.rest);
    var grant := TakeGrant(head.rest).value;
    TermsTaken(grant.rest);
    var terms := TakeTerms(grant.rest).value;
    StringTaken(terms.rest);
    var signature := TakeString(terms.rest).value;
    c, rest := Cert(head.value, grant.value, terms.value, signature.value), signature.rest;
    Regroup(GrantBytes(c.grant), TermsBytes(c.terms), terms.rest);
    Regroup(HeadBytes(c.head), GrantBytes(c.grant) + TermsBytes(c.terms), terms.rest);
    Regroup(Tbs(c), Str(c.signature), rest);
    ParseSerialized(c, rest);
  }

  /** `blob` is the serialised form of `c`, with whatever after it. */
  predicate Begins(blob: bytes, c: Cert) { CertFits(c) && Serialize(c) <= blob }

  lemma BeginsParses(blob: bytes, c: Cert)
    requires Begins(blob, c)
    ensures Parse(blob) == Ok(Fields(c, Tbs(c)))
  {
    assert blob == Serialize(c) + blob[|Serialize(c)|..];
    ParseSerialized(c, blob[|Serialize(c)|..]);
  }

  /** A blob parses if and only if it begins with a certificate. */
  lemma ParsesIff(blob: bytes)
    ensures Parse(blob).Ok? <==> exists c :: Begins(blob, c)
  {
    if Parse(blob).Ok? {
      var c, rest := ParsedIsSerialized(blob);
      assert Begins(blob, c);
    }
    if c :| Begins(blob, c) {
      BeginsParses(blob, c);
    }
  }

  // ---------------------------------------------------------------- the signed bytes determine the fields

  /** Certificates with the same signed bytes differ at most in their signatures. */
  lemma TbsDetermines(c: Cert, d: Cert)
    requires CertFits(c) && CertFits(d) && Tbs(c) == Tbs(d)
    ensures c.(signature := d.signature) == d
  {
    TakeHeadOf(c.head, GrantBytes(c.grant) + TermsBytes(c.terms));
    TakeHeadOf(d.head, GrantBytes(d.grant) + TermsBytes(d.terms));
    TakeGrantOf(c.grant, TermsBytes(c.terms));
    TakeGrantOf(d.grant, TermsBytes(d.terms));
    assert TermsBytes(c.terms) + [] == TermsBytes(c.terms) && TermsBytes(d.terms) + [] == TermsBytes(d.terms);
    TakeTermsOf(c.terms, []);
    TakeTermsOf(d.terms, []);
  }

  /** Two blobs that parse with the same `tbs` yield the same in every field but the signature. */
  lemma SignedBytesDetermineFields(x: bytes, y: bytes)
    requires Parse(x).Ok? && Parse(y).Ok? && Parse(x).value.tbs == Parse(y).value.tbs
    ensures Parse(x).value.(signature := Parse(y).value.signature) == Parse(y).value
  {
    var c, _ := ParsedIsSerialized(x);
    var d, _ := ParsedIsSerialized(y);
    TbsDetermines(c, d);
  }

  // ---------------------------------------------------------------- the parser itself

  /** parseSshUserCert: one pass of the reader over the blob. */
  method ParseSshUserCert(blob: bytes) returns (r: Result<Parsed>)
    ensures r == Parse(blob)
  {
    var reader := new Reader(blob);
    var parsed :- ReadSigned(reader);
    var tbsEnd := reader.off;
    var signature :- reader.ReadString();
    var tbs := blob[..tbsEnd];
    return Ok(parsed.(tbs := tbs, signature := signature));
  }

  /** Everything up to the signature; `tbs` and `signature` are still to be filled in. */
  method ReadSigned(reader: Reader) returns (r: Result<Parsed>)
    requires reader.Valid()
    modifies reader
    ensures reader.Valid() && Reads(r, Unsigned(TakeSigned(old(reader.Rest()))), reader.Rest())
  {
    var head :- ReadHead(reader);
    var grant :- ReadGrant(reader);
    var terms :- ReadTerms(reader);
    return Ok(Parsed(head.nonce, head.pubkey, head.serial, grant.keyId, grant.principals, grant.validAfter,
                     grant.validBefore, terms.critical, terms.extensions, terms.signatureKey, [], []));
  }

  function Unsigned(t: Result<Taken<Signed>>): Result<Taken<Parsed>> {
    var ok :- t;
    Ok(Taken(Fields(Cert(ok.value.head, ok.value.grant, ok.value.terms, []), []), ok.rest))
  }

  method ReadHead(reader: Reader) returns (r: Result<Head>)
    requires reader.Valid()
    modifies reader
    ensures reader.Valid() && Reads(r, TakeHead(old(reader.Rest())), reader.Rest())
  {
    var algo :- reader.ReadString();
    if algo != CERT_ALGO { return Err(UnsupportedAlgorithm); }
    var nonce :- reader.ReadString();
    var pubkey :- reader.ReadString();
    if |pubkey| != 32 { return Err(BadPubkeyLength); }
    var serial :- reader.ReadUint(8);
    var kind :- reader.ReadUint(4);
    if kind != CERT_TYPE_USER { return Err(NotUserCert); }
    return Ok(Head(nonce, pubkey, serial));
  }

  method ReadGrant(reader: Reader) returns (r: Result<Grant>)
    requires reader.Valid()
    modifies reader
    ensures reader.Valid() && Reads(r, TakeGrant(old(reader.Rest())), reader.Rest())
  {
    var keyId :- reader.ReadString();
    var names :- reader.ReadString();
    var principals :- ParseStringList(names);
    var validAfter :- reader.ReadUint(8);
    var validBefore :- reader.ReadUint(8);
    return Ok(Grant(keyId, principals, validAfter, validBefore));
  }

  /** A read returned what taking it off the rest of the buffer gives, and moved past it. */
  predicate Reads<T(==)>(r: Result<T>, taken: Result<Taken<T>>, rest: bytes) {
    if taken.Err? then r == Err(taken.error) else r == Ok(taken.value.value) && rest == taken.value.rest
  }

  /** The last fields as the parser returns them: options as maps, the reserved field dropped. */
  datatype Tail = Tail(critical: map<bytes, bytes>, extensions: map<bytes, bytes>, signatureKey: bytes)

  function AsTail(t: Result<Taken<Terms>>): Result<Taken<Tail>> {
    var ok :- t;
    Ok(Taken(Tail(OptionMap(ok.value.criticalOptions), OptionMap(ok.value.extensions), ok.value.signatureKey), ok.rest))
  }

  method ReadTerms(reader: Reader) returns (r: Result<Tail>)
    requires reader.Valid()
    modifies reader
    ensures reader.Valid() && Reads(r, AsTail(TakeTerms(old(reader.Rest()))), reader.Rest())
  {
    var criticalField :- reader.ReadString();
    var critical :- ParseOptions(criticalField);
    var extensionsField :- reader.ReadString();
    var extensions :- ParseOptions(extensionsField);
    var _ :- reader.ReadString();
    var signatureKey :- reader.ReadString();
    return Ok(Tail(critical, extensions, signatureKey));
  }

  // ---------------------------------------------------------------- Ed25519 blobs

  /** The bytes inside a signature (`n` is 64) or public key (`n` is 32) of sections 6 and 4 of RFC 8709. */
  function Inner(blob: bytes, n: nat): Option<bytes> {
    var algo := TakeString(blob);
    if algo.Err? || algo.value.value != KEY_ALGO then None
    else
      var raw := TakeString(algo.value.rest);
      if raw.Err? || |raw.value.value| != n then None else Some(raw.value.value)
  }

  /** It is `v` exactly when `v` has that length and its encoding begins the blob. */
  lemma InnerIff(blob: bytes, n: nat, v: bytes)
    requires n < Pow256(4)
    ensures Inner(blob, n) == Some(v) <==> |v| == n && Str(KEY_ALGO) + Str(v) <= blob
  {
    if Inner(blob, n) == Some(v) {
      StringTaken(blob);
      var algo := TakeString(blob).value;
      StringTaken(algo.rest);
      var raw := TakeString(algo.rest).value;
      Regroup(Str(KEY_ALGO), Str(v), raw.rest);
    }
    if |v| == n && Str(KEY_ALGO) + Str(v) <= blob {
      var rest := blob[|Str(KEY_ALGO) + Str(v)|..];
      assert blob == Str(KEY_ALGO) + Str(v) + rest;
      Regroup(Str(KEY_ALGO), Str(v), rest);
      TakeStringOf(KEY_ALGO, Str(v) + rest);
      TakeStringOf(v, rest);
    }
  }

  /** decodeSshSignature and parseSshEd25519PubKey: whatever the reader throws, the answer is null. */
  method DecodeInner(blob: bytes, n: nat) returns (r: Option<bytes>)
    ensures r == Inner(blob, n)
  {
    var reader := new Reader(blob);
    var algo := reader.ReadString();
    if algo.Err? || algo.value != KEY_ALGO { return None; }
    var raw := reader.ReadString();
    if raw.Err? || |raw.value| != n { return None; }
    return Some(raw.value);
  }

  // ---------------------------------------------------------------- verification and authentication

  /** The configured CA key: its line split at white space, and its second word decoded from base64. */
  datatype CaKey = CaKey(words: seq<bytes>, body: bytes)

  datatype Verdict = Good | NotOpenSsh | WrongCaAlgorithm | OtherCa | BadSignatureBlob | BadCaKey | Forged

  /** Signed by the configured CA, `valid(tbs, key, signature)` being Ed25519 verification. */
  predicate Verified(cert: Parsed, ca: CaKey, valid: (bytes, bytes, bytes) -> bool) {
    && |ca.words| >= 2 && ca.words[0] == KEY_ALGO && cert.signatureKey == ca.body
    && Inner(cert.signature, 64).Some? && Inner(ca.body, 32).Some?
    && valid(cert.tbs, Inner(ca.body, 32).value, Inner(cert.signature, 64).value)
  }

  method VerifySshUserCert(cert: Parsed, ca: CaKey, valid: (bytes, bytes, bytes) -> bool) returns (v: Verdict)
    ensures v == Good <==> Verified(cert, ca, valid)
    ensures v == NotOpenSsh <==> |ca.words| < 2
    ensures v == WrongCaAlgorithm <==> |ca.words| >= 2 && ca.words[0] != KEY_ALGO
    ensures v == OtherCa <==> |ca.words| >= 2 && ca.words[0] == KEY_ALGO && cert.signatureKey != ca.body
    ensures v == BadSignatureBlob ==> cert.signatureKey == ca.body && Inner(cert.signature, 64).None?
    ensures v == BadCaKey ==>
      cert.signatureKey == ca.body && Inner(cert.signature, 64).Some? && Inner(ca.body, 32).None?
    ensures v == Forged ==> cert.signatureKey == ca.body && Inner(cert.signature, 64).Some? && Inner(ca.body, 32).Some?
  {
    if |ca.words| < 2 { return NotOpenSsh; }
    if ca.words[0] != KEY_ALGO { return WrongCaAlgorithm; }
    if cert.signatureKey != ca.body { return OtherCa; }
    var signature := DecodeInner(cert.signature, 64);
    if signature.None? { return BadSignatureBlob; }
    var key := DecodeInner(ca.body, 32);
    if key.None? { return BadCaKey; }
    if !valid(cert.tbs, key.value, signature.value) { return Forged; }
    return Good;
  }

  /** "permit-port-forwarding" */
  const PERMIT: bytes :=
    [112, 101, 114, 109, 105, 116, 45, 112, 111, 114, 116, 45, 102, 111, 114, 119, 97, 114, 100, 105, 110, 103]

  /** What the server is configured with, and the clock in whole seconds. */
  datatype Policy = Policy(ca: CaKey, requiredPrincipal: bytes, nowSec: nat)

  /** The offer of one authentication attempt: is it a certificate key, and its blob if there is one. */
  datatype Offer = Offer(publickey: bool, certAlgo: bool, blob: Option<bytes>)

  /** The certificate a device must hold: what handleAuth is there to enforce. */
  predicate Authorises(c: Cert, p: Policy, valid: (bytes, bytes, bytes) -> bool)
    requires CertFits(c)
  {
    && |p.ca.words| >= 2 && p.ca.words[0] == KEY_ALGO && c.terms.signatureKey == p.ca.body
    && Inner(c.signature, 64).Some? && Inner(p.ca.body, 32).Some?
    && valid(Tbs(c), Inner(p.ca.body, 32).value, Inner(c.signature, 64).value)
    && c.grant.validAfter <= p.nowSec < c.grant.validBefore
    && p.requiredPrincipal in c.grant.principals
    && (exists i :: 0 <= i < |c.terms.extensions| && c.terms.extensions[i].name == PERMIT)
    && (forall i :: 0 <= i < |c.terms.criticalOptions| ==> c.terms.criticalOptions[i].name == PROTO)
  }

  /** handleAuth's checks on a parsed certificate. */
  predicate Permits(cert: Parsed, p: Policy, valid: (bytes, bytes, bytes) -> bool) {
    && Verified(cert, p.ca, valid)
    && cert.validAfter <= p.nowSec < cert.validBefore
    && p.requiredPrincipal in cert.principals
    && PERMIT in cert.extensions && cert.criticalOptions == map[]
  }

  /** The nickname handleAuth routes the connection by, or a rejection. */
  function NickFor(offer: Offer, p: Policy, valid: (bytes, bytes, bytes) -> bool): Option<bytes> {
    if !offer.publickey || !offer.certAlgo || offer.blob.None? then None
    else
      var parsed := Parse(offer.blob.value);
      if parsed.Ok? && Permits(parsed.value, p, valid) then Some(parsed.value.keyId) else None
  }

  method HandleAuth(offer: Offer, p: Policy, valid: (bytes, bytes, bytes) -> bool) returns (nick: Option<bytes>)
    ensures nick == NickFor(offer, p, valid)
  {
    if !offer.publickey || !offer.certAlgo || offer.blob.None? { return None; }
    var parsed := ParseSshUserCert(offer.blob.value);
    if parsed.Err? { return None; }
    var cert := parsed.value;
    var verdict := VerifySshUserCert(cert, p.ca, valid);
    if verdict != Good { return None; }
    if cert.validAfter > p.nowSec { return None; }
    if cert.validBefore <= p.nowSec { return None; }
    if p.requiredPrincipal !in cert.principals { return None; }
    if PERMIT !in cert.extensions { return None; }
    if cert.criticalOptions != map[] { return None; }
    return Some(cert.keyId);
  }

  lemma PermitsIsAuthorises(c: Cert, p: Policy, valid: (bytes, bytes, bytes) -> bool)
    requires CertFits(c)
    ensures Permits(Fields(c, Tbs(c)), p, valid) <==> Authorises(c, p, valid)
  {
    OptionMapEmptyIff(c.terms.criticalOptions);
    OptionMapHolds(c.terms.extensions, PERMIT);
  }

  /**
    A connection is accepted under a nickname if and only if its blob begins with a certificate that
    authorises it and carries that key id.
   */
  lemma AcceptedIff(offer: Offer, p: Policy, valid: (bytes, bytes, bytes) -> bool, nick: bytes)
    requires offer.publickey && offer.certAlgo && offer.blob.Some?
    ensures NickFor(offer, p, valid) == Some(nick) <==>
      exists c :: Begins(offer.blob.value, c) && Authorises(c, p, valid) && c.grant.keyId == nick
  {
    var blob := offer.blob.value;
    if NickFor(offer, p, valid) == Some(nick) {
      var c, rest := ParsedIsSerialized(blob);
      PermitsIsAuthorises(c, p, valid);
      assert Begins(blob, c);
    }
    if c :| Begins(blob, c) && Authorises(c, p, valid) && c.grant.keyId == nick {
      AuthorisedNick(offer, c, p, valid);
    }
  }

  lemma AuthorisedNick(offer: Offer, c: Cert, p: Policy, valid: (bytes, bytes, bytes) -> bool)
    requires offer.publickey && offer.certAlgo && offer.blob.Some? && Begins(offer.blob.value, c) &&
      Authorises(c, p, valid)
    ensures NickFor(offer, p, valid) == Some(c.grant.keyId)
  {
    BeginsParses(offer.blob.value, c);
    PermitsIsAuthorises(c, p, valid);
  }

  /** In particular a device that offers an authorising certificate is accepted under its key id. */
  lemma SerializedAccepted(c: Cert, p: Policy, valid: (bytes, bytes, bytes) -> bool)
    requires CertFits(c) && Authorises(c, p, valid)
    ensures NickFor(Offer(true, true, Some(Serialize(c))), p, valid) == Some(c.grant.keyId)
  {
    AuthorisedNick(Offer(true, true, Some(Serialize(c))), c, p, valid);
  }

  /** Two accepted blobs with the same signed bytes are routed to the same nickname. */
  lemma SameSignedBytesSameNick(x: Offer, y: Offer, p: Policy, valid: (bytes, bytes, bytes) -> bool)
    requires NickFor(x, p, valid).Some? && NickFor(y, p, valid).Some?
    requires Parse(x.blob.value).value.tbs == Parse(y.blob.value).value.tbs
    ensures NickFor(x, p, valid) == NickFor(y, p, valid)
  {
    SignedBytesDetermineFields(x.blob.value, y.blob.value);
  }

  // ---------------------------------------------------------------- a critical option nobody sees

  /** A certificate whose one critical option is named `__proto__`. */
  function ProtoCert(keyId: bytes, principal: bytes, value: bytes, key: bytes, signature: bytes): Cert
    requires |key| == 32 && |signature| == 64
  {
    Cert(Head([], key, 0), Grant(keyId, [principal], 0, 1),
         Terms([Opt(PROTO, value)], [Opt(PERMIT, [])], [], Str(KEY_ALGO) + Str(key)),
         Str(KEY_ALGO) + Str(signature))
  }

  /** The policy of a server that trusts `signatureKey`, at the start of time. */
  function PolicyFor(signatureKey: bytes, principal: bytes): Policy {
    Policy(CaKey([KEY_ALGO, []], signatureKey), principal, 0)
  }

  /** Fields of up to 64 KiB leave room for all of a certificate's length prefixes. */
  lemma ProtoCertFits(keyId: bytes, principal: bytes, value: bytes, key: bytes, signature: bytes)
    requires |key| == 32 && |signature| == 64 && |keyId| < 0x1_0000 && |principal| < 0x1_0000 && |value| < 0x1_0000
    ensures CertFits(ProtoCert(keyId, principal, value, key, signature))
  {
    assert Pow256(3) == 0x100_0000;
    var t := ProtoCert(keyId, principal, value, key, signature).terms;
    assert t.criticalOptions[1..] == [] && t.extensions[1..] == [] && [principal][1..] == [];
  }

  /**
    Such a certificate is accepted, whatever the option's value, once its signature verifies under the
    configured CA, although the server honours no critical option.
   */
  lemma ProtoOptionAccepted(keyId: bytes, principal: bytes, value: bytes, key: bytes, signature: bytes,
                            valid: (bytes, bytes, bytes) -> bool)
    requires |key| == 32 && |signature| == 64 && |keyId| < 0x1_0000 && |principal| < 0x1_0000 && |value| < 0x1_0000
    ensures CertFits(ProtoCert(keyId, principal, value, key, signature))
    ensures
      var c := ProtoCert(keyId, principal, value, key, signature);
      valid(Tbs(c), key, signature) ==>
        NickFor(Offer(true, true, Some(Serialize(c))), PolicyFor(c.terms.signatureKey, principal), valid) == Some(keyId)
  {
    var c := ProtoCert(keyId, principal, value, key, signature);
    ProtoCertFits(keyId, principal, value, key, signature);
    if valid(Tbs(c), key, signature) {
      ProtoCertAuthorises(keyId, principal, value, key, signature, valid);
      SerializedAccepted(c, PolicyFor(c.terms.signatureKey, principal), valid);
    }
  }

  lemma ProtoCertAuthorises(keyId: bytes, principal: bytes, value: bytes, key: bytes, signature: bytes,
                            valid: (bytes, bytes, bytes) -> bool)
    requires |key| == 32 && |signature| == 64 && CertFits(ProtoCert(keyId, principal, value, key, signature))
    requires valid(Tbs(ProtoCert(keyId, principal, value, key, signature)), key, signature)
    ensures
      var c := ProtoCert(keyId, principal, value, key, signature);
      Authorises(c, PolicyFor(c.terms.signatureKey, principal), valid)
  {
    var c := ProtoCert(keyId, principal, value, key, signature);
    InnerIff(c.signature, 64, signature);
    InnerIff(c.terms.signatureKey, 32, key);
    assert c.terms.extensions[0].name == PERMIT;
  }
}
