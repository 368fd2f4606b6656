/** The proxy's certificate authority: the root key and certificate that are
    loaded from, or generated into, two files beside the server, and the
    per-hostname leaf certificates forged from them.

    Key generation, signing and PEM encoding belong to the crypto library and
    are not modelled: a key pair is an opaque handle supplied by the caller,
    a signature records which key and digest produced it, and PEM encoding is
    a `PemCodec` passed in. The clock and `Math.random` are inputs too. */
module CertificateAuthority {
  import opened JsValues

  // ---- Opaque key material, clock and randomness ---------------------------

  datatype PublicKey = PublicKey(handle: nat)
  datatype PrivateKey = PrivateKey(handle: nat)

  /** One result of `forge.pki.rsa.generateKeyPair(2048)`. */
  datatype KeyPair = KeyPair(publicKey: PublicKey, privateKey: PrivateKey)

  /** A local calendar date and time, as `Date`'s getters see it. */
  datatype Date = Date(year: int, month: int, day: int, timeOfDay: int)

  predicate IsLeapYear(y: int) {
    y % 4 == 0 && (y % 100 != 0 || y % 400 == 0)
  }

  /** `d.setFullYear(y)`: keeps month, day and time; a 29 February that the
      target year lacks overflows to 1 March. */
  function SetFullYear(d: Date, y: int): Date {
    if d.month == 2 && d.day == 29 && !IsLeapYear(y) then Date(y, 3, 1, d.timeOfDay)
    else d.(year := y)
  }

  /** A value of `Math.random()`. */
  type UnitInterval = r: real | 0.0 <= r < 1.0 witness 0.0

  /** What one certificate generation draws from its environment: a fresh key
      pair, a random number (used by leaves only), and the two `new Date()`
      readings taken for notBefore and notAfter. */
  datatype Draw = Draw(keys: KeyPair, random: UnitInterval, issuedAt: Date, expiryRead: Date)

  /** forge's PEM encoders and decoders; a decoder that throws gives None. */
  datatype PemCodec = PemCodec(
    keyToPem: PrivateKey -> string,
    keyFromPem: string -> Option<PrivateKey>,
    certToPem: Certificate -> string,
    certFromPem: string -> Option<Certificate>)

  /** The assumption under which persistence is lossless. */
  ghost predicate RoundTrips(codec: PemCodec) {
    && (forall k :: codec.keyFromPem(codec.keyToPem(k)) == Some(k))
    && (forall c :: codec.certFromPem(codec.certToPem(c)) == Some(c))
  }

  // ---- Certificate structure -----------------------------------------------

  /** An attribute names its type either by `name` or by `shortName`. */
  datatype AttributeType = Name(name: string) | ShortName(shortName: string)
  datatype Attribute = Attribute(kind: AttributeType, value: string)

  /** A subjectAltName entry; type 2 is a DNS name. */
  datatype GeneralName = GeneralName(kind: int, value: string)
  const DnsNameType: int := 2

  datatype Extension =
    | BasicConstraints(cA: bool)
    | KeyUsage(keyCertSign: bool, digitalSignature: bool, nonRepudiation: bool,
               keyEncipherment: bool, dataEncipherment: bool)
    | SubjectAltName(altNames: seq<GeneralName>)

  datatype DigestAlgorithm = Sha256

  /** Who signed, with which digest; the signature bits are not modelled. */
  datatype Signature = Signature(signer: PrivateKey, digest: DigestAlgorithm)

  datatype Certificate = Certificate(
    publicKey: PublicKey,
    serialNumber: string,
    notBefore: Date,
    notAfter: Date,
    subject: seq<Attribute>,
    issuer: seq<Attribute>,
    extensions: seq<Extension>,
    signature: Signature)

  /** The value of the first commonName attribute, if any. */
  function CommonName(attrs: seq<Attribute>): Option<string> {
    if attrs == [] then None
    else if attrs[0].kind == Name("commonName") || attrs[0].kind == ShortName("CN") then Some(attrs[0].value)
    else CommonName(attrs[1..])
  }

  /** The cA flag of the first basicConstraints extension, if any. */
  function CaFlag(exts: seq<Extension>): Option<bool> {
    if exts == [] then None
    else if exts[0].BasicConstraints? then Some(exts[0].cA)
    else CaFlag(exts[1..])
  }

  /** All DNS names listed in subjectAltName extensions, in order. */
  function DnsNames(exts: seq<Extension>): seq<string> {
    if exts == [] then []
    else (if exts[0].SubjectAltName? then DnsNamesOf(exts[0].altNames) else []) + DnsNames(exts[1..])
  }

  function DnsNamesOf(names: seq<GeneralName>): seq<string> {
    if names == [] then []
    else (if names[0].kind == DnsNameType then [names[0].value] else []) + DnsNamesOf(names[1..])
  }

  predicate SelfIssued(c: Certificate) {
    c.subject == c.issuer
  }

  predicate SignedWith(c: Certificate, key: PrivateKey) {
    c.signature == Signature(key, Sha256)
  }

  /** `leaf` names `root`'s subject as its issuer and carries a signature by `rootKey`. */
  predicate IssuedBy(leaf: Certificate, root: Certificate, rootKey: PrivateKey) {
    leaf.issuer == root.subject && SignedWith(leaf, rootKey)
  }

  // ---- Root certificate ------------------------------------------------------

  const RootCommonName: string := "CyberProxy Root CA"
  const RootSerial: string := "01"
  const RootValidityYears: int := 10

  const RootAttributes: seq<Attribute> := [
    Attribute(Name("commonName"), RootCommonName),
    Attribute(Name("countryName"), "US"),
    Attribute(ShortName("ST"), "State"),
    Attribute(Name("localityName"), "City"),
    Attribute(Name("organizationName"), "CyberProxy"),
    Attribute(ShortName("OU"), "Proxy")]

  /** The certificate `generateRootCA` builds and self-signs. */
  function RootCertificate(draw: Draw): (c: Certificate)
    ensures SelfIssued(c) && CommonName(c.subject) == Some(RootCommonName)
    ensures CaFlag(c.extensions) == Some(true) && DnsNames(c.extensions) == []
    ensures SignedWith(c, draw.keys.privateKey) && c.publicKey == draw.keys.publicKey
    ensures c.serialNumber == RootSerial
    ensures c.notBefore == draw.issuedAt
    ensures c.notAfter == SetFullYear(draw.expiryRead, c.notBefore.year + RootValidityYears)
    ensures c.notAfter.year == c.notBefore.year + RootValidityYears
  {
    Certificate(
      draw.keys.publicKey, RootSerial,
      draw.issuedAt, SetFullYear(draw.expiryRead, draw.issuedAt.year + RootValidityYears),
      RootAttributes, RootAttributes,
      [BasicConstraints(true)],
      Signature(draw.keys.privateKey, Sha256))
  }

  // ---- Leaf certificates ----------------------------------------------------

  const LeafOrganization: string := "CyberProxy Interception"
  const LeafValidityYears: int := 1
  const SerialRange: int := 100000

  /** `Math.floor(Math.random() * 100000).toString()`. */
  function LeafSerial(random: UnitInterval): (s: string)
    ensures AllDigits(s) && 1 <= |s| <= 5
    ensures DecimalToNat(s) == (random * 100000.0).Floor && 0 <= DecimalToNat(s) < SerialRange
  {
    var n := (random * 100000.0).Floor;
    DecimalRoundTrip(n);
    DecimalLength(n, 5, Pow10(5));
    NatToDecimal(n)
  }

  /** Two leaves get the same serial exactly when their random numbers fall in
      the same 1/100000-wide bucket: serials are not unique. */
  lemma LeafSerialsCollideWithinBucket(r1: UnitInterval, r2: UnitInterval)
    ensures LeafSerial(r1) == LeafSerial(r2) <==> (r1 * 100000.0).Floor == (r2 * 100000.0).Floor
  {
    DecimalInjective((r1 * 100000.0).Floor, (r2 * 100000.0).Floor);
  }

  /** A concrete collision: two different random draws, one serial. */
  lemma DistinctDrawsShareSerial()
    ensures LeafSerial(0.0) == LeafSerial(0.000001) == "0"
  {
    assert (0.000001 * 100000.0).Floor == 0;
  }

  const LeafKeyUsage: Extension := KeyUsage(true, true, true, true, true)

  /** The certificate `generateServerCert(hostname)` builds, signed with the
      root key, before it is PEM-encoded. */
  function LeafCertificate(caKey: PrivateKey, caCert: Certificate, hostname: string, draw: Draw): (c: Certificate)
    ensures CommonName(c.subject) == Some(hostname)
    ensures DnsNames(c.extensions) == [hostname]
    ensures IssuedBy(c, caCert, caKey)
    ensures CaFlag(c.extensions) == Some(false) && LeafKeyUsage in c.extensions
    ensures c.publicKey == draw.keys.publicKey
    ensures c.serialNumber == LeafSerial(draw.random)
    ensures c.notBefore == draw.issuedAt
    ensures c.notAfter == SetFullYear(draw.expiryRead, c.notBefore.year + LeafValidityYears)
    ensures c.notAfter.year == c.notBefore.year + LeafValidityYears
  {
    var san := [GeneralName(DnsNameType, hostname)];
    var exts := [BasicConstraints(false), LeafKeyUsage, SubjectAltName(san)];
    assert DnsNamesOf(san) == [hostname] by { assert san[1..] == []; }
    assert DnsNames(exts[2..]) == [hostname] by { assert exts[2..][1..] == []; }
    assert exts[1..][1..] == exts[2..];
    Certificate(
      draw.keys.publicKey, LeafSerial(draw.random),
      draw.issuedAt, SetFullYear(draw.expiryRead, draw.issuedAt.year + LeafValidityYears),
      [Attribute(Name("commonName"), hostname), Attribute(Name("organizationName"), LeafOrganization)],
      caCert.subject,
      exts,
      Signature(caKey, Sha256))
  }

  // ---- Validity periods ------------------------------------------------------

  /** When both `new Date()` readings agree and the day is not 29 February,
      the root is valid for exactly ten years and a leaf for exactly one. */
  lemma ValidityFromOneReading(caKey: PrivateKey, caCert: Certificate, hostname: string, draw: Draw)
    requires draw.expiryRead == draw.issuedAt
    requires !(draw.issuedAt.month == 2 && draw.issuedAt.day == 29)
    ensures var root := RootCertificate(draw);
      root.notAfter == root.notBefore.(year := root.notBefore.year + RootValidityYears)
    ensures var leaf := LeafCertificate(caKey, caCert, hostname, draw);
      leaf.notAfter == leaf.notBefore.(year := leaf.notBefore.year + LeafValidityYears)
  {
  }

  /** The year comes from the first reading and everything else from the
      second: readings that straddle midnight on New Year's Eve give a leaf
      valid for one millisecond and a root valid for nine years and one. */
  lemma ValidityAcrossNewYear(caKey: PrivateKey, caCert: Certificate, hostname: string,
                              keys: KeyPair, random: UnitInterval)
    ensures var draw := Draw(keys, random, Date(2025, 12, 31, 86399999), Date(2026, 1, 1, 0));
      && LeafCertificate(caKey, caCert, hostname, draw).notAfter == Date(2026, 1, 1, 0)
      && RootCertificate(draw).notAfter == Date(2035, 1, 1, 0)
  {
  }

  /** The `{ key, cert }` pair of PEM strings `generateServerCert` returns. */
  datatype ServerCredentials = ServerCredentials(key: string, cert: string)

  /** `generateServerCert(hostname)` over the module's `caKey` and `caCert`:
      it throws (None) while either is unset, since it reads `caCert.subject`
      and signs with `caKey`. */
  function GenerateServerCert(caKey: Option<PrivateKey>, caCert: Option<Certificate>, codec: PemCodec,
                              hostname: string, draw: Draw): (r: Option<ServerCredentials>)
    ensures r.Some? <==> caKey.Some? && caCert.Some?
    ensures r.Some? ==> r.value.key == codec.keyToPem(draw.keys.privateKey)
    ensures r.Some? ==> r.value.cert == codec.certToPem(LeafCertificate(caKey.value, caCert.value, hostname, draw))
  {
    if caKey.None? || caCert.None? then None
    else
      var leaf := LeafCertificate(caKey.value, caCert.value, hostname, draw);
      Some(ServerCredentials(codec.keyToPem(draw.keys.privateKey), codec.certToPem(leaf)))
  }

  /** What a TLS peer decodes from the returned PEM: the leaf for `hostname`,
      issued by the root in memory, with the freshly drawn key. */
  lemma ServerCertDecodes(caKey: PrivateKey, caCert: Certificate, codec: PemCodec, hostname: string, draw: Draw)
    requires RoundTrips(codec)
    ensures var r := GenerateServerCert(Some(caKey), Some(caCert), codec, hostname, draw);
      && r.Some?
      && codec.keyFromPem(r.value.key) == Some(draw.keys.privateKey)
      && codec.certFromPem(r.value.cert) == Some(LeafCertificate(caKey, caCert, hostname, draw))
  {
  }

  /** Every call mints afresh: two calls that draw different key pairs return
      different certificates, even for the same hostname. */
  lemma ServerCertsNotReused(caKey: PrivateKey, caCert: Certificate, codec: PemCodec,
                             hostname: string, d1: Draw, d2: Draw)
    requires RoundTrips(codec) && d1.keys.publicKey != d2.keys.publicKey
    ensures GenerateServerCert(Some(caKey), Some(caCert), codec, hostname, d1).value.cert
         != GenerateServerCert(Some(caKey), Some(caCert), codec, hostname, d2).value.cert
  {
    var c1 := LeafCertificate(caKey, caCert, hostname, d1);
    var c2 := LeafCertificate(caKey, caCert, hostname, d2);
    assert codec.certFromPem(codec.certToPem(c1)) == Some(c1);
    assert codec.certFromPem(codec.certToPem(c2)) == Some(c2);
  }

  // ---- Storage and the root's lifecycle -----------------------------------------

  const CaKeyPath: string := "root-ca.key"
  const CaCertPath: string := "root-ca.crt"

  /** `getRootCertPath()`: where the root certificate is stored. */
  function GetRootCertPath(): (p: string)
    ensures p != CaKeyPath
  {
    CaCertPath
  }

  /** The module-level `caKey`/`caCert` together with the files on disk. */
  datatype CaState = CaState(caKey: Option<PrivateKey>, caCert: Option<Certificate>, files: map<string, string>)

  /** How `initCA` ended: the branch it took, or the exception it threw. */
  datatype InitOutcome = LoadedExisting | GeneratedNew | Threw(reason: string)

  predicate BothStored(files: map<string, string>) {
    CaKeyPath in files && CaCertPath in files
  }

  /** `generateRootCA()`: a fresh root in memory, then the key file and the
      certificate file written, in that order. */
  function GenerateRootEffect(s: CaState, codec: PemCodec, draw: Draw): CaState {
    var cert := RootCertificate(draw);
    CaState(Some(draw.keys.privateKey), Some(cert),
            s.files[CaKeyPath := codec.keyToPem(draw.keys.privateKey)][CaCertPath := codec.certToPem(cert)])
  }

  /** `initCA()`: load when both files exist, else generate and persist. A
      decoder that throws leaves the fields it had not yet assigned as they were. */
  function InitCAEffect(s: CaState, codec: PemCodec, draw: Draw): (r: (CaState, InitOutcome))
    ensures BothStored(s.files) ==> r.0.files == s.files && r.1 != GeneratedNew
    ensures BothStored(s.files) ==> (r.1 == LoadedExisting <==>
      codec.keyFromPem(s.files[CaKeyPath]).Some? && codec.certFromPem(s.files[CaCertPath]).Some?)
    ensures r.1 == LoadedExisting ==>
      && BothStored(s.files)
      && r.0.caKey == codec.keyFromPem(s.files[CaKeyPath]) && r.0.caCert == codec.certFromPem(s.files[CaCertPath])
    ensures !BothStored(s.files) ==> r.1 == GeneratedNew
    ensures r.1 == GeneratedNew ==>
      && r.0.caKey == Some(draw.keys.privateKey) && r.0.caCert == Some(RootCertificate(draw))
      && r.0.files.Keys == s.files.Keys + {CaKeyPath, CaCertPath}
      && r.0.files[CaKeyPath] == codec.keyToPem(draw.keys.privateKey)
      && r.0.files[GetRootCertPath()] == codec.certToPem(RootCertificate(draw))
      && (forall p :: p in s.files && p != CaKeyPath && p != CaCertPath ==> r.0.files[p] == s.files[p])
    ensures r.1.Threw? ==> r.0.caCert == s.caCert
  {
    if BothStored(s.files) then
      match codec.keyFromPem(s.files[CaKeyPath])
      case None => (s, Threw("invalid private key PEM"))
      case Some(key) =>
        match codec.certFromPem(s.files[CaCertPath])
        case None => (s.(caKey := Some(key)), Threw("invalid certificate PEM"))
        case Some(cert) => (s.(caKey := Some(key), caCert := Some(cert)), LoadedExisting)
    else
      (GenerateRootEffect(s, codec, draw), GeneratedNew)
  }

  /** After a successful start the root certificate file, served for download,
      decodes to the root in memory, and the key file to the root key. */
  lemma InitCAPersistsRoot(s: CaState, codec: PemCodec, draw: Draw)
    requires RoundTrips(codec)
    requires !InitCAEffect(s, codec, draw).1.Threw?
    ensures var t := InitCAEffect(s, codec, draw).0;
      && BothStored(t.files) && t.caKey.Some? && t.caCert.Some?
      && codec.keyFromPem(t.files[CaKeyPath]) == t.caKey
      && codec.certFromPem(t.files[GetRootCertPath()]) == t.caCert
  {
  }

  /** A restart over the files the previous start left behind loads the same
      root key and certificate and writes nothing, whatever it would have drawn. */
  lemma RestartReusesRoot(s: CaState, codec: PemCodec, d1: Draw, d2: Draw)
    requires RoundTrips(codec)
    requires !InitCAEffect(s, codec, d1).1.Threw?
    ensures var first := InitCAEffect(s, codec, d1).0;
      InitCAEffect(CaState(None, None, first.files), codec, d2) == (first, LoadedExisting)
  {
    InitCAPersistsRoot(s, codec, d1);
  }

  /** A lone key or certificate file is overwritten by a freshly generated pair. */
  lemma PartialStoreIsReplaced(s: CaState, codec: PemCodec, draw: Draw)
    requires (CaKeyPath in s.files) != (CaCertPath in s.files)
    ensures var t := InitCAEffect(s, codec, draw).0;
      t.caKey == Some(draw.keys.privateKey) && t.files[CaKeyPath] == codec.keyToPem(draw.keys.privateKey)
  {
  }

  // ---- The stateful module ---------------------------------------------------

  /** The directory holding the root's files. */
  class FileSystem {
    var files: map<string, string>

    constructor (files: map<string, string>)
      ensures this.files == files
    {
      this.files := files;
    }

    /** `fs.writeFileSync(path, contents)`: create or replace one file. */
    method WriteFile(path: string, contents: string)
      modifies this
      ensures files == old(files)[path := contents]
    {
      files := files[path := contents];
    }
  }

  /** The module-level `caKey` and `caCert` of ca.js, and the files it uses. */
  class Authority {
    var caKey: Option<PrivateKey>
    var caCert: Option<Certificate>
    const fs: FileSystem

    /** Module load: both variables start undefined. */
    constructor (fs: FileSystem)
      ensures this.fs == fs && caKey.None? && caCert.None?
    {
      this.fs := fs;
      caKey, caCert := None, None;
    }

    function State(): CaState
      reads this, fs
    {
      CaState(caKey, caCert, fs.files)
    }

    method InitCA(codec: PemCodec, draw: Draw) returns (outcome: InitOutcome)
      modifies this, fs
      ensures (State(), outcome) == InitCAEffect(old(State()), codec, draw)
    {
      if CaKeyPath in fs.files && CaCertPath in fs.files {
        var keyPem := fs.files[CaKeyPath];
        var certPem := fs.files[CaCertPath];
        var key := codec.keyFromPem(keyPem);
        if key.None? {
          return Threw("invalid private key PEM");
        }
        caKey := key;
        var cert := codec.certFromPem(certPem);
        if cert.None? {
          return Threw("invalid certificate PEM");
        }
        caCert := cert;
        outcome := LoadedExisting;
      } else {
        GenerateRootCA(codec, draw);
        outcome := GeneratedNew;
      }
    }

    method GenerateRootCA(codec: PemCodec, draw: Draw)
      modifies this, fs
      ensures State() == GenerateRootEffect(old(State()), codec, draw)
    {
      caKey := Some(draw.keys.privateKey);
      var cert := RootCertificate(draw);
      caCert := Some(cert);
      fs.WriteFile(CaKeyPath, codec.keyToPem(draw.keys.privateKey));
      fs.WriteFile(CaCertPath, codec.certToPem(cert));
    }
  }
}
