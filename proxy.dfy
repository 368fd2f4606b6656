/** The proxy server: the public listener that forwards plain HTTP and turns
    CONNECT requests into tunnels to the internal interception (MITM) server,
    the MITM server that terminates TLS with a forged certificate chosen by
    SNI, and the broadcast of captured exchanges to dashboard observers.

    Forwarding to the origin (http-proxy) and byte relaying (`pipe`) are not
    modelled beyond the order in which they are started; `uuidv4()` and
    `Date.now()` are inputs, the former assumed to return an id not yet seen. */
module InterceptionProxy {
  import opened JsValues
  import opened Events
  import CA = CertificateAuthority

  const MitmPort: nat := 8081

  /** A request as Node's HTTP server hands it over: the method, the request
      target (`req.url`) and the headers, whose names Node lower-cases. */
  datatype IncomingRequest = IncomingRequest(verb: string, url: string, headers: map<string, string>)

  /** `${req.headers.host}`: the Host header, or the text "undefined" if absent. */
  function HostText(req: IncomingRequest): string {
    if "host" in req.headers then req.headers["host"] else "undefined"
  }

  /** The origin a decrypted request is forwarded to: `https://${req.headers.host}`. */
  function ForwardTarget(req: IncomingRequest): string {
    "https://" + HostText(req)
  }

  /** The `request` payload for a decrypted HTTPS request. */
  function MitmRequestData(req: IncomingRequest, id: string, startTime: int): (d: RequestData)
    ensures d.id == id && d.verb == req.verb && d.headers == req.headers
    ensures d.timestamp == startTime && d.protocol == "https"
    ensures d.url == ForwardTarget(req) + req.url
  {
    RequestData(id, req.verb, "https://" + HostText(req) + req.url, req.headers, startTime, "https")
  }

  /** The `request` payload for a plain forward-proxy request: the request
      target is reported as it came, whole. */
  function PlainRequestData(req: IncomingRequest, id: string, startTime: int): (d: RequestData)
    ensures d.id == id && d.verb == req.verb && d.headers == req.headers
    ensures d.timestamp == startTime && d.protocol == "http" && d.url == req.url
  {
    RequestData(id, req.verb, req.url, req.headers, startTime, "http")
  }

  /** Splits an `https://` URL into authority and path at the first '/'. */
  function SplitHttpsUrl(u: string): Option<(string, string)> {
    if |u| < 8 || u[..8] != "https://" then None
    else
      var rest := u[8..];
      match IndexOf(rest, '/')
      case None => Some((rest, ""))
      case Some(k) => Some((rest[..k], rest[k..]))
  }

  /** The reported URL of a decrypted request determines its Host header and
      path again, as long as the host has no '/' and the path starts with one. */
  lemma MitmUrlSplitsBack(req: IncomingRequest, id: string, startTime: int)
    requires '/' !in HostText(req) && |req.url| > 0 && req.url[0] == '/'
    ensures SplitHttpsUrl(MitmRequestData(req, id, startTime).url) == Some((HostText(req), req.url))
  {
    var host := HostText(req);
    var u := MitmRequestData(req, id, startTime).url;
    assert u == "https://" + (host + req.url);
    assert u[..8] == "https://";
    var rest := u[8..];
    assert rest == host + req.url;
    var r := IndexOf(rest, '/');
    assert rest[|host|] == '/';
    assert r.Some?;
    assert rest[..|host|] == host && rest[|host|..] == req.url;
  }

  // ---- The observer broadcast ------------------------------------------------

  /** Every id any message carries. */
  function Ids(log: seq<Event>): set<string> {
    set i | 0 <= i < |log| :: EventId(log[i])
  }

  /** An `https` `request` message for `id` lies among the first `j` messages. */
  ghost predicate HttpsRequestBefore(log: seq<Event>, j: int, id: string)
    requires 0 <= j <= |log|
  {
    exists i :: 0 <= i < j && log[i].Request? && log[i].request.id == id && log[i].request.protocol == "https"
  }

  /** What the handlers keep true of the broadcast: request ids are never
      reused, every `error` names an earlier HTTPS `request`, and no
      `response` is ever sent. */
  ghost predicate WellFormedLog(log: seq<Event>) {
    && (forall i, j :: 0 <= i < j < |log| && log[i].Request? && log[j].Request? ==>
          log[i].request.id != log[j].request.id)
    && (forall j :: 0 <= j < |log| && log[j].Error? ==> HttpsRequestBefore(log, j, log[j].id))
    && (forall i :: 0 <= i < |log| ==> !log[i].Response?)
  }

  /** An `error` message identifies exactly one exchange: the earlier HTTPS
      `request` with the same id. */
  lemma ErrorMatchesRequest(log: seq<Event>, j: nat) returns (i: nat)
    requires WellFormedLog(log) && j < |log| && log[j].Error?
    ensures i < j && log[i].Request? && log[i].request.id == log[j].id && log[i].request.protocol == "https"
    ensures forall k :: 0 <= k < |log| && log[k].Request? && log[k].request.id == log[j].id ==> k == i
  {
    assert HttpsRequestBefore(log, j, log[j].id);
    i :| 0 <= i < j && log[i].Request? && log[i].request.id == log[j].id && log[i].request.protocol == "https";
  }

  /** The socket.io server, reduced to the messages it has broadcast. */
  class Observers {
    var log: seq<Event>

    constructor ()
      ensures log == []
    {
      log := [];
    }

    ghost predicate Valid()
      reads this
    {
      WellFormedLog(log)
    }

    /** `io.emit(kind, payload)`. */
    method Emit(e: Event)
      modifies this
      ensures log == old(log) + [e]
    {
      log := log + [e];
    }
  }

  /** What to do with an upstream failure reported to the http-proxy callback. */
  datatype ErrorHandler =
    | EmitErrorFor(id: string)  // broadcast `error` with the captured request id
    | LogOnly                   // write to the console only

  /** The options and callback a handler passes to `proxy.web`. */
  datatype Forwarding = Forwarding(target: string, secure: bool, onError: ErrorHandler)

  lemma AppendRequestKeepsWellFormed(log: seq<Event>, d: RequestData)
    requires WellFormedLog(log) && d.id !in Ids(log)
    ensures WellFormedLog(log + [Request(d)])
  {
    var log' := log + [Request(d)];
    forall i | 0 <= i < |log| && log'[i].Request?
      ensures log'[i].request.id != d.id
    {
      assert EventId(log[i]) in Ids(log);
    }
    forall j | 0 <= j < |log'| && log'[j].Error?
      ensures HttpsRequestBefore(log', j, log'[j].id)
    {
      assert HttpsRequestBefore(log, j, log[j].id);
      var i :| 0 <= i < j && log[i].Request? && log[i].request.id == log[j].id && log[i].request.protocol == "https";
      assert log'[i] == log[i];
    }
  }

  /** The MITM server's request handler, for one decrypted request. */
  method HandleMitmRequest(io: Observers, req: IncomingRequest, requestId: string, startTime: int)
    returns (fwd: Forwarding)
    requires io.Valid() && requestId !in Ids(io.log)
    modifies io
    ensures io.Valid()
    ensures io.log == old(io.log) + [Request(MitmRequestData(req, requestId, startTime))]
    ensures fwd == Forwarding(ForwardTarget(req), false, EmitErrorFor(requestId))
  {
    var data := MitmRequestData(req, requestId, startTime);
    AppendRequestKeepsWellFormed(io.log, data);
    io.Emit(Request(data));
    fwd := Forwarding("https://" + HostText(req), false, EmitErrorFor(requestId));
  }

  /** The public listener's handler for a plain (non-CONNECT) request. */
  method HandlePlainRequest(io: Observers, req: IncomingRequest, requestId: string, startTime: int)
    returns (fwd: Forwarding)
    requires io.Valid() && requestId !in Ids(io.log)
    modifies io
    ensures io.Valid()
    ensures io.log == old(io.log) + [Request(PlainRequestData(req, requestId, startTime))]
    ensures fwd == Forwarding(req.url, false, LogOnly)
  {
    var data := PlainRequestData(req, requestId, startTime);
    AppendRequestKeepsWellFormed(io.log, data);
    io.Emit(Request(data));
    fwd := Forwarding(req.url, false, LogOnly);
  }

  /** The error callback given to `proxy.web`, called when forwarding fails. */
  method OnProxyError(io: Observers, handler: ErrorHandler, message: string)
    requires io.Valid()
    requires handler.EmitErrorFor? ==> HttpsRequestBefore(io.log, |io.log|, handler.id)
    modifies io
    ensures io.Valid()
    ensures handler.LogOnly? ==> io.log == old(io.log)
    ensures handler.EmitErrorFor? ==> io.log == old(io.log) + [Error(handler.id, message)]
  {
    if handler.EmitErrorFor? {
      ghost var before := io.log;
      io.Emit(Error(handler.id, message));
      assert forall j :: 0 <= j < |before| && before[j].Error? ==>
        HttpsRequestBefore(before, j, before[j].id);
      forall j | 0 <= j < |io.log| && io.log[j].Error?
        ensures HttpsRequestBefore(io.log, j, io.log[j].id)
      {
        if j < |before| {
          assert HttpsRequestBefore(before, j, before[j].id);
          var i :| 0 <= i < j && before[i].Request? && before[i].request.id == before[j].id
                   && before[i].request.protocol == "https";
          assert io.log[i] == before[i];
        } else {
          assert HttpsRequestBefore(before, |before|, handler.id);
          var i :| 0 <= i < |before| && before[i].Request? && before[i].request.id == handler.id
                   && before[i].request.protocol == "https";
          assert io.log[i] == before[i];
        }
      }
    }
  }

  /** The `proxyRes` listener on the MITM forwarder: its body is empty, so
      the response status and timing are never broadcast. */
  method OnProxyResponse(io: Observers, statusCode: int)
    ensures unchanged(io)
  {
  }

  /** A whole HTTPS exchange whose forwarding fails: the `error` message
      carries the id the `request` message carried. */
  method MitmExchangeFails(io: Observers, req: IncomingRequest, requestId: string, startTime: int, message: string)
    requires io.Valid() && requestId !in Ids(io.log)
    modifies io
    ensures io.Valid()
    ensures io.log == old(io.log) + [Request(MitmRequestData(req, requestId, startTime)), Error(requestId, message)]
  {
    var fwd := HandleMitmRequest(io, req, requestId, startTime);
    assert io.log[|io.log| - 1].request.id == requestId;
    OnProxyError(io, fwd.onError, message);
  }

  // ---- CONNECT tunnels -----------------------------------------------------------

  type byte = b: int | 0 <= b < 256

  datatype Side = ClientSide | MitmSide

  /** What a socket is given to write: a string, or the raw bytes of `head`. */
  datatype Payload = Text(text: string) | Bytes(bytes: seq<byte>)

  datatype SocketAction =
    | Write(to: Side, payload: Payload)
    | Pipe(from: Side, into: Side)
    | End(side: Side)

  const ConnectionEstablished: string := "HTTP/1.1 200 Connection Established\r\n\r\n"

  /** The connect callback's four steps, in order. */
  function Splice(head: seq<byte>): seq<SocketAction> {
    [Write(ClientSide, Text(ConnectionEstablished)), Write(MitmSide, Bytes(head)),
     Pipe(MitmSide, ClientSide), Pipe(ClientSide, MitmSide)]
  }

  /** The shape of a tunnel's socket actions: before the MITM connection opens
      only teardowns; afterwards the splice, once, among teardowns. */
  ghost predicate TunnelTrace(trace: seq<SocketAction>, connected: bool, spliceAt: nat, head: seq<byte>) {
    if !connected then forall i :: 0 <= i < |trace| ==> trace[i].End?
    else
      && spliceAt + 4 <= |trace|
      && trace[spliceAt..spliceAt + 4] == Splice(head)
      && forall i :: 0 <= i < |trace| && !(spliceAt <= i < spliceAt + 4) ==> trace[i].End?
  }

  /** The only thing ever written to the client is the acknowledgement, and it
      is written before either pipe starts relaying; `head` reaches the MITM
      socket before piping too. */
  lemma AcknowledgeBeforeRelay(trace: seq<SocketAction>, connected: bool, spliceAt: nat, head: seq<byte>)
    requires TunnelTrace(trace, connected, spliceAt, head)
    ensures forall i :: 0 <= i < |trace| && trace[i].Write? && trace[i].to == ClientSide ==>
      trace[i].payload == Text(ConnectionEstablished)
    ensures forall i :: 0 <= i < |trace| && trace[i].Pipe? ==>
      exists j, k :: 0 <= j < k < i && trace[j] == Write(ClientSide, Text(ConnectionEstablished))
                                   && trace[k] == Write(MitmSide, Bytes(head))
    ensures !connected ==> forall i :: 0 <= i < |trace| ==> !trace[i].Write? && !trace[i].Pipe?
  {
    if connected {
      forall i | 0 <= i < |trace| && (trace[i].Write? || trace[i].Pipe?)
        ensures spliceAt <= i < spliceAt + 4
        ensures trace[i] == Splice(head)[i - spliceAt]
      {
        assert !trace[i].End?;
        assert trace[spliceAt..spliceAt + 4][i - spliceAt] == trace[i];
      }
      assert trace[spliceAt] == Write(ClientSide, Text(ConnectionEstablished)) by {
        assert trace[spliceAt..spliceAt + 4][0] == trace[spliceAt];
      }
      assert trace[spliceAt + 1] == Write(MitmSide, Bytes(head)) by {
        assert trace[spliceAt..spliceAt + 4][1] == trace[spliceAt + 1];
      }
    }
  }

  /** One CONNECT request on the public listener: a connection opened to the
      MITM server on localhost (never to the requested target), the two
      sockets, and the actions performed on them in order. */
  class TunnelSession {
    const target: string
    const dialHost: string
    const dialPort: nat
    var connected: bool
    var mitmErrored: bool
    var trace: seq<SocketAction>
    const head: seq<byte>
    ghost var spliceAt: nat

    ghost predicate Valid()
      reads this
    {
      TunnelTrace(trace, connected, spliceAt, head)
    }

    /** The `connect` listener, given the request target and the `head` bytes
        that came with it: `net.connect(MITM_PORT, 'localhost', ...)` and the
        two `error` listeners are set up; nothing is written yet. */
    constructor (target: string, head: seq<byte>)
      ensures Valid() && this.target == target && this.head == head
      ensures dialHost == "localhost" && dialPort == MitmPort
      ensures !connected && !mitmErrored && trace == []
    {
      this.target := target;
      dialHost, dialPort := "localhost", MitmPort;
      connected, mitmErrored, trace := false, false, [];
      this.head := head;
      spliceAt := 0;
    }

    /** The connect callback: acknowledge, send the captured `head`, then pipe
        both ways. */
    method OnMitmConnect()
      requires Valid() && !connected && !mitmErrored
      modifies this
      ensures Valid() && connected && mitmErrored == old(mitmErrored)
      ensures trace == old(trace) + Splice(head)
    {
      spliceAt := |trace|;
      trace := trace + Splice(head);
      connected := true;
      assert trace[spliceAt..spliceAt + 4] == Splice(head);
    }

    /** The MITM socket's `error` listener ends the client socket. */
    method OnMitmError()
      requires Valid()
      modifies this
      ensures Valid() && mitmErrored && connected == old(connected)
      ensures trace == old(trace) + [End(ClientSide)]
    {
      trace := trace + [End(ClientSide)];
      mitmErrored := true;
      assert connected ==> trace[spliceAt..spliceAt + 4] == old(trace)[spliceAt..spliceAt + 4];
    }

    /** The client socket's `error` listener ends the MITM socket. */
    method OnClientError()
      requires Valid()
      modifies this
      ensures Valid() && connected == old(connected) && mitmErrored == old(mitmErrored)
      ensures trace == old(trace) + [End(MitmSide)]
    {
      trace := trace + [End(MitmSide)];
      assert connected ==> trace[spliceAt..spliceAt + 4] == old(trace)[spliceAt..spliceAt + 4];
    }
  }

  // ---- TLS termination by SNI ------------------------------------------------------

  /** The `tls.createSecureContext` options: leaf key, leaf certificate and the
      root certificate as a chain, all PEM. */
  datatype SecureContext = SecureContext(key: string, cert: string, ca: string)

  /** The SNI callback: a new leaf for `hostname` on every handshake, plus the
      root certificate read from disk. Either step may throw (None); the
      callback does not catch it and never reports it through `cb`. */
  function SniContext(auth: CA.Authority, codec: CA.PemCodec, hostname: string, draw: CA.Draw): (r: Option<SecureContext>)
    reads auth, auth.fs
    ensures r.Some? <==> auth.caKey.Some? && auth.caCert.Some? && CA.GetRootCertPath() in auth.fs.files
    ensures r.Some? ==> r.value.ca == auth.fs.files[CA.GetRootCertPath()]
    ensures r.Some? ==> r.value.key == codec.keyToPem(draw.keys.privateKey)
    ensures r.Some? ==> r.value.cert == codec.certToPem(CA.LeafCertificate(auth.caKey.value, auth.caCert.value, hostname, draw))
  {
    match CA.GenerateServerCert(auth.caKey, auth.caCert, codec, hostname, draw)
    case None => None
    case Some(creds) =>
      if CA.GetRootCertPath() in auth.fs.files
      then Some(SecureContext(creds.key, creds.cert, auth.fs.files[CA.GetRootCertPath()]))
      else None
  }

  /** The certificate a client receives for SNI name `hostname` names that
      host in its CN and in its only DNS subjectAltName, and chains to the root. */
  lemma SniPresentsHostname(auth: CA.Authority, codec: CA.PemCodec, hostname: string, draw: CA.Draw)
    requires CA.RoundTrips(codec)
    requires SniContext(auth, codec, hostname, draw).Some?
    ensures var ctx := SniContext(auth, codec, hostname, draw).value;
      var leaf := codec.certFromPem(ctx.cert);
      && leaf.Some?
      && CA.CommonName(leaf.value.subject) == Some(hostname)
      && CA.DnsNames(leaf.value.extensions) == [hostname]
      && CA.IssuedBy(leaf.value, auth.caCert.value, auth.caKey.value)
  {
    CA.ServerCertDecodes(auth.caKey.value, auth.caCert.value, codec, hostname, draw);
  }

  /** Handshakes never share a certificate: each presents the key pair it drew. */
  lemma SniNeverReuses(auth: CA.Authority, codec: CA.PemCodec, hostname: string, d1: CA.Draw, d2: CA.Draw)
    requires CA.RoundTrips(codec) && d1.keys.publicKey != d2.keys.publicKey
    requires SniContext(auth, codec, hostname, d1).Some?
    ensures SniContext(auth, codec, hostname, d1).value.cert != SniContext(auth, codec, hostname, d2).value.cert
  {
    CA.ServerCertsNotReused(auth.caKey.value, auth.caCert.value, codec, hostname, d1, d2);
  }

  /** Server start-up: the CA is initialised first; then the MITM server's
      default credentials are generated for "localhost". If `initCA` threw,
      the process stops before any server is created. */
  method Startup(fs: CA.FileSystem, codec: CA.PemCodec, rootDraw: CA.Draw, defaultDraw: CA.Draw)
    returns (auth: CA.Authority, outcome: CA.InitOutcome, defaults: Option<CA.ServerCredentials>)
    modifies fs
    ensures fresh(auth) && auth.fs == fs
    ensures (auth.State(), outcome) == CA.InitCAEffect(CA.CaState(None, None, old(fs.files)), codec, rootDraw)
    ensures defaults.Some? <==> !outcome.Threw?
    ensures defaults.Some? ==>
      defaults == CA.GenerateServerCert(auth.caKey, auth.caCert, codec, "localhost", defaultDraw)
  {
    auth := new CA.Authority(fs);
    outcome := auth.InitCA(codec, rootDraw);
    if outcome.Threw? {
      defaults := None;
    } else {
      defaults := CA.GenerateServerCert(auth.caKey, auth.caCert, codec, "localhost", defaultDraw);
    }
  }

  /** After a successful start the default certificate is a leaf for "localhost". */
  lemma DefaultCertIsLocalhost(caKey: CA.PrivateKey, caCert: CA.Certificate, codec: CA.PemCodec, draw: CA.Draw)
    requires CA.RoundTrips(codec)
    ensures var creds := CA.GenerateServerCert(Some(caKey), Some(caCert), codec, "localhost", draw);
      && creds.Some?
      && codec.certFromPem(creds.value.cert).Some?
      && CA.CommonName(codec.certFromPem(creds.value.cert).value.subject) == Some("localhost")
  {
    CA.ServerCertDecodes(caKey, caCert, codec, "localhost", draw);
  }
}
