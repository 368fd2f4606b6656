# CyberProxy interception core, modelled in Dafny

CyberProxy is a man-in-the-middle forward proxy. It forwards plain HTTP requests.
It turns CONNECT requests into tunnels to an internal TLS server. That server forges a
leaf certificate for the hostname the client names in SNI, signed by a locally generated
root authority. Every captured request is broadcast to dashboard observers over socket.io.
The dashboard keeps a list of captured exchanges and renders a status badge and a
duration cell per row.

The project models three parts of that system:

- `dashboard.dfy` (module `Dashboard`): the dashboard's `request` and `response`
  listeners as pure functions on the list of rows, the method, status, duration and
  connection classifiers, and the empty-list notice.
- `authority.dfy` (module `CertificateAuthority`): the root certificate and the leaf
  certificates as records built field by field. `initCA` and `generateRootCA` are methods
  of a class holding `caKey` and `caCert` over a class holding the files. Each is proved
  equal to a pure effect function, and the lifecycle lemmas are stated about that function.
- `proxy.dfy` (module `InterceptionProxy`): the handlers of the public listener and of the
  MITM server. Each is a method that appends to the broadcast log or records socket
  actions on a tunnel. The SNI callback is a function of the authority's state.

Supporting files:

- `js_values.dfy` (module `JsValues`): optional fields, number truthiness, decimal text
  of integers and its parser, and first-index search.
- `events.dfy` (module `Events`): the three socket.io message payloads.
- `end_to_end.dfy` (module `EndToEnd`): feeds the proxy's broadcast to the dashboard.
  Because no handler emits `response`, every row stays "Pending..." with duration "-".

Inputs the code takes from its environment are parameters:

- RSA key pairs are opaque handles.
- `Math.random()` is a real in [0, 1).
- The two `new Date()` readings per certificate are separate `Date` values.
- `uuidv4()` is an id that does not occur in the log yet.
- `Date.now()` is an integer.
- forge's PEM encoders and decoders are a `PemCodec` record of functions. A decoder
  that throws returns None. Lemmas that need lossless storage assume `RoundTrips(codec)`.

The code has no leaf-certificate cache and no single-flight generation: every SNI
handshake mints a new certificate. Leaf serials are not unique
(`DistinctDrawsShareSerial`). No `response` message is ever sent. The plain-HTTP path
reports and forwards the whole request target rather than splitting it into authority
and path. A failed connection to the MITM server ends the client socket without writing
an error response.

## Model

| member | source | states |
|---|---|---|
| Dashboard.OnRequest | client/src/App.jsx:14-16 | a `request` message yields a list one longer whose head is the new record and whose tail is the old list; the set of ids gains exactly the new id |
| Dashboard.OnResponse | client/src/App.jsx:18-23 | a `response` keeps the length and the id at every position; rows with another id are unchanged; rows with its id become the merged record |
| Dashboard.MergeKeepsRequestFields | client/src/App.jsx:21 | a merged row keeps method, url, headers, timestamp and protocol, takes statusCode and duration from the response, and has status equal to statusCode |
| Dashboard.UnmatchedResponseIsNoOp | client/src/App.jsx:20-22 | a response whose id no row has leaves the list unchanged |
| Dashboard.ResponseIdempotent | client/src/App.jsx:20-22 | applying the same response twice equals applying it once |
| Dashboard.ReplayLength | client/src/App.jsx:14-23 | after any stream of messages the list has grown by exactly the number of `request` messages (`error` has no listener) |
| Dashboard.NoticeHiddenAfterRequest | client/src/App.jsx:88-92 | once a `request` message has arrived, the "No requests captured yet" notice is never shown again |
| Dashboard.MethodTone | client/src/App.jsx:60-62 | the method badge is blue iff GET, green iff POST, gray otherwise |
| Dashboard.StatusCellOf | client/src/App.jsx:69-76 | a falsy status (absent or 0) shows "Pending..."; otherwise a badge with the code's text, green for 200..299, red for >= 400, yellow otherwise |
| Dashboard.ResponseShowsStatus | client/src/App.jsx:69-76 | after a matching response the status cell is "Pending..." exactly when the status code is 0 |
| Dashboard.DurationCell | client/src/App.jsx:82 | the duration cell is "-" exactly when the duration is absent or 0 |
| Dashboard.DurationCellRoundTrip | client/src/App.jsx:82 | a truthy duration n is shown as text that reads back as n ("<n>ms"); a falsy one as text that reads back as nothing |
| Dashboard.Indicator | client/src/App.jsx:39 | the connection dot is green iff the status text is 'Connected', red otherwise |
| Dashboard.IndicatorFollowsLastEvent | client/src/App.jsx:11-12 | starting from 'Disconnected', the dot is green iff the latest socket lifecycle event was a connect |
| CertificateAuthority.RootCertificate | server/ca.js:24-63 | the root is self-issued with CN "CyberProxy Root CA", has basicConstraints cA=true, is signed with its own key using SHA-256, has serial '01', notBefore the first clock reading, and notAfter the second clock reading with its year set to notBefore's year + 10 |
| CertificateAuthority.LeafSerial | server/ca.js:75 | the leaf serial is the decimal text, at most five digits, of floor(random * 100000), an integer in [0, 99999] |
| CertificateAuthority.LeafSerialsCollideWithinBucket | server/ca.js:75 | two leaves get the same serial exactly when their random numbers have the same floor(r * 100000) |
| CertificateAuthority.DistinctDrawsShareSerial | server/ca.js:75 | the random numbers 0.0 and 0.000001 both give serial "0" |
| CertificateAuthority.LeafCertificate | server/ca.js:71-111 | the leaf's subject CN and its only DNS subjectAltName (type 2) are the hostname; its issuer is the root's subject and it is signed with the root key; cA=false; the keyUsage set is present; notBefore is the first clock reading and notAfter the second with its year set to notBefore's year + 1 |
| CertificateAuthority.ValidityFromOneReading | server/ca.js:30-32 | when both clock readings agree on a day other than 29 February, the root is valid for exactly ten years and a leaf (ca.js:76-78) for exactly one |
| CertificateAuthority.ValidityAcrossNewYear | server/ca.js:76-78 | readings taken at 2025-12-31 23:59:59.999 and 2026-01-01 00:00 give a leaf valid for 1 ms and a root (ca.js:30-32) valid until 2035-01-01, nine years and 1 ms |
| CertificateAuthority.GenerateServerCert | server/ca.js:71-117 | `generateServerCert` fails exactly while caKey or caCert is unset; otherwise it returns the PEM of the fresh private key and of that leaf |
| CertificateAuthority.ServerCertDecodes | server/ca.js:110-116 | with a lossless codec, the returned PEM decodes to the fresh key and to the leaf for the hostname |
| CertificateAuthority.ServerCertsNotReused | server/ca.js:72-75 | two calls that draw different key pairs return different certificates, even for the same hostname |
| CertificateAuthority.GetRootCertPath | server/ca.js:119-121 | the root certificate path is not the key path |
| CertificateAuthority.InitCAEffect | server/ca.js:11-22 | when both files exist nothing is written and the root is loaded, or loading throws at the first PEM that fails to decode; otherwise a new root is generated, both files are written and no other file changes |
| CertificateAuthority.InitCAPersistsRoot | server/ca.js:11-67 | after a successful start with a lossless codec, the key file decodes to caKey and the certificate file served for download decodes to caCert |
| CertificateAuthority.RestartReusesRoot | server/ca.js:12-17 | a restart over the files left by a successful start loads the same root key and certificate and writes nothing |
| CertificateAuthority.PartialStoreIsReplaced | server/ca.js:12-21 | when only one of the two files exists, a new key is generated and overwrites the key file |
| CertificateAuthority.FileSystem.WriteFile | server/ca.js:66-67 | a write replaces one file's contents and leaves the others unchanged |
| CertificateAuthority.Authority.constructor | server/ca.js:9 | caKey and caCert start unset |
| CertificateAuthority.Authority.InitCA | server/ca.js:11-22 | the new caKey, caCert, files and outcome are exactly those of InitCAEffect on the old state |
| CertificateAuthority.Authority.GenerateRootCA | server/ca.js:24-69 | caKey becomes the drawn key, caCert the root certificate, and both files are written with their PEM |
| InterceptionProxy.MitmRequestData | server/index.js:78-85 | the `request` payload of a decrypted request has protocol 'https', timestamp the start time, the request's method and headers, and url = forwarding target + request path |
| InterceptionProxy.PlainRequestData | server/index.js:124-131 | the `request` payload of a plain request has protocol 'http' and the raw request target as url |
| InterceptionProxy.MitmUrlSplitsBack | server/index.js:81 | when the Host header has no '/' and the path starts with '/', splitting the reported URL at its first '/' gives back the Host header and the path |
| InterceptionProxy.ErrorMatchesRequest | server/index.js:95-98 | in a well-formed log every `error` message is preceded by exactly one `request` message with its id, and that one has protocol 'https' |
| InterceptionProxy.AppendRequestKeepsWellFormed | server/index.js:75-88 | appending a `request` with an id not yet in the log keeps ids unique, errors correlated and responses absent |
| InterceptionProxy.Observers.Emit | server/index.js:88 | an emit appends exactly one message |
| InterceptionProxy.HandleMitmRequest | server/index.js:74-99 | the handler appends exactly one `request` message, then forwards to "https://" + Host with verification off and an error callback bound to the same id |
| InterceptionProxy.HandlePlainRequest | server/index.js:118-136 | the handler appends one 'http' `request` message and forwards to the raw request target with a console-only error callback |
| InterceptionProxy.OnProxyError | server/index.js:95-98 | a failure on the MITM path appends an `error` message with the request's id; a failure on the plain path appends nothing |
| InterceptionProxy.OnProxyResponse | server/index.js:106-111 | the `proxyRes` listener changes nothing, so no `response` message is ever sent |
| InterceptionProxy.MitmExchangeFails | server/index.js:75-98 | a failed HTTPS exchange adds a `request` message and then an `error` message with the same id |
| InterceptionProxy.AcknowledgeBeforeRelay | server/index.js:143-163 | the only write to the client is "HTTP/1.1 200 Connection Established\r\n\r\n"; it and the write of `head` to the MITM socket precede both pipes; a tunnel that never connected writes and pipes nothing |
| InterceptionProxy.TunnelSession.constructor | server/index.js:139-143 | a CONNECT dials localhost on the MITM port, whatever its target, keeps the `head` bytes it arrived with, and performs no socket action yet |
| InterceptionProxy.TunnelSession.OnMitmConnect | server/index.js:143-153 | on connection: acknowledge to the client, write the CONNECT's own `head` to the MITM socket, pipe MITM to client, pipe client to MITM, in that order |
| InterceptionProxy.TunnelSession.OnMitmError | server/index.js:155-158 | an error on the MITM socket ends the client socket |
| InterceptionProxy.TunnelSession.OnClientError | server/index.js:160-163 | an error on the client socket ends the MITM socket |
| InterceptionProxy.SniContext | server/index.js:58-70 | every handshake gets a freshly minted leaf for the SNI hostname, the fresh key, and the root certificate read from disk; it fails if the CA is unset or the root file is missing |
| InterceptionProxy.SniPresentsHostname | server/index.js:58-69 | the certificate a client decodes names the SNI hostname as CN and as its only DNS subjectAltName, and is issued by the root in memory |
| InterceptionProxy.SniNeverReuses | server/index.js:58-61 | two handshakes that draw different keys present different certificates for the same hostname |
| InterceptionProxy.Startup | server/index.js:20-73 | the CA is initialised before the MITM server's default credentials are generated for 'localhost'; a throwing `initCA` stops start-up |
| InterceptionProxy.DefaultCertIsLocalhost | server/index.js:73 | the default certificate's CN is 'localhost' |
| EndToEnd.StaysPending | server/index.js:106-111 | without `response` messages no dashboard row ever gains a status or a duration |
| EndToEnd.DashboardNeverCompletes | server/index.js:106-111 | a dashboard fed any suffix of the proxy's broadcast shows "Pending..." and "-" in every row |

## Left out

- RSA key generation, SHA-256 signing, DER/PEM encoding and `tls.createSecureContext` are library calls. Keys are opaque handles, a signature records only its key and digest, PEM is a codec parameter, and a secure context is the record of its three options.
- forge fills in the missing `name`, `shortName` and type OID of each attribute. The model keeps attributes as written, so "issuer equals root subject" is stated on the attributes as `caCert.subject` holds them.
- `Date` is abstracted to local year, month, day and time of day. Only `setFullYear`'s rule that 29 February becomes 1 March is modelled. The two clock readings per certificate are independent inputs.
- Validity periods: the two `new Date()` readings per certificate are taken separately, as the code does, so a pair that straddles a change of year shortens the period (`ValidityAcrossNewYear`); the model states this rather than a fixed length.
- The model does not check that a loaded root key matches a loaded root certificate, and neither does the code.
- File I/O errors in `existsSync`, `readFileSync` and `writeFileSync` are left out; the files are a path-to-contents map. `path.join(__dirname, …)` becomes bare file names.
- socket.io transport, the express routes (`/cert` download, `/`), console logging and `listen` calls are I/O.
- `http-proxy` forwarding to the origin and the byte relaying done by `pipe` are left out. Only the options passed and the order in which piping starts are modelled.
- Handlers are atomic steps; interleaving between concurrent connections is not modelled.
- The dashboard's `toLocaleTimeString` column, the listener clean-up (`socket.off`) and all markup beyond the classifiers are rendering.
- Numbers are integers, so NaN and fractional durations are not modelled. A `response` payload is assumed to carry exactly id, statusCode and duration. Header values are strings; repeated headers that Node joins or lists are not modelled.
- SniContext: None stands for any throw from `generateServerCert` or `readFileSync`. The callback neither catches it nor calls `cb(err)`, so in Node it is an uncaught exception in the process, not a refused handshake; the model does not separate the two.
- LeafSerial: computes `random * 100000` exactly on reals. JavaScript multiplies in binary floating point, so near a bucket edge the rounded product can reach the next integer and give the next serial; the range 0..99999 holds either way.
- `uuidv4()` is assumed to return an id not yet in the log (`requires requestId !in Ids(io.log)`); uniqueness of real UUIDs is not proved.
