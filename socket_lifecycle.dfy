/** initCZMQ: creating, securing and attaching an instance's socket. The
    CZMQ library is an oracle (`Transport`) that decides whether a socket
    can be created, which certificate files load, and whether the attach
    succeeds; the socket itself is the record of what was applied to it. */
module SocketLifecycle {
  import opened Types
  import opened ActionConfig
  import opened ModuleConfig

  /** A loaded CURVE certificate (zcert_t): its key pair. */
  datatype Cert = Cert(publicKey: string, secretKey: string)

  /** zsock_attach's endpoints and role: bind when `serve`, else connect. */
  datatype Attachment = Attachment(endpoints: Option<string>, serve: bool)

  /** What has been applied to a socket (zsock_t). */
  datatype Socket = Socket(
    kind: SockType,
    sendTimeout: int,
    zapDomain: Option<string>,
    curveServer: bool,
    serverKey: Option<string>,
    keyPair: Option<Cert>,
    attached: Option<Attachment>)

  /** The library's answers for one initialisation. */
  datatype Transport = Transport(
    canCreate: bool,                 // zsock_new returns a socket
    certFiles: map<string, Cert>,    // the certificate files zcert_load can read
    canAttach: bool)                 // zsock_attach returns 0 rather than -1

  /** The authentication domain a CURVE server socket is put in. */
  const ZapDomain: string := "global"

  const CurveServer: string := "CURVESERVER"
  const CurveClient: string := "CURVECLIENT"

  /** zsock_new: a socket with the library's defaults (blocking sends). */
  function NewSocket(kind: SockType): Socket {
    Socket(kind, -1, None, false, None, None, None)
  }

  /** zcert_load: a certificate when the path names a readable file; a
      NULL path is taken as a failed load. */
  function LoadCert(t: Transport, path: Option<string>): Option<Cert> {
    if path.Some? && path.value in t.certFiles then Some(t.certFiles[path.value]) else None
  }

  /** The role switch: PUB binds, PUSH and DEALER connect, any other type
      keeps the previous role. */
  function Role(kind: SockType, previous: bool): (serve: bool)
    ensures kind == Pub ==> serve
    ensures kind == Push || kind == Dealer ==> !serve
    ensures kind == Unset ==> serve == previous
  {
    match kind
    case Pub => true
    case Push => false
    case Dealer => false
    case Unset => previous
  }

  /** Only a socket of no recognised type depends on the previous role. */
  lemma RoleDependsOnPrevious(kind: SockType)
    ensures Role(kind, true) != Role(kind, false) <==> kind == Unset
  {
  }

  /** Every certificate the security mode needs can be loaded. */
  predicate CertsLoad(mod: ModConf, t: Transport) {
    if mod.authType == Some(CurveServer) then LoadCert(t, mod.serverCertPath).Some?
    else if mod.authType == Some(CurveClient) then
      LoadCert(t, mod.serverCertPath).Some? && LoadCert(t, mod.clientCertPath).Some?
    else true
  }

  /** The result of a security step: the socket as far as it got. */
  datatype SecureStep = Secured(sock: Socket) | CertFailed(sock: Socket)

  /** The CURVE configuration of the module applied to a new socket. */
  function Secure(s: Socket, mod: ModConf, t: Transport): (r: SecureStep)
    ensures r.Secured? <==> CertsLoad(mod, t)
  {
    if mod.authType == Some(CurveServer) then
      match LoadCert(t, mod.serverCertPath)
      case None => CertFailed(s)
      case Some(c) => Secured(s.(zapDomain := Some(ZapDomain), curveServer := true, keyPair := Some(c)))
    else if mod.authType == Some(CurveClient) then
      match LoadCert(t, mod.serverCertPath)
      case None => CertFailed(s)
      case Some(server) =>
        var s1 := s.(serverKey := Some(server.publicKey));
        match LoadCert(t, mod.clientCertPath)
        case None => CertFailed(s1)
        case Some(client) => Secured(s1.(keyPair := Some(client)))
    else Secured(s)
  }

  /** The instance's socket and role after initCZMQ, with its return code. */
  datatype InitOutcome = InitOutcome(ret: RsRet, sock: Option<Socket>, serverish: bool)

  /** initCZMQ on an instance with settings `cfg` and previous role
      `serverish`, under the module configuration `mod`. */
  function InitSpec(cfg: Settings, serverish: bool, mod: ModConf, t: Transport): (r: InitOutcome)
    // which step fails, and with which code
    ensures r.ret == Ok <==> t.canCreate && CertsLoad(mod, t) && t.canAttach
    ensures r.ret == Err <==> t.canCreate && !CertsLoad(mod, t)
    ensures r.ret == Suspended <==> !t.canCreate || (CertsLoad(mod, t) && !t.canAttach)
    // only a failed creation leaves the instance without a socket
    ensures r.sock.None? <==> !t.canCreate
    ensures r.sock.Some? ==> r.sock.value.kind == cfg.sockType && r.sock.value.sendTimeout == cfg.sendTimeout
    // the socket is attached only on success, with the pattern's role
    ensures r.sock.Some? ==> (r.sock.value.attached.Some? <==> r.ret == Ok)
    ensures r.ret == Ok ==> r.sock.value.attached == Some(Attachment(cfg.endpoints, r.serverish))
    ensures t.canCreate && CertsLoad(mod, t) ==>
      (cfg.sockType == Pub ==> r.serverish) &&
      (cfg.sockType == Push || cfg.sockType == Dealer ==> !r.serverish) &&
      (cfg.sockType == Unset ==> r.serverish == serverish)
    // the role is not touched before the certificates are loaded
    ensures !t.canCreate || !CertsLoad(mod, t) ==> r.serverish == serverish
  {
    if !t.canCreate then InitOutcome(Suspended, None, serverish)
    else
      var s := NewSocket(cfg.sockType).(sendTimeout := cfg.sendTimeout);
      match Secure(s, mod, t)
      case CertFailed(s1) => InitOutcome(Err, Some(s1), serverish)
      case Secured(s1) =>
        var role := Role(cfg.sockType, serverish);
        if !t.canAttach then InitOutcome(Suspended, Some(s1), role)
        else InitOutcome(Ok, Some(s1.(attached := Some(Attachment(cfg.endpoints, role)))), role)
  }

  /** The security state of a socket that initialised: CURVESERVER puts it
      in the "global" domain as a CURVE server holding the server key pair;
      CURVECLIENT gives it the server's public key and the client key pair;
      any other (or no) authentication type applies nothing. */
  lemma InitSecurity(cfg: Settings, serverish: bool, mod: ModConf, t: Transport)
    requires InitSpec(cfg, serverish, mod, t).ret == Ok
    ensures var s := InitSpec(cfg, serverish, mod, t).sock.value;
      if mod.authType == Some(CurveServer) then
        s.zapDomain == Some(ZapDomain) && s.curveServer && s.serverKey.None? &&
        s.keyPair == LoadCert(t, mod.serverCertPath)
      else if mod.authType == Some(CurveClient) then
        s.zapDomain.None? && !s.curveServer &&
        s.serverKey == Some(LoadCert(t, mod.serverCertPath).value.publicKey) &&
        s.keyPair == LoadCert(t, mod.clientCertPath)
      else
        s.zapDomain.None? && !s.curveServer && s.serverKey.None? && s.keyPair.None?
  {
  }

  /** A CURVECLIENT whose client certificate is missing has already been
      given the server key when initCZMQ gives up, and keeps that socket. */
  lemma ClientCertMissing(cfg: Settings, serverish: bool, mod: ModConf, t: Transport)
    requires t.canCreate && mod.authType == Some(CurveClient)
    requires LoadCert(t, mod.serverCertPath).Some? && LoadCert(t, mod.clientCertPath).None?
    ensures var r := InitSpec(cfg, serverish, mod, t);
      r.ret == Err && r.sock.Some? &&
      r.sock.value.serverKey == Some(LoadCert(t, mod.serverCertPath).value.publicKey) &&
      r.sock.value.keyPair.None? && r.sock.value.attached.None?
  {
  }
}
