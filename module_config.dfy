/** The module-wide security configuration (`module(load="omczmq" ...)`)
    and the single CURVE authenticator actor it may start. */
module ModuleConfig {
  import opened Types

  /** modConfData_s: the security settings of one configuration load. */
  datatype ModConf = ModConf(
    authenticator: int,
    authType: Option<string>,
    serverCertPath: Option<string>,
    clientCertPath: Option<string>)

  /** The settings beginCnfLoad starts from. */
  const EmptyModConf: ModConf := ModConf(0, None, None, None)

  /** The module parameters as the host's parameter parser delivers them;
      string parameters carry the converted C string (NULL on failure). */
  datatype ModParams = ModParams(
    authenticator: Param<int>,
    authtype: Param<Option<string>>,
    clientcertpath: Param<Option<string>>,
    servercertpath: Param<Option<string>>)

  /** The wildcard client-certificate path that admits any client key. */
  const AnyClient: string := "*"

  /** Which client keys the authenticator admits under CURVE. */
  datatype CurvePolicy = AllowAny | CertDirectory(path: string)

  /** A started zauth actor, told "CURVE" with its policy. */
  datatype AuthActor = AuthActor(curve: CurvePolicy)

  /** setModCnf's update: every used parameter overwrites its field. */
  function ApplyModParams(conf: ModConf, p: ModParams): (r: ModConf)
    ensures p.authenticator.Given? ==> r.authenticator == p.authenticator.value
    ensures p.authenticator.Unused? ==> r.authenticator == conf.authenticator
    ensures p.authtype.Given? ==> r.authType == p.authtype.value
    ensures p.authtype.Unused? ==> r.authType == conf.authType
    ensures p.servercertpath.Given? ==> r.serverCertPath == p.servercertpath.value
    ensures p.servercertpath.Unused? ==> r.serverCertPath == conf.serverCertPath
    ensures p.clientcertpath.Given? ==> r.clientCertPath == p.clientcertpath.value
    ensures p.clientcertpath.Unused? ==> r.clientCertPath == conf.clientCertPath
  {
    conf.(
      authenticator := if p.authenticator.Given? then p.authenticator.value else conf.authenticator,
      authType := if p.authtype.Given? then p.authtype.value else conf.authType,
      serverCertPath := if p.servercertpath.Given? then p.servercertpath.value else conf.serverCertPath,
      clientCertPath := if p.clientcertpath.Given? then p.clientcertpath.value else conf.clientCertPath)
  }

  /** activateCnf's effect on the actor: started only when the
      authenticator is switched on (== 1) and none runs yet; a running actor
      is kept as it is. */
  predicate CanStart(conf: ModConf, actor: Option<AuthActor>) {
    conf.authenticator == 1 && actor.None?
  }

  function StartAuth(conf: ModConf, actor: Option<AuthActor>): (r: Option<AuthActor>)
    requires CanStart(conf, actor) ==> conf.clientCertPath.Some?
    ensures actor.Some? ==> r == actor
    ensures actor.None? ==> (r.Some? <==> conf.authenticator == 1)
    ensures actor.None? && r.Some? ==>
      (r.value.curve == AllowAny <==> conf.clientCertPath.value == AnyClient)
    ensures actor.None? && r.Some? && r.value.curve.CertDirectory? ==>
      r.value.curve.path == conf.clientCertPath.value
  {
    if CanStart(conf, actor) then
      var path := conf.clientCertPath.value;
      Some(AuthActor(if path == AnyClient then AllowAny else CertDirectory(path)))
    else actor
  }

  /** Activating a configuration twice starts the actor at most once. */
  lemma StartAuthIdempotent(conf: ModConf, actor: Option<AuthActor>)
    requires CanStart(conf, actor) ==> conf.clientCertPath.Some?
    ensures StartAuth(conf, StartAuth(conf, actor)) == StartAuth(conf, actor)
  {
  }

  /** From a fresh load with one parameter block: the actor starts exactly
      when `authenticator` was given as 1, and admits any client exactly
      when `clientcertpath` was "*". */
  lemma LoadedAuthenticator(p: ModParams)
    requires p.authenticator == Given(1) ==> p.clientcertpath.Given? && p.clientcertpath.value.Some?
    ensures var conf := ApplyModParams(EmptyModConf, p);
      var r := StartAuth(conf, None);
      (r.Some? <==> p.authenticator == Given(1)) &&
      (r.Some? ==> (r.value.curve == AllowAny <==> p.clientcertpath == Given(Some(AnyClient))))
  {
  }

  /** The module globals `runModConf` and `authActor`. */
  class Module {
    var runModConf: Option<ModConf>
    var authActor: Option<AuthActor>

    /** The globals' static initial values. */
    constructor ()
      ensures runModConf == None && authActor == None
    {
      runModConf := None;
      authActor := None;
    }

    /** beginCnfLoad: the new configuration starts without security. */
    method BeginCnfLoad()
      modifies this
      ensures runModConf == Some(EmptyModConf) && authActor == old(authActor)
    {
      runModConf := Some(EmptyModConf);
    }

    /** setModCnf: a missing parameter block is an error and changes
        nothing; otherwise each used parameter is stored. */
    method SetModCnf(params: Option<ModParams>) returns (ret: RsRet)
      requires runModConf.Some?
      modifies this
      ensures authActor == old(authActor)
      ensures params.None? ==> ret == MissingCnfParams && runModConf == old(runModConf)
      ensures params.Some? ==>
        ret == Ok && runModConf == Some(ApplyModParams(old(runModConf.value), params.value))
    {
      if params.None? {
        return MissingCnfParams;
      }
      runModConf := Some(ApplyModParams(runModConf.value, params.value));
      ret := Ok;
    }

    /** endCnfLoad: loading is over. */
    method EndCnfLoad()
      modifies this
      ensures runModConf == None && authActor == old(authActor)
    {
      runModConf := None;
    }

    /** activateCnf: the configuration becomes the running one and the
        authenticator actor is started if it is enabled and not running. */
    method ActivateCnf(conf: ModConf)
      requires CanStart(conf, authActor) ==> conf.clientCertPath.Some?
      modifies this
      ensures runModConf == Some(conf)
      ensures authActor == StartAuth(conf, old(authActor))
    {
      runModConf := Some(conf);
      if conf.authenticator == 1 {
        if authActor.None? {
          var path := conf.clientCertPath.value;
          if path == AnyClient {
            authActor := Some(AuthActor(AllowAny));
          } else {
            authActor := Some(AuthActor(CertDirectory(path)));
          }
        }
      }
    }

    /** freeCnf: the actor is destroyed (a no-op when none runs). */
    method FreeCnf()
      modifies this
      ensures authActor == None && runModConf == old(runModConf)
    {
      authActor := None;
    }
  }

  /** A whole configuration cycle: load, set, end, activate twice, free. The
      actor runs after activation exactly when enabled, and is gone after
      teardown. */
  method ConfigurationCycle(p: ModParams) returns (running: Option<AuthActor>, after: Option<AuthActor>)
    requires p.authenticator == Given(1) ==> p.clientcertpath.Given? && p.clientcertpath.value.Some?
    ensures running.Some? <==> p.authenticator == Given(1)
    ensures running.Some? ==> (running.value.curve == AllowAny <==> p.clientcertpath == Given(Some(AnyClient)))
    ensures after.None?
  {
    var m := new Module();
    m.BeginCnfLoad();
    var _ := m.SetModCnf(Some(p));
    var conf := m.runModConf.value;
    m.EndCnfLoad();
    m.ActivateCnf(conf);
    m.ActivateCnf(conf);
    running := m.authActor;
    LoadedAuthenticator(p);
    StartAuthIdempotent(conf, None);
    m.FreeCnf();
    after := m.authActor;
  }
}
