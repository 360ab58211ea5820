/** One omczmq action instance (instanceData): its construction from the
    action parameters (newActInst), the lazy socket initialisation and the
    topic loop of outputCZMQ, and tryResume. */
module OutputAction {
  import opened Types
  import opened TopicList
  import opened ActionConfig
  import opened ModuleConfig
  import opened SocketLifecycle
  import opened TopicRouter

  /** The run-time part of an instance: its socket (NULL or not), its role
      and whether a send has failed. */
  datatype Runtime = Runtime(sock: Option<Socket>, serverish: bool, sendError: bool)

  /** A new instance has no socket, the connector role and no send error. */
  const FreshRuntime: Runtime := Runtime(None, false, false)

  /** What one outputCZMQ call returns, sends and leaves behind. */
  datatype OutputOutcome = OutputOutcome(ret: RsRet, attempted: seq<Message>, runtime: Runtime)

  /** outputCZMQ: initialise the socket if there is none (returning the
      initialisation's error unchanged), then send the plan until the first
      refused send. */
  function OutputSpec(cfg: Settings, rt: Runtime, ppString: seq<string>, mod: ModConf, t: Transport,
                      rcs: seq<int>): (o: OutputOutcome)
    requires Rendered(cfg, ppString) && |rcs| >= |Plan(cfg, ppString)|
    // an existing socket is used as it is, however it was left
    ensures rt.sock.Some? ==> o.runtime.sock == rt.sock && o.runtime.serverish == rt.serverish
    // a failed initialisation sends nothing and passes its code on
    ensures rt.sock.None? && InitSpec(cfg, rt.serverish, mod, t).ret != Ok ==>
      o.ret == InitSpec(cfg, rt.serverish, mod, t).ret && o.attempted == []
    // success means every planned send was made and accepted
    ensures o.ret == Ok ==>
      o.attempted == Plan(cfg, ppString) && forall k :: 0 <= k < |o.attempted| ==> rcs[k] == 0
    // a refused send is the last one made
    ensures o.ret == Suspended && o.attempted != [] ==>
      o.attempted <= Plan(cfg, ppString) && rcs[|o.attempted| - 1] != 0
    // with a socket in place, the sends are the plan up to the first refusal,
    // and the call returns RS_RET_SUSPENDED exactly when one was refused
    ensures rt.sock.Some? || InitSpec(cfg, rt.serverish, mod, t).ret == Ok ==>
      var d := Deliver(Plan(cfg, ppString), rcs);
      o.attempted == d.attempted && o.ret == (if d.failed then Suspended else Ok)
    // the send-error flag is set by a refused send and never cleared
    ensures o.runtime.sendError == (rt.sendError || (o.attempted != [] && o.ret != Ok))
  {
    var init := if rt.sock.Some? then InitOutcome(Ok, rt.sock, rt.serverish)
                else InitSpec(cfg, rt.serverish, mod, t);
    if init.ret != Ok then OutputOutcome(init.ret, [], Runtime(init.sock, init.serverish, rt.sendError))
    else
      var d := Deliver(Plan(cfg, ppString), rcs);
      OutputOutcome(if d.failed then Suspended else Ok, d.attempted,
                    Runtime(init.sock, init.serverish, rt.sendError || d.failed))
  }

  /** What tryResume returns and leaves behind. */
  datatype ResumeOutcome = ResumeOutcome(ret: RsRet, runtime: Runtime)

  /** tryResume: destroy the socket, whatever its state, and run the whole
      initialisation again. */
  function ResumeSpec(cfg: Settings, rt: Runtime, mod: ModConf, t: Transport): (o: ResumeOutcome)
    ensures o.runtime.sendError == rt.sendError
    ensures o.ret == Ok <==> t.canCreate && CertsLoad(mod, t) && t.canAttach
    ensures o.ret == Err <==> t.canCreate && !CertsLoad(mod, t)
    ensures o.ret == Suspended <==> !t.canCreate || (CertsLoad(mod, t) && !t.canAttach)
    // only a failed creation leaves the instance without a socket
    ensures o.runtime.sock.None? <==> !t.canCreate
    ensures o.ret == Ok ==> o.runtime.sock.Some? && o.runtime.sock.value.attached.Some?
  {
    var init := InitSpec(cfg, rt.serverish, mod, t);
    ResumeOutcome(init.ret, Runtime(init.sock, init.serverish, rt.sendError))
  }

  /** The resumed socket does not depend on the socket it replaces: there
      is no partial repair. */
  lemma ResumeDiscardsSocket(cfg: Settings, rt: Runtime, other: Option<Socket>, mod: ModConf, t: Transport)
    ensures ResumeSpec(cfg, rt, mod, t) == ResumeSpec(cfg, rt.(sock := other), mod, t)
  {
  }

  /** A socket whose initialisation failed after it was created (a
      certificate that did not load, an attach that failed) stays in the
      instance, so the next call does not initialise again but sends on it,
      unattached. */
  lemma LateInitFailureKeepsSocket(cfg: Settings, rt: Runtime, ppString: seq<string>, mod: ModConf,
                                   t: Transport, rcs: seq<int>, t2: Transport, rcs2: seq<int>)
    requires rt.sock.None? && t.canCreate && !(CertsLoad(mod, t) && t.canAttach)
    requires Rendered(cfg, ppString) && |rcs| >= |Plan(cfg, ppString)| && |rcs2| >= |Plan(cfg, ppString)|
    ensures var first := OutputSpec(cfg, rt, ppString, mod, t, rcs);
      first.ret != Ok && first.attempted == [] && first.runtime.sock.Some? &&
      first.runtime.sock.value.attached.None? &&
      var second := OutputSpec(cfg, first.runtime, ppString, mod, t2, rcs2);
      second.runtime.sock == first.runtime.sock &&
      second.attempted == Deliver(Plan(cfg, ppString), rcs2).attempted
  {
  }

  /** After a refused send, tryResume against a transport that accepts
      everything rebuilds an attached socket, and the next call sends every
      planned message; the send-error flag stays set. */
  lemma RecoveryAfterSendFailure(cfg: Settings, rt: Runtime, ppString: seq<string>, mod: ModConf,
                                 t: Transport, rcs: seq<int>, good: Transport, zeros: seq<int>)
    requires Rendered(cfg, ppString) && |rcs| >= |Plan(cfg, ppString)|
    requires OutputSpec(cfg, rt, ppString, mod, t, rcs).ret == Suspended
    requires OutputSpec(cfg, rt, ppString, mod, t, rcs).attempted != []
    requires good.canCreate && CertsLoad(mod, good) && good.canAttach
    requires |zeros| >= |Plan(cfg, ppString)| && forall k :: 0 <= k < |zeros| ==> zeros[k] == 0
    ensures var failed := OutputSpec(cfg, rt, ppString, mod, t, rcs);
      var resumed := ResumeSpec(cfg, failed.runtime, mod, good);
      var again := OutputSpec(cfg, resumed.runtime, ppString, mod, good, zeros);
      failed.runtime.sendError && resumed.ret == Ok &&
      again.ret == Ok && again.attempted == Plan(cfg, ppString) && again.runtime.sendError
  {
    var failed := OutputSpec(cfg, rt, ppString, mod, t, rcs);
    var resumed := ResumeSpec(cfg, failed.runtime, mod, good);
    var d := Deliver(Plan(cfg, ppString), zeros);
    assert !d.failed;
  }

  /** Rendered strings laid out as the instance requested them are what the
      topic loop reads. */
  lemma RequestCoversRendering(cfg: Settings, ppString: seq<string>)
    requires cfg.dynaKey ==> cfg.topics.Some?
    requires |ppString| == |TemplateRequest(cfg)|
    ensures Rendered(cfg, ppString)
  {
  }

  /** The parameters newActInst can process without overrunning the topic
      buffer, and with a topic list to size the template request from when
      `dynakey` is on. */
  predicate ActParamsSafe(p: ActParams) {
    (p.topics.Given? && p.topics.value.Some? ==> SegmentsFit(p.topics.value.value)) &&
    (p.dynakey == Given(true) ==> p.topics.Given?)
  }

  class Instance {
    var sock: Option<Socket>
    var serverish: bool
    var sendTimeout: int
    var topics: Option<seq<string>>
    var sendError: bool
    var sockEndpoints: Option<string>
    var sockType: SockType
    var tplName: Option<string>
    var topicFrame: bool
    var dynaKey: bool

    /** The configured part of the instance. */
    function Config(): Settings
      reads this`sockEndpoints, this`sockType, this`sendTimeout, this`tplName, this`topics,
            this`topicFrame, this`dynaKey
    {
      Settings(sockEndpoints, sockType, sendTimeout, tplName, topics, topicFrame, dynaKey)
    }

    /** The run-time part of the instance. */
    function State(): Runtime
      reads this`sock, this`serverish, this`sendError
    {
      Runtime(sock, serverish, sendError)
    }

    /** createInstance and setInstParamDefaults (the zeroed allocation
        leaves `dynaKey` false). */
    constructor ()
      ensures Config() == DefaultSettings && State() == FreshRuntime
    {
      sockEndpoints := None;
      sock := None;
      sendError := false;
      serverish := false;
      tplName := None;
      sockType := Unset;
      sendTimeout := -1;
      topics := None;
      topicFrame := false;
      dynaKey := false;
    }

    /** The `topics` parameter: a new, empty list, filled by splitting the
        converted string at each comma; a NULL string is out of memory. */
    method SetTopics(converted: Option<string>) returns (ret: RsRet)
      requires converted.Some? ==> SegmentsFit(converted.value)
      modifies this`topics
      ensures converted.None? ==> ret == OutOfMemory && topics == Some([])
      ensures converted.Some? ==> ret == Ok && topics == Some(SplitTopics(converted.value))
    {
      topics := Some([]);
      if converted.None? {
        return OutOfMemory;
      }
      var s := converted.value;
      var pos := 0;
      var list: seq<string> := [];  // the zlist's contents
      assert s[pos..] == s;
      while pos < |s|
        invariant 0 <= pos <= |s| && SegmentsFit(s[pos..])
        invariant topics == Some(list)
        invariant list + SplitTopics(s[pos..]) == SplitTopics(s)
        invariant pos == |s| ==> list == SplitTopics(s)
        decreases |s| - pos
      {
        var delimiter := pos + IndexOfComma(s[pos..]);
        SplitStep(s, pos, list, delimiter);
        var topic := s[pos..delimiter];  // fits the topic buffer
        list := list + [topic];
        topics := Some(list);
        if delimiter == |s| {
          assert list == SplitTopics(s);
          break;
        }
        pos := delimiter + 1;
        assert list + SplitTopics(s[pos..]) == SplitTopics(s);
      }
      ret := Ok;
    }

    /** The CURVE block of initCZMQ on a new socket: a certificate that
        does not load ends it, leaving what was already applied. */
    method ApplySecurity(mod: ModConf, t: Transport) returns (secured: bool)
      requires sock.Some?
      modifies this`sock
      ensures var r := Secure(old(sock.value), mod, t);
        secured == r.Secured? && sock == Some(r.sock)
    {
      if mod.authType.Some? {
        if mod.authType.value == CurveServer {
          var serverCert := LoadCert(t, mod.serverCertPath);
          if serverCert.None? {
            return false;
          }
          sock := Some(sock.value.(zapDomain := Some(ZapDomain)));
          sock := Some(sock.value.(curveServer := true));
          sock := Some(sock.value.(keyPair := serverCert));
        } else if mod.authType.value == CurveClient {
          var serverCert := LoadCert(t, mod.serverCertPath);
          if serverCert.None? {
            return false;
          }
          var serverKey := serverCert.value.publicKey;
          sock := Some(sock.value.(serverKey := Some(serverKey)));
          var clientCert := LoadCert(t, mod.clientCertPath);
          if clientCert.None? {
            return false;
          }
          sock := Some(sock.value.(keyPair := clientCert));
        }
      }
      secured := true;
    }

    /** initCZMQ, step by step on the instance's socket. */
    method Init(mod: ModConf, t: Transport) returns (ret: RsRet)
      modifies this
      ensures Config() == old(Config()) && sendError == old(sendError)
      ensures InitOutcome(ret, sock, serverish) == InitSpec(old(Config()), old(serverish), mod, t)
    {
      if !t.canCreate {
        sock := None;
        return Suspended;
      }
      sock := Some(NewSocket(sockType));
      sock := Some(sock.value.(sendTimeout := sendTimeout));

      var secured := ApplySecurity(mod, t);
      if !secured {
        return Err;
      }

      match sockType {
        case Pub => serverish := true;
        case Push => serverish := false;
        case Dealer => serverish := false;
        case Unset =>
      }

      if !t.canAttach {
        return Suspended;
      }
      sock := Some(sock.value.(attached := Some(Attachment(sockEndpoints, serverish))));
      ret := Ok;
    }

    /** outputCZMQ: `rcs[k]` is the transport's answer to the k-th send. */
    method Output(ppString: seq<string>, mod: ModConf, t: Transport, rcs: seq<int>)
      returns (ret: RsRet, attempted: seq<Message>)
      requires Rendered(Config(), ppString) && |rcs| >= |Plan(Config(), ppString)|
      modifies this
      ensures Config() == old(Config())
      ensures OutputOutcome(ret, attempted, State()) ==
              OutputSpec(old(Config()), old(State()), ppString, mod, t, rcs)
    {
      attempted := [];
      if sock.None? {
        ret := Init(mod, t);
        if ret != Ok {
          return;
        }
      }
      ret, attempted := Publish(ppString, rcs);
      if ret != Ok {
        sendError := true;
      }
    }

    /** The sends of outputCZMQ once the socket exists: the topic loop on a
        PUB socket with a topic list, the template index advancing with the
        list cursor; a single payload frame otherwise. A refused send ends
        the loop with RS_RET_SUSPENDED (the caller records it in
        `sendError`). */
    method Publish(ppString: seq<string>, rcs: seq<int>) returns (ret: RsRet, attempted: seq<Message>)
      requires Rendered(Config(), ppString) && |rcs| >= |Plan(Config(), ppString)|
      ensures var d := Deliver(Plan(Config(), ppString), rcs);
        attempted == d.attempted && (ret == Ok <==> !d.failed) && (ret == Ok || ret == Suspended)
    {
      ghost var plan := Plan(Config(), ppString);
      if sockType == Pub && topics.Some? {
        var list := topics.value;
        var templateIndex := 1;
        var i := 0;  // the list cursor
        attempted := [];
        while i < |list|
          invariant 0 <= i <= |list| && templateIndex == i + 1
          invariant attempted == plan[..i]
          invariant forall k :: 0 <= k < i ==> rcs[k] == 0
        {
          var topic := list[i];
          if dynaKey {
            topic := ppString[templateIndex];
          }
          var message := if topicFrame then TwoFrames(topic, ppString[0])
                         else OneFrame(topic + ppString[0]);
          assert message == plan[i];
          var rc := rcs[i];
          assert plan[..i] + [plan[i]] == plan[..i + 1];
          attempted := attempted + [message];
          if rc != 0 {
            DeliverStopsAtFirstFailure(plan, rcs, i);
            return Suspended, attempted;
          }
          i := i + 1;
          templateIndex := templateIndex + 1;
        }
        assert attempted == plan;
      } else {
        var rc := rcs[0];
        attempted := [OneFrame(ppString[0])];
        assert attempted == plan;
        if rc != 0 {
          DeliverStopsAtFirstFailure(plan, rcs, 0);
          return Suspended, attempted;
        }
      }
      DeliverAllAccepted(plan, rcs);
      ret := Ok;
    }

    /** tryResume: destroy the socket and initialise again. */
    method TryResume(mod: ModConf, t: Transport) returns (ret: RsRet)
      modifies this
      ensures Config() == old(Config())
      ensures ResumeOutcome(ret, State()) == ResumeSpec(old(Config()), old(State()), mod, t)
    {
      sock := None;
      ret := Init(mod, t);
    }

    /** The parameter loop of newActInst on a new instance, in the order
        of the parameter table; it stops at the first NULL string. */
    method ApplyParams(p: ActParams) returns (ret: RsRet)
      requires Config() == DefaultSettings && ActParamsSafe(p)
      modifies this`sockEndpoints, this`sockType, this`sendTimeout, this`tplName, this`topics,
               this`topicFrame, this`dynaKey
      ensures ret == Ok <==> DecodeAct(Some(p)).Success?
      ensures ret != Ok ==> DecodeAct(Some(p)) == Failure(ret)
      ensures ret == Ok ==> Config() == DecodeAct(Some(p)).value
    {
      if p.endpoints.Given? {
        sockEndpoints := p.endpoints.value;
      }
      if p.socktype.Given? {
        var stringType := p.socktype.value;
        if stringType.None? {
          return OutOfMemory;
        }
        var decoded := DecodeSockType(stringType.value);
        if decoded != Unset {
          sockType := decoded;
        }
      }
      if p.sendtimeout.Given? {
        sendTimeout := p.sendtimeout.value;
      }
      if p.template.Given? {
        tplName := p.template.value;
      }
      if p.topics.Given? {
        ret := SetTopics(p.topics.value);
        if ret != Ok {
          return;
        }
      }
      if p.topicframe.Given? {
        topicFrame := p.topicframe.value;
      }
      if p.dynakey.Given? {
        dynaKey := p.dynakey.value;
      }
      ret := Ok;
    }
  }

  /** newActInst: a new instance with defaults, the parameters applied,
      then the template request. On an error the instance is freed. */
  method NewActInst(params: Option<ActParams>) returns (ret: RsRet, inst: Instance?, request: seq<string>)
    requires params.Some? ==> ActParamsSafe(params.value)
    ensures ret == Ok <==> DecodeAct(params).Success?
    ensures ret != Ok ==> DecodeAct(params) == Failure(ret) && inst == null && request == []
    ensures ret == Ok ==>
      inst != null && fresh(inst) &&
      inst.Config() == DecodeAct(params).value && inst.State() == FreshRuntime &&
      request == TemplateRequest(inst.Config())
  {
    if params.None? {
      return MissingCnfParams, null, [];
    }
    inst := new Instance();
    ret := inst.ApplyParams(params.value);
    if ret != Ok {
      return ret, null, [];
    }
    request := TemplateRequest(inst.Config());
  }
}
