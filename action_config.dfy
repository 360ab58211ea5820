/** Decoding of one `action(type="omczmq" ...)` statement (newActInst and
    setInstParamDefaults) and the template slots the action requests. */
module ActionConfig {
  import opened Types
  import opened TopicList

  /** The action parameters as the host's parameter parser delivers them.
      String parameters carry the converted C string, which is NULL when the
      conversion fails; `sendtimeout` carries the integer `atoi` made of it. */
  datatype ActParams = ActParams(
    endpoints: Param<Option<string>>,
    socktype: Param<Option<string>>,
    sendtimeout: Param<int>,
    template: Param<Option<string>>,
    topics: Param<Option<string>>,
    topicframe: Param<bool>,
    dynakey: Param<bool>)

  /** The configured part of an instance. */
  datatype Settings = Settings(
    endpoints: Option<string>,
    sockType: SockType,
    sendTimeout: int,
    tplName: Option<string>,
    topics: Option<seq<string>>,  // None: no `topics` parameter (NULL list)
    topicFrame: bool,
    dynaKey: bool)

  /** The defaults setInstParamDefaults gives an instance. */
  const DefaultSettings: Settings := Settings(None, Unset, -1, None, None, false, false)

  /** The template used for the payload when no `template` is given. */
  const DefaultTemplate: string := "RSYSLOG_ForwardFormat"

  /** The exact, case-sensitive socket-type name of a pattern. */
  function SockTypeName(t: SockType): string
    requires t != Unset
  {
    match t
    case Pub => "PUB"
    case Push => "PUSH"
    case Dealer => "DEALER"
  }

  /** The `socktype` string mapping: exactly "PUB", "PUSH" and "DEALER"
      select a pattern; any other string leaves the type unset. */
  function DecodeSockType(name: string): (t: SockType)
    ensures t != Unset <==> name in {"PUB", "PUSH", "DEALER"}
  {
    if name == "PUB" then Pub
    else if name == "PUSH" then Push
    else if name == "DEALER" then Dealer
    else Unset
  }

  /** Decoding and naming are inverse: every pattern is decoded from its
      name, and a decoded name is exactly the pattern's name. */
  lemma SockTypeNameRoundTrip(t: SockType, name: string)
    ensures t != Unset ==> DecodeSockType(SockTypeName(t)) == t
    ensures DecodeSockType(name) != Unset ==> SockTypeName(DecodeSockType(name)) == name
  {
  }

  /** Decoding is case-sensitive. */
  lemma SockTypeCaseSensitive()
    ensures DecodeSockType("pub") == Unset
    ensures DecodeSockType("Push") == Unset
    ensures DecodeSockType("dealer") == Unset
  {
  }

  /** The settings newActInst builds from the parameters, or the code it
      aborts with: a missing parameter block, or a NULL `socktype` or
      `topics` string (out of memory). */
  function DecodeAct(params: Option<ActParams>): (r: Result<Settings>)
    ensures params.None? ==> r == Failure(MissingCnfParams)
    ensures params.Some? ==>
      (r.Failure? <==> params.value.socktype == Given(None) || params.value.topics == Given(None))
    ensures params.Some? && r.Failure? ==> r.error == OutOfMemory
    ensures r.Success? ==>
      (r.value.sockType != Unset <==>
         params.value.socktype.Given? && params.value.socktype.value.value in {"PUB", "PUSH", "DEALER"})
    ensures r.Success? ==> (r.value.topics.Some? <==> params.value.topics.Given?)
    // the values stored for the given parameters
    ensures r.Success? && params.value.socktype.Given? ==>
      r.value.sockType == DecodeSockType(params.value.socktype.value.value)
    ensures r.Success? && params.value.topics.Given? ==>
      r.value.topics == Some(SplitTopics(params.value.topics.value.value))
    ensures r.Success? && params.value.endpoints.Given? ==> r.value.endpoints == params.value.endpoints.value
    ensures r.Success? && params.value.sendtimeout.Given? ==> r.value.sendTimeout == params.value.sendtimeout.value
    ensures r.Success? && params.value.template.Given? ==> r.value.tplName == params.value.template.value
    ensures r.Success? && params.value.topicframe.Given? ==> r.value.topicFrame == params.value.topicframe.value
    ensures r.Success? && params.value.dynakey.Given? ==> r.value.dynaKey == params.value.dynakey.value
    // the defaults kept for the unused ones
    ensures r.Success? && params.value.socktype.Unused? ==> r.value.sockType == Unset
    ensures r.Success? && params.value.sendtimeout.Unused? ==> r.value.sendTimeout == -1
    ensures r.Success? && params.value.topicframe.Unused? ==> !r.value.topicFrame
    ensures r.Success? && params.value.dynakey.Unused? ==> !r.value.dynaKey
    ensures r.Success? && params.value.template.Unused? ==> r.value.tplName.None?
    ensures r.Success? && params.value.endpoints.Unused? ==> r.value.endpoints.None?
  {
    if params.None? then Failure(MissingCnfParams)
    else
      var p := params.value;
      if p.socktype == Given(None) || p.topics == Given(None) then Failure(OutOfMemory)
      else
        Success(Settings(
          endpoints := if p.endpoints.Given? then p.endpoints.value else DefaultSettings.endpoints,
          sockType := if p.socktype.Given? then DecodeSockType(p.socktype.value.value) else DefaultSettings.sockType,
          sendTimeout := if p.sendtimeout.Given? then p.sendtimeout.value else DefaultSettings.sendTimeout,
          tplName := if p.template.Given? then p.template.value else DefaultSettings.tplName,
          topics := if p.topics.Given? then Some(SplitTopics(p.topics.value.value)) else DefaultSettings.topics,
          topicFrame := if p.topicframe.Given? then p.topicframe.value else DefaultSettings.topicFrame,
          dynaKey := if p.dynakey.Given? then p.dynakey.value else DefaultSettings.dynaKey))
  }

  /** An empty `topics` string gives an empty, but present, topic list. */
  lemma EmptyTopicsParam(p: ActParams)
    requires p.topics == Given(Some("")) && p.socktype != Given(None)
    ensures DecodeAct(Some(p)).Success?
    ensures DecodeAct(Some(p)).value.topics == Some([])
  {
  }

  /** The template slots the instance requests: slot 0 renders the payload
      (the configured template, or RSYSLOG_ForwardFormat), and with
      `dynakey` slot i renders the key of the i-th topic, whose template is
      named by the topic itself. */
  function TemplateRequest(s: Settings): (r: seq<string>)
    requires s.dynaKey ==> s.topics.Some?
    ensures |r| == if s.dynaKey then 1 + |s.topics.value| else 1
    ensures r[0] == if s.tplName.Some? then s.tplName.value else DefaultTemplate
    ensures s.dynaKey ==> forall i :: 1 <= i < |r| ==> r[i] == s.topics.value[i - 1]
  {
    var payload := if s.tplName.Some? then s.tplName.value else DefaultTemplate;
    [payload] + if s.dynaKey then s.topics.value else []
  }
}
