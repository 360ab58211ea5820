/** The sends outputCZMQ makes for one rendered message: one per topic on a
    PUB socket with a topic list, otherwise one for the payload alone; the
    first send the transport refuses ends the call. */
module TopicRouter {
  import opened Types
  import opened ActionConfig

  /** One zstr send: a single frame (zstr_send, zstr_sendf) or the two
      frames topic and payload of one message (zstr_sendx). */
  datatype Message = OneFrame(body: string) | TwoFrames(topic: string, body: string)

  /** The message for one topic: two frames with `topicframe`, otherwise the
      topic and the payload in one frame, with nothing between them. */
  function TopicMessage(topicFrame: bool, topic: string, payload: string): (m: Message)
    ensures m.TwoFrames? <==> topicFrame
    ensures topicFrame ==> m.topic == topic && m.body == payload
    ensures !topicFrame ==>
      |m.body| == |topic| + |payload| && m.body[..|topic|] == topic && m.body[|topic|..] == payload
  {
    if topicFrame then TwoFrames(topic, payload) else OneFrame(topic + payload)
  }

  /** The socket fans out over topics: a PUB socket with a topic list. */
  predicate UsesTopics(cfg: Settings) {
    cfg.sockType == Pub && cfg.topics.Some?
  }

  /** The rendered strings the host supplies hold what outputCZMQ reads:
      the payload, and with `dynakey` one key per topic after it. */
  predicate Rendered(cfg: Settings, ppString: seq<string>) {
    |ppString| >= 1 &&
    (UsesTopics(cfg) && cfg.dynaKey ==> |ppString| >= 1 + |cfg.topics.value|)
  }

  /** The topic of the send whose template index is `templateIndex`: the
      rendered key with `dynakey`, the configured name otherwise. */
  function TopicAt(dynaKey: bool, name: string, ppString: seq<string>, templateIndex: nat): string
    requires dynaKey ==> templateIndex < |ppString|
  {
    if dynaKey then ppString[templateIndex] else name
  }

  /** The topic loop from template index `templateIndex` on: one message per
      remaining topic, in list order, the index advancing on every topic. */
  function TopicPlan(topics: seq<string>, templateIndex: nat, dynaKey: bool, topicFrame: bool,
                     ppString: seq<string>): (r: seq<Message>)
    requires |ppString| >= 1
    requires dynaKey ==> templateIndex + |topics| <= |ppString|
    ensures |r| == |topics|
    ensures forall i :: 0 <= i < |topics| ==>
      r[i] == TopicMessage(topicFrame, TopicAt(dynaKey, topics[i], ppString, templateIndex + i), ppString[0])
    decreases |topics|
  {
    if topics == [] then []
    else
      [TopicMessage(topicFrame, TopicAt(dynaKey, topics[0], ppString, templateIndex), ppString[0])]
      + TopicPlan(topics[1..], templateIndex + 1, dynaKey, topicFrame, ppString)
  }

  /** Every send one call would make if the transport accepted them all. */
  function Plan(cfg: Settings, ppString: seq<string>): (r: seq<Message>)
    requires Rendered(cfg, ppString)
    ensures !UsesTopics(cfg) ==> r == [OneFrame(ppString[0])]
    ensures UsesTopics(cfg) ==> |r| == |cfg.topics.value|
    ensures UsesTopics(cfg) ==> forall i :: 0 <= i < |r| ==>
      r[i] == TopicMessage(cfg.topicFrame,
                           if cfg.dynaKey then ppString[i + 1] else cfg.topics.value[i],
                           ppString[0])
  {
    if UsesTopics(cfg) then TopicPlan(cfg.topics.value, 1, cfg.dynaKey, cfg.topicFrame, ppString)
    else [OneFrame(ppString[0])]
  }

  /** The sends made, and whether the last one failed. */
  datatype Delivery = Delivery(attempted: seq<Message>, failed: bool)

  /** Sending `plan` in order while the transport answers `rcs[k]` to the
      k-th send: sending stops after the first rc other than 0. */
  function Deliver(plan: seq<Message>, rcs: seq<int>): (d: Delivery)
    requires |rcs| >= |plan|
    ensures d.attempted <= plan
    ensures d.failed <==> exists k :: 0 <= k < |plan| && rcs[k] != 0
    ensures !d.failed ==> d.attempted == plan
    ensures d.failed ==> |d.attempted| > 0 && rcs[|d.attempted| - 1] != 0
    ensures forall k :: 0 <= k < |d.attempted| - 1 ==> rcs[k] == 0
    decreases |plan|
  {
    if plan == [] then Delivery([], false)
    else if rcs[0] != 0 then Delivery([plan[0]], true)
    else
      var rest := Deliver(plan[1..], rcs[1..]);
      Delivery([plan[0]] + rest.attempted, rest.failed)
  }

  /** The sends stop exactly at the first refused one. */
  lemma DeliverStopsAtFirstFailure(plan: seq<Message>, rcs: seq<int>, k: nat)
    requires |rcs| >= |plan| && k < |plan|
    requires rcs[k] != 0 && forall j :: 0 <= j < k ==> rcs[j] == 0
    ensures Deliver(plan, rcs) == Delivery(plan[..k + 1], true)
  {
    var d := Deliver(plan, rcs);
    assert d.failed;
    var n := |d.attempted|;
    assert rcs[n - 1] != 0 && rcs[k] != 0;
    assert n == k + 1;
  }

  /** When the transport accepts every send, the whole plan is sent. */
  lemma DeliverAllAccepted(plan: seq<Message>, rcs: seq<int>)
    requires |rcs| >= |plan| && forall k :: 0 <= k < |plan| ==> rcs[k] == 0
    ensures Deliver(plan, rcs) == Delivery(plan, false)
  {
  }

  /** With `dynakey`, the i-th send's topic is the string rendered from
      template slot i + 1, which the instance requested under the i-th
      topic's name. */
  lemma DynamicKeysFollowRequest(cfg: Settings, ppString: seq<string>, i: nat)
    requires UsesTopics(cfg) && cfg.dynaKey && Rendered(cfg, ppString)
    requires i < |cfg.topics.value|
    ensures TemplateRequest(cfg)[i + 1] == cfg.topics.value[i]
    ensures Plan(cfg, ppString)[i] == TopicMessage(cfg.topicFrame, ppString[i + 1], ppString[0])
  {
  }

  /** A PUB socket with an empty (but present) topic list sends nothing. */
  lemma EmptyTopicListSendsNothing(cfg: Settings, ppString: seq<string>)
    requires cfg.sockType == Pub && cfg.topics == Some([]) && |ppString| >= 1
    ensures Plan(cfg, ppString) == []
    ensures Deliver(Plan(cfg, ppString), []) == Delivery([], false)
  {
  }

  /** Two topics "x" and "y" with payload "P": two-frame messages with
      `topicframe`, concatenated single frames without it, and the rendered
      keys instead of the names with `dynakey`. */
  lemma TwoTopicExamples(cfg: Settings)
    requires cfg.sockType == Pub && cfg.topics == Some(["x", "y"])
    ensures !cfg.dynaKey && cfg.topicFrame ==>
      Plan(cfg, ["P"]) == [TwoFrames("x", "P"), TwoFrames("y", "P")]
    ensures !cfg.dynaKey && !cfg.topicFrame ==>
      Plan(cfg, ["P"]) == [OneFrame("xP"), OneFrame("yP")]
    ensures cfg.dynaKey && cfg.topicFrame ==>
      Plan(cfg, ["P", "k1", "k2"]) == [TwoFrames("k1", "P"), TwoFrames("k2", "P")]
  {
    if !cfg.dynaKey && !cfg.topicFrame {
      assert "x" + "P" == "xP";
      assert "y" + "P" == "yP";
    }
  }

  /** A refused first send of a two-topic loop is the only send. */
  lemma FirstSendFailsExample(plan: seq<Message>)
    requires |plan| == 2
    ensures Deliver(plan, [1, 0]) == Delivery([plan[0]], true)
  {
  }
}
