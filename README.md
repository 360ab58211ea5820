# omczmq: a verified model of rsyslog's ZeroMQ output action

omczmq is the rsyslog output module that publishes rendered log lines over
ZeroMQ through the CZMQ library. This project models its four pieces of
deterministic logic and proves what they promise:

- **Action configuration** (`newActInst`, `setInstParamDefaults`). This covers:
  - the comma splitter that turns the `topics` string into the instance's topic list;
  - the case-sensitive `socktype` decoder;
  - the template-slot request: slot 0 is the payload; with `dynakey`, slots 1..N are the topic names.
- **Topic routing** (`outputCZMQ`). On a PUB socket with a topic list it makes one send per topic:
  - two frames `(topic, payload)` with `topicframe`;
  - otherwise the single frame `topic ++ payload`.

  In any other case (not PUB, or no topic list) it makes one payload-only send. The topic comes from the list, or with `dynakey` from the rendered key `ppString[i]`. The first refused send ends the call.
- **Socket set-up and resume** (`initCZMQ`, the lazy initialisation in `outputCZMQ`, and `tryResume`). The steps are:
  - create the socket;
  - set the send timeout;
  - apply CURVESERVER or CURVECLIENT security;
  - choose bind or connect;
  - attach.

  Creation fails with RS_RET_SUSPENDED and leaves no socket. A certificate that does not load fails with RS_RET_ERR. Attach fails with RS_RET_SUSPENDED. Setting the timeout and choosing the role cannot fail. A failure after creation leaves the socket in place.
- **The module authenticator** (`beginCnfLoad`, `setModCnf`, `endCnfLoad`, `activateCnf`, `freeCnf`). This covers the module-wide CURVE settings and the single zauth actor. The actor is started at most once, allows any client exactly for the path `"*"`, and is gone after teardown.

The CZMQ library is an oracle:

- A `Transport` value says whether `zsock_new` returns a socket, which certificate files `zcert_load` can read, and whether `zsock_attach` succeeds.
- A sequence `rcs` gives the return code of each successive send.
- The socket is the record of what was applied to it: type, send timeout, ZAP domain, CURVE-server flag, server key, key pair, and attachment with its role.

Modules and files:

| file | module | contents |
|---|---|---|
| types.dfy | Types | return codes, socket types, `Option`, `Result`, used/unused parameter values |
| topics.dfy | TopicList | the splitter as a specification function, its round trips, and the 256-byte buffer condition |
| action_config.dfy | ActionConfig | action parameters, the socktype decoder, the decoded settings, the template request |
| module_config.dfy | ModuleConfig | module configuration, the authenticator as a class over the module globals |
| socket_lifecycle.dfy | SocketLifecycle | the socket record, certificate loading, security, role, `initCZMQ` as a function |
| topic_router.dfy | TopicRouter | the send plan of one call and its delivery against the send results |
| output_action.dfy | OutputAction | the instance as a class: defaults, the splitter loop, `initCZMQ`, `outputCZMQ`, `tryResume`, `newActInst` |

Each imperative part of the C code is a method of a class that updates the same fields. Each such method is proved against a specification function (`SplitTopics`, `InitSpec`, `Deliver`/`Plan`, `OutputSpec`, `ResumeSpec`, `DecodeAct`, `StartAuth`). The lemmas are proved about those functions.

## Model

| member | source | states |
|---|---|---|
| TopicList.IndexOfComma | contrib/omczmq/omczmq.c:459-462 | the delimiter is within the string, and is a comma unless it is the end |
| TopicList.NoCommaBefore | contrib/omczmq/omczmq.c:459 | no comma precedes the delimiter strchr finds |
| TopicList.SplitTopics | contrib/omczmq/omczmq.c:458-471 | the list is empty exactly when the input string is empty |
| TopicList.SplitNoCommas | contrib/omczmq/omczmq.c:458-466 | no parsed topic contains a comma |
| TopicList.SegmentsFitMeans | contrib/omczmq/omczmq.c:451-464 | every copied segment fits the 256-byte topic buffer exactly when every parsed topic is shorter than 256 |
| TopicList.SplitStep | contrib/omczmq/omczmq.c:459-470 | one loop turn: the segment fits the buffer, and appending it leaves exactly the rest after its comma to split (or the list is complete at the end) |
| TopicList.JoinSplit | contrib/omczmq/omczmq.c:458-471 | joining the topics with "," gives the input back, minus one trailing comma: nothing trimmed, order kept |
| TopicList.SplitSingle | contrib/omczmq/omczmq.c:458-468 | a non-empty, comma-free string is a single topic |
| TopicList.SplitCons | contrib/omczmq/omczmq.c:459-470 | a comma-free name followed by a comma is split off as the first topic, whatever follows |
| TopicList.SplitJoin | contrib/omczmq/omczmq.c:458-471 | splitting a joined list of comma-free names (last one non-empty) gives the list back |
| TopicList.SplitThree | contrib/omczmq/omczmq.c:458-471 | "a,b,c" gives ["a", "b", "c"] |
| TopicList.SplitEmptyMiddle | contrib/omczmq/omczmq.c:458-471 | "a,,b" gives ["a", "", "b"] |
| TopicList.SplitTrailingComma | contrib/omczmq/omczmq.c:458-471 | "a," gives ["a"], and "" gives the empty list |
| TopicList.SplitKeepsBlanks | contrib/omczmq/omczmq.c:458-471 | " x , y" gives [" x ", " y"]: blanks are kept |
| ActionConfig.DecodeSockType | contrib/omczmq/omczmq.c:427-435 | a pattern is selected exactly for "PUB", "PUSH" and "DEALER"; any other string leaves it unset |
| ActionConfig.SockTypeNameRoundTrip | contrib/omczmq/omczmq.c:427-435 | decoding a pattern's name gives the pattern, and a decoded name is exactly that pattern's name |
| ActionConfig.SockTypeCaseSensitive | contrib/omczmq/omczmq.c:427-435 | "pub", "Push" and "dealer" select nothing |
| ActionConfig.DecodeAct | contrib/omczmq/omczmq.c:400-481 | a missing parameter block gives RS_RET_MISSING_CNFPARAMS; a NULL socktype or topics string, and nothing else, gives RS_RET_OUT_OF_MEMORY; otherwise a given socktype stores DecodeSockType of the name (unset unless recognised), a given `topics` stores SplitTopics of the string, every other given value is stored as it is, and unused parameters keep their defaults (-1, false, NULL) |
| ActionConfig.EmptyTopicsParam | contrib/omczmq/omczmq.c:447-458 | topics="" gives a present but empty list |
| ActionConfig.TemplateRequest | contrib/omczmq/omczmq.c:483-505 | 1 + number of topics slots with dynakey, else 1; slot 0 is the template or RSYSLOG_ForwardFormat; slot i is the i-th topic |
| ModuleConfig.ApplyModParams | contrib/omczmq/omczmq.c:341-360 | every used module parameter overwrites its field; every unused one leaves its field as it was |
| ModuleConfig.StartAuth | contrib/omczmq/omczmq.c:306-318 | a running actor is kept; otherwise one starts exactly when authenticator is 1; it allows any client exactly when the client-certificate path is "*", and otherwise gets that path |
| ModuleConfig.StartAuthIdempotent | contrib/omczmq/omczmq.c:306-307 | activating twice starts the actor at most once |
| ModuleConfig.LoadedAuthenticator | contrib/omczmq/omczmq.c:341-360 | from a fresh load, the actor starts exactly when authenticator=1 was given, and allows any client exactly when clientcertpath="*" was given |
| ModuleConfig.Module.constructor | contrib/omczmq/omczmq.c:71-72 | no running configuration and no actor at start |
| ModuleConfig.Module.BeginCnfLoad | contrib/omczmq/omczmq.c:289-297 | the new configuration has authenticator 0 and no authtype or paths; the actor is untouched |
| ModuleConfig.Module.SetModCnf | contrib/omczmq/omczmq.c:331-377 | a missing parameter block gives RS_RET_MISSING_CNFPARAMS and changes nothing; otherwise every used parameter overwrites its field |
| ModuleConfig.Module.EndCnfLoad | contrib/omczmq/omczmq.c:379-382 | the loading configuration is cleared; the actor is untouched |
| ModuleConfig.Module.ActivateCnf | contrib/omczmq/omczmq.c:303-319 | the configuration becomes the running one and the actor becomes StartAuth of the old actor |
| ModuleConfig.Module.FreeCnf | contrib/omczmq/omczmq.c:321-329 | the actor is absent afterwards |
| ModuleConfig.ConfigurationCycle | contrib/omczmq/omczmq.c:289-329 | over load, set, end, activate twice and free: the actor runs exactly when enabled, allows any client exactly for "*", and is gone after free |
| SocketLifecycle.Secure | contrib/omczmq/omczmq.c:119-153 | the security step succeeds exactly when every certificate the mode needs loads |
| SocketLifecycle.Role | contrib/omczmq/omczmq.c:155-163 | PUB binds, PUSH and DEALER connect, any other type keeps the previous role |
| SocketLifecycle.RoleDependsOnPrevious | contrib/omczmq/omczmq.c:155-163 | the previous role matters exactly for a socket of no recognised type |
| SocketLifecycle.InitSpec | contrib/omczmq/omczmq.c:107-174 | RS_RET_OK exactly when creation, certificates and attach all succeed; RS_RET_ERR exactly on a certificate failure; RS_RET_SUSPENDED exactly on a creation or attach failure; only a creation failure leaves no socket; the socket carries the type and timeout; it is attached only on success, with the endpoints and the role; PUB binds, PUSH and DEALER connect, other types keep the role; the role is not touched before the certificates load |
| SocketLifecycle.InitSecurity | contrib/omczmq/omczmq.c:119-153 | CURVESERVER: "global" ZAP domain, CURVE server, server key pair. CURVECLIENT: the server certificate's public key and the client key pair. Any other authtype: no security applied |
| SocketLifecycle.ClientCertMissing | contrib/omczmq/omczmq.c:132-148 | a CURVECLIENT whose client certificate fails returns RS_RET_ERR with a socket that already has the server key and no key pair |
| TopicRouter.TopicMessage | contrib/omczmq/omczmq.c:195-204 | two frames (topic, payload) exactly with topicframe; otherwise one frame that is the topic followed directly by the payload, with no separator |
| TopicRouter.TopicPlan | contrib/omczmq/omczmq.c:186-216 | one message per topic in list order; the i-th uses template index start + i |
| TopicRouter.Plan | contrib/omczmq/omczmq.c:183-228 | not PUB, or no topic list: the single frame ppString[0]. Otherwise one message per topic, in order. The topic is ppString[i+1] with dynakey, else the i-th name. The message is two frames with topicframe, else topic ++ payload |
| TopicRouter.Deliver | contrib/omczmq/omczmq.c:207-210 | the sends made are a prefix of the plan; failure exactly when some planned rc is non-zero; on failure the last send made is the refused one and all earlier ones were accepted |
| TopicRouter.DeliverStopsAtFirstFailure | contrib/omczmq/omczmq.c:207-210 | the sends stop exactly after the first refused one |
| TopicRouter.DynamicKeysFollowRequest | contrib/omczmq/omczmq.c:190-193 | with dynakey, the i-th send's topic is the string rendered for slot i+1, which was requested under the i-th topic's name |
| TopicRouter.EmptyTopicListSendsNothing | contrib/omczmq/omczmq.c:185-188 | a PUB socket with an empty topic list makes no send and does not fail |
| TopicRouter.TwoTopicExamples | contrib/omczmq/omczmq.c:195-204 | for topics x, y and payload P: two-frame messages, or "xP" and "yP", or the rendered keys with dynakey |
| TopicRouter.FirstSendFailsExample | contrib/omczmq/omczmq.c:207-210 | a refused first send of two is the only send |
| OutputAction.OutputSpec | contrib/omczmq/omczmq.c:176-231 | an existing socket is used as it is; a failed initialisation sends nothing and passes its code on; once a socket is in place, the sends are Deliver of the plan and the call returns RS_RET_SUSPENDED exactly when one was refused, RS_RET_OK otherwise; RS_RET_OK means the whole plan was sent and accepted; sendError is set by a refused send and never cleared |
| OutputAction.ResumeSpec | contrib/omczmq/omczmq.c:278-287 | sendError is kept; RS_RET_OK exactly when every step succeeds, leaving an attached socket; RS_RET_ERR exactly on a certificate failure; RS_RET_SUSPENDED exactly on a creation or attach failure; only a creation failure leaves no socket |
| OutputAction.ResumeDiscardsSocket | contrib/omczmq/omczmq.c:284-285 | the outcome of tryResume does not depend on the old socket |
| OutputAction.LateInitFailureKeepsSocket | contrib/omczmq/omczmq.c:179-181 | after a failure past creation, the unattached socket stays, and the next call sends on it without initialising again |
| OutputAction.RecoveryAfterSendFailure | contrib/omczmq/omczmq.c:278-287 | after a refused send, a resume against a good transport succeeds, and the next call sends the whole plan; sendError stays set |
| OutputAction.RequestCoversRendering | contrib/omczmq/omczmq.c:483-505 | strings rendered for the requested slots cover every index the topic loop reads |
| OutputAction.Instance.constructor | contrib/omczmq/omczmq.c:233-244 | the defaults: no endpoints, socket, template or topic list; type -1; timeout -1; no topicframe; connector role; no send error |
| OutputAction.Instance.SetTopics | contrib/omczmq/omczmq.c:447-472 | the splitter loop: a NULL string leaves an empty list and gives RS_RET_OUT_OF_MEMORY; otherwise the list is SplitTopics of the string |
| OutputAction.Instance.ApplySecurity | contrib/omczmq/omczmq.c:119-153 | the CURVE block leaves the socket that Secure describes, and succeeds exactly when Secure does |
| OutputAction.Instance.Init | contrib/omczmq/omczmq.c:107-174 | the return code, socket and role are those of InitSpec; the configuration and sendError are unchanged |
| OutputAction.Instance.Output | contrib/omczmq/omczmq.c:176-231 | the return code, the sends and the new run-time state are those of OutputSpec |
| OutputAction.Instance.Publish | contrib/omczmq/omczmq.c:183-228 | the sends are those Deliver makes of Plan; RS_RET_OK exactly when none was refused, RS_RET_SUSPENDED otherwise |
| OutputAction.Instance.TryResume | contrib/omczmq/omczmq.c:278-287 | the return code and run-time state are those of ResumeSpec |
| OutputAction.Instance.ApplyParams | contrib/omczmq/omczmq.c:407-481 | the parameter loop succeeds exactly when DecodeAct does, fails with DecodeAct's code, and leaves DecodeAct's settings |
| OutputAction.NewActInst | contrib/omczmq/omczmq.c:395-509 | success exactly when DecodeAct succeeds. On success: a fresh instance with DecodeAct's settings, a fresh run-time state, and the template request of those settings. On error: DecodeAct's code and no instance |

## Left out

- ZeroMQ and CZMQ internals (`zsock_new`, `zsock_attach`, `zstr_send*`, `zcert_*`, `zactor_new(zauth)`, `zsock_wait`). They are foreign calls. Their results are parameters (`Transport` and `rcs`); their effects are recorded on the socket and actor records. A failing `zactor_new` is not modelled.
- The `mutDoAct` mutex in `doAction` and `tryResume`. Each operation is treated as atomic.
- `putenv("ZSYS_SIGHANDLER=false")`, error and debug logging, and the rsyslog module boilerplate (`queryEtryPt`, `modInit`, `parseSelectorAct`, `isCompatibleWithFeature`, `checkCnf`). These are process I/O, diagnostics and host plumbing.
- The host's parameter parsing (`nvlstGetParams`, `es_str2cstr`). Parameters arrive as used/unused values. A string's conversion result is `Option<string>`, where None is NULL.
- `atoi` on `sendtimeout`. The timeout is an opaque integer parameter.
- Memory release (`free`, `zlist_destroy`, `zcert_destroy`, `freeInstance`). Only the socket and actor becoming absent are modelled. An instance `newActInst` abandons is returned as null.
- Allocation failures of `createInstance`, `zlist_new`, `strdup` and `OMSRsetEntry`. They are not modelled.
- Handle identity. A socket is a value, so "the same socket" means the same recorded state.
- The unknown-parameter branches of `setModCnf` and `newActInst`. They cannot be reached: parameter names come from the fixed descriptor tables.
- What C stores for `topicframe`. The parameter is declared as a word, but the code reads the number member of its value, which holds the bits of the string pointer rather than the word written. So `topicframe="off"` is not honoured by the C code. The model takes the boolean the parameter is meant to carry.
- Module configuration's `tplName`. It is never set, only freed.
- OutputAction.Instance.SetTopics: requires every segment to be shorter than 256 characters. A longer one overruns the 256-byte `topic` buffer, which C leaves undefined. `TopicList.SegmentsFitMeans` shows this is the same as every topic being shorter than 256.
- OutputAction.NewActInst: requires the parameters to keep the buffer condition above. With `dynakey=on` it also requires `topics` to be given, because `zlist_size(NULL)` is not defined behaviour.
- OutputAction.Instance.ApplyParams: has the same requirement as NewActInst, and starts from the defaults `newActInst` installs.
- ActionConfig.TemplateRequest: requires a topic list when `dynakey` is on, for the same reason as NewActInst.
- ModuleConfig.Module.ActivateCnf: requires a client-certificate path when the actor is to be started, because `strcmp` on NULL is undefined. The same requirement applies to ModuleConfig.StartAuth, ModuleConfig.StartAuthIdempotent, ModuleConfig.LoadedAuthenticator and ModuleConfig.ConfigurationCycle.
- OutputAction.Instance.constructor: `setInstParamDefaults` does not set `dynaKey`. The model takes the zeroed allocation's false.
- SocketLifecycle.LoadCert: a NULL certificate path is treated as a failed load. The C code passes NULL `servercertpath` or `clientcertpath` under a CURVE `authtype` straight to `zcert_load`, whose behaviour on NULL is not defined here. So the model's RS_RET_ERR for that case is an assumption about CZMQ.
- TopicList.SegmentsFit: strings are sequences of characters, and the 256 bound counts characters. The C buffer holds 256 bytes, so a topic of non-ASCII characters can overrun it in UTF-8 while still meeting the bound.
- OutputAction.Instance.Init: the module configuration is the parameter `mod`. C reads the global `runModConf`, which `activateCnf` sets and `endCnfLoad` clears. Nothing ties `mod` to `ModuleConfig.Module.runModConf`. The same holds for Output, TryResume, OutputSpec and ResumeSpec. An `initCZMQ` call while `runModConf` is NULL is not modelled.
- OutputAction.Instance.ApplySecurity: the server key is taken to be the server certificate's public key. C reads it after `zcert_destroy`.
- OutputAction.Instance.Publish: returns the refusal, and `Output` then sets `sendError`. The C code sets the flag inside the send loop just before returning. The state reached is the same, as `Output`'s contract with `OutputSpec` states.
- OutputAction.Instance.Output: also returns the sends made, which C only performs. The sends are the model's observable trace.

Behaviours of the C code a reader might not expect:

- Topics are not trimmed (`TopicList.SplitKeepsBlanks`).
- A NULL `topics` string gives RS_RET_OUT_OF_MEMORY.
- `topics=""` gives an empty but present list (`ActionConfig.EmptyTopicsParam`), and a PUB socket with that list sends nothing.
- An unrecognised `socktype` is not rejected. The type stays -1 and is passed on to socket creation.
- A certificate that does not load gives RS_RET_ERR but leaves the created socket in the instance. The next `outputCZMQ` then sends on that unattached, partly configured socket without initialising again (`OutputAction.LateInitFailureKeepsSocket`). Under CURVECLIENT the socket keeps the server key when only the client certificate failed (`SocketLifecycle.ClientCertMissing`).
