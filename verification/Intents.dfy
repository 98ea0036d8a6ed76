/** Idempotent intent (src/lib/conversation-v2.ts, src/lib/direct-email-v2.ts): requests of all
    kinds under one idempotency key, answered by handlers that look the key up, work for a
    while, and insert under a unique constraint. */
module Intents {
  import opened Text
  import opened Outbox

  type MessageId = nat
  type ConversationId = nat
  type HandlerId = nat

  datatype Operation = Opening | Reply | Direct

  datatype Body = Body(content: string, attachments: nat)

  /** What is hashed: the operation with its delivery mode, the conversation of a reply, and the
      body. The hash is taken to be injective, so the request stands for its own hash. */
  datatype Request = Request(operation: Operation, queued: bool, conversation: Option<ConversationId>, body: Body)

  datatype Kind = ConversationKind | DirectKind

  /** `conversation` may change when conversations merge. */
  datatype Message = Message(key: string, hash: Request, kind: Kind, conversation: Option<ConversationId>)

  datatype Response = Created(message: MessageId) | Replayed(message: MessageId) | Rejected

  /** `recovered` tells that the handler went on to `recoverPendingMessage`. */
  datatype Answer = Answer(key: string, request: Request, response: Response, recovered: bool)

  datatype Handler = Handler(key: string, request: Request)

  /** The message table, the message ids queued in either outbox table, the handlers past their lookup, and all answers given. */
  datatype Service = Service(
    messages: map<MessageId, Message>,
    outbox: set<MessageId>,
    attachmentOutbox: set<MessageId>,
    handlers: map<HandlerId, Handler>,
    answers: seq<Answer>)

  /** `outboxRelationData`. */
  function LaneFor(r: Request): Lane {
    if !r.queued then SyncLane else if r.body.attachments > 0 then AttachmentLane else BatchLane
  }

  function KindFor(r: Request): Kind {
    if r.operation == Direct then DirectKind else ConversationKind
  }

  predicate Holds(s: Service, m: MessageId, key: string) {
    m in s.messages && s.messages[m].key == key
  }

  /** The comparison of a stored message with a request under the same key. */
  predicate Matches(row: Message, r: Request) {
    match r.operation
    case Opening => row.kind == ConversationKind && row.conversation.Some? && row.hash == r
    case Reply => row.hash == r && row.conversation == r.conversation
    case Direct => row.kind == DirectKind && row.hash == r
  }

  /** The answer when the key is taken by `m`; a synchronous request then tries to recover a pending send. */
  function Replay(s: Service, m: MessageId, key: string, r: Request): Answer
    requires m in s.messages
  {
    if Matches(s.messages[m], r) then Answer(key, r, Replayed(m), !r.queued) else Answer(key, r, Rejected, false)
  }

  datatype Step =
    | Arrive(handler: HandlerId, key: string, request: Request, existing: Option<MessageId>)
    | Commit(handler: HandlerId, message: MessageId, target: ConversationId, raced: Option<MessageId>)
    | Refuse(handler: HandlerId)
    | Merge(message: MessageId, into: ConversationId)
    | Finish(message: MessageId)

  /** A lookup by the unique column. */
  ghost predicate IsLookup(s: Service, key: string, found: Option<MessageId>) {
    match found
    case Some(m) => Holds(s, m, key)
    case None => forall m | m in s.messages :: s.messages[m].key != key
  }

  ghost predicate Enabled(s: Service, step: Step) {
    match step
    case Arrive(h, key, r, existing) => h !in s.handlers && (r.operation == Reply <==> r.conversation.Some?) && IsLookup(s, key, existing)
    case Commit(h, m, _, raced) => h in s.handlers && m !in s.messages && m !in s.outbox && m !in s.attachmentOutbox && IsLookup(s, s.handlers[h].key, raced)
    case Refuse(h) => h in s.handlers
    case Merge(m, _) => m in s.messages && s.messages[m].kind == ConversationKind
    case Finish(m) => m in s.outbox + s.attachmentOutbox
  }

  ghost function Apply(s: Service, step: Step): Service
    requires Enabled(s, step)
  {
    match step
    case Arrive(h, key, r, existing) =>
      if existing.Some? then s.(answers := s.answers + [Replay(s, existing.value, key, r)])
      else s.(handlers := s.handlers[h := Handler(key, r)])
    case Commit(h, m, target, raced) =>
      var key, r := s.handlers[h].key, s.handlers[h].request;
      if raced.Some? then s.(handlers := s.handlers - {h}, answers := s.answers + [Replay(s, raced.value, key, r)])
      else
        var conversation := match r.operation case Opening => Some(target) case Reply => r.conversation case Direct => None;
        Service(
          s.messages[m := Message(key, r, KindFor(r), conversation)],
          if LaneFor(r) == BatchLane then s.outbox + {m} else s.outbox,
          if LaneFor(r) == AttachmentLane then s.attachmentOutbox + {m} else s.attachmentOutbox,
          s.handlers - {h},
          s.answers + [Answer(key, r, Created(m), false)])
    case Refuse(h) =>
      s.(handlers := s.handlers - {h}, answers := s.answers + [Answer(s.handlers[h].key, s.handlers[h].request, Rejected, false)])
    case Merge(m, c) => s.(messages := s.messages[m := s.messages[m].(conversation := Some(c))])
    case Finish(m) => s.(outbox := s.outbox - {m}, attachmentOutbox := s.attachmentOutbox - {m})
  }

  ghost predicate IsRun(states: seq<Service>, steps: seq<Step>) {
    && |states| == |steps| + 1
    && forall i | 0 <= i < |steps| :: Enabled(states[i], steps[i]) && states[i + 1] == Apply(states[i], steps[i])
  }

  // --- The invariant --------------------------------------------------------------------------------------

  ghost predicate KeysOk(s: Service) {
    && (forall a, b | a in s.messages && b in s.messages && s.messages[a].key == s.messages[b].key :: a == b)
    && (forall m | m in s.messages :: s.messages[m].kind == KindFor(s.messages[m].hash))
  }

  /** A queued message is in the table of its lane and in no other. */
  ghost predicate LanesOk(s: Service) {
    && (forall m | m in s.outbox :: m in s.messages && LaneFor(s.messages[m].hash) == BatchLane)
    && (forall m | m in s.attachmentOutbox :: m in s.messages && LaneFor(s.messages[m].hash) == AttachmentLane)
  }

  predicate Named(a: Answer) {
    !a.response.Rejected?
  }

  ghost predicate AnswerOk(s: Service, a: Answer) {
    && (Named(a) ==> a.response.message in s.messages && s.messages[a.response.message].key == a.key && s.messages[a.response.message].hash == a.request)
    && (a.recovered ==> a.response.Replayed? && LaneFor(a.request) == SyncLane)
  }

  ghost predicate AnswersOk(s: Service) {
    && (forall i | 0 <= i < |s.answers| :: AnswerOk(s, s.answers[i]))
    && (forall i, j | 0 <= i < j < |s.answers| && s.answers[i].response.Created? && s.answers[j].response.Created? ::
          s.answers[i].response != s.answers[j].response)
  }

  ghost predicate Valid(s: Service) {
    KeysOk(s) && LanesOk(s) && AnswersOk(s)
  }

  /** Messages and the hash, key and kind under which they were created only accumulate. */
  ghost predicate Grows(s: Service, r: Service) {
    && (forall m | m in s.messages :: m in r.messages && r.messages[m].key == s.messages[m].key
          && r.messages[m].hash == s.messages[m].hash && r.messages[m].kind == s.messages[m].kind)
    && s.answers <= r.answers
  }

  lemma StepGrows(s: Service, step: Step)
    requires Enabled(s, step)
    ensures Grows(s, Apply(s, step))
  {
  }

  lemma StepKeepsTables(s: Service, step: Step)
    requires KeysOk(s) && LanesOk(s) && Enabled(s, step)
    ensures KeysOk(Apply(s, step)) && LanesOk(Apply(s, step))
  {
  }

  lemma StepKeepsAnswers(s: Service, step: Step)
    requires AnswersOk(s) && Enabled(s, step)
    ensures AnswersOk(Apply(s, step))
  {
    StepGrows(s, step);
    var r := Apply(s, step);
    forall i | 0 <= i < |r.answers| ensures AnswerOk(r, r.answers[i]) {
      if i < |s.answers| {
        assert r.answers[i] == s.answers[i] && AnswerOk(s, s.answers[i]);
      }
    }
  }

  lemma StepKeepsValid(s: Service, step: Step)
    requires Valid(s) && Enabled(s, step)
    ensures Valid(Apply(s, step))
  {
    StepKeepsTables(s, step);
    StepKeepsAnswers(s, step);
  }

  lemma {:induction false} RunKeepsValid(states: seq<Service>, steps: seq<Step>, i: nat)
    requires IsRun(states, steps) && Valid(states[0]) && i < |states|
    ensures Valid(states[i])
  {
    hide Valid, Enabled, Apply;
    if i > 0 {
      RunKeepsValid(states, steps, i - 1);
      StepKeepsValid(states[i - 1], steps[i - 1]);
    }
  }

  lemma {:induction false} RunGrows(states: seq<Service>, steps: seq<Step>, i: nat, j: nat)
    requires IsRun(states, steps) && i <= j < |states|
    ensures Grows(states[i], states[j])
    decreases j
  {
    hide Enabled, Apply;
    if i < j {
      RunGrows(states, steps, i, j - 1);
      StepGrows(states[j - 1], steps[j - 1]);
    }
  }

  // --- Promises over whole runs -------------------------------------------------------------------------------

  /** Over any interleaving of handlers, an idempotency key names at most one message: all answers
      that name a message under the key name the same one, they are answers to the same
      request, and at most one of them created it. */
  lemma KeyNamesOneMessage(states: seq<Service>, steps: seq<Step>, n: nat, i: nat, j: nat)
    requires IsRun(states, steps) && Valid(states[0]) && n < |states|
    requires i < j < |states[n].answers|
    requires states[n].answers[i].key == states[n].answers[j].key && Named(states[n].answers[i]) && Named(states[n].answers[j])
    ensures states[n].answers[i].response.message == states[n].answers[j].response.message
    ensures states[n].answers[i].request == states[n].answers[j].request
    ensures !(states[n].answers[i].response.Created? && states[n].answers[j].response.Created?)
  {
    hide IsRun;
    RunKeepsValid(states, steps, n);
    var s := states[n];
    assert AnswerOk(s, s.answers[i]) && AnswerOk(s, s.answers[j]);
  }

  /** A request under a taken key creates nothing and moves nothing between lanes; it gets the
      message if and only if it is the request that created it and, for a reply, the message is
      still in the named conversation. */
  lemma ReplayReturnsOrRejects(s: Service, step: Step, m: MessageId)
    requires Valid(s) && Enabled(s, step)
    requires (step.Arrive? && Holds(s, m, step.key)) || (step.Commit? && Holds(s, m, s.handlers[step.handler].key))
    ensures var r := Apply(s, step);
            var request := if step.Arrive? then step.request else s.handlers[step.handler].request;
            && r.messages == s.messages && r.outbox == s.outbox && r.attachmentOutbox == s.attachmentOutbox
            && |r.answers| == |s.answers| + 1
            && r.answers[|s.answers|].response == (if s.messages[m].hash == request && (request.operation == Reply ==> s.messages[m].conversation == request.conversation)
                                                      && (request.operation == Opening ==> s.messages[m].conversation.Some?)
                                                   then Replayed(m) else Rejected)
  {
  }

  /** The lane of a message is decided when it is created and never changes. */
  lemma LaneIsFixed(states: seq<Service>, steps: seq<Step>, i: nat, j: nat, m: MessageId)
    requires IsRun(states, steps) && Valid(states[0]) && i <= j < |states| && m in states[i].messages
    ensures m in states[j].messages && LaneFor(states[j].messages[m].hash) == LaneFor(states[i].messages[m].hash)
    ensures m in states[j].outbox ==> m !in states[j].attachmentOutbox && LaneFor(states[i].messages[m].hash) == BatchLane
    ensures m in states[j].attachmentOutbox ==> LaneFor(states[i].messages[m].hash) == AttachmentLane
  {
    hide IsRun;
    RunGrows(states, steps, i, j);
    RunKeepsValid(states, steps, j);
  }

  /** Recovery, which sends synchronously, is only ever tried for a message of the synchronous lane. */
  lemma RecoveryIsSynchronous(states: seq<Service>, steps: seq<Step>, n: nat, i: nat)
    requires IsRun(states, steps) && Valid(states[0]) && n < |states| && i < |states[n].answers| && states[n].answers[i].recovered
    ensures var a := states[n].answers[i];
            && Named(a) && a.response.message in states[n].messages
            && LaneFor(states[n].messages[a.response.message].hash) == SyncLane
            && a.response.message !in states[n].outbox && a.response.message !in states[n].attachmentOutbox
  {
    hide IsRun;
    RunKeepsValid(states, steps, n);
    assert AnswerOk(states[n], states[n].answers[i]);
  }

  /** A request whose key is free creates one message, queued with its attachments in the attachment table, queued
      without in the outbox, and otherwise in neither; the request is answered with it. */
  lemma CreatedIs(s: Service, step: Step)
    requires Enabled(s, step) && step.Commit? && step.raced.None?
    ensures var r, m, handler := Apply(s, step), step.message, s.handlers[step.handler];
            && (forall o | o in s.messages :: s.messages[o].key != handler.key)
            && r.messages == s.messages[m := r.messages[m]] && r.messages[m].key == handler.key && r.messages[m].hash == handler.request
            && (match handler.request.operation
                case Opening => r.messages[m].kind == ConversationKind && r.messages[m].conversation == Some(step.target)
                case Reply => r.messages[m].kind == ConversationKind && r.messages[m].conversation == handler.request.conversation
                case Direct => r.messages[m].kind == DirectKind && r.messages[m].conversation.None?)
            && (m in r.attachmentOutbox <==> handler.request.queued && handler.request.body.attachments > 0)
            && (m in r.outbox <==> handler.request.queued && handler.request.body.attachments == 0)
            && r.attachmentOutbox - {m} == s.attachmentOutbox && r.outbox - {m} == s.outbox
            && r.handlers == s.handlers - {step.handler}
            && r.answers == s.answers + [Answer(handler.key, handler.request, Created(m), false)]
  {
  }

  /** Only a synchronous request that gets its message again goes on to recover it. */
  lemma RecoversIff(s: Service, step: Step)
    requires Enabled(s, step) && ((step.Arrive? && step.existing.Some?) || (step.Commit? && step.raced.Some?))
    ensures var r, request := Apply(s, step), if step.Arrive? then step.request else s.handlers[step.handler].request;
            && |r.answers| == |s.answers| + 1
            && (r.answers[|s.answers|].recovered <==> r.answers[|s.answers|].response.Replayed? && !request.queued)
  {
  }

  lemma EmptyServiceIsValid()
    ensures Valid(Service(map[], {}, {}, map[], []))
  {
  }
}
