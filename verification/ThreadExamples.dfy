/** Two runs from the empty store that show where promises about threads end: a reopening that was requested
    before a failed message sets the last-message time back, and a topic assigned to a reply keeps it apart. */
module ThreadExamples {
  import opened Text
  import opened States
  import opened Routing
  import opened Threads
  import opened ThreadInvariant
  import opened ThreadSteps
  import opened ThreadConfluence

  function Empty(now: int): Store {
    Store(map[], map[], map[], now, 0)
  }

  lemma Begin(s: Store) returns (states: seq<Store>, steps: seq<Step>)
    requires Linked(s)
    ensures IsRun(states, steps) && states[0] == states[|steps|] == s
  {
    states, steps := [s], [];
  }

  /** A run goes on with one more step. */
  lemma Then(states: seq<Store>, steps: seq<Step>, step: Step, r: Store) returns (more: seq<Store>, taken: seq<Step>)
    requires IsRun(states, steps) && Does(states[|steps|], step, r)
    ensures IsRun(more, taken) && more[0] == states[0] && more[|taken|] == r
  {
    more, taken := states + [r], steps + [step];
  }

  // --- A backdated reopening ------------------------------------------------------------------

  /** Conversation 0 is the only one and holds the messages `times`, all FAILED but the pending one. */
  ghost predicate Holds(s: Store, topic: Topic, base: string, times: map<MessageId, int>, pending: Option<MessageId>) {
    && s.conversations.Keys == {0} && s.conversations[0].topic == Some(topic) && s.conversations[0].base == Some(base)
    && s.messages.Keys == times.Keys
    && forall m | m in times ::
         && s.messages[m].conversation == 0 && s.messages[m].emailCreatedAt == times[m]
         && s.messages[m].state == if pending == Some(m) then Pending else Failed
  }

  lemma Opened(s: Store, token: string, topic: Topic, participant: string, base: string, from: string,
        at: int) returns (r: Store)
    requires s == Empty(s.now) && at <= s.now
    ensures Does(s, OpenTopic(0, 0, token, topic, participant, base, from, at, at), r) && r.now == s.now
    ensures Holds(r, topic, base, map[0 := at], Some(0))
  {
    r := Apply(s, OpenTopic(0, 0, token, topic, participant, base, from, at, at));
  }

  lemma Refused(s: Store, topic: Topic, base: string, times: map<MessageId, int>, m: MessageId) returns (r: Store)
    requires Holds(s, topic, base, times, Some(m)) && m in times
    ensures Does(s, Settle(m, Failed, None), r) && r.now == s.now
    ensures Holds(r, topic, base, times, None)
  {
    r := Apply(s, Settle(m, Failed, None));
  }

  lemma Reopened(s: Store, topic: Topic, base: string, times: map<MessageId, int>, m: MessageId, participant: string,
        from: string, at: int) returns (r: Store)
    requires Holds(s, topic, base, times, None) && m !in times && at <= s.now
    ensures Does(s, ReopenFailed(0, m, topic, participant, base, from, at), r) && r.now == s.now
    ensures Holds(r, topic, base, times[m := at], Some(m)) && r.conversations[0].lastMessageAt == at
  {
    r := Apply(s, ReopenFailed(0, m, topic, participant, base, from, at));
  }

  /** A request takes its time `early` and waits; another takes the time `late`, reopens the topic and its send
      is refused. Then the first finds only failed messages, and sets `lastMessageAt` back before the latest message. */
  lemma ReopeningMaySetBack(token: string, topic: Topic, participant: string, base: string, from: string,
        early: int, late: int) returns (states: seq<Store>, steps: seq<Step>)
    requires early < late
    ensures IsRun(states, steps) && states[0] == Empty(late)
    ensures var r := states[|steps|];
            && 0 in r.conversations && r.conversations[0].topic == Some(topic) && r.conversations[0].lastMessageAt == early
            && IsLatest(r, 0, late) && !IsLatest(r, 0, early)
  {
    hide Does, IsRun, Holds, IsLatest;
    states, steps := Begin(Empty(late));
    var s := Opened(Empty(late), token, topic, participant, base, from, early);
    states, steps := Then(states, steps, OpenTopic(0, 0, token, topic, participant, base, from, early, early), s);
    s := Refused(s, topic, base, map[0 := early], 0);
    states, steps := Then(states, steps, Settle(0, Failed, None), s);
    s := Reopened(s, topic, base, map[0 := early], 1, participant, from, late);
    states, steps := Then(states, steps, ReopenFailed(0, 1, topic, participant, base, from, late), s);
    s := Refused(s, topic, base, map[0 := early, 1 := late], 1);
    states, steps := Then(states, steps, Settle(1, Failed, None), s);
    s := Reopened(s, topic, base, map[0 := early, 1 := late], 2, participant, from, early);
    states, steps := Then(states, steps, ReopenFailed(0, 2, topic, participant, base, from, early), s);
    HoldsLatest(s, topic, base, early, late);
  }

  lemma HoldsLatest(s: Store, topic: Topic, base: string, early: int, late: int)
    requires early < late && Holds(s, topic, base, map[0 := early, 1 := late][2 := early], Some(2))
    ensures 0 in s.conversations && s.conversations[0].topic == Some(topic) && IsLatest(s, 0, late) && !IsLatest(s, 0, early)
  {
    assert s.messages[1].emailCreatedAt == late;
  }

  // --- A topic assigned to a reply before its parent's Message-ID is on record --------------------

  /** Mail that answers nothing on record. */
  lemma FreshMail(s: Store, e: Email, c: ConversationId, m: MessageId, token: string) returns (r: Store)
    requires Core(s) && c !in s.conversations && s.nextConversation <= c && m !in s.messages && FreshToken(s, token)
    requires !AlreadyProjected(s, e) && Candidates(e.recipients) == [] && EffectiveParent(e) != Some(e.internetId)
    requires Eligible(s, e) == {} && Waiting(s, e.internetId, Lower(e.from)) == {}
    ensures Does(s, Receive(e, Draw([], [], c, m, token), []), r)
    ensures r.messages == s.messages[m := NewMessage(e, c, None)] && r.aliases == s.aliases && r.now == s.now && r.nextConversation == c + 1
    ensures r.conversations == s.conversations[c := NewConversation(e, token)]
  {
    hide Core, LastOk, Eligible, Waiting, Candidates, AlreadyProjected, EffectiveParent, References, ChosenConversation, ProjectInbound, FreshToken;
    CoreParts(s);
    var d := Draw([], [], c, m, token);
    RelatedBeatRouting(s, e, d, []);
    NewMailIs(s, e, d, []);
    r := Apply(s, Receive(e, d, []));
  }

  /** What the exchange is about: a first mail, the reply sent to it as `sent`, whose Message-ID is `id`, and an answer that names only that. */
  datatype Exchange = Exchange(first: Email, sent: string, id: InternetId, answer: Email)

  /** Different ids; the answer comes from the same correspondent, through no address of the service, and does not refer to the first mail. */
  ghost predicate Fits(x: Exchange) {
    && Lower(x.first.from) == Lower(x.answer.from) && Candidates(x.first.recipients) == [] && Candidates(x.answer.recipients) == []
    && x.first.internetId != x.id && x.answer.internetId != x.id && x.first.internetId != x.answer.internetId
    && x.first.resendEmailId != x.answer.resendEmailId && x.sent != x.first.resendEmailId && x.sent != x.answer.resendEmailId
    && EffectiveParent(x.first) !in {Some(x.first.internetId), Some(x.id), Some(x.answer.internetId)}
    && EffectiveParent(x.answer) == Some(x.id) && x.first.internetId !in References(x.answer)
  }

  lemma SuchAnExchange() returns (x: Exchange)
    ensures Fits(x)
  {
    var first := Email("r0", "<a>", None, [], "ann@example.org", [], 0);
    var answer := Email("r2", "<c>", Some("<b>"), [], "ann@example.org", [], 2);
    x := Exchange(first, "r1", "<b>", answer);
    assert RawReferences(answer) == [] && References(answer) == ["<b>"];
    assert "<a>"[1] != "<b>"[1] && "<a>"[1] != "<c>"[1] && "<c>"[1] != "<b>"[1];
    assert "r0"[1] != "r1"[1] && "r0"[1] != "r2"[1] && "r1"[1] != "r2"[1];
  }

  /** Conversations and messages are numbered in the order in which they were created. */
  ghost predicate Counts(s: Store, conversations: nat, messages: nat) {
    && (forall c: nat :: c in s.conversations <==> c < conversations) && (forall m: nat :: m in s.messages <==> m < messages)
    && s.nextConversation == conversations
  }

  predicate IsMailRow(row: Message, e: Email, c: ConversationId) {
    && row.conversation == c && row.parent.None? && row.state == Inbound && row.resendEmailId == Some(e.resendEmailId)
    && row.internetId == Some(e.internetId) && row.inReplyTo == EffectiveParent(e)
  }

  predicate IsReplyRow(row: Message, x: Exchange, resendEmailId: Option<string>) {
    && row.conversation == 0 && row.parent == Some(0) && row.state == (if resendEmailId.Some? then Accepted else Pending)
    && row.internetId.None? && row.resendEmailId == resendEmailId
  }

  /** The first mail is stored. */
  ghost predicate HasFirst(s: Store, x: Exchange, token: string) {
    && Counts(s, 1, 1) && s.aliases == map[]
    && s.conversations[0].participant == x.first.from && s.conversations[0].topic.None? && s.conversations[0].routingToken == token
    && IsMailRow(s.messages[0], x.first, 0)
  }

  /** And the reply to it. */
  ghost predicate HasReply(s: Store, x: Exchange, token: string, resendEmailId: Option<string>) {
    && Counts(s, 1, 2) && s.aliases == map[]
    && s.conversations[0].participant == x.first.from && s.conversations[0].topic.None? && s.conversations[0].routingToken == token
    && IsMailRow(s.messages[0], x.first, 0) && IsReplyRow(s.messages[1], x, resendEmailId)
  }

  /** And the answer to that, in a conversation of its own. */
  ghost predicate HasAnswer(s: Store, x: Exchange, topic: Option<Topic>) {
    && Counts(s, 2, 3)
    && s.conversations[0].participant == x.first.from && s.conversations[0].topic.None?
    && s.conversations[1].participant == x.answer.from && s.conversations[1].topic == topic
    && (topic.None? ==> s.conversations[1].apiVersion.None?)
    && IsMailRow(s.messages[0], x.first, 0) && IsReplyRow(s.messages[1], x, Some(x.sent)) && IsMailRow(s.messages[2], x.answer, 1)
  }

  lemma FirstArrives(x: Exchange, token: string, now: int) returns (r: Store)
    requires Fits(x)
    ensures Does(Empty(now), Receive(x.first, Draw([], [], 0, 0, token), []), r)
    ensures HasFirst(r, x, token) && r.conversations[0].base.None?
  {
    hide Core, EffectiveParent, References, Candidates, Does;
    EmptyStoreIsSound(now);
    SoundParts(Empty(now), {});
    r := FreshMail(Empty(now), x.first, 0, 0, token);
  }

  lemma ReplyIsStored(s: Store, x: Exchange, token: string, base: string, from: string) returns (r: Store)
    requires HasFirst(s, x, token) && s.conversations[0].base.None?
    ensures Does(s, Reply(0, 0, 1, base, from, s.now), r)
    ensures HasReply(r, x, token, None)
  {
    hide EffectiveParent, References, ProjectInbound, RecordId, BuildReferences, Answers, ApplyAutomaticState;
    r := Apply(s, Reply(0, 0, 1, base, from, s.now));
  }

  lemma ReplyIsAccepted(s: Store, x: Exchange, token: string) returns (r: Store)
    requires HasReply(s, x, token, None) && Fits(x)
    ensures Does(s, Settle(1, Accepted, Some(x.sent)), r)
    ensures HasReply(r, x, token, Some(x.sent))
  {
    hide EffectiveParent, References, Candidates, ProjectInbound, RecordId, Answers;
    r := Apply(s, Settle(1, Accepted, Some(x.sent)));
  }

  lemma AnswerIsNew(s: Store, x: Exchange, token: string)
    requires Linked(s) && HasReply(s, x, token, Some(x.sent)) && Fits(x)
    ensures Eligible(s, x.answer) == {} && Waiting(s, x.answer.internetId, Lower(x.answer.from)) == {} && !AlreadyProjected(s, x.answer)
  {
    hide EffectiveParent, References, Candidates, Lower;
    assert forall m | m in s.messages :: m == 0 || m == 1;
  }

  lemma AnswerArrives(s: Store, x: Exchange, token: string, other: string) returns (r: Store)
    requires Core(s) && HasReply(s, x, token, Some(x.sent)) && Fits(x) && token != other
    ensures Does(s, Receive(x.answer, Draw([], [], 1, 2, other), []), r)
    ensures HasAnswer(r, x, None)
  {
    hide Core, EffectiveParent, References, Candidates, Does, IsReplyRow, Eligible, Waiting, AlreadyProjected;
    CoreParts(s);
    AnswerIsNew(s, x, token);
    r := FreshMail(s, x.answer, 1, 2, other);
  }

  lemma AnswerIsAssigned(s: Store, x: Exchange, topic: Topic) returns (r: Store)
    requires HasAnswer(s, x, None)
    ensures Does(s, Assign(1, topic), r)
    ensures HasAnswer(r, x, Some(topic))
  {
    hide EffectiveParent, References, ProjectInbound, RecordId, Answers;
    r := Apply(s, Assign(1, topic));
  }

  lemma AnswerWaits(s: Store, x: Exchange, topic: Topic)
    requires Linked(s) && HasAnswer(s, x, Some(topic)) && Fits(x)
    ensures 1 in s.messages && 2 in s.messages && Recordable(s, 1, x.id)
    ensures Participant(s, 1) == Lower(x.answer.from) && Waiting(s, x.id, Participant(s, 1)) == {2}
    ensures s.messages[1].conversation == 0 && s.messages[1].state == Accepted && s.messages[1].internetId.None?
    ensures s.messages[2].conversation == 1 && s.messages[2].inReplyTo == Some(x.id) && Home(s, 2).topic.Some?
  {
    hide EffectiveParent, References, Candidates, Lower;
    assert forall m | m in s.messages :: m == 0 || m == 1 || m == 2;
  }

  lemma IdIsRecorded(s: Store, x: Exchange, topic: Topic, at: Option<int>) returns (r: Store)
    requires Valid(s) && HasAnswer(s, x, Some(topic)) && Fits(x)
    ensures Does(s, Record(1, x.id, at, [2]), r)
    ensures 1 in r.messages && r.messages[1].internetId == Some(x.id) && 2 in r.messages && r.messages[2].inReplyTo == Some(x.id)
    ensures r.messages[2].conversation != r.messages[1].conversation && r.messages[2].parent.None?
  {
    hide Sound, Core, LastOk, RecordId, Waiting, Fits, ProjectInbound, Answers, HasAnswer;
    SoundParts(s, s.conversations.Keys);
    AnswerWaits(s, x, topic);
    r := Apply(s, Record(1, x.id, at, [2]));
    RecordJoinsReplyIff(s, 1, x.id, at, [2], 2);
    RecordPutsOnRecord(s, 1, x.id, at, [2], 2);
  }

  /** The correspondent answers a reply whose Message-ID is not on record yet, the answer's conversation is given a
      topic, and only then the Message-ID arrives: the answer stays in another conversation and has no parent. */
  lemma AssignedReplyStaysApart(x: Exchange, token: string, other: string, base: string, from: string, topic: Topic,
        at: Option<int>, now: int) returns (states: seq<Store>, steps: seq<Step>)
    requires Fits(x) && token != other
    ensures IsRun(states, steps) && states[0] == Empty(now)
    ensures var r := states[|steps|];
            && 1 in r.messages && 2 in r.messages && r.messages[1].internetId == Some(x.id) && r.messages[2].inReplyTo == Some(x.id)
            && r.messages[2].conversation != r.messages[1].conversation && r.messages[2].parent.None?
  {
    hide Does, IsRun, Fits, HasReply, HasAnswer, Sound, Core;
    EmptyStoreIsSound(now);
    states, steps := Begin(Empty(now));
    var s := FirstArrives(x, token, now);
    states, steps := Then(states, steps, Receive(x.first, Draw([], [], 0, 0, token), []), s);
    var t := ReplyIsStored(s, x, token, base, from);
    states, steps := Then(states, steps, Reply(0, 0, 1, base, from, s.now), t);
    t := ReplyIsAccepted(t, x, token);
    states, steps := Then(states, steps, Settle(1, Accepted, Some(x.sent)), t);
    RunKeepsValid(states, steps, |steps|);
    SoundParts(t, t.conversations.Keys);
    t := AnswerArrives(t, x, token, other);
    states, steps := Then(states, steps, Receive(x.answer, Draw([], [], 1, 2, other), []), t);
    t := AnswerIsAssigned(t, x, topic);
    states, steps := Then(states, steps, Assign(1, topic), t);
    RunKeepsValid(states, steps, |steps|);
    t := IdIsRecorded(t, x, topic, at);
    states, steps := Then(states, steps, Record(1, x.id, at, [2]), t);
  }
}
