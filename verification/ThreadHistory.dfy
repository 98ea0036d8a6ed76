/** What holds between any two states of a run: nothing is lost, what was fixed
    stays fixed, addresses keep resolving and the wait clock never restarts. */
module ThreadHistory {
  import opened Text
  import opened States
  import opened Routing
  import opened Threads
  import opened ThreadInvariant

  /** What no step takes back from a conversation row. */
  ghost predicate RowKept(before: Conversation, after: Conversation) {
    && after.routingToken == before.routingToken
    && (before.base.Some? ==> after.base == before.base)
    && (before.topic.Some? ==> after.topic == before.topic)
    && (before.apiVersion == Some(V2) ==> after.apiVersion == Some(V2))
  }

  ghost predicate MessageKept(s: Store, r: Store, m: MessageId)
    requires m in s.messages && Linked(s) && Linked(r)
  {
    && m in r.messages
    && r.messages[m].replyTo == s.messages[m].replyTo
    && r.messages[m].inReplyTo == s.messages[m].inReplyTo
    && (s.messages[m].internetId.Some? ==> r.messages[m].internetId == s.messages[m].internetId)
    && (s.messages[m].parent.Some? ==> r.messages[m].parent == s.messages[m].parent)
    && (s.messages[m].conversation in r.conversations ==> r.messages[m].conversation == s.messages[m].conversation)
    && (Home(s, m).apiVersion == Some(V2) ==> Home(r, m).apiVersion == Some(V2))
  }

  /** `r` is a later state than `s`. */
  ghost predicate Evolves(s: Store, r: Store)
    requires Linked(s) && Linked(r)
  {
    && s.nextConversation <= r.nextConversation
    && (forall c | c in r.conversations && c < s.nextConversation :: c in s.conversations)
    && (forall c | c in s.conversations && c in r.conversations :: RowKept(s.conversations[c], r.conversations[c]))
    && (forall c | c in s.conversations && s.conversations[c].topic.Some? :: c in r.conversations)
    && (forall m | m in s.messages :: MessageKept(s, r, m))
    && (forall a, b | a in s.messages && b in s.messages && s.messages[a].conversation == s.messages[b].conversation ::
          r.messages[a].conversation == r.messages[b].conversation)
    && (forall k | k in s.aliases :: k in r.aliases)
  }

  lemma EvolvesIsTransitive(s: Store, r: Store, t: Store)
    requires Linked(s) && Linked(r) && Linked(t) && IdsDrawn(s)
    requires Evolves(s, r) && Evolves(r, t)
    ensures Evolves(s, t)
  {
    forall c | c in t.conversations && c < s.nextConversation ensures c in s.conversations && c in r.conversations {
    }
    forall c | c in s.conversations && c in t.conversations ensures RowKept(s.conversations[c], t.conversations[c]) {
      assert c < s.nextConversation;
      assert RowKept(s.conversations[c], r.conversations[c]) && RowKept(r.conversations[c], t.conversations[c]);
    }
    forall c | c in s.conversations && s.conversations[c].topic.Some? ensures c in t.conversations {
      assert RowKept(s.conversations[c], r.conversations[c]);
    }
    forall m | m in s.messages ensures MessageKept(s, t, m) {
      assert MessageKept(s, r, m) && MessageKept(r, t, m);
    }
    forall a, b | a in s.messages && b in s.messages && s.messages[a].conversation == s.messages[b].conversation
      ensures t.messages[a].conversation == t.messages[b].conversation
    {
      assert MessageKept(s, r, a) && MessageKept(s, r, b);
    }
  }

  // --- One step -----------------------------------------------------------------------------

  /** The survivor of the merge inside an attachment. */
  lemma AttachKeepsRow(s: Store, c: ConversationId, sources: seq<ConversationId>, m: MessageId, row: Message,
        id: InternetId)
    requires Attachable(s, c, sources, m, row, id)
    ensures var r := Attach(s, c, sources, m, row, id);
            && SameIdentity(s.conversations[c], r.conversations[c])
            && (forall d | d in s.conversations && (d == c || d in sources) ::
                  && Precedes(r.conversations[c].clock, s.conversations[d].clock)
                  && (s.conversations[d].apiVersion == Some(V2) ==> r.conversations[c].apiVersion == Some(V2)))
            && (forall k | k in s.aliases :: k in r.aliases && r.aliases[k] == Moved(s.aliases[k], c, Ids(sources)))
  {
    hide MergeInto, Core, RowFits, RefreshLast, Attach, Moved;
    CoreParts(s);
    MergeIfIs(s, c, sources);
    AttachIs(s, c, sources, m, row, id);
    var stored := WithMessage(MergeIf(s, c, sources), m, row);
    var at := RefreshIs(SetParents(stored, Orphans(stored, id, c), m), c);
  }

  /** What the callers of an attachment keep of a message row they replace. */
  ghost predicate SameMessage(before: Message, after: Message) {
    && after.conversation == before.conversation && after.replyTo == before.replyTo && after.inReplyTo == before.inReplyTo
    && (before.internetId.Some? ==> after.internetId == before.internetId)
    && (before.parent.Some? ==> after.parent == before.parent)
  }

  lemma AttachEvolves(s: Store, c: ConversationId, sources: seq<ConversationId>, m: MessageId, row: Message,
        id: InternetId)
    requires Attachable(s, c, sources, m, row, id) && IdsDrawn(s)
    requires m in s.messages ==> SameMessage(s.messages[m], row)
    ensures Linked(s) && Evolves(s, Attach(s, c, sources, m, row, id)) && IdsDrawn(Attach(s, c, sources, m, row, id))
    ensures forall o | o in s.messages :: Precedes(Home(Attach(s, c, sources, m, row, id), o).clock, Home(s, o).clock)
  {
    hide Core, Attach, Precedes, Mergeable;
    CoreParts(s);
    AttachShape(s, c, sources, m, row, id);
    AttachKeepsRow(s, c, sources, m, row, id);
    MergeableParts(s, c, sources);
    AttachedEvolves(s, Attach(s, c, sources, m, row, id), c, sources, m, row, id);
  }

  lemma MergeableParts(s: Store, c: ConversationId, sources: seq<ConversationId>)
    requires Mergeable(s, c, sources)
    ensures c in s.conversations && c !in sources && AllLive(s, sources) && (forall x | x in sources :: s.conversations[x].topic.None?)
  {
  }

  lemma AttachedEvolves(s: Store, r: Store, c: ConversationId, sources: seq<ConversationId>, m: MessageId,
        row: Message, id: InternetId)
    requires Linked(s) && Linked(r) && Attached(s, r, c, sources, m, row, id) && IdsDrawn(s)
    requires c in s.conversations && c !in sources && (forall x | x in sources :: x in s.conversations && s.conversations[x].topic.None?)
    requires row.conversation == c && (m in s.messages ==> SameMessage(s.messages[m], row))
    requires SameIdentity(s.conversations[c], r.conversations[c])
    requires forall d | d in s.conversations && (d == c || d in sources) ::
               && Precedes(r.conversations[c].clock, s.conversations[d].clock)
               && (s.conversations[d].apiVersion == Some(V2) ==> r.conversations[c].apiVersion == Some(V2))
    requires forall k | k in s.aliases :: k in r.aliases
    ensures Evolves(s, r) && IdsDrawn(r)
    ensures forall o | o in s.messages :: Precedes(Home(r, o).clock, Home(s, o).clock)
  {
    hide Precedes;
    AttachedClocks(s, r, c, sources, m, row, id);
    hide Home;
    forall o | o in s.messages ensures r.messages[o].conversation == Moved(s.messages[o].conversation, c, Ids(sources)) {
    }
    forall o | o in s.messages ensures MessageKept(s, r, o) {
      AttachedKeepsMessage(s, r, c, sources, m, row, id, o);
    }
    hide MessageKept;
  }

  lemma AttachedKeepsMessage(s: Store, r: Store, c: ConversationId, sources: seq<ConversationId>, m: MessageId,
        row: Message, id: InternetId, o: MessageId)
    requires Linked(s) && Linked(r) && Attached(s, r, c, sources, m, row, id) && o in s.messages
    requires c in s.conversations && c !in sources && row.conversation == c && (m in s.messages ==> SameMessage(s.messages[m], row))
    requires forall d | d in s.conversations && (d == c || d in sources) ::
               s.conversations[d].apiVersion == Some(V2) ==> r.conversations[c].apiVersion == Some(V2)
    ensures MessageKept(s, r, o)
  {
  }

  lemma AttachedClocks(s: Store, r: Store, c: ConversationId, sources: seq<ConversationId>, m: MessageId,
        row: Message, id: InternetId)
    requires Linked(s) && Linked(r) && Attached(s, r, c, sources, m, row, id)
    requires c in s.conversations && c !in sources && row.conversation == c && (m in s.messages ==> SameMessage(s.messages[m], row))
    requires forall d | d in s.conversations && (d == c || d in sources) :: Precedes(r.conversations[c].clock, s.conversations[d].clock)
    ensures forall o | o in s.messages :: o in r.messages && Precedes(Home(r, o).clock, Home(s, o).clock)
  {
    hide Precedes;
    forall o | o in s.messages ensures o in r.messages && Precedes(Home(r, o).clock, Home(s, o).clock) {
      if s.messages[o].conversation != c && s.messages[o].conversation !in Ids(sources) {
        PrecedesItself(Home(s, o).clock);
      }
    }
  }

  lemma PrecedesItself(c: Clock)
    ensures Precedes(c, c)
  {
  }

  /** A row update that keeps the row. */
  lemma RowUpdateEvolves(s: Store, c: ConversationId, row: Conversation)
    requires Linked(s) && IdsDrawn(s)
    requires c in s.conversations ==> RowKept(s.conversations[c], row)
    requires c !in s.conversations ==> s.nextConversation <= c
    ensures Evolves(s, WithConversation(s, c, row)) && IdsDrawn(WithConversation(s, c, row))
  {
    var r := WithConversation(s, c, row);
    forall m | m in s.messages ensures MessageKept(s, r, m) {
    }
  }

  lemma MessageUpdateEvolves(s: Store, m: MessageId, row: Message)
    requires Linked(s) && IdsDrawn(s) && row.conversation in s.conversations
    requires m in s.messages ==> SameMessage(s.messages[m], row)
    ensures Evolves(s, WithMessage(s, m, row)) && IdsDrawn(WithMessage(s, m, row))
  {
    var r := WithMessage(s, m, row);
    forall o | o in s.messages ensures MessageKept(s, r, o) {
    }
  }

  lemma OutboundEvolves(s: Store, c: ConversationId, row: Conversation, m: MessageId, parent: Option<MessageId>,
        from: string, now: int)
    requires Linked(s) && IdsDrawn(s) && m !in s.messages && (parent.Some? ==> parent.value in s.messages)
    requires c in s.conversations ==> RowKept(s.conversations[c], row)
    requires c !in s.conversations ==> s.nextConversation <= c
    ensures Evolves(s, StoreOutbound(s, c, row, m, parent, from, now)) && IdsDrawn(StoreOutbound(s, c, row, m, parent, from, now))
  {
    RowUpdateEvolves(s, c, row);
    var t := WithConversation(s, c, row);
    MessageUpdateEvolves(t, m, OutboundRow(t, c, parent, row.base.GetOr([]), from, now));
    EvolvesIsTransitive(s, t, StoreOutbound(s, c, row, m, parent, from, now));
  }

  /** The attachment inside an inbound projection, and the row update after it. */
  lemma InboundAttached(s: Store, e: Email, d: Draw, defaultBase: string) returns (attached: Store, c: ConversationId)
    requires Valid(s) && IdsDrawn(s) && Enabled(s, Receive(e, d, defaultBase)) && !AlreadyProjected(s, e)
    ensures Linked(s) && Linked(attached) && c in attached.conversations
    ensures ProjectInbound(s, e, d, defaultBase) == MarkAutomatic(attached, c, AwaitingUs, e.createdAt)
    ensures Evolves(s, attached) && IdsDrawn(attached)
    ensures forall o | o in s.messages :: o in attached.messages && Precedes(Home(attached, o).clock, Home(s, o).clock)
    ensures Attached(Ready(s, e, d, defaultBase), attached, c, InboundSources(s, e, d, defaultBase), d.message,
                     InboundRow(s, e, d, defaultBase), e.internetId)
    ensures c == Target(s, e, d, defaultBase)
  {
    hide Core, LastOk, Attach, Attachable, ChosenConversation, InboundSources, ParentOf, Evolves, Answers, FreshToken, Precedes, Attached;
    CoreParts(s);
    InboundIs(s, e, d, defaultBase);
    InboundAttachable(s, e, d, defaultBase);
    c := Target(s, e, d, defaultBase);
    var ready, sources := Ready(s, e, d, defaultBase), InboundSources(s, e, d, defaultBase);
    attached := Attach(ready, c, sources, d.message, InboundRow(s, e, d, defaultBase), e.internetId);
    ReadyEvolves(s, e, d, defaultBase);
    AttachShape(ready, c, sources, d.message, InboundRow(s, e, d, defaultBase), e.internetId);
    AttachEvolves(ready, c, sources, d.message, InboundRow(s, e, d, defaultBase), e.internetId);
    EvolvesIsTransitive(s, ready, attached);
    forall o | o in s.messages ensures o in attached.messages && Precedes(Home(attached, o).clock, Home(s, o).clock) {
      EvolvesParts(s, attached, o);
    }
  }

  /** No message's conversation has its wait clock restarted or its termination undone. */
  ghost predicate ClocksKept(s: Store, r: Store)
    requires Linked(s) && Linked(r)
  {
    forall o | o in s.messages :: o in r.messages && ClockKept(Home(s, o).clock, Home(r, o).clock)
  }

  lemma InboundEvolves(s: Store, e: Email, d: Draw, defaultBase: string)
    requires Valid(s) && IdsDrawn(s) && Enabled(s, Receive(e, d, defaultBase))
    ensures var r := ProjectInbound(s, e, d, defaultBase);
            Linked(s) && Evolves(s, r) && IdsDrawn(r) && ClocksKept(s, r)
  {
    hide Core, LastOk, ProjectInbound, Answers, FreshToken, Evolves, Attached, ClockKept, Precedes;
    CoreParts(s);
    SameEvolves(s);
    if AlreadyProjected(s, e) {
      assert ProjectInbound(s, e, d, defaultBase) == s by {
        RepeatedMailChangesNothing(s, e, d, defaultBase);
      }
      forall o | o in s.messages ensures ClockKept(Home(s, o).clock, Home(s, o).clock) {
        PrecedesItself(Home(s, o).clock);
        PrecedesKeepsClock(Home(s, o).clock, Home(s, o).clock);
      }
    } else {
      var attached, c := InboundAttached(s, e, d, defaultBase);
      var row := attached.conversations[c].(clock := ApplyAutomaticState(attached.conversations[c].clock, AwaitingUs, e.createdAt));
      RowUpdateEvolves(attached, c, row);
      var r := MarkAutomatic(attached, c, AwaitingUs, e.createdAt);
      EvolvesIsTransitive(s, attached, r);
      forall o | o in s.messages ensures o in r.messages && ClockKept(Home(s, o).clock, Home(r, o).clock) {
        EvolvesParts(s, r, o);
        InboundKeepsClock(Home(s, o).clock, Home(attached, o).clock, e.createdAt);
        if attached.messages[o].conversation != c {
          assert Home(r, o) == Home(attached, o);
          PrecedesKeepsClock(Home(s, o).clock, Home(r, o).clock);
        }
      }
    }
  }

  /** A second arrival of the same email, or of its Message-ID, changes nothing. */
  lemma RepeatedMailChangesNothing(s: Store, e: Email, d: Draw, defaultBase: string)
    requires Linked(s) && Enabled(s, Receive(e, d, defaultBase)) && AlreadyProjected(s, e)
    ensures ProjectInbound(s, e, d, defaultBase) == s
  {
  }

  lemma PrecedesKeepsClock(before: Clock, after: Clock)
    requires Precedes(after, before)
    ensures ClockKept(before, after)
  {
  }

  lemma SameEvolves(s: Store)
    requires Linked(s)
    ensures Evolves(s, s)
  {
    forall m | m in s.messages ensures MessageKept(s, s, m) {
    }
  }

  lemma ReadyEvolves(s: Store, e: Email, d: Draw, defaultBase: string)
    requires Linked(s) && IdsDrawn(s) && Answers(s, e, d) && s.nextConversation <= d.conversation
    ensures var ready := Ready(s, e, d, defaultBase);
            && Evolves(s, ready) && IdsDrawn(ready) && ready.messages == s.messages
            && forall o | o in s.messages :: Home(ready, o) == Home(s, o)
  {
    hide ChosenConversation, Answers;
    if ChosenConversation(s, e, d, defaultBase).None? {
      RowUpdateEvolves(s, d.conversation, NewConversation(e, d.token));
    } else {
      SameEvolves(s);
    }
  }

  lemma RecordEvolves(s: Store, m: MessageId, id: InternetId, at: Option<int>, waiting: seq<MessageId>)
    requires Valid(s) && IdsDrawn(s) && Enabled(s, Record(m, id, at, waiting))
    ensures var r := RecordId(s, m, id, at, waiting);
            Linked(s) && Evolves(s, r) && IdsDrawn(r) && ClocksKept(s, r)
  {
    hide Core, LastOk, Attach, Attachable, Sources, Evolves;
    CoreParts(s);
    SameEvolves(s);
    if s.messages[m].state != Inbound && !(exists o | o in s.messages && o != m :: s.messages[o].internetId == Some(id)) {
      var row := s.messages[m];
      RecordAttachable(s, m, id, at, waiting);
      SourcesAreOther(s, waiting, row.conversation);
      AttachEvolves(s, row.conversation, Sources(s, waiting, row.conversation), m,
                    row.(internetId := Some(id), emailCreatedAt := at.GetOr(row.emailCreatedAt)), id);
      var r := RecordId(s, m, id, at, waiting);
      forall o | o in s.messages ensures o in r.messages && ClockKept(Home(s, o).clock, Home(r, o).clock) {
        EvolvesParts(s, r, o);
        PrecedesKeepsClock(Home(s, o).clock, Home(r, o).clock);
      }
    }
  }

  lemma EvolvesParts(s: Store, r: Store, m: MessageId)
    requires Linked(s) && Linked(r) && Evolves(s, r) && m in s.messages
    ensures m in r.messages && MessageKept(s, r, m)
  {
  }

  /** One step never takes back what was stored, fixed or joined. */
  lemma StepEvolves(s: Store, step: Step)
    requires Valid(s) && IdsDrawn(s) && Enabled(s, step)
    ensures Evolves(s, Apply(s, step)) && IdsDrawn(Apply(s, step))
  {
    hide Core, LastOk, StoreOutbound, RecordId, ProjectInbound, Answers, Evolves, IdsDrawn;
    CoreParts(s);
    SameEvolves(s);
    match step
    case Tick(to) => TimeEvolves(s, to);
    case OpenTopic(c, m, token, topic, participant, base, from, requested, stamped) =>
      OutboundEvolves(s, c, OpenedRow(token, topic, participant, base, stamped, requested), m, None, from, requested);
    case ReopenFailed(c, m, topic, participant, base, from, requested) =>
      if CanReopen(s, c, topic, base) {
        OutboundEvolves(s, c, OpenedRow(s.conversations[c].routingToken, topic, participant, base, requested, requested), m, None, from, requested);
      }
    case Reply(c, p, m, base, from, requested) =>
      if Apply(s, step) != s {
        OutboundEvolves(s, c, RepliedRow(s.conversations[c], base, requested), m, Some(p), from, requested);
      }
    case Receive(e, d, defaultBase) => InboundEvolves(s, e, d, defaultBase);
    case Record(m, id, at, waiting) => RecordEvolves(s, m, id, at, waiting);
    case Settle(m, state, r) => MessageUpdateEvolves(s, m, s.messages[m].(state := state, resendEmailId := r));
    case Assign(c, topic) =>
      if Apply(s, step) != s {
        RowUpdateEvolves(s, c, s.conversations[c].(apiVersion := Some(V2), topic := Some(topic)));
      }
    case Unreachable(c, at) =>
      if c in s.conversations {
        RowUpdateEvolves(s, c, s.conversations[c].(clock := MarkTerminated(s.conversations[c].clock, at)));
      }
    case Override(c, state, requested) =>
      if c in s.conversations {
        RowUpdateEvolves(s, c, s.conversations[c].(clock := Clock(state, requested)));
      }
  }

  lemma TimeEvolves(s: Store, to: int)
    requires Linked(s) && IdsDrawn(s)
    ensures Evolves(s, s.(now := to)) && IdsDrawn(s.(now := to))
  {
    forall m | m in s.messages ensures MessageKept(s, s.(now := to), m) {
    }
  }

  // --- Whole runs ------------------------------------------------------------------------------

  /** Over any stretch of any run: no message and no alias is lost; messages that share a
      conversation stay together, and leave a conversation only when it is merged away; a
      topic-assigned conversation is never absorbed; a base, a topic, a parent link, a
      Message-ID and the V2 tag stay once they are set. */
  lemma {:induction false} RunEvolves(states: seq<Store>, steps: seq<Step>, i: nat, j: nat)
    requires IsRun(states, steps) && Valid(states[0]) && IdsDrawn(states[0]) && i <= j < |states|
    ensures Evolves(states[i], states[j]) && IdsDrawn(states[j])
    decreases j
  {
    hide Valid, Evolves, Enabled, Apply;
    if j > 0 {
      RunEvolves(states, steps, if i < j then i else j - 1, j - 1);
      RunKeepsValid(states, steps, j - 1);
      StepEvolves(states[j - 1], steps[j - 1]);
      if i < j {
        RunEvolves(states, steps, i, i);
        EvolvesIsTransitive(states[i], states[j - 1], states[j]);
      }
    }
    if i == j {
      SameEvolves(states[j]);
    }
  }

  /** A parent read before the reply transaction is still a valid parent in it, whatever was committed in between. */
  lemma ParentReadStaysValid(states: seq<Store>, steps: seq<Step>, i: nat, j: nat, c: ConversationId, parent: MessageId)
    requires IsRun(states, steps) && Valid(states[0]) && IdsDrawn(states[0]) && i <= j < |states|
    requires parent in states[i].messages && states[i].messages[parent].conversation == c && states[i].messages[parent].internetId.Some?
    requires c in states[j].conversations
    ensures parent in states[j].messages && states[j].messages[parent].conversation == c
    ensures states[j].messages[parent].internetId == states[i].messages[parent].internetId
  {
    hide Valid, Enabled, Apply, Evolves;
    RunEvolves(states, steps, i, j);
    EvolvesParts(states[i], states[j], parent);
  }

  // --- Addresses -------------------------------------------------------------------------------

  predicate IsToken(token: string) {
    IsHexToken(CompactToken(token)) && Hyphenate(CompactToken(token)) == token
  }

  predicate IsBase(base: string) {
    IsValidReplyToBaseAddress(base) && Normalize(base) == base
  }

  /** What request validation and the UUID generator guarantee. */
  predicate Validated(step: Step) {
    match step
    case OpenTopic(_, _, token, _, _, base, _, _, _) => IsToken(token) && IsBase(base)
    case ReopenFailed(_, _, _, _, base, _, _) => IsBase(base)
    case Reply(_, _, _, base, _, _) => IsBase(base)
    case Receive(_, draw, _) => IsToken(draw.token)
    case _ => true
  }

  /** Every token and every printed pair is well formed. */
  ghost predicate Printed(s: Store) {
    && (forall c | c in s.conversations :: IsToken(s.conversations[c].routingToken))
    && (forall m | m in s.messages && s.messages[m].replyTo.Some? ::
          IsToken(s.messages[m].replyTo.value.routingToken) && IsBase(s.messages[m].replyTo.value.baseAddress))
  }

  /** The `reply_to_address` column of an outbound message. */
  function ReplyToAddress(k: Candidate): Option<string> {
    BuildConversationReplyTo(k.baseAddress, k.routingToken)
  }

  /** The conversations that the token-or-alias pair rule finds for one address. */
  ghost function Resolve(s: Store, address: string, defaultBase: string): set<ConversationId> {
    set c | c in s.conversations && exists k | k in Candidates([address]) :: PairMatches(s, c, k, defaultBase)
  }

  /** The address printed on a stored message resolves, by the token-or-alias pair rule and
      whatever the configured default base, to exactly the conversation that now holds the message. */
  lemma EmittedAddressResolves(s: Store, m: MessageId, defaultBase: string)
    requires Valid(s) && Printed(s) && m in s.messages && s.messages[m].replyTo.Some?
    ensures ReplyToAddress(s.messages[m].replyTo.value).Some?
    ensures Resolve(s, ReplyToAddress(s.messages[m].replyTo.value).value, defaultBase) == {s.messages[m].conversation}
  {
    hide Core, CompactToken, Normalize, ParseBaseMailbox, Hyphenate, IsHexToken, Candidates, Print;
    CoreParts(s);
    var k := s.messages[m].replyTo.value;
    assert IsToken(k.routingToken) && IsBase(k.baseAddress);
    ExtractUndoesBuild(k.baseAddress, k.routingToken);
    var address := ReplyToAddress(k).value;
    assert Candidates([address]) == [k];
    RowFacts(s, m);
    OnlyOwnerMatches(s, s.messages[m].conversation, k, defaultBase);
  }

  lemma OnlyOwnerMatches(s: Store, owner: ConversationId, k: Candidate, defaultBase: string)
    requires Core(s) && owner in s.conversations && Owns(s, owner, k)
    ensures forall c | c in s.conversations :: PairMatches(s, c, k, defaultBase) <==> c == owner
  {
    hide LinksOk, IdsOk, TopicsOk, Normalize;
  }

  lemma AttachedPrinted(s: Store, r: Store, c: ConversationId, sources: seq<ConversationId>, m: MessageId,
        row: Message, id: InternetId)
    requires Linked(s) && Linked(r) && Attached(s, r, c, sources, m, row, id) && Printed(s) && c in s.conversations
    requires row.replyTo.None? || (m in s.messages && row.replyTo == s.messages[m].replyTo)
    requires c in r.conversations ==> r.conversations[c].routingToken == s.conversations[c].routingToken
    ensures Printed(r)
  {
    hide IsToken, IsBase;
    forall m' | m' in r.messages && r.messages[m'].replyTo.Some?
      ensures IsToken(r.messages[m'].replyTo.value.routingToken) && IsBase(r.messages[m'].replyTo.value.baseAddress)
    {
      assert m' in s.messages;
    }
    forall d | d in r.conversations ensures IsToken(r.conversations[d].routingToken) {
      assert d in s.conversations;
    }
  }

  lemma ReceiveKeepsPrinted(s: Store, e: Email, d: Draw, defaultBase: string)
    requires Valid(s) && IdsDrawn(s) && Printed(s) && Enabled(s, Receive(e, d, defaultBase)) && IsToken(d.token)
    ensures Printed(ProjectInbound(s, e, d, defaultBase))
  {
    hide Core, LastOk, ProjectInbound, FreshToken, Answers, IsToken, IsBase, Attached, ChosenConversation, ParentOf;
    CoreParts(s);
    if AlreadyProjected(s, e) {
      RepeatedMailChangesNothing(s, e, d, defaultBase);
    } else {
      var attached, c := InboundAttached(s, e, d, defaultBase);
      var ready := Ready(s, e, d, defaultBase);
      assert Printed(ready);
      ChosenIsLive(s, e, d, defaultBase);
      InboundTokenSame(s, e, d, defaultBase, attached, c);
      AttachedPrinted(ready, attached, c, InboundSources(s, e, d, defaultBase), d.message, InboundRow(s, e, d, defaultBase), e.internetId);
    }
  }

  lemma InboundTokenSame(s: Store, e: Email, d: Draw, defaultBase: string, attached: Store, c: ConversationId)
    requires Valid(s) && IdsDrawn(s) && Enabled(s, Receive(e, d, defaultBase)) && !AlreadyProjected(s, e)
    requires Linked(attached) && c in attached.conversations && c == Target(s, e, d, defaultBase)
    requires ProjectInbound(s, e, d, defaultBase) == MarkAutomatic(attached, c, AwaitingUs, e.createdAt)
    ensures c in Ready(s, e, d, defaultBase).conversations
    ensures attached.conversations[c].routingToken == Ready(s, e, d, defaultBase).conversations[c].routingToken
  {
    hide Core, LastOk, Attach, Attachable, ChosenConversation, InboundSources, ParentOf, Answers, FreshToken, ProjectInbound;
    CoreParts(s);
    InboundIs(s, e, d, defaultBase);
    InboundAttachable(s, e, d, defaultBase);
    var ready, sources := Ready(s, e, d, defaultBase), InboundSources(s, e, d, defaultBase);
    var again := Attach(ready, c, sources, d.message, InboundRow(s, e, d, defaultBase), e.internetId);
    AttachKeepsRow(ready, c, sources, d.message, InboundRow(s, e, d, defaultBase), e.internetId);
    assert MarkAutomatic(again, c, AwaitingUs, e.createdAt).conversations[c].routingToken == again.conversations[c].routingToken;
    assert MarkAutomatic(attached, c, AwaitingUs, e.createdAt).conversations[c].routingToken == attached.conversations[c].routingToken;
  }

  lemma RecordKeepsPrinted(s: Store, m: MessageId, id: InternetId, at: Option<int>, waiting: seq<MessageId>)
    requires Valid(s) && IdsDrawn(s) && Printed(s) && Enabled(s, Record(m, id, at, waiting))
    ensures Printed(RecordId(s, m, id, at, waiting))
  {
    hide Core, LastOk, Attach, Attachable, Sources, IsToken, IsBase, Attached, Enumerates;
    CoreParts(s);
    if s.messages[m].state != Inbound && !(exists o | o in s.messages && o != m :: s.messages[o].internetId == Some(id)) {
      var row := s.messages[m];
      RecordAttachable(s, m, id, at, waiting);
      SourcesAreOther(s, waiting, row.conversation);
      var recorded := row.(internetId := Some(id), emailCreatedAt := at.GetOr(row.emailCreatedAt));
      var sources := Sources(s, waiting, row.conversation);
      AttachShape(s, row.conversation, sources, m, recorded, id);
      AttachKeepsRow(s, row.conversation, sources, m, recorded, id);
      AttachedPrinted(s, RecordId(s, m, id, at, waiting), row.conversation, sources, m, recorded, id);
    }
  }

  lemma StepKeepsPrinted(s: Store, step: Step)
    requires Valid(s) && IdsDrawn(s) && Printed(s) && Enabled(s, step) && Validated(step)
    ensures Printed(Apply(s, step))
  {
    hide Core, LastOk, RecordId, ProjectInbound, FreshToken, Answers, IsToken, IsBase;
    CoreParts(s);
    match step
    case Receive(e, d, defaultBase) => ReceiveKeepsPrinted(s, e, d, defaultBase);
    case Record(m, id, at, waiting) => RecordKeepsPrinted(s, m, id, at, waiting);
    case OpenTopic(_, _, _, _, _, _, _, _, _) =>
    case ReopenFailed(_, _, _, _, _, _, _) =>
    case Reply(_, _, _, _, _, _) =>
    case _ =>
  }

  ghost predicate AllValidated(steps: seq<Step>) {
    forall i | 0 <= i < |steps| :: Validated(steps[i])
  }

  lemma {:induction false} RunKeepsPrinted(states: seq<Store>, steps: seq<Step>, i: nat)
    requires IsRun(states, steps) && Valid(states[0]) && IdsDrawn(states[0]) && Printed(states[0]) && AllValidated(steps) && i < |states|
    ensures Printed(states[i])
  {
    hide Valid, IdsDrawn, Printed, Validated, Enabled, Apply, Evolves;
    if i > 0 {
      RunKeepsPrinted(states, steps, i - 1);
      RunKeepsValid(states, steps, i - 1);
      RunEvolves(states, steps, i - 1, i - 1);
      StepKeepsPrinted(states[i - 1], steps[i - 1]);
    }
  }

  /** Every address ever emitted keeps resolving: the pair printed on message `m` in state
      `i` is still on it in every later state `j`, and resolves there to the one
      conversation that holds `m` by then. */
  lemma AddressesKeepResolving(states: seq<Store>, steps: seq<Step>, i: nat, j: nat, m: MessageId, defaultBase: string)
    requires IsRun(states, steps) && Valid(states[0]) && IdsDrawn(states[0]) && Printed(states[0]) && AllValidated(steps)
    requires i <= j < |states| && m in states[i].messages && states[i].messages[m].replyTo.Some?
    ensures var address := ReplyToAddress(states[i].messages[m].replyTo.value);
            && m in states[j].messages && address.Some?
            && Resolve(states[j], address.value, defaultBase) == {states[j].messages[m].conversation}
  {
    hide Valid, IdsDrawn, Printed, Enabled, Apply, Evolves, Resolve, ReplyToAddress;
    RunEvolves(states, steps, i, j);
    EvolvesParts(states[i], states[j], m);
    RunKeepsValid(states, steps, j);
    RunKeepsPrinted(states, steps, j);
    EmittedAddressResolves(states[j], m, defaultBase);
  }

  // --- The wait clock ----------------------------------------------------------------------------

  /** Steps that change a state only by the automatic rules: all but an operator's write and a reopening. */
  predicate Automatic(step: Step) {
    !step.Override? && !step.ReopenFailed?
  }

  lemma StepKeepsClock(s: Store, step: Step, m: MessageId)
    requires Valid(s) && IdsDrawn(s) && Enabled(s, step) && Automatic(step) && m in s.messages
    ensures m in Apply(s, step).messages
    ensures ClockKept(Home(s, m).clock, Home(Apply(s, step), m).clock)
  {
    hide Core, LastOk, RecordId, ProjectInbound, FreshToken, Answers;
    CoreParts(s);
    match step
    case Receive(e, d, defaultBase) =>
      InboundEvolves(s, e, d, defaultBase);
      EvolvesParts(s, Apply(s, step), m);
    case Record(o, id, at, waiting) =>
      RecordEvolves(s, o, id, at, waiting);
      EvolvesParts(s, Apply(s, step), m);
    case _ =>
  }

  /** A message in a TERMINATED conversation stays in a TERMINATED one, even through merges. */
  lemma {:induction false} TerminatedIsAbsorbing(states: seq<Store>, steps: seq<Step>, i: nat, j: nat, m: MessageId)
    requires IsRun(states, steps) && Valid(states[0]) && IdsDrawn(states[0]) && i <= j < |states|
    requires forall k | i <= k < j :: Automatic(steps[k])
    requires m in states[i].messages && Home(states[i], m).clock.state == Terminated
    ensures m in states[j].messages && Home(states[j], m).clock.state == Terminated
    decreases j
  {
    hide Valid, IdsDrawn, Enabled, Apply, Evolves, Automatic;
    if i < j {
      TerminatedIsAbsorbing(states, steps, i, j - 1, m);
      RunKeepsValid(states, steps, j - 1);
      RunEvolves(states, steps, j - 1, j - 1);
      StepKeepsClock(states[j - 1], steps[j - 1], m);
    }
  }

  /** While the state of a message's conversation persists, `stateChangedAt` never moves forward. */
  lemma {:induction false} WaitClockNeverRestarts(states: seq<Store>, steps: seq<Step>, i: nat, j: nat, m: MessageId)
    requires IsRun(states, steps) && Valid(states[0]) && IdsDrawn(states[0]) && i <= j < |states|
    requires forall k | i <= k < j :: Automatic(steps[k])
    requires m in states[i].messages
    requires forall k | i <= k <= j :: m in states[k].messages && Home(states[k], m).clock.state == Home(states[i], m).clock.state
    ensures Home(states[j], m).clock.since <= Home(states[i], m).clock.since
    decreases j
  {
    hide Valid, IdsDrawn, Enabled, Apply, Evolves, Automatic;
    if i < j {
      WaitClockNeverRestarts(states, steps, i, j - 1, m);
      RunKeepsValid(states, steps, j - 1);
      RunEvolves(states, steps, j - 1, j - 1);
      StepKeepsClock(states[j - 1], steps[j - 1], m);
    }
  }
}
