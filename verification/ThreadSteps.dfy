/** What each step leaves in the thread tables, column by column: the rows that src/lib/email/conversations.ts and
    src/lib/conversation-v2.ts write for received mail, opened topics, replies and the updates of single rows. */
module ThreadSteps {
  import opened Text
  import opened States
  import opened Routing
  import opened Threads
  import opened ThreadInvariant

  /** Nothing but these two rows differs. */
  ghost predicate OnlyChanges(s: Store, r: Store, c: ConversationId, m: MessageId) {
    && r.now == s.now && r.aliases == s.aliases
    && r.conversations.Keys == s.conversations.Keys + {c} && r.messages.Keys == s.messages.Keys + {m}
    && (forall d | d in s.conversations && d != c :: r.conversations[d] == s.conversations[d])
    && (forall o | o in s.messages && o != m :: r.messages[o] == s.messages[o])
  }

  // --- Merged conversations -----------------------------------------------------------------------

  /** `k` is the position of the first source with the property, if there is one. */
  ghost predicate IsFirstSource(s: Store, sources: seq<ConversationId>, p: Conversation -> bool, k: Option<nat>)
    requires AllLive(s, sources)
  {
    match k
    case Some(i) => i < |sources| && p(s.conversations[sources[i]]) && forall j | 0 <= j < i :: !p(s.conversations[sources[j]])
    case None => forall j | 0 <= j < |sources| :: !p(s.conversations[sources[j]])
  }

  predicate IsV2WithBase(row: Conversation) {
    row.apiVersion == Some(V2) && row.base.Some?
  }

  predicate HasBase(row: Conversation) {
    row.base.Some?
  }

  predicate HasVersion(row: Conversation) {
    row.apiVersion.Some?
  }

  lemma {:induction false} SourceSearches(s: Store, sources: seq<ConversationId>)
    returns (promoted: Option<nat>, based: Option<nat>, versioned: Option<nat>)
    requires AllLive(s, sources)
    ensures IsFirstSource(s, sources, IsV2WithBase, promoted) && IsFirstSource(s, sources, HasBase, based) && IsFirstSource(s, sources, HasVersion, versioned)
    ensures PromotedSource(s, sources) == match promoted case Some(i) => Some(s.conversations[sources[i]]) case None => None
    ensures SourceWithBase(s, sources) == match based case Some(i) => Some(s.conversations[sources[i]]) case None => None
    ensures FirstVersion(s, sources) == match versioned case Some(i) => s.conversations[sources[i]].apiVersion case None => None
  {
    if sources == [] {
      promoted, based, versioned := None, None, None;
    } else {
      var p, b, v := SourceSearches(s, sources[1..]);
      var row := s.conversations[sources[0]];
      promoted := if IsV2WithBase(row) then Some(0) else if p.Some? then Some(p.value + 1) else None;
      based := if HasBase(row) then Some(0) else if b.Some? then Some(b.value + 1) else None;
      versioned := if HasVersion(row) then Some(0) else if v.Some? then Some(v.value + 1) else None;
      assert sources == [sources[0]] + sources[1..];
    }
  }

  /** The columns of the surviving row: the base and the version come from the row itself, then from the first V2 source
      with a base, then from the first source that has one; the allowlist is required if the row or that V2 source
      requires it and is V2. */
  lemma MergedColumns(s: Store, target: ConversationId, sources: seq<ConversationId>)
    returns (promoted: Option<nat>, based: Option<nat>, versioned: Option<nat>)
    requires target in s.conversations && AllLive(s, sources)
    ensures IsFirstSource(s, sources, IsV2WithBase, promoted) && IsFirstSource(s, sources, HasBase, based) && IsFirstSource(s, sources, HasVersion, versioned)
    ensures var before, after := s.conversations[target], MergedRow(s, target, sources);
            && (before.base.Some? ==> after.base == before.base)
            && (before.base.None? && promoted.Some? ==> after.base == s.conversations[sources[promoted.value]].base)
            && (before.base.None? && promoted.None? && based.Some? ==> after.base == s.conversations[sources[based.value]].base)
            && (before.base.None? && based.None? ==> after.base.None?)
    ensures var before, after := s.conversations[target], MergedRow(s, target, sources);
            && (before.apiVersion == Some(V2) || promoted.Some? ==> after.apiVersion == Some(V2))
            && (before.apiVersion == Some(V1) && promoted.None? ==> after.apiVersion == Some(V1))
            && (before.apiVersion.None? && promoted.None? && versioned.Some? ==> after.apiVersion == s.conversations[sources[versioned.value]].apiVersion)
            && (before.apiVersion.None? && versioned.None? ==> after.apiVersion.None?)
    ensures var before, after := s.conversations[target], MergedRow(s, target, sources);
            after.requiresAllowlist
            <==> if after.apiVersion == Some(V2)
                 then (before.apiVersion == Some(V2) && before.requiresAllowlist)
                      || (promoted.Some? && s.conversations[sources[promoted.value]].requiresAllowlist)
                 else before.requiresAllowlist
  {
    promoted, based, versioned := SourceSearches(s, sources);
  }

  // --- Received mail -------------------------------------------------------------------------------

  /** The clocks of the conversations that become one when the mail is received. */
  ghost function Turns(s: Store, e: Email, d: Draw, defaultBase: string): seq<Clock>
    requires Linked(s) && Answers(s, e, d) && d.conversation !in s.conversations
  {
    var c, ready, sources := Target(s, e, d, defaultBase), Ready(s, e, d, defaultBase), InboundSources(s, e, d, defaultBase);
    InboundMergeable(s, e, d, defaultBase);
    Clocks(ready, [c] + sources)
  }

  lemma MergedClock(s: Store, c: ConversationId, sources: seq<ConversationId>)
    requires Core(s) && Mergeable(s, c, sources)
    ensures MergeConversationState(Clocks(s, [c] + sources)) == Some(MergeIf(s, c, sources).conversations[c].clock)
  {
    hide Core;
    CoreParts(s);
    MergePicksFirst(Clocks(s, [c] + sources));
    if sources == [] {
      assert Clocks(s, [c] + sources) == [s.conversations[c].clock];
      assert MergeConversationState([s.conversations[c].clock]).value in [s.conversations[c].clock];
    } else {
      MergeConserves(s, c, sources);
    }
  }

  lemma AttachedClock(s: Store, c: ConversationId, sources: seq<ConversationId>, m: MessageId, row: Message, id: InternetId)
    requires Attachable(s, c, sources, m, row, id)
    ensures Linked(s) && c in s.conversations && AllLive(s, sources) && c !in sources && row.conversation == c
    ensures MergeConversationState(Clocks(s, [c] + sources)) == Some(Attach(s, c, sources, m, row, id).conversations[c].clock)
  {
    hide Core, MergeInto, RefreshLast, SameIdentity, RowFits, MergeConversationState, MoveMessages, Precedes;
    CoreParts(s);
    AttachIs(s, c, sources, m, row, id);
    MergeIfIs(s, c, sources);
    MergedClock(s, c, sources);
    var merged := MergeIf(s, c, sources);
    var stored := WithMessage(merged, m, row);
    var at := RefreshIs(SetParents(stored, Orphans(stored, id, c), m), c);
  }

  /** What the projection reads: the stored mail that the references name, and the stored replies to this mail that have
      no parent, of conversations with its sender. */
  lemma QueriesAre(s: Store, e: Email, d: Draw, defaultBase: string, m: MessageId)
    requires Linked(s) && Enabled(s, Receive(e, d, defaultBase))
    ensures NoDuplicates(d.related) && NoDuplicates(d.waiting)
    ensures m in d.related
       <==> m in s.messages && (exists id | id in References(e) :: s.messages[m].internetId == Some(id)) && Lower(Home(s, m).participant) == Lower(e.from)
    ensures m in d.waiting
       <==> m in s.messages && s.messages[m].parent.None? && s.messages[m].inReplyTo == Some(e.internetId) && Lower(Home(s, m).participant) == Lower(e.from)
  {
    hide References, Lower;
    assert m in d.related <==> m in Eligible(s, e);
    assert m in d.waiting <==> m in Waiting(s, e.internetId, Lower(e.from));
  }

  /** The row of received mail, and whose turn it is in its conversation. */
  lemma ReceivedIs(s: Store, e: Email, d: Draw, defaultBase: string)
    requires Core(s) && Enabled(s, Receive(e, d, defaultBase))
    ensures Linked(s)
    ensures (exists m | m in s.messages :: s.messages[m].resendEmailId == Some(e.resendEmailId) || s.messages[m].internetId == Some(e.internetId)) ==>
              Apply(s, Receive(e, d, defaultBase)) == s
    ensures !(exists m | m in s.messages :: s.messages[m].resendEmailId == Some(e.resendEmailId) || s.messages[m].internetId == Some(e.internetId)) ==>
              var r := Apply(s, Receive(e, d, defaultBase));
              && d.message in r.messages
              && var row := r.messages[d.message];
                 && row.conversation == Target(s, e, d, defaultBase)
                 && row == Message(row.conversation, row.parent, Inbound, Some(e.resendEmailId), Some(e.internetId), EffectiveParent(e), References(e),
                                   e.from, None, e.createdAt)
                 && var turn := r.conversations[row.conversation].clock;
                    turn == ApplyAutomaticState(MergeConversationState(Turns(s, e, d, defaultBase)).GetOr(turn), AwaitingUs, e.createdAt)
  {
    hide Core, Answers, Attach, Attachable, Target, Ready, InboundSources, ProjectInbound, FreshToken, EffectiveParent, References, MergeConversationState;
    CoreParts(s);
    if AlreadyProjected(s, e) {
      RepeatedIsSame(s, e, d, defaultBase);
    } else {
      InboundIs(s, e, d, defaultBase);
      InboundAttachable(s, e, d, defaultBase);
      var ready, c, sources := Ready(s, e, d, defaultBase), Target(s, e, d, defaultBase), InboundSources(s, e, d, defaultBase);
      AttachShape(ready, c, sources, d.message, InboundRow(s, e, d, defaultBase), e.internetId);
      AttachedClock(ready, c, sources, d.message, InboundRow(s, e, d, defaultBase), e.internetId);
    }
  }

  /** After mail it is our turn, unless the conversation or one that it absorbs is TERMINATED. */
  lemma MailGivesUsTheTurn(s: Store, e: Email, d: Draw, defaultBase: string)
    requires Core(s) && Enabled(s, Receive(e, d, defaultBase)) && Linked(s) && !AlreadyProjected(s, e)
    ensures var r, turns := Apply(s, Receive(e, d, defaultBase)), Turns(s, e, d, defaultBase);
            && d.message in r.messages
            && var turn := Home(r, d.message).clock;
               if exists row | row in turns :: row.state == Terminated then turn.state == Terminated && IsLeast(turn.since, turns, Terminated)
               else
                 && turn.state == AwaitingUs
                 && if exists row | row in turns :: row.state == AwaitingUs then IsLeast(turn.since, turns, AwaitingUs) else turn.since == e.createdAt
  {
    hide Core, Enabled, Apply, Target, Turns, IsLeast, EffectiveParent, References, MergeConversationState, ApplyAutomaticState;
    ReceivedIs(s, e, d, defaultBase);
    ReceiveAnswers(s, e, d, defaultBase);
    TurnsAreSome(s, e, d, defaultBase);
    TurnAfterMail(Turns(s, e, d, defaultBase), e.createdAt);
  }

  lemma ReceiveAnswers(s: Store, e: Email, d: Draw, defaultBase: string)
    requires Linked(s) && Enabled(s, Receive(e, d, defaultBase))
    ensures Answers(s, e, d) && d.conversation !in s.conversations && d.message !in s.messages && FreshToken(s, d.token)
  {
  }

  lemma TurnsAreSome(s: Store, e: Email, d: Draw, defaultBase: string)
    requires Linked(s) && Answers(s, e, d) && d.conversation !in s.conversations
    ensures Turns(s, e, d, defaultBase) != []
  {
    hide Target, Ready, InboundSources, Answers;
    InboundMergeable(s, e, d, defaultBase);
  }

  lemma LatestIs(s: Store, c: ConversationId, m: MessageId, at: int)
    requires m in s.messages && s.messages[m].conversation == c && s.messages[m].emailCreatedAt == at
    requires forall o | o in s.messages && s.messages[o].conversation == c :: s.messages[o].emailCreatedAt <= at
    ensures IsLatest(s, c, at)
  {
  }

  /** A message attached to a conversation that is empty, with nothing to merge. */
  lemma AttachedAlone(s: Store, c: ConversationId, m: MessageId, row: Message, id: InternetId) returns (r: Store)
    requires Attachable(s, c, [], m, row, id)
    requires forall o | o in s.messages :: s.messages[o].conversation != c
    ensures Linked(s) && c in s.conversations && row.conversation == c && r == Attach(s, c, [], m, row, id)
    ensures Linked(r) && r.messages == s.messages[m := LinkedRow(row, c, m, id)] && r.aliases == s.aliases && r.now == s.now
    ensures r.conversations == s.conversations[c := s.conversations[c].(lastMessageAt := row.emailCreatedAt)]
    ensures r.nextConversation == if c < s.nextConversation then s.nextConversation else c + 1
  {
    hide Core, RefreshLast, IsLatest;
    CoreParts(s);
    AttachIs(s, c, [], m, row, id);
    var stored := WithMessage(s, m, row);
    var linked := SetParents(stored, Orphans(stored, id, c), m);
    assert linked.messages == s.messages[m := LinkedRow(row, c, m, id)];
    var at := RefreshIs(linked, c);
    LatestIs(linked, c, m, row.emailCreatedAt);
    LatestIsUnique(linked, c);
    r := Attach(s, c, [], m, row, id);
  }

  lemma SomeRow(rows: seq<MessageId>) returns (m: MessageId)
    requires rows != []
    ensures m in rows
  {
    m := rows[0];
  }

  /** Mail that nothing stored relates to and no address routes. */
  lemma NothingRelates(s: Store, e: Email, d: Draw, defaultBase: string)
    requires Linked(s) && Answers(s, e, d) && ChosenConversation(s, e, d, defaultBase).None?
    ensures Target(s, e, d, defaultBase) == d.conversation && InboundSources(s, e, d, defaultBase) == []
    ensures InboundRow(s, e, d, defaultBase).parent.None?
  {
    hide Eligible, Waiting, ChosenConversation, EffectiveParent, References;
    RelatedBeatRouting(s, e, d, defaultBase);
    assert forall m :: m in d.related <==> m in Eligible(s, e);
    assert forall m :: m in d.waiting <==> m in Waiting(s, e.internetId, Lower(e.from));
    assert Eligible(s, e) + Waiting(s, e.internetId, Lower(e.from)) == {};
    if d.related != [] {
      var m := SomeRow(d.related);
    } else if d.waiting != [] {
      var m := SomeRow(d.waiting);
    }
  }

  /** It starts a conversation of its own, in which it is our turn. */
  lemma NewMailIs(s: Store, e: Email, d: Draw, defaultBase: string)
    requires Core(s) && Enabled(s, Receive(e, d, defaultBase)) && Linked(s) && !AlreadyProjected(s, e)
    requires ChosenConversation(s, e, d, defaultBase).None?
    ensures var r, c := Apply(s, Receive(e, d, defaultBase)), d.conversation;
            && r.conversations == s.conversations[c := Conversation(d.token, None, None, e.from, None, false, Clock(AwaitingUs, e.createdAt), e.createdAt)]
            && r.messages == s.messages[d.message :=
                 Message(c, if EffectiveParent(e) == Some(e.internetId) then Some(d.message) else None, Inbound, Some(e.resendEmailId), Some(e.internetId),
                         EffectiveParent(e), References(e), e.from, None, e.createdAt)]
            && r.aliases == s.aliases && r.now == s.now && r.nextConversation == c + 1
  {
    hide Core, Answers, Attach, Attachable, ChosenConversation, InboundSources, ProjectInbound, FreshToken, EffectiveParent, References, AlreadyProjected;
    CoreParts(s);
    ReceiveAnswers(s, e, d, defaultBase);
    NothingRelates(s, e, d, defaultBase);
    InboundIs(s, e, d, defaultBase);
    InboundAttachable(s, e, d, defaultBase);
    var attached := AttachedAlone(Ready(s, e, d, defaultBase), d.conversation, d.message, InboundRow(s, e, d, defaultBase), e.internetId);
  }

  // --- Sent mail -----------------------------------------------------------------------------------

  lemma {:induction false} DistinctListsOnce(ids: seq<InternetId>)
    ensures ListsOnce(Wrapped(ids), Distinct(ids))
  {
    if ids != [] {
      var before := ids[..|ids| - 1];
      DistinctListsOnce(before);
      AddNewLists(Wrapped(before), Distinct(before), Some(ids[|ids| - 1]));
      assert Wrapped(ids) == Wrapped(before) + [Some(ids[|ids| - 1])];
    }
  }

  function Wrapped(ids: seq<InternetId>): (wrapped: seq<Option<InternetId>>)
    ensures |wrapped| == |ids| && forall i | 0 <= i < |ids| :: wrapped[i] == Some(ids[i])
  {
    seq(|ids|, i requires 0 <= i < |ids| => Some(ids[i]))
  }

  /** The references of a stored reply are its parent's in their order and then its parent, each id once. */
  lemma RepliedReferences(references: seq<InternetId>, parent: InternetId)
    ensures ListsOnce(Wrapped(references + [parent]), BuildReferences(references, Some(parent)))
    ensures NoDuplicates(references) && parent !in references ==> BuildReferences(references, Some(parent)) == references + [parent]
  {
    DistinctListsOnce(references + [parent]);
    if NoDuplicates(references) && parent !in references {
      DistinctIsItself(references + [parent]);
    }
  }

  lemma {:induction false} DistinctIsItself(ids: seq<InternetId>)
    requires NoDuplicates(ids)
    ensures Distinct(ids) == ids
  {
    if ids != [] {
      DistinctIsItself(ids[..|ids| - 1]);
      assert ids == ids[..|ids| - 1] + [ids[|ids| - 1]];
    }
  }

  /** A reply is stored exactly when the base fits and the parent lies in the conversation and has a Message-ID. Then it
      is the parent's turn no longer: it is the participant's, unless the conversation is TERMINATED. */
  lemma RepliedIs(s: Store, step: Step)
    requires Linked(s) && Enabled(s, step) && step.Reply?
    ensures var r, c, p, m := Apply(s, step), step.conversation, step.parent, step.message;
            var accepted := c in s.conversations && s.conversations[c].base in {None, Some(step.base)}
                            && p in s.messages && s.messages[p].conversation == c && s.messages[p].internetId.Some?;
            && (!accepted ==> r == s)
            && (accepted ==>
                  && OnlyChanges(s, r, c, m)
                  && var parent, row, before, after := s.messages[p], r.messages[m], s.conversations[c], r.conversations[c];
                     && row == Message(c, Some(p), Pending, None, None, parent.internetId, row.references, step.from,
                                       Some(Candidate(before.routingToken, step.base)), step.requested)
                     && ListsOnce(Wrapped(parent.references + [parent.internetId.value]), row.references)
                     && after == before.(apiVersion := Some(V2), base := Some(step.base), requiresAllowlist := true,
                                         lastMessageAt := after.lastMessageAt, clock := after.clock)
                     && after.lastMessageAt == (if before.lastMessageAt < step.requested then step.requested else before.lastMessageAt)
                     && after.clock == if before.clock.state in {Terminated, AwaitingParticipant} then before.clock
                                       else Clock(AwaitingParticipant, step.requested))
  {
    hide BuildReferences, ListsOnce, Wrapped;
    var p := step.parent;
    if p in s.messages && s.messages[p].internetId.Some? {
      RepliedReferences(s.messages[p].references, s.messages[p].internetId.value);
    }
  }

  /** The first message of a topic. */
  ghost predicate IsFirstMessage(row: Message, c: ConversationId, token: string, base: string, from: string, at: int) {
    row == Message(c, None, Pending, None, None, None, [], from, Some(Candidate(token, base)), at)
  }

  /** A topic is opened exactly when no conversation has it. */
  lemma OpenedIs(s: Store, step: Step)
    requires Linked(s) && Enabled(s, step) && step.OpenTopic?
    ensures var r, c, m := Apply(s, step), step.conversation, step.message;
            var free := forall d | d in s.conversations :: s.conversations[d].topic != Some(step.topic);
            && (!free ==> r == s)
            && (free ==>
                  && OnlyChanges(s, r, c, m) && IsFirstMessage(r.messages[m], c, step.token, step.base, step.from, step.requested)
                  && r.conversations[c] == Conversation(step.token, Some(V2), Some(step.topic), step.participant, Some(step.base), true,
                                                        Clock(AwaitingParticipant, step.stamped), step.requested))
  {
    hide ProjectInbound, RecordId, Linked, Answers, FreshToken, CanReopen, Enumerates;
  }

  /** It is reopened exactly when its conversation fits and all messages there are FAILED. */
  lemma ReopenedIs(s: Store, step: Step)
    requires Linked(s) && Enabled(s, step) && step.ReopenFailed?
    ensures var r, c, m := Apply(s, step), step.conversation, step.message;
            var failed := c in s.conversations && s.conversations[c].topic == Some(step.topic) && s.conversations[c].base in {None, Some(step.base)}
                          && forall o | o in s.messages && s.messages[o].conversation == c :: s.messages[o].state == Failed;
            && (!failed ==> r == s)
            && (failed ==>
                  && OnlyChanges(s, r, c, m)
                  && IsFirstMessage(r.messages[m], c, s.conversations[c].routingToken, step.base, step.from, step.requested)
                  && r.conversations[c] == Conversation(s.conversations[c].routingToken, Some(V2), Some(step.topic), step.participant, Some(step.base), true,
                                                        Clock(AwaitingParticipant, step.requested), step.requested))
  {
    hide ProjectInbound, RecordId, Answers, FreshToken, TopicTaken, Enumerates;
  }

  // --- Single rows -----------------------------------------------------------------------------------

  /** A topic is assigned exactly to an unassigned conversation that is not V1, and only if it is free. */
  lemma AssignedIs(s: Store, c: ConversationId, topic: Topic)
    requires Linked(s)
    ensures var r := Apply(s, Assign(c, topic));
            var accepted := c in s.conversations && s.conversations[c].topic.None? && s.conversations[c].apiVersion != Some(V1)
                            && forall d | d in s.conversations :: s.conversations[d].topic != Some(topic);
            && r.messages == s.messages && r.aliases == s.aliases
            && r.conversations == if accepted then s.conversations[c := s.conversations[c].(apiVersion := Some(V2), topic := Some(topic))] else s.conversations
  {
    assert TopicTaken(s, topic) <==> !(forall d | d in s.conversations :: s.conversations[d].topic != Some(topic));
  }

  /** The rows after an update of the state: by a bounce, and by an operator. */
  lemma StateSetIs(s: Store, c: ConversationId, state: State, at: int)
    requires Linked(s) && c in s.conversations
    ensures var r := Apply(s, Unreachable(c, at));
            && r.messages == s.messages && r.aliases == s.aliases
            && r.conversations == if s.conversations[c].clock.state == Terminated then s.conversations
                                  else s.conversations[c := s.conversations[c].(clock := Clock(Terminated, at))]
    ensures var r := Apply(s, Override(c, state, at));
            && r.messages == s.messages && r.aliases == s.aliases && r.conversations == s.conversations[c := s.conversations[c].(clock := Clock(state, at))]
  {
    assert s.conversations[c := s.conversations[c]] == s.conversations;
  }

  /** The outcome of a send changes nothing but the state and the provider's id of that message. */
  lemma SettledIs(s: Store, step: Step)
    requires Linked(s) && Enabled(s, step) && step.Settle?
    ensures Apply(s, step) == s.(messages := s.messages[step.message := s.messages[step.message].(state := step.outcome, resendEmailId := step.resendEmailId)])
  {
  }

  /** A Message-ID is recorded on outbound mail exactly when no other message has it. */
  lemma RecordedIs(s: Store, m: MessageId, id: InternetId, at: Option<int>, waiting: seq<MessageId>)
    requires Core(s) && Enabled(s, Record(m, id, at, waiting)) && Linked(s)
    ensures var r := Apply(s, Record(m, id, at, waiting));
            var accepted := s.messages[m].state != Inbound && forall o | o in s.messages && o != m :: s.messages[o].internetId != Some(id);
            && m in r.messages
            && (!accepted ==> r == s)
            && (accepted ==>
                  && r.messages[m].internetId == Some(id) && r.messages[m].conversation == s.messages[m].conversation
                  && r.messages[m].emailCreatedAt == (match at case Some(t) => t case None => s.messages[m].emailCreatedAt)
                  && r.messages[m] == s.messages[m].(internetId := Some(id), emailCreatedAt := r.messages[m].emailCreatedAt, parent := r.messages[m].parent)
                  && (s.messages[m].parent.Some? ==> r.messages[m].parent == s.messages[m].parent))
  {
    hide Core, Attach, Attachable, Sources, Enumerates, RecordId;
    CoreParts(s);
    RecordIs(s, m, id, at, waiting);
    if Recordable(s, m, id) {
      RecordAttachable(s, m, id, at, waiting);
      var row := s.messages[m];
      AttachShape(s, row.conversation, Sources(s, waiting, row.conversation), m,
                  row.(internetId := Some(id), emailCreatedAt := at.GetOr(row.emailCreatedAt)), id);
    }
  }
}
