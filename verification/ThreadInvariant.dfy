/** What every reachable store satisfies: the invariants of the thread tables,
    kept by every step, and the promises to correspondents that rest on them. */
module ThreadInvariant {
  import opened Text
  import opened States
  import opened Routing
  import opened Threads

  /** Tokens name one conversation: no two live rows share one and no alias holds a live one. */
  ghost predicate TokensOk(s: Store) {
    && (forall a, b | a in s.conversations && b in s.conversations
          && s.conversations[a].routingToken == s.conversations[b].routingToken :: a == b)
    && (forall k | k in s.aliases :: s.aliases[k] in s.conversations)
    && (forall k, c | k in s.aliases && c in s.conversations :: s.conversations[c].routingToken != k.routingToken)
  }

  /** An unassigned V2 conversation has a base. */
  ghost predicate BasesOk(s: Store) {
    forall c | c in s.conversations && s.conversations[c].apiVersion == Some(V2) && s.conversations[c].topic.None? ::
      s.conversations[c].base.Some?
  }

  ghost predicate TopicsOk(s: Store) {
    forall a, b | a in s.conversations && b in s.conversations && s.conversations[a].topic.Some?
      && s.conversations[a].topic == s.conversations[b].topic :: a == b
  }

  /** The unique keys of the message table. */
  ghost predicate IdsOk(s: Store) {
    && (forall a, b | a in s.messages && b in s.messages && s.messages[a].internetId.Some?
          && s.messages[a].internetId == s.messages[b].internetId :: a == b)
    && (forall a, b | a in s.messages && b in s.messages && s.messages[a].resendEmailId.Some?
          && s.messages[a].resendEmailId == s.messages[b].resendEmailId :: a == b)
  }

  ghost predicate LinkOk(s: Store, m: MessageId)
    requires m in s.messages
  {
    var row := s.messages[m];
    row.parent.Some? ==>
      && row.parent.value in s.messages
      && s.messages[row.parent.value].conversation == row.conversation
      && s.messages[row.parent.value].internetId.Some?
      && s.messages[row.parent.value].internetId == row.inReplyTo
  }

  /** A parent lies in the same conversation and its Message-ID is the one the child replies to. */
  ghost predicate LinksOk(s: Store) {
    forall m {:trigger LinkOk(s, m)} | m in s.messages :: LinkOk(s, m)
  }

  /** Inbound mail was sent by the participant of its conversation, up to letter case. */
  ghost predicate SendersOk(s: Store)
    requires Linked(s)
  {
    forall m | m in s.messages && s.messages[m].state == Inbound :: Lower(s.messages[m].from) == Participant(s, m)
  }

  /** The pair belongs to the conversation, as its own token and base or as an alias. */
  predicate Owns(s: Store, c: ConversationId, k: Candidate)
    requires c in s.conversations
  {
    || (k.routingToken == s.conversations[c].routingToken && s.conversations[c].base == Some(k.baseAddress))
    || (k in s.aliases && s.aliases[k] == c)
  }

  /** Every pair that was ever printed on a stored message belongs to the conversation that holds the message. */
  ghost predicate RepliesOk(s: Store)
    requires Linked(s)
  {
    forall m | m in s.messages && s.messages[m].replyTo.Some? :: Owns(s, s.messages[m].conversation, s.messages[m].replyTo.value)
  }

  ghost predicate DatesOk(s: Store) {
    forall m | m in s.messages && s.messages[m].state in {Pending, Failed, Indeterminate} :: s.messages[m].emailCreatedAt <= s.now
  }

  ghost predicate Core(s: Store) {
    && Linked(s) && TokensOk(s) && BasesOk(s) && TopicsOk(s) && IdsOk(s) && LinksOk(s)
    && SendersOk(s) && RepliesOk(s) && DatesOk(s)
  }

  /** `at` is the latest `emailCreatedAt` of the conversation, or, if not `exact`, no later than that. */
  ghost predicate LastIs(s: Store, c: ConversationId, at: int, exact: bool) {
    if exact then IsLatest(s, c, at) else IsNotAfterLatest(s, c, at)
  }

  /** No conversation is empty, `lastMessageAt` is never later than its latest message, and it is the time of
      that message except in the conversations `stale`. Conversations `exempt` are in the middle of a transaction. */
  ghost predicate LastOk(s: Store, exempt: set<ConversationId>, stale: set<ConversationId>) {
    forall c | c in s.conversations && c !in exempt :: LastIs(s, c, s.conversations[c].lastMessageAt, c !in stale)
  }

  ghost predicate Sound(s: Store, stale: set<ConversationId>) {
    Core(s) && LastOk(s, {}, stale)
  }

  /** What holds in every reachable store, whatever was reopened. */
  ghost predicate Valid(s: Store) {
    Sound(s, s.conversations.Keys)
  }

  lemma LastWeakens(s: Store, exempt: set<ConversationId>, stale: set<ConversationId>, more: set<ConversationId>)
    requires LastOk(s, {}, stale) && forall c | c in s.conversations && c in stale :: c in more
    ensures LastOk(s, exempt, more)
  {
  }

  lemma SoundIsValid(s: Store, stale: set<ConversationId>)
    requires Sound(s, stale)
    ensures Valid(s)
  {
    hide Core;
    LastWeakens(s, {}, stale, s.conversations.Keys);
  }

  predicate IdsDrawn(s: Store) {
    forall c | c in s.conversations :: c < s.nextConversation
  }

  // --- Merging loses nothing ---------------------------------------------------------

  /** The cascade removes nothing when nothing points to what is deleted. */
  lemma DeleteDetached(s: Store, gone: set<ConversationId>)
    requires Linked(s)
    requires forall m | m in s.messages :: s.messages[m].conversation !in gone
    requires forall k | k in s.aliases :: s.aliases[k] !in gone
    ensures DeleteConversations(s, gone) == s.(conversations := s.conversations - gone)
  {
    var messages := map m | m in s.messages && s.messages[m].conversation !in gone :: s.messages[m];
    assert messages == s.messages;
    assert DeleteConversations(s, gone).messages == s.messages;
    assert DeleteConversations(s, gone).aliases == s.aliases;
    assert DeleteConversations(s, gone).conversations == s.conversations - gone;
  }

  /** A merge, table by table: the sources' messages and aliases all arrive at the
      target, the pairs of the sources become aliases, and only the source rows go. */
  lemma MergeConserves(s: Store, target: ConversationId, sources: seq<ConversationId>)
    requires Linked(s) && target in s.conversations && AllLive(s, sources) && target !in sources
    ensures var r := MergeInto(s, target, sources);
            var gone := Ids(sources);
            && r.now == s.now && r.nextConversation == s.nextConversation
            && r.messages == MoveMessages(s, target, gone).messages
            && r.aliases == PreserveMergedState(s, target, sources).aliases
            && r.conversations == s.conversations[target := MergedRow(s, target, sources)] - gone
  {
    hide MergedRow;
    var gone := Ids(sources);
    var v := MoveMessages(PreserveMergedState(s, target, sources), target, gone);
    assert v.messages == MoveMessages(s, target, gone).messages;
    DeleteDetached(v, gone);
  }

  // --- The merge keeps the invariants --------------------------------------------------

  /** What the callers guarantee of a merge: other, unassigned conversations of the same participant. */
  ghost predicate Mergeable(s: Store, target: ConversationId, sources: seq<ConversationId>) {
    && target in s.conversations && AllLive(s, sources) && target !in sources
    && (forall c | c in sources :: s.conversations[c].topic.None?
          && Lower(s.conversations[c].participant) == Lower(s.conversations[target].participant))
  }

  /** The fields that a merge never changes on the surviving row. */
  ghost predicate SameIdentity(before: Conversation, after: Conversation) {
    && after.routingToken == before.routingToken
    && after.topic == before.topic
    && after.participant == before.participant
    && (before.base.Some? ==> after.base == before.base)
  }

  lemma {:induction false} PromotedSourceIsFirst(s: Store, sources: seq<ConversationId>)
    requires AllLive(s, sources)
    ensures var p := PromotedSource(s, sources);
            && (p.Some? ==> p.value.apiVersion == Some(V2) && p.value.base.Some?)
            && (p.None? ==> forall c | c in sources :: !(s.conversations[c].apiVersion == Some(V2) && s.conversations[c].base.Some?))
  {
    if sources != [] {
      PromotedSourceIsFirst(s, sources[1..]);
      assert sources == [sources[0]] + sources[1..];
    }
  }

  lemma {:induction false} SourceWithBaseHasBase(s: Store, sources: seq<ConversationId>)
    requires AllLive(s, sources)
    ensures SourceWithBase(s, sources).Some? ==> SourceWithBase(s, sources).value.base.Some?
  {
    if sources != [] {
      SourceWithBaseHasBase(s, sources[1..]);
      assert sources == [sources[0]] + sources[1..];
    }
  }

  lemma {:induction false} FirstVersionIsOfSource(s: Store, sources: seq<ConversationId>)
    requires AllLive(s, sources)
    ensures FirstVersion(s, sources).Some? ==> exists c | c in sources :: s.conversations[c].apiVersion == FirstVersion(s, sources)
  {
    if sources != [] {
      FirstVersionIsOfSource(s, sources[1..]);
      assert sources == [sources[0]] + sources[1..];
    }
  }

  /** The survivor keeps its identity and is V2 with a base if any row involved was V2. */
  lemma MergedRowKeeps(s: Store, target: ConversationId, sources: seq<ConversationId>)
    requires BasesOk(s) && Mergeable(s, target, sources)
    ensures var row := MergedRow(s, target, sources);
            && SameIdentity(s.conversations[target], row)
            && (forall c | c in [target] + sources && s.conversations[c].apiVersion == Some(V2) :: row.apiVersion == Some(V2))
            && (row.apiVersion == Some(V2) && row.topic.None? ==> row.base.Some?)
            && row.lastMessageAt == s.conversations[target].lastMessageAt
            && forall c | c in [target] + sources :: Precedes(row.clock, s.conversations[c].clock)
  {
    PromotedSourceIsFirst(s, sources);
    SourceWithBaseHasBase(s, sources);
    FirstVersionIsOfSource(s, sources);
    var all := [target] + sources;
    forall c | c in all ensures Precedes(MergedRow(s, target, sources).clock, s.conversations[c].clock) {
      var i :| 0 <= i < |all| && all[i] == c;
      assert Clocks(s, all)[i] == s.conversations[c].clock;
      MergePrecedes(Clocks(s, all), s.conversations[c].clock);
    }
  }

  lemma MergeKeepsTokens(s: Store, target: ConversationId, sources: seq<ConversationId>)
    requires Linked(s) && TokensOk(s) && BasesOk(s) && Mergeable(s, target, sources)
    ensures TokensOk(MergeInto(s, target, sources))
  {
    hide MergeInto, MergedRow, BasesOk;
    MergeConserves(s, target, sources);
    MergedRowKeeps(s, target, sources);
    TokensAfterMerge(s, MergeInto(s, target, sources), target, sources);
  }

  lemma TokensAfterMerge(s: Store, r: Store, target: ConversationId, sources: seq<ConversationId>)
    requires Linked(s) && TokensOk(s) && target in s.conversations && AllLive(s, sources) && target !in sources
    requires forall c :: c in r.conversations <==> c in s.conversations && c !in sources
    requires forall c | c in r.conversations :: r.conversations[c].routingToken == s.conversations[c].routingToken
    requires r.aliases == PreserveMergedState(s, target, sources).aliases
    ensures TokensOk(r)
  {
    hide MergedRow;
    forall k, c | k in r.aliases && c in r.conversations ensures r.conversations[c].routingToken != k.routingToken {
      if k !in s.aliases {
        var d :| d in sources && s.conversations[d].base.Some? && k == Candidate(s.conversations[d].routingToken, s.conversations[d].base.value);
      }
    }
  }

  lemma MergeKeepsRows(s: Store, target: ConversationId, sources: seq<ConversationId>)
    requires Linked(s) && BasesOk(s) && TopicsOk(s) && Mergeable(s, target, sources)
    ensures BasesOk(MergeInto(s, target, sources)) && TopicsOk(MergeInto(s, target, sources))
  {
    hide MergeInto, MergedRow;
    MergeConserves(s, target, sources);
    MergedRowKeeps(s, target, sources);
  }

  lemma MergeKeepsLinks(s: Store, target: ConversationId, sources: seq<ConversationId>)
    requires Linked(s) && IdsOk(s) && LinksOk(s) && DatesOk(s) && Mergeable(s, target, sources)
    ensures var r := MergeInto(s, target, sources); IdsOk(r) && LinksOk(r) && DatesOk(r)
  {
    hide MergeInto, Mergeable;
    MergeableIs(s, target, sources);
    MergeConserves(s, target, sources);
    MergeMovesMessages(s, target, sources);
    hide PreserveMergedState, MergedRow, MoveMessages;
    var r := MergeInto(s, target, sources);
    forall m | m in r.messages ensures LinkOk(r, m) {
      assert LinkOk(s, m);
    }
  }

  lemma MergeKeepsSenders(s: Store, target: ConversationId, sources: seq<ConversationId>)
    requires Linked(s) && BasesOk(s) && SendersOk(s) && Mergeable(s, target, sources)
    ensures SendersOk(MergeInto(s, target, sources))
  {
    hide MergeInto, MergedRow, BasesOk, PreserveMergedState;
    MergeConserves(s, target, sources);
    MergeMovesMessages(s, target, sources);
    MergedRowKeeps(s, target, sources);
    var r := MergeInto(s, target, sources);
    forall m | m in r.messages && r.messages[m].state == Inbound ensures Lower(r.messages[m].from) == Participant(r, m) {
      assert Lower(s.messages[m].from) == Participant(s, m);
    }
  }

  /** A pair follows its conversation into the target. */
  lemma MergeKeepsOwner(s: Store, target: ConversationId, sources: seq<ConversationId>, c: ConversationId, k: Candidate)
    requires Linked(s) && TokensOk(s) && BasesOk(s) && Mergeable(s, target, sources) && c in s.conversations && Owns(s, c, k)
    ensures var r, d := MergeInto(s, target, sources), Moved(c, target, Ids(sources)); d in r.conversations && Owns(r, d, k)
  {
    hide MergeInto, MergedRow, BasesOk;
    MergeConserves(s, target, sources);
    MergedRowKeeps(s, target, sources);
    if c in sources && k !in s.aliases {
      assert k in SourcePairs(s, sources);
    }
  }

  lemma MergeMovesMessages(s: Store, target: ConversationId, sources: seq<ConversationId>)
    requires Linked(s) && Mergeable(s, target, sources)
    ensures var r := MergeInto(s, target, sources);
            && r.messages.Keys == s.messages.Keys
            && forall m | m in s.messages :: r.messages[m] == s.messages[m].(conversation := Moved(s.messages[m].conversation, target, Ids(sources)))
  {
    hide MergeInto, MergedRow;
    MergeConserves(s, target, sources);
  }

  lemma MergeKeepsReplies(s: Store, target: ConversationId, sources: seq<ConversationId>)
    requires Linked(s) && TokensOk(s) && BasesOk(s) && RepliesOk(s) && Mergeable(s, target, sources)
    ensures RepliesOk(MergeInto(s, target, sources))
  {
    hide MergeInto, TokensOk, BasesOk, Owns, Mergeable;
    MergeableIs(s, target, sources);
    MergeMovesMessages(s, target, sources);
    var r := MergeInto(s, target, sources);
    forall m | m in r.messages && r.messages[m].replyTo.Some? ensures Owns(r, r.messages[m].conversation, r.messages[m].replyTo.value) {
      MergeKeepsOwner(s, target, sources, s.messages[m].conversation, s.messages[m].replyTo.value);
    }
  }

  lemma MergeableIs(s: Store, target: ConversationId, sources: seq<ConversationId>)
    requires Mergeable(s, target, sources)
    ensures target in s.conversations && AllLive(s, sources) && target !in sources
  {
  }

  lemma MergeKeepsCore(s: Store, target: ConversationId, sources: seq<ConversationId>)
    requires Core(s) && Mergeable(s, target, sources)
    ensures Core(MergeInto(s, target, sources))
  {
    MergeKeepsTokens(s, target, sources);
    MergeKeepsRows(s, target, sources);
    MergeKeepsLinks(s, target, sources);
    MergeKeepsSenders(s, target, sources);
    MergeKeepsReplies(s, target, sources);
    hide MergeInto, Mergeable, TokensOk, BasesOk, TopicsOk, IdsOk, LinksOk, SendersOk, RepliesOk, DatesOk;
  }

  lemma LastUnchanged(s: Store, r: Store, c: ConversationId, at: int, exact: bool)
    requires LastIs(s, c, at, exact)
    requires forall m | m in s.messages && s.messages[m].conversation == c ::
               m in r.messages && r.messages[m].conversation == c && r.messages[m].emailCreatedAt == s.messages[m].emailCreatedAt
    requires forall m | m in r.messages && r.messages[m].conversation == c :: m in s.messages && s.messages[m].conversation == c
    ensures LastIs(r, c, at, exact)
  {
    if exact {
      var m :| m in s.messages && s.messages[m].conversation == c && s.messages[m].emailCreatedAt == at;
      assert m in r.messages;
    } else {
      var m :| m in s.messages && s.messages[m].conversation == c && at <= s.messages[m].emailCreatedAt;
      assert m in r.messages;
    }
  }

  // --- Row updates keep the invariants ----------------------------------------------------

  ghost predicate NoInbound(s: Store, c: ConversationId) {
    forall m | m in s.messages && s.messages[m].conversation == c :: s.messages[m].state != Inbound
  }

  /** The message table decides these. */
  lemma SameMessages(s: Store, r: Store)
    requires r.messages == s.messages && s.now <= r.now
    ensures LinksOk(s) ==> LinksOk(r)
    ensures IdsOk(s) ==> IdsOk(r)
    ensures DatesOk(s) ==> DatesOk(r)
  {
    forall m | LinksOk(s) && m in r.messages ensures LinkOk(r, m) {
      assert LinkOk(s, m);
    }
  }

  /** Messages keep their owners when no conversation of theirs loses its participant, token or base. */
  lemma SameOwners(s: Store, r: Store)
    requires Linked(s) && Linked(r) && r.messages == s.messages && r.aliases == s.aliases
    requires forall c | c in s.conversations ::
               && c in r.conversations && r.conversations[c].routingToken == s.conversations[c].routingToken
               && (s.conversations[c].base.Some? ==> r.conversations[c].base == s.conversations[c].base)
               && (Lower(r.conversations[c].participant) == Lower(s.conversations[c].participant) || NoInbound(s, c))
    ensures SendersOk(s) ==> SendersOk(r)
    ensures RepliesOk(s) ==> RepliesOk(r)
  {
    forall m | SendersOk(s) && m in r.messages && r.messages[m].state == Inbound ensures Lower(r.messages[m].from) == Participant(r, m) {
      assert Lower(s.messages[m].from) == Participant(s, m);
    }
    forall m | RepliesOk(s) && m in r.messages && r.messages[m].replyTo.Some? ensures Owns(r, r.messages[m].conversation, r.messages[m].replyTo.value) {
      assert Owns(s, s.messages[m].conversation, s.messages[m].replyTo.value);
    }
  }

  lemma UpdateKeepsTables(s: Store, c: ConversationId, row: Conversation)
    requires Linked(s) && TokensOk(s) && BasesOk(s) && TopicsOk(s)
    requires if c in s.conversations then row.routingToken == s.conversations[c].routingToken else FreshToken(s, row.routingToken)
    requires (c in s.conversations && row.topic == s.conversations[c].topic) || row.topic.None? || !TopicTaken(s, row.topic.value)
    requires row.apiVersion == Some(V2) && row.topic.None? ==> row.base.Some?
    ensures var r := WithConversation(s, c, row); TokensOk(r) && BasesOk(r) && TopicsOk(r)
  {
  }

  lemma UpdateKeepsCore(s: Store, c: ConversationId, row: Conversation)
    requires Core(s) && c in s.conversations
    requires row.routingToken == s.conversations[c].routingToken
    requires Lower(row.participant) == Lower(s.conversations[c].participant) || NoInbound(s, c)
    requires s.conversations[c].base.Some? ==> row.base == s.conversations[c].base
    requires row.topic == s.conversations[c].topic || (row.topic.Some? && !TopicTaken(s, row.topic.value))
    requires row.apiVersion == Some(V2) && row.topic.None? ==> row.base.Some?
    ensures Core(WithConversation(s, c, row))
  {
    hide TokensOk, BasesOk, TopicsOk, IdsOk, LinksOk, SendersOk, RepliesOk, DatesOk, NoInbound, TopicTaken, FreshToken;
    UpdateKeepsTables(s, c, row);
    SameMessages(s, WithConversation(s, c, row));
    SameOwners(s, WithConversation(s, c, row));
  }

  lemma NewConversationKeepsCore(s: Store, c: ConversationId, row: Conversation)
    requires Core(s) && c !in s.conversations && FreshToken(s, row.routingToken)
    requires row.topic.Some? ==> !TopicTaken(s, row.topic.value)
    requires row.apiVersion == Some(V2) && row.topic.None? ==> row.base.Some?
    ensures Core(WithConversation(s, c, row))
  {
    hide TokensOk, BasesOk, TopicsOk, IdsOk, LinksOk, SendersOk, RepliesOk, DatesOk, NoInbound, TopicTaken, FreshToken;
    UpdateKeepsTables(s, c, row);
    SameMessages(s, WithConversation(s, c, row));
    SameOwners(s, WithConversation(s, c, row));
  }

  /** What is required of a message row that is inserted, or that replaces the row of the same message. */
  ghost predicate RowFits(s: Store, m: MessageId, row: Message)
    requires Linked(s)
  {
    && row.conversation in s.conversations
    && (m in s.messages ==>
          && row.conversation == s.messages[m].conversation
          && (s.messages[m].internetId.Some? ==> row.internetId == s.messages[m].internetId))
    && (forall o | o in s.messages && o != m ::
          && (row.internetId.Some? ==> s.messages[o].internetId != row.internetId)
          && (row.resendEmailId.Some? ==> s.messages[o].resendEmailId != row.resendEmailId))
    && (row.parent.Some? ==>
          && row.parent.value in s.messages
          && s.messages[row.parent.value].conversation == row.conversation
          && s.messages[row.parent.value].internetId.Some?
          && s.messages[row.parent.value].internetId == row.inReplyTo)
    && (row.state == Inbound ==> Lower(row.from) == Lower(s.conversations[row.conversation].participant))
    && (row.replyTo.Some? ==> Owns(s, row.conversation, row.replyTo.value))
    && (row.state in {Pending, Failed, Indeterminate} ==> row.emailCreatedAt <= s.now)
  }

  lemma MessageKeepsLinks(s: Store, m: MessageId, row: Message)
    requires Linked(s) && LinksOk(s) && RowFits(s, m, row)
    ensures LinksOk(WithMessage(s, m, row))
  {
    var r := WithMessage(s, m, row);
    forall o | o in r.messages ensures LinkOk(r, o) {
      if o != m {
        assert LinkOk(s, o);
      }
    }
  }

  lemma MessageKeepsOwners(s: Store, m: MessageId, row: Message)
    requires Linked(s) && SendersOk(s) && RepliesOk(s) && DatesOk(s) && RowFits(s, m, row)
    ensures var r := WithMessage(s, m, row); SendersOk(r) && RepliesOk(r) && DatesOk(r)
  {
    var r := WithMessage(s, m, row);
    forall o | o in r.messages && r.messages[o].state == Inbound ensures Lower(r.messages[o].from) == Participant(r, o) {
      if o != m {
        assert Lower(s.messages[o].from) == Participant(s, o);
      }
    }
    forall o | o in r.messages && r.messages[o].replyTo.Some? ensures Owns(r, r.messages[o].conversation, r.messages[o].replyTo.value) {
      if o != m {
        assert Owns(s, s.messages[o].conversation, s.messages[o].replyTo.value);
      }
    }
  }

  lemma MessageKeepsIds(s: Store, m: MessageId, row: Message)
    requires Linked(s) && IdsOk(s) && RowFits(s, m, row)
    ensures IdsOk(WithMessage(s, m, row))
  {
    hide Linked, Owns;
  }

  /** The conversation and alias tables alone decide these. */
  lemma SameTables(s: Store, r: Store)
    requires TokensOk(s) && BasesOk(s) && TopicsOk(s)
    requires r.conversations == s.conversations && r.aliases == s.aliases
    ensures TokensOk(r) && BasesOk(r) && TopicsOk(r)
  {
  }

  lemma MessageKeepsCore(s: Store, m: MessageId, row: Message)
    requires Core(s) && RowFits(s, m, row)
    ensures Core(WithMessage(s, m, row))
  {
    MessageKeepsLinks(s, m, row);
    MessageKeepsOwners(s, m, row);
    MessageKeepsIds(s, m, row);
    SameTables(s, WithMessage(s, m, row));
    hide LinksOk, SendersOk, RepliesOk, DatesOk, IdsOk, TokensOk, BasesOk, TopicsOk;
  }

  lemma ParentsKeepIds(s: Store, children: set<MessageId>, m: MessageId)
    requires Linked(s) && IdsOk(s)
    ensures IdsOk(SetParents(s, children, m))
  {
    hide Linked;
    var r := SetParents(s, children, m);
    assert forall o | o in r.messages :: o in s.messages && r.messages[o] == s.messages[o].(parent := r.messages[o].parent);
  }

  lemma ParentsKeepOwners(s: Store, children: set<MessageId>, m: MessageId)
    requires Linked(s) && SendersOk(s) && RepliesOk(s) && DatesOk(s)
    ensures var r := SetParents(s, children, m); SendersOk(r) && RepliesOk(r) && DatesOk(r)
  {
    var r := SetParents(s, children, m);
    forall o | o in r.messages && r.messages[o].state == Inbound ensures Lower(r.messages[o].from) == Participant(r, o) {
      assert Lower(s.messages[o].from) == Participant(s, o);
    }
    forall o | o in r.messages && r.messages[o].replyTo.Some? ensures Owns(r, r.messages[o].conversation, r.messages[o].replyTo.value) {
      assert Owns(s, s.messages[o].conversation, s.messages[o].replyTo.value);
    }
  }

  lemma ParentsKeepCore(s: Store, m: MessageId, id: InternetId, c: ConversationId)
    requires Core(s) && m in s.messages && s.messages[m].conversation == c && s.messages[m].internetId == Some(id)
    ensures Core(SetParents(s, Orphans(s, id, c), m))
  {
    var children := Orphans(s, id, c);
    ParentsKeepLinks(s, m, id, c);
    ParentsKeepIds(s, children, m);
    ParentsKeepOwners(s, children, m);
    SameTables(s, SetParents(s, children, m));
  }

  lemma ParentsKeepLinks(s: Store, m: MessageId, id: InternetId, c: ConversationId)
    requires Linked(s) && LinksOk(s)
    requires m in s.messages && s.messages[m].conversation == c && s.messages[m].internetId == Some(id)
    ensures LinksOk(SetParents(s, Orphans(s, id, c), m))
  {
    var r := SetParents(s, Orphans(s, id, c), m);
    forall o | o in r.messages ensures LinkOk(r, o) {
      assert LinkOk(s, o);
    }
  }

  lemma RefreshIs(s: Store, c: ConversationId) returns (at: int)
    requires Linked(s) && c in s.conversations && HasMessage(s, c)
    ensures IsLatest(s, c, at)
    ensures RefreshLast(s, c) == WithConversation(s, c, s.conversations[c].(lastMessageAt := at))
  {
    LatestExists(s, c);
    at := RefreshLast(s, c).conversations[c].lastMessageAt;
    LatestIsUnique(s, c);
  }

  lemma LatestIsUnique(s: Store, c: ConversationId)
    ensures forall a, b | IsLatest(s, c, a) && IsLatest(s, c, b) :: a == b
  {
    forall a, b | IsLatest(s, c, a) && IsLatest(s, c, b) ensures a == b {
      var m :| m in s.messages && s.messages[m].conversation == c && s.messages[m].emailCreatedAt == a;
      var o :| o in s.messages && s.messages[o].conversation == c && s.messages[o].emailCreatedAt == b;
    }
  }

  // --- Attaching a message: merge, store, link, refresh ------------------------------------

  /** What both callers of the merge establish before it. */
  ghost predicate Attachable(s: Store, c: ConversationId, sources: seq<ConversationId>, m: MessageId, row: Message,
        id: InternetId) {
    && Core(s) && Mergeable(s, c, sources)
    && row.conversation == c && row.internetId == Some(id)
    && (m in s.messages ==>
          && s.messages[m].conversation == c
          && (s.messages[m].internetId.Some? ==> row.internetId == s.messages[m].internetId))
    && (forall o | o in s.messages && o != m ::
          && s.messages[o].internetId != row.internetId
          && (row.resendEmailId.Some? ==> s.messages[o].resendEmailId != row.resendEmailId))
    && (row.parent.Some? ==>
          && row.parent.value in s.messages
          && (s.messages[row.parent.value].conversation == c || s.messages[row.parent.value].conversation in sources)
          && s.messages[row.parent.value].internetId.Some?
          && s.messages[row.parent.value].internetId == row.inReplyTo)
    && (row.state == Inbound ==> Lower(row.from) == Lower(s.conversations[c].participant))
    && (row.replyTo.Some? ==> Owns(s, c, row.replyTo.value))
    && (row.state in {Pending, Failed, Indeterminate} ==> row.emailCreatedAt <= s.now)
  }

  ghost function MergeIf(s: Store, c: ConversationId, sources: seq<ConversationId>): (r: Store)
    requires Linked(s) && c in s.conversations && AllLive(s, sources) && c !in sources
    ensures Linked(r) && c in r.conversations
  {
    if sources == [] then s else MergeInto(s, c, sources)
  }

  /** The facts about a merge that its callers use, also when there is nothing to merge. */
  lemma MergeIfIs(s: Store, c: ConversationId, sources: seq<ConversationId>)
    requires Core(s) && Mergeable(s, c, sources)
    ensures var r := MergeIf(s, c, sources);
            var gone := Ids(sources);
            && Core(r) && r.now == s.now && r.nextConversation == s.nextConversation
            && r.messages == MoveMessages(s, c, gone).messages
            && (forall k | k in s.aliases :: k in r.aliases && r.aliases[k] == Moved(s.aliases[k], c, gone))
            && (forall d :: d in r.conversations <==> d in s.conversations && d !in gone)
            && (forall d | d in r.conversations && d != c :: r.conversations[d] == s.conversations[d])
            && SameIdentity(s.conversations[c], r.conversations[c])
            && (forall d | d in s.conversations && (d == c || d in sources) ::
                  && Precedes(r.conversations[c].clock, s.conversations[d].clock)
                  && (s.conversations[d].apiVersion == Some(V2) ==> r.conversations[c].apiVersion == Some(V2)))
  {
    hide MergeInto, MergedRow, Core;
    CoreParts(s);
    if sources == [] {
      assert MoveMessages(s, c, Ids(sources)).messages == s.messages;
    } else {
      MergeConserves(s, c, sources);
      MergedRowKeeps(s, c, sources);
      MergeKeepsCore(s, c, sources);
      forall d | d in s.conversations && (d == c || d in sources)
        ensures Precedes(MergedRow(s, c, sources).clock, s.conversations[d].clock)
        ensures s.conversations[d].apiVersion == Some(V2) ==> MergedRow(s, c, sources).apiVersion == Some(V2)
      {
        assert d in [c] + sources;
      }
    }
  }

  lemma CoreParts(s: Store)
    requires Core(s)
    ensures Linked(s) && BasesOk(s)
  {
  }

  lemma AttachIs(s: Store, c: ConversationId, sources: seq<ConversationId>, m: MessageId, row: Message, id: InternetId)
    requires Attachable(s, c, sources, m, row, id)
    ensures var merged := MergeIf(s, c, sources);
            var stored := WithMessage(merged, m, row);
            var linked := SetParents(stored, Orphans(stored, id, c), m);
            && RowFits(merged, m, row)
            && Core(merged) && Core(stored) && Core(linked)
            && Attach(s, c, sources, m, row, id) == RefreshLast(linked, c)
            && HasMessage(linked, c)
  {
    hide MergeInto, Core, SameIdentity;
    CoreParts(s);
    MergeIfIs(s, c, sources);
    var merged := MergeIf(s, c, sources);
    AttachRowFits(s, c, sources, m, row, id);
    MessageKeepsCore(merged, m, row);
    var stored := WithMessage(merged, m, row);
    ParentsKeepCore(stored, m, id, c);
    var linked := SetParents(stored, Orphans(stored, id, c), m);
    assert linked.messages[m].conversation == c;
  }

  lemma AttachRowFits(s: Store, c: ConversationId, sources: seq<ConversationId>, m: MessageId, row: Message,
        id: InternetId)
    requires Attachable(s, c, sources, m, row, id)
    ensures RowFits(MergeIf(s, c, sources), m, row)
  {
    hide MergeInto, Core;
    CoreParts(s);
    MergeIfIs(s, c, sources);
    MergeableIs(s, c, sources);
    var merged := MergeIf(s, c, sources);
    assert forall o | o in s.messages :: o in merged.messages && merged.messages[o] == MovedRow(s.messages[o], c, Ids(sources));
    if row.replyTo.Some? {
      OwnerMerged(s, merged, c, sources, row.replyTo.value);
    }
    hide MoveMessages, Mergeable, MergeIf, Owns, Precedes;
  }

  lemma OwnerMerged(s: Store, merged: Store, c: ConversationId, sources: seq<ConversationId>, k: Candidate)
    requires c in s.conversations && c in merged.conversations && c !in sources && Owns(s, c, k) && SameIdentity(s.conversations[c], merged.conversations[c])
    requires forall k | k in s.aliases :: k in merged.aliases && merged.aliases[k] == Moved(s.aliases[k], c, Ids(sources))
    ensures Owns(merged, c, k)
  {
  }

  function LinkedRow(row: Message, c: ConversationId, m: MessageId, id: InternetId): Message {
    if row.conversation == c && row.parent.None? && row.inReplyTo == Some(id) then row.(parent := Some(m)) else row
  }

  function MovedRow(row: Message, c: ConversationId, gone: set<ConversationId>): Message {
    row.(conversation := Moved(row.conversation, c, gone))
  }

  /** The tables after attaching a message; nothing but `c` gains a message or changes its row. */
  ghost predicate Attached(s: Store, r: Store, c: ConversationId, sources: seq<ConversationId>, m: MessageId,
        row: Message, id: InternetId) {
    var gone := Ids(sources);
    && r.now == s.now && r.nextConversation >= s.nextConversation
    && r.messages.Keys == s.messages.Keys + {m}
    && (forall o | o in s.messages && o != m :: r.messages[o] == LinkedRow(MovedRow(s.messages[o], c, gone), c, m, id))
    && r.messages[m] == LinkedRow(row, c, m, id)
    && (forall d :: d in r.conversations <==> d in s.conversations && d !in gone)
    && (forall d | d in r.conversations && d != c :: r.conversations[d] == s.conversations[d])
  }

  lemma LinkedMessages(s: Store, merged: Store, c: ConversationId, gone: set<ConversationId>, m: MessageId,
        row: Message, id: InternetId)
    requires Linked(s) && Linked(merged) && c in s.conversations && c in merged.conversations && row.conversation == c
    requires merged.messages == MoveMessages(s, c, gone).messages
    ensures var stored := WithMessage(merged, m, row);
            var linked := SetParents(stored, Orphans(stored, id, c), m);
            && linked.messages.Keys == s.messages.Keys + {m}
            && (forall o | o in s.messages && o != m :: linked.messages[o] == LinkedRow(MovedRow(s.messages[o], c, gone), c, m, id))
            && linked.messages[m] == LinkedRow(row, c, m, id)
            && linked.conversations == merged.conversations && linked.now == merged.now && linked.nextConversation == merged.nextConversation && linked.aliases == merged.aliases
  {
    var stored := WithMessage(merged, m, row);
    forall o | o in s.messages && o != m ensures stored.messages[o] == MovedRow(s.messages[o], c, gone) {
    }
  }

  lemma AttachShape(s: Store, c: ConversationId, sources: seq<ConversationId>, m: MessageId, row: Message,
        id: InternetId)
    requires Attachable(s, c, sources, m, row, id)
    ensures Attached(s, Attach(s, c, sources, m, row, id), c, sources, m, row, id)
  {
    hide MergeInto, Core, SameIdentity, RowFits, MoveMessages, SetParents, RefreshLast, Attach;
    CoreParts(s);
    AttachIs(s, c, sources, m, row, id);
    MergeIfIs(s, c, sources);
    var merged := MergeIf(s, c, sources);
    var stored := WithMessage(merged, m, row);
    LinkedMessages(s, merged, c, Ids(sources), m, row, id);
    var at := RefreshIs(SetParents(stored, Orphans(stored, id, c), m), c);
  }

  lemma OthersKeepLast(s: Store, r: Store, c: ConversationId, sources: seq<ConversationId>, m: MessageId,
        row: Message, id: InternetId, stale: set<ConversationId>)
    requires Attached(s, r, c, sources, m, row, id) && row.conversation == c && (m in s.messages ==> s.messages[m].conversation == c)
    requires LastOk(s, {c}, stale) && c !in sources
    ensures LastOk(r, {c}, stale)
  {
    hide LastIs;
    forall d | d in r.conversations && d != c ensures LastIs(r, d, r.conversations[d].lastMessageAt, d !in stale) {
      LastUnchanged(s, r, d, s.conversations[d].lastMessageAt, d !in stale);
    }
  }

  /** An attachment refreshes the last-message time of its conversation, stale or not. */
  lemma AttachKeepsLast(s: Store, c: ConversationId, sources: seq<ConversationId>, m: MessageId, row: Message,
        id: InternetId, stale: set<ConversationId>)
    requires Attachable(s, c, sources, m, row, id) && LastOk(s, {c}, stale)
    ensures LastOk(Attach(s, c, sources, m, row, id), {}, stale - {c})
  {
    hide MergeInto, Core, RowFits, SetParents, Attached, RefreshLast, Attach, LastOk;
    CoreParts(s);
    AttachIs(s, c, sources, m, row, id);
    AttachShape(s, c, sources, m, row, id);
    var r := Attach(s, c, sources, m, row, id);
    var merged := MergeIf(s, c, sources);
    var stored := WithMessage(merged, m, row);
    var linked := SetParents(stored, Orphans(stored, id, c), m);
    var at := RefreshIs(linked, c);
    LastUnchanged(linked, r, c, at, true);
    OthersKeepLast(s, r, c, sources, m, row, id, stale);
    LastTogether(r, c, stale);
  }

  lemma LastTogether(s: Store, c: ConversationId, stale: set<ConversationId>)
    requires LastOk(s, {c}, stale) && c in s.conversations && IsLatest(s, c, s.conversations[c].lastMessageAt)
    ensures LastOk(s, {}, stale - {c})
  {
  }

  lemma AttachKeepsSound(s: Store, c: ConversationId, sources: seq<ConversationId>, m: MessageId, row: Message,
        id: InternetId, stale: set<ConversationId>)
    requires Attachable(s, c, sources, m, row, id) && LastOk(s, {c}, stale)
    ensures Sound(Attach(s, c, sources, m, row, id), stale - {c})
  {
    hide MergeInto, Core, LastOk;
    CoreParts(s);
    AttachKeepsLast(s, c, sources, m, row, id, stale);
    AttachIs(s, c, sources, m, row, id);
    var stored := WithMessage(MergeIf(s, c, sources), m, row);
    var linked := SetParents(stored, Orphans(stored, id, c), m);
    var at := RefreshIs(linked, c);
    RefreshKeepsCore(linked, c, at);
  }

  lemma RefreshKeepsCore(s: Store, c: ConversationId, at: int)
    requires Core(s) && c in s.conversations
    ensures Core(WithConversation(s, c, s.conversations[c].(lastMessageAt := at)))
  {
    UpdateKeepsCore(s, c, s.conversations[c].(lastMessageAt := at));
  }

  // --- The inbound projection ----------------------------------------------------------------

  /** The store on which the inbound projection attaches the message, and where. */
  ghost function Target(s: Store, e: Email, d: Draw, defaultBase: string): ConversationId
    requires Linked(s) && Answers(s, e, d)
  {
    ChosenConversation(s, e, d, defaultBase).GetOr(d.conversation)
  }

  ghost function Ready(s: Store, e: Email, d: Draw, defaultBase: string): (r: Store)
    requires Linked(s) && Answers(s, e, d)
    ensures Linked(r)
  {
    if ChosenConversation(s, e, d, defaultBase).Some? then s
    else WithConversation(s, d.conversation, NewConversation(e, d.token))
  }

  ghost function InboundSources(s: Store, e: Email, d: Draw, defaultBase: string): seq<ConversationId>
    requires Linked(s) && Answers(s, e, d)
  {
    AnswersAreStored(s, e, d);
    Sources(s, d.related + d.waiting, Target(s, e, d, defaultBase))
  }

  ghost function InboundRow(s: Store, e: Email, d: Draw, defaultBase: string): Message
    requires Linked(s) && Answers(s, e, d)
  {
    AnswersAreStored(s, e, d);
    NewMessage(e, Target(s, e, d, defaultBase), ParentOf(s, e, d))
  }

  /** The sources of an inbound merge: the other unassigned conversations of the related messages. */
  lemma InboundSourcesAre(s: Store, e: Email, d: Draw, defaultBase: string)
    requires Linked(s) && Answers(s, e, d)
    ensures var c, sources := Target(s, e, d, defaultBase), InboundSources(s, e, d, defaultBase);
            && c !in sources && AllLive(s, sources)
            && (forall x :: x in sources
                  <==> exists m | m in Eligible(s, e) + Waiting(s, e.internetId, Lower(e.from)) ::
                         s.messages[m].conversation == x && x != c && Home(s, m).topic.None?)
            && (forall x | x in sources :: x in s.conversations && s.conversations[x].topic.None?
                  && Lower(s.conversations[x].participant) == Lower(e.from))
  {
    hide ChosenConversation;
    AnswersAreStored(s, e, d);
    var c := Target(s, e, d, defaultBase);
    var rows := d.related + d.waiting;
    SourcesAreOther(s, rows, c);
    assert forall m :: m in rows <==> m in Eligible(s, e) + Waiting(s, e.internetId, Lower(e.from));
    hide Sources;
    var sources := InboundSources(s, e, d, defaultBase);
    forall x | x in sources ensures s.conversations[x].topic.None? && Lower(s.conversations[x].participant) == Lower(e.from) {
      var m :| m in rows && s.messages[m].conversation == x && x != c && Home(s, m).topic.None?;
      assert Participant(s, m) == Lower(e.from);
    }
  }

  /** The parent is the stored message with the effective parent's Message-ID; its
      conversation is the chosen one, or unassigned and hence among the sources. */
  lemma InboundParentIs(s: Store, e: Email, d: Draw, defaultBase: string)
    requires Linked(s) && Answers(s, e, d)
    ensures var c, parent := Target(s, e, d, defaultBase), InboundRow(s, e, d, defaultBase).parent;
            && (parent.Some? ==>
                  && parent.value in Eligible(s, e)
                  && s.messages[parent.value].internetId == EffectiveParent(e)
                  && (s.messages[parent.value].conversation == c || Home(s, parent.value).topic.None?))
            && (parent.None? && EffectiveParent(e).Some? ==>
                  forall m | m in Eligible(s, e) :: s.messages[m].internetId != EffectiveParent(e))
  {
    hide Routed, NearestAncestor, FindById, EffectiveParent, References, Candidates, Eligible, Waiting;
    AnswersAreStored(s, e, d);
    FoundIsStored(s, d.related, References(e), EffectiveParent(e).GetOr([]));
    assert forall m :: m in d.related <==> m in Eligible(s, e);
  }

  lemma InboundIs(s: Store, e: Email, d: Draw, defaultBase: string)
    requires Linked(s) && Answers(s, e, d) && d.conversation !in s.conversations && !AlreadyProjected(s, e)
    ensures var c, ready, sources := Target(s, e, d, defaultBase), Ready(s, e, d, defaultBase), InboundSources(s, e, d, defaultBase);
            && c in ready.conversations && AllLive(ready, sources) && c !in sources
            && ProjectInbound(s, e, d, defaultBase)
               == MarkAutomatic(Attach(ready, c, sources, d.message, InboundRow(s, e, d, defaultBase), e.internetId), c, AwaitingUs, e.createdAt)
  {
    hide ChosenConversation, Attach;
    ChosenIsLive(s, e, d, defaultBase);
    InboundSourcesAre(s, e, d, defaultBase);
  }

  lemma ReadyIsCore(s: Store, e: Email, d: Draw, defaultBase: string)
    requires Core(s) && Answers(s, e, d) && d.conversation !in s.conversations && FreshToken(s, d.token)
    ensures Core(Ready(s, e, d, defaultBase))
  {
    if ChosenConversation(s, e, d, defaultBase).None? {
      NewConversationKeepsCore(s, d.conversation, NewConversation(e, d.token));
    }
  }

  lemma ReadyKeepsLast(s: Store, e: Email, d: Draw, defaultBase: string, stale: set<ConversationId>)
    requires Linked(s) && LastOk(s, {}, stale) && Answers(s, e, d) && d.conversation !in s.conversations
    ensures LastOk(Ready(s, e, d, defaultBase), {Target(s, e, d, defaultBase)}, stale)
  {
    hide ChosenConversation, Answers, LastIs;
    var r := Ready(s, e, d, defaultBase);
    forall c | c in r.conversations && c != Target(s, e, d, defaultBase) ensures LastIs(r, c, r.conversations[c].lastMessageAt, c !in stale) {
      LastUnchanged(s, r, c, s.conversations[c].lastMessageAt, c !in stale);
    }
  }

  lemma InboundMergeable(s: Store, e: Email, d: Draw, defaultBase: string)
    requires Linked(s) && Answers(s, e, d) && d.conversation !in s.conversations
    ensures var c, ready := Target(s, e, d, defaultBase), Ready(s, e, d, defaultBase);
            && Mergeable(ready, c, InboundSources(s, e, d, defaultBase))
            && Lower(ready.conversations[c].participant) == Lower(e.from)
  {
    hide ChosenConversation, InboundSources, Eligible, Waiting, Answers;
    ChosenIsLive(s, e, d, defaultBase);
    InboundSourcesAre(s, e, d, defaultBase);
  }

  lemma InboundAttachable(s: Store, e: Email, d: Draw, defaultBase: string)
    requires Core(s) && Answers(s, e, d) && !AlreadyProjected(s, e)
    requires d.conversation !in s.conversations && d.message !in s.messages && FreshToken(s, d.token)
    ensures Attachable(Ready(s, e, d, defaultBase), Target(s, e, d, defaultBase), InboundSources(s, e, d, defaultBase),
                       d.message, InboundRow(s, e, d, defaultBase), e.internetId)
  {
    hide Core, LastOk, Answers, ChosenConversation, InboundSources, Waiting, EffectiveParent, References, Mergeable, Candidates, FreshToken;
    CoreParts(s);
    ReadyIsCore(s, e, d, defaultBase);
    InboundMergeable(s, e, d, defaultBase);
    InboundParentIs(s, e, d, defaultBase);
    InboundSourcesAre(s, e, d, defaultBase);
    var ready, parent := Ready(s, e, d, defaultBase), InboundRow(s, e, d, defaultBase).parent;
    assert forall m | m in s.messages :: s.messages[m].internetId != Some(e.internetId) && s.messages[m].resendEmailId != Some(e.resendEmailId);
    assert ready.messages == s.messages;
    if parent.Some? {
      assert parent.value in Eligible(s, e) + Waiting(s, e.internetId, Lower(e.from));
    }
  }

  /** The inbound projection keeps the invariant, and refreshes the conversation it chooses. */
  lemma InboundKeepsSound(s: Store, e: Email, d: Draw, defaultBase: string, stale: set<ConversationId>)
    requires Sound(s, stale) && Enabled(s, Receive(e, d, defaultBase))
    ensures Sound(ProjectInbound(s, e, d, defaultBase), stale)
    ensures Linked(s) && Answers(s, e, d)
    ensures !AlreadyProjected(s, e) ==> Sound(ProjectInbound(s, e, d, defaultBase), stale - {Target(s, e, d, defaultBase)})
  {
    hide Core, LastOk, Attachable, Attach, Target, Ready, InboundSources, ProjectInbound, Answers, FreshToken, Sound;
    SoundParts(s, stale);
    if AlreadyProjected(s, e) {
      RepeatedIsSame(s, e, d, defaultBase);
    } else {
      InboundIs(s, e, d, defaultBase);
      ReadyIsCore(s, e, d, defaultBase);
      ReadyKeepsLast(s, e, d, defaultBase, stale);
      InboundAttachable(s, e, d, defaultBase);
      var ready, c, sources := Ready(s, e, d, defaultBase), Target(s, e, d, defaultBase), InboundSources(s, e, d, defaultBase);
      var attached := Attach(ready, c, sources, d.message, InboundRow(s, e, d, defaultBase), e.internetId);
      AttachKeepsSound(ready, c, sources, d.message, InboundRow(s, e, d, defaultBase), e.internetId, stale);
      ClockKeepsSound(attached, c, AwaitingUs, e.createdAt, stale - {c});
      SoundWeakens(MarkAutomatic(attached, c, AwaitingUs, e.createdAt), stale - {c}, stale);
    }
  }

  lemma SoundParts(s: Store, stale: set<ConversationId>)
    requires Sound(s, stale)
    ensures Core(s) && Linked(s) && LastOk(s, {}, stale)
  {
  }

  lemma SoundWeakens(s: Store, stale: set<ConversationId>, more: set<ConversationId>)
    requires Sound(s, stale) && stale <= more
    ensures Sound(s, more)
  {
    hide Core;
    LastWeakens(s, {}, stale, more);
  }

  lemma RepeatedIsSame(s: Store, e: Email, d: Draw, defaultBase: string)
    requires Linked(s) && Enabled(s, Receive(e, d, defaultBase)) && AlreadyProjected(s, e)
    ensures ProjectInbound(s, e, d, defaultBase) == s
  {
  }

  lemma RowKeepsLast(s: Store, c: ConversationId, row: Conversation, stale: set<ConversationId>)
    requires Linked(s) && LastOk(s, {}, stale)
    requires c in s.conversations && row.lastMessageAt == s.conversations[c].lastMessageAt
    ensures LastOk(WithConversation(s, c, row), {}, stale)
  {
    hide LastIs;
    var r := WithConversation(s, c, row);
    forall d | d in r.conversations ensures LastIs(r, d, r.conversations[d].lastMessageAt, d !in stale) {
      LastUnchanged(s, r, d, s.conversations[d].lastMessageAt, d !in stale);
    }
  }

  lemma ClockKeepsSound(s: Store, c: ConversationId, state: State, at: int, stale: set<ConversationId>)
    requires Linked(s) && Sound(s, stale) && c in s.conversations
    ensures Sound(MarkAutomatic(s, c, state, at), stale)
  {
    hide Core, LastOk;
    var row := s.conversations[c].(clock := ApplyAutomaticState(s.conversations[c].clock, state, at));
    BaseFacts(s, c);
    UpdateKeepsCore(s, c, row);
    RowKeepsLast(s, c, row, stale);
  }

  lemma BaseFacts(s: Store, c: ConversationId)
    requires Core(s) && c in s.conversations
    ensures Linked(s) && (s.conversations[c].apiVersion == Some(V2) && s.conversations[c].topic.None? ==> s.conversations[c].base.Some?)
  {
  }

  // --- Recording a Message-ID ---------------------------------------------------------------

  lemma RecordMergeable(s: Store, m: MessageId, id: InternetId, waiting: seq<MessageId>)
    requires Linked(s) && m in s.messages && Enumerates(waiting, Waiting(s, id, Participant(s, m)))
    ensures AllStored(s, waiting)
    ensures Mergeable(s, s.messages[m].conversation, Sources(s, waiting, s.messages[m].conversation))
  {
    var c := s.messages[m].conversation;
    SourcesAreOther(s, waiting, c);
    hide Sources;
    forall x | x in Sources(s, waiting, c)
      ensures s.conversations[x].topic.None? && Lower(s.conversations[x].participant) == Lower(s.conversations[c].participant)
    {
      var o :| o in waiting && s.messages[o].conversation == x && Home(s, o).topic.None?;
      assert o in Waiting(s, id, Participant(s, m));
    }
  }

  lemma RecordAttachable(s: Store, m: MessageId, id: InternetId, at: Option<int>, waiting: seq<MessageId>)
    requires Core(s) && Enabled(s, Record(m, id, at, waiting)) && s.messages[m].state != Inbound
    requires !exists o | o in s.messages && o != m :: s.messages[o].internetId == Some(id)
    ensures AllStored(s, waiting)
    ensures var row := s.messages[m];
            Attachable(s, row.conversation, Sources(s, waiting, row.conversation), m,
                       row.(internetId := Some(id), emailCreatedAt := at.GetOr(row.emailCreatedAt)), id)
  {
    hide Core, LastOk, Mergeable, Sources, Enumerates, Waiting;
    CoreParts(s);
    RecordMergeable(s, m, id, waiting);
    RowFacts(s, m);
  }

  lemma RowFacts(s: Store, m: MessageId)
    requires Core(s) && m in s.messages
    ensures LinkOk(s, m)
    ensures s.messages[m].conversation in s.conversations
    ensures s.messages[m].replyTo.Some? ==> Owns(s, s.messages[m].conversation, s.messages[m].replyTo.value)
    ensures s.messages[m].resendEmailId.Some? ==> forall o | o in s.messages && o != m :: s.messages[o].resendEmailId != s.messages[m].resendEmailId
    ensures s.messages[m].state in {Pending, Failed, Indeterminate} ==> s.messages[m].emailCreatedAt <= s.now
    ensures s.messages[m].state == Inbound ==> Lower(s.messages[m].from) == Lower(s.conversations[s.messages[m].conversation].participant)
  {
    assert s.messages[m].state == Inbound ==> Lower(s.messages[m].from) == Participant(s, m);
  }

  predicate Recordable(s: Store, m: MessageId, id: InternetId)
    requires m in s.messages
  {
    s.messages[m].state != Inbound && !exists o | o in s.messages && o != m :: s.messages[o].internetId == Some(id)
  }

  lemma RecordIs(s: Store, m: MessageId, id: InternetId, at: Option<int>, waiting: seq<MessageId>)
    requires Linked(s) && Enabled(s, Record(m, id, at, waiting))
    ensures !Recordable(s, m, id) ==> RecordId(s, m, id, at, waiting) == s
    ensures Recordable(s, m, id) ==>
              var row := s.messages[m];
              && AllStored(s, waiting)
              && var sources := Sources(s, waiting, row.conversation);
                 && AllLive(s, sources) && row.conversation !in sources
                 && RecordId(s, m, id, at, waiting)
                    == Attach(s, row.conversation, sources, m, row.(internetId := Some(id), emailCreatedAt := at.GetOr(row.emailCreatedAt)), id)
  {
    hide Attach, Sources, Enumerates;
    RecordMergeable(s, m, id, waiting);
  }

  /** Recording a Message-ID keeps the invariant, and refreshes the conversation of the sent message. */
  lemma RecordKeepsSound(s: Store, m: MessageId, id: InternetId, at: Option<int>, waiting: seq<MessageId>,
        stale: set<ConversationId>)
    requires Sound(s, stale) && Enabled(s, Record(m, id, at, waiting))
    ensures Sound(RecordId(s, m, id, at, waiting), stale)
    ensures Recordable(s, m, id) ==> Sound(RecordId(s, m, id, at, waiting), stale - {s.messages[m].conversation})
  {
    hide Core, LastOk, RecordId, Attach, Attachable, Sources, Enumerates, Waiting, Sound;
    SoundParts(s, stale);
    RecordIs(s, m, id, at, waiting);
    if Recordable(s, m, id) {
      var row := s.messages[m];
      RecordAttachable(s, m, id, at, waiting);
      LastWeakens(s, {row.conversation}, stale, stale);
      AttachKeepsSound(s, row.conversation, Sources(s, waiting, row.conversation), m,
                       row.(internetId := Some(id), emailCreatedAt := at.GetOr(row.emailCreatedAt)), id, stale);
      SoundWeakens(RecordId(s, m, id, at, waiting), stale - {row.conversation}, stale);
    }
  }

  // --- Every step ------------------------------------------------------------------------------

  lemma OutboundKeepsCore(s: Store, c: ConversationId, row: Conversation, m: MessageId, parent: Option<MessageId>,
        from: string, now: int)
    requires Core(s) && m !in s.messages && row.base.Some? && now <= s.now
    requires Core(WithConversation(s, c, row))
    requires parent.Some? ==> parent.value in s.messages && s.messages[parent.value].conversation == c && s.messages[parent.value].internetId.Some?
    ensures Core(StoreOutbound(s, c, row, m, parent, from, now))
  {
    hide Core;
    CoreParts(s);
    var t := WithConversation(s, c, row);
    var message := OutboundRow(t, c, parent, row.base.GetOr([]), from, now);
    assert RowFits(t, m, message);
    MessageKeepsCore(t, m, message);
  }

  /** A new message of time `now` next to a last-message time of at least `now`. */
  lemma OutboundKeepsLast(s: Store, c: ConversationId, row: Conversation, m: MessageId, parent: Option<MessageId>,
        from: string, now: int, stale: set<ConversationId>)
    requires Linked(s) && LastOk(s, {c}, stale) && m !in s.messages && (parent.Some? ==> parent.value in s.messages)
    requires row.lastMessageAt == now || (now <= row.lastMessageAt && LastIs(s, c, row.lastMessageAt, c !in stale))
    requires c !in stale ==> forall o | o in s.messages && s.messages[o].conversation == c :: s.messages[o].emailCreatedAt <= row.lastMessageAt
    ensures LastOk(StoreOutbound(s, c, row, m, parent, from, now), {}, stale)
  {
    var r := StoreOutbound(s, c, row, m, parent, from, now);
    forall d | d in r.conversations ensures LastIs(r, d, r.conversations[d].lastMessageAt, d !in stale) {
      if d != c {
        LastUnchanged(s, r, d, s.conversations[d].lastMessageAt, d !in stale);
      } else {
        assert r.messages[m].conversation == c && r.messages[m].emailCreatedAt == now;
        if row.lastMessageAt != now {
          var o :| o in s.messages && s.messages[o].conversation == c && row.lastMessageAt <= s.messages[o].emailCreatedAt;
          assert r.messages[o] == s.messages[o];
        }
      }
    }
  }

  lemma OpenKeepsSound(s: Store, step: Step, stale: set<ConversationId>)
    requires Sound(s, stale) && Enabled(s, step) && step.OpenTopic?
    ensures Sound(Apply(s, step), stale)
  {
    hide Core, LastOk;
    CoreParts(s);
    if !TopicTaken(s, step.topic) {
      var c, row := step.conversation, OpenedRow(step.token, step.topic, step.participant, step.base, step.stamped, step.requested);
      NewConversationKeepsCore(s, c, row);
      OutboundKeepsCore(s, c, row, step.message, None, step.from, step.requested);
      LastWeakens(s, {c}, stale, stale);
      OutboundKeepsLast(s, c, row, step.message, None, step.from, step.requested, stale);
    }
  }

  /** The step reopens its conversation although a message there is later than the request. */
  ghost predicate IsBackdated(s: Store, step: Step) {
    && step.ReopenFailed? && CanReopen(s, step.conversation, step.topic, step.base)
    && exists o | o in s.messages && s.messages[o].conversation == step.conversation :: step.requested < s.messages[o].emailCreatedAt
  }

  /** The conversation whose last-message time the step sets back. */
  ghost function SetBack(s: Store, step: Step): set<ConversationId> {
    if IsBackdated(s, step) then {step.conversation} else {}
  }

  lemma ReopenKeepsSound(s: Store, step: Step, stale: set<ConversationId>)
    requires Sound(s, stale) && Enabled(s, step) && step.ReopenFailed?
    ensures Sound(Apply(s, step), stale + SetBack(s, step))
  {
    hide Core, LastOk;
    CoreParts(s);
    var c, more := step.conversation, stale + SetBack(s, step);
    LastWeakens(s, {}, stale, more);
    if CanReopen(s, c, step.topic, step.base) {
      var row := OpenedRow(s.conversations[c].routingToken, step.topic, step.participant, step.base, step.requested, step.requested);
      UpdateKeepsCore(s, c, row);
      OutboundKeepsCore(s, c, row, step.message, None, step.from, step.requested);
      LastWeakens(s, {c}, stale, more);
      OutboundKeepsLast(s, c, row, step.message, None, step.from, step.requested, more);
    }
  }

  /** Exactly when a reopening leaves the last-message time right: when the request is at or after every
      failed message of the conversation. */
  lemma ReopenedLastIsLatestIff(s: Store, step: Step)
    requires Linked(s) && Enabled(s, step) && step.ReopenFailed? && CanReopen(s, step.conversation, step.topic, step.base)
    ensures var c, r := step.conversation, Apply(s, step);
            && c in r.conversations
            && (IsLatest(r, c, r.conversations[c].lastMessageAt)
                <==> forall o | o in s.messages && s.messages[o].conversation == c :: s.messages[o].emailCreatedAt <= step.requested)
  {
    var c, r := step.conversation, Apply(s, step);
    assert r.messages[step.message].conversation == c && r.messages[step.message].emailCreatedAt == step.requested;
    assert forall o | o in s.messages :: r.messages[o] == s.messages[o];
  }

  lemma ReplyKeepsSound(s: Store, step: Step, stale: set<ConversationId>)
    requires Sound(s, stale) && Enabled(s, step) && step.Reply?
    ensures Sound(Apply(s, step), stale)
  {
    hide Core, LastOk;
    CoreParts(s);
    var c := step.conversation;
    if Apply(s, step) != s {
      var row := RepliedRow(s.conversations[c], step.base, step.requested);
      UpdateKeepsCore(s, c, row);
      OutboundKeepsCore(s, c, row, step.message, Some(step.parent), step.from, step.requested);
      LastWeakens(s, {c}, stale, stale);
      LastOf(s, c, stale);
      OutboundKeepsLast(s, c, row, step.message, Some(step.parent), step.from, step.requested, stale);
    }
  }

  lemma LastOf(s: Store, c: ConversationId, stale: set<ConversationId>)
    requires LastOk(s, {}, stale) && c in s.conversations
    ensures LastIs(s, c, s.conversations[c].lastMessageAt, c !in stale)
  {
  }

  lemma SettledRowFits(s: Store, step: Step)
    requires Core(s) && Enabled(s, step) && step.Settle?
    ensures RowFits(s, step.message, s.messages[step.message].(state := step.outcome, resendEmailId := step.resendEmailId))
  {
    hide Core;
    CoreParts(s);
    var m := step.message;
    RowFacts(s, m);
    if s.messages[m].internetId.Some? {
      IdIsUnique(s, m);
    }
  }

  lemma IdIsUnique(s: Store, m: MessageId)
    requires Core(s) && m in s.messages && s.messages[m].internetId.Some?
    ensures forall o | o in s.messages && o != m :: s.messages[o].internetId != s.messages[m].internetId
  {
  }

  lemma SettleKeepsSound(s: Store, step: Step, stale: set<ConversationId>)
    requires Sound(s, stale) && Enabled(s, step) && step.Settle?
    ensures Sound(Apply(s, step), stale)
  {
    hide Core, RowFits, LastIs;
    CoreParts(s);
    var m := step.message;
    var row := s.messages[m].(state := step.outcome, resendEmailId := step.resendEmailId);
    SettledRowFits(s, step);
    MessageKeepsCore(s, m, row);
    var r := WithMessage(s, m, row);
    forall d | d in r.conversations ensures LastIs(r, d, r.conversations[d].lastMessageAt, d !in stale) {
      LastUnchanged(s, r, d, s.conversations[d].lastMessageAt, d !in stale);
    }
  }

  lemma RowStepKeepsSound(s: Store, c: ConversationId, row: Conversation, stale: set<ConversationId>)
    requires Linked(s) && Sound(s, stale) && c in s.conversations
    requires row.routingToken == s.conversations[c].routingToken && row.participant == s.conversations[c].participant
    requires row.base == s.conversations[c].base && row.lastMessageAt == s.conversations[c].lastMessageAt
    requires row.topic == s.conversations[c].topic || (row.topic.Some? && !TopicTaken(s, row.topic.value))
    requires row.apiVersion == s.conversations[c].apiVersion || row.topic.Some?
    ensures Sound(WithConversation(s, c, row), stale)
  {
    hide Core, LastOk;
    BaseFacts(s, c);
    UpdateKeepsCore(s, c, row);
    RowKeepsLast(s, c, row, stale);
  }

  lemma TickKeepsSound(s: Store, to: int, stale: set<ConversationId>)
    requires Sound(s, stale) && s.now <= to
    ensures Sound(s.(now := to), stale)
  {
    hide TokensOk, BasesOk, TopicsOk, IdsOk, LinksOk, SendersOk, RepliesOk, DatesOk, NoInbound, LastIs;
    var r := s.(now := to);
    SameTables(s, r);
    SameMessages(s, r);
    SameOwners(s, r);
    forall c | c in r.conversations ensures LastIs(r, c, r.conversations[c].lastMessageAt, c !in stale) {
      LastUnchanged(s, r, c, s.conversations[c].lastMessageAt, c !in stale);
    }
  }

  /** Every transaction keeps every invariant of the thread tables; only a backdated reopening adds a
      conversation whose last-message time is not that of its latest message. */
  lemma StepKeepsSound(s: Store, step: Step, stale: set<ConversationId>)
    requires Sound(s, stale) && Enabled(s, step)
    ensures Sound(Apply(s, step), stale + SetBack(s, step))
  {
    hide Core, LastOk, StoreOutbound, RecordId, ProjectInbound, IsLatest, Answers, Sound;
    SoundParts(s, stale);
    assert !step.ReopenFailed? ==> stale + SetBack(s, step) == stale;
    match step
    case Tick(to) => TickKeepsSound(s, to, stale);
    case OpenTopic(_, _, _, _, _, _, _, _, _) => OpenKeepsSound(s, step, stale);
    case ReopenFailed(_, _, _, _, _, _, _) => ReopenKeepsSound(s, step, stale);
    case Reply(_, _, _, _, _, _) => ReplyKeepsSound(s, step, stale);
    case Receive(e, d, defaultBase) => InboundKeepsSound(s, e, d, defaultBase, stale);
    case Record(m, id, at, waiting) => RecordKeepsSound(s, m, id, at, waiting, stale);
    case Settle(_, _, _) => SettleKeepsSound(s, step, stale);
    case Assign(c, topic) =>
      if Apply(s, step) != s {
        RowStepKeepsSound(s, c, s.conversations[c].(apiVersion := Some(V2), topic := Some(topic)), stale);
      }
    case Unreachable(c, at) =>
      if c in s.conversations {
        RowStepKeepsSound(s, c, s.conversations[c].(clock := MarkTerminated(s.conversations[c].clock, at)), stale);
      }
    case Override(c, state, requested) =>
      if c in s.conversations {
        RowStepKeepsSound(s, c, s.conversations[c].(clock := Clock(state, requested)), stale);
      }
  }

  lemma StepKeepsValid(s: Store, step: Step)
    requires Valid(s) && Enabled(s, step)
    ensures Valid(Apply(s, step))
  {
    hide Sound, Enabled, Apply;
    SoundParts(s, s.conversations.Keys);
    StepKeepsSound(s, step, s.conversations.Keys);
    SoundIsValid(Apply(s, step), s.conversations.Keys + SetBack(s, step));
  }

  lemma {:induction false} RunKeepsValid(states: seq<Store>, steps: seq<Step>, i: nat)
    requires IsRun(states, steps) && Valid(states[0]) && i < |states|
    ensures Valid(states[i])
  {
    hide Valid, Enabled, Apply;
    if i > 0 {
      RunKeepsValid(states, steps, i - 1);
      StepKeepsValid(states[i - 1], steps[i - 1]);
    }
  }

  /** The conversations that were set back in the first `i` steps. */
  ghost function EverSetBack(states: seq<Store>, steps: seq<Step>, i: nat): set<ConversationId>
    requires |states| == |steps| + 1 && i <= |steps|
  {
    if i == 0 then {} else EverSetBack(states, steps, i - 1) + SetBack(states[i - 1], steps[i - 1])
  }

  lemma {:induction false} RunKeepsSound(states: seq<Store>, steps: seq<Step>, i: nat)
    requires IsRun(states, steps) && Sound(states[0], {}) && i < |states|
    ensures Sound(states[i], EverSetBack(states, steps, i))
  {
    hide Sound, Enabled, Apply, SetBack;
    if i > 0 {
      RunKeepsSound(states, steps, i - 1);
      StepKeepsSound(states[i - 1], steps[i - 1], EverSetBack(states, steps, i - 1));
    }
  }

  lemma {:induction false} SetBackBy(states: seq<Store>, steps: seq<Step>, i: nat, c: ConversationId)
    requires |states| == |steps| + 1 && i <= |steps| && c in EverSetBack(states, steps, i)
    ensures exists j | 0 <= j < i :: IsBackdated(states[j], steps[j]) && steps[j].conversation == c
  {
    if c !in SetBack(states[i - 1], steps[i - 1]) {
      SetBackBy(states, steps, i - 1, c);
    }
  }

  /** In every reachable store the last-message time of a conversation is that of its latest message, unless a
      backdated reopening set it back. */
  lemma LastMessageIsLatest(states: seq<Store>, steps: seq<Step>, i: nat, c: ConversationId)
    requires IsRun(states, steps) && Sound(states[0], {}) && i < |states| && c in states[i].conversations
    requires forall j | 0 <= j < i :: !(IsBackdated(states[j], steps[j]) && steps[j].conversation == c)
    ensures IsLatest(states[i], c, states[i].conversations[c].lastMessageAt)
  {
    hide Sound, Enabled, Apply, IsBackdated;
    RunKeepsSound(states, steps, i);
    var stale := EverSetBack(states, steps, i);
    if c in stale {
      SetBackBy(states, steps, i, c);
    }
    SoundParts(states[i], stale);
    LastOf(states[i], c, stale);
  }

  lemma EmptyStoreIsSound(now: int)
    ensures Sound(Store(map[], map[], map[], now, 0), {}) && Valid(Store(map[], map[], map[], now, 0))
  {
  }
}
