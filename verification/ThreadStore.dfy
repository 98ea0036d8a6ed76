/** The thread tables as mutable state, and their transactions statement by
    statement, in the order in which src/lib/email/conversations.ts and
    src/lib/conversation-v2.ts execute them. Each is proved to be the step of
    module Threads of the same name, and so to keep every invariant. */
module ThreadStore {
  import opened Text
  import opened States
  import opened Routing
  import opened Threads
  import opened ThreadInvariant
  import opened ThreadHistory

  // --- The order of the statements does not matter ---------------------------------------------

  /** `recordOutboundInternetMessageId`: the row first, then the merge, and the links before the deletion. */
  ghost function RecordedInCodeOrder(s: Store, c: ConversationId, sources: seq<ConversationId>, m: MessageId,
        row: Message, id: InternetId): (r: Store)
    requires Linked(s) && c in s.conversations && AllLive(s, sources) && c !in sources && row.conversation == c
    ensures Linked(r)
  {
    var named := WithMessage(s, m, row);
    var moved := if sources == [] then named else MoveMessages(PreserveMergedState(named, c, sources), c, Ids(sources));
    var linked := SetParents(moved, Orphans(moved, id, c), m);
    var deleted := if sources == [] then linked else DeleteConversations(linked, Ids(sources));
    RefreshLast(deleted, c)
  }

  lemma MergeAfterNaming(s: Store, c: ConversationId, sources: seq<ConversationId>, m: MessageId, row: Message)
    requires Linked(s) && c in s.conversations && AllLive(s, sources) && c !in sources && row.conversation == c
    ensures MoveMessages(PreserveMergedState(WithMessage(s, m, row), c, sources), c, Ids(sources)).messages
            == WithMessage(MergeInto(s, c, sources), m, row).messages
    ensures PreserveMergedState(WithMessage(s, m, row), c, sources).aliases == MergeInto(s, c, sources).aliases
    ensures PreserveMergedState(WithMessage(s, m, row), c, sources).conversations - Ids(sources) == MergeInto(s, c, sources).conversations
    ensures MergeInto(s, c, sources).now == s.now && MergeInto(s, c, sources).nextConversation == s.nextConversation
  {
    hide MergedRow, SourcePairs, MergeInto, Linked;
    SameMergedRow(s, WithMessage(s, m, row), c, sources);
    MergeConserves(s, c, sources);
  }

  lemma DeleteAfterLinking(s: Store, c: ConversationId, gone: set<ConversationId>, id: InternetId, m: MessageId)
    requires Linked(s) && c in s.conversations && c !in gone
    requires forall k | k in s.aliases :: s.aliases[k] !in gone
    requires forall o | o in s.messages :: s.messages[o].conversation !in gone
    ensures var linked := SetParents(s, Orphans(s, id, c), m);
            DeleteConversations(linked, gone) == linked.(conversations := linked.conversations - gone)
  {
    DeleteDetached(SetParents(s, Orphans(s, id, c), m), gone);
  }

  lemma OrderDoesNotMatter(s: Store, c: ConversationId, sources: seq<ConversationId>, m: MessageId, row: Message,
        id: InternetId)
    requires Linked(s) && c in s.conversations && AllLive(s, sources) && c !in sources && row.conversation == c
    ensures RecordedInCodeOrder(s, c, sources, m, row, id) == Attach(s, c, sources, m, row, id)
  {
    hide MergedRow, SourcePairs, RefreshLast, MergeInto, DeleteConversations, Linked;
    if sources != [] {
      var gone := Ids(sources);
      var named := WithMessage(s, m, row);
      var moved := MoveMessages(PreserveMergedState(named, c, sources), c, gone);
      MergeAfterNaming(s, c, sources, m, row);
      DeleteAfterLinking(moved, c, gone, id, m);
      var stored := WithMessage(MergeInto(s, c, sources), m, row);
      assert Orphans(stored, id, c) == Orphans(moved, id, c);
    }
  }

  lemma {:induction false} SameSources(s: Store, r: Store, sources: seq<ConversationId>)
    requires AllLive(s, sources) && r.conversations == s.conversations
    ensures PromotedSource(r, sources) == PromotedSource(s, sources)
    ensures SourceWithBase(r, sources) == SourceWithBase(s, sources)
    ensures FirstVersion(r, sources) == FirstVersion(s, sources)
  {
    if sources != [] {
      SameSources(s, r, sources[1..]);
    }
  }

  lemma SameMergedRow(s: Store, r: Store, c: ConversationId, sources: seq<ConversationId>)
    requires c in s.conversations && AllLive(s, sources) && r.conversations == s.conversations
    ensures MergedRow(r, c, sources) == MergedRow(s, c, sources)
    ensures SourcePairs(r, sources) == SourcePairs(s, sources)
  {
    SameSources(s, r, sources);
    assert Clocks(r, [c] + sources) == Clocks(s, [c] + sources);
  }

  lemma OneMorePair(s: Store, sources: seq<ConversationId>, c: ConversationId)
    requires AllLive(s, sources) && c in s.conversations
    ensures AllLive(s, sources + [c])
    ensures var row := s.conversations[c];
            SourcePairs(s, sources + [c])
            == SourcePairs(s, sources) + if row.base.Some? then {Candidate(row.routingToken, row.base.value)} else {}
  {
    assert c in sources + [c];
    assert forall d | d in sources :: d in sources + [c];
  }

  lemma OnlyMember(cs: set<ConversationId>, a: ConversationId, b: ConversationId)
    requires |cs| == 1 && a in cs && b in cs
    ensures a == b
  {
    assert |cs - {a}| == 0;
    assert b != a ==> b in cs - {a};
  }

  class ThreadTables {
    var conversations: map<ConversationId, Conversation>
    var messages: map<MessageId, Message>
    var aliases: map<Candidate, ConversationId>
    var now: int
    var nextConversation: nat

    function Snapshot(): Store
      reads this
    {
      Store(conversations, messages, aliases, now, nextConversation)
    }

    constructor (now: int)
      ensures Valid(Snapshot()) && Snapshot() == Store(map[], map[], map[], now, 0)
    {
      conversations, messages, aliases, this.now, nextConversation := map[], map[], map[], now, 0;
      new;
      EmptyStoreIsSound(now);
    }

    // --- Statements shared by the transactions ---------------------------------------------------

    method CreateConversation(c: ConversationId, row: Conversation)
      requires Linked(Snapshot())
      modifies this
      ensures Snapshot() == WithConversation(old(Snapshot()), c, row)
    {
      conversations := conversations[c := row];
      if nextConversation <= c {
        nextConversation := c + 1;
      }
    }

    /** The two statements on the alias table: aliases follow their conversation, and the
        pairs of the sources become aliases unless they are taken. */
    method PreserveAliases(target: ConversationId, sources: seq<ConversationId>)
      requires target in conversations && AllLive(Snapshot(), sources)
      modifies this`aliases
      ensures aliases.Keys == old(aliases).Keys + SourcePairs(old(Snapshot()), sources)
      ensures forall k | k in aliases :: aliases[k] == if k in old(aliases) then Moved(old(aliases)[k], target, Ids(sources)) else target
    {
      ghost var s := Snapshot();
      aliases := map k | k in aliases :: Moved(aliases[k], target, Ids(sources));
      var i := 0;
      while i < |sources|
        invariant 0 <= i <= |sources|
        invariant aliases.Keys == s.aliases.Keys + SourcePairs(s, sources[..i])
        invariant forall k | k in aliases :: aliases[k] == if k in s.aliases then Moved(s.aliases[k], target, Ids(sources)) else target
      {
        var source := conversations[sources[i]];
        assert sources[..i + 1] == sources[..i] + [sources[i]];
        OneMorePair(s, sources[..i], sources[i]);
        if source.base.Some? {
          var pair := Candidate(source.routingToken, source.base.value);
          if pair !in aliases {
            aliases := aliases[pair := target];
          }
        }
        i := i + 1;
      }
      assert sources[..i] == sources;
    }

    /** `preserveMergedConversationState`. */
    method PreserveMergedConversationState(target: ConversationId, sources: seq<ConversationId>)
      requires Linked(Snapshot()) && target in conversations && AllLive(Snapshot(), sources)
      modifies this`aliases, this`conversations
      ensures Snapshot() == PreserveMergedState(old(Snapshot()), target, sources)
    {
      PreserveAliases(target, sources);
      var row := conversations[target];
      var promotedSource := PromotedSource(Snapshot(), sources);
      var selectedSource := if promotedSource.Some? then promotedSource else SourceWithBase(Snapshot(), sources);
      var replyToBaseAddress := row.base;
      if row.base.None? && selectedSource.Some? {
        replyToBaseAddress := selectedSource.value.base;
      }
      var apiVersion := row.apiVersion;
      if row.apiVersion == Some(V2) || promotedSource.Some? {
        apiVersion := Some(V2);
      } else if row.apiVersion.None? {
        apiVersion := FirstVersion(Snapshot(), sources);
      }
      var requiresAllowlist := row.requiresAllowlist;
      if apiVersion == Some(V2) {
        requiresAllowlist := (row.apiVersion == Some(V2) && row.requiresAllowlist) || (promotedSource.Some? && promotedSource.value.requiresAllowlist);
      }
      var mergedState := MergeConversationState(Clocks(Snapshot(), [target] + sources));
      var merged := row.(apiVersion := apiVersion, base := replyToBaseAddress, requiresAllowlist := requiresAllowlist,
                         clock := mergedState.GetOr(row.clock));
      assert merged == MergedRow(Snapshot(), target, sources);
      SameMergedRow(old(Snapshot()), Snapshot(), target, sources);
      conversations := conversations[target := merged];
      hide MergedRow, SourcePairs, Linked;
      assert aliases == PreserveMergedState(old(Snapshot()), target, sources).aliases;
    }

    method MoveMessagesTo(target: ConversationId, sources: seq<ConversationId>)
      requires Linked(Snapshot()) && target in conversations
      modifies this`messages
      ensures Snapshot() == MoveMessages(old(Snapshot()), target, Ids(sources))
    {
      messages := map m | m in messages :: messages[m].(conversation := Moved(messages[m].conversation, target, Ids(sources)));
    }

    method DeleteMany(sources: seq<ConversationId>)
      requires Linked(Snapshot())
      modifies this
      ensures Snapshot() == DeleteConversations(old(Snapshot()), Ids(sources))
      ensures conversations.Keys == old(conversations).Keys - Ids(sources) && nextConversation == old(nextConversation)
    {
      var before := messages;
      messages := map m | m in messages && messages[m].conversation !in Ids(sources) :: messages[m];
      var kept := messages;
      messages := map m | m in kept ::
        if kept[m].parent.Some? && kept[m].parent.value in before && kept[m].parent.value !in kept
        then kept[m].(parent := None) else kept[m];
      aliases := map k | k in aliases && aliases[k] !in Ids(sources) :: aliases[k];
      conversations := map c | c in conversations && c !in Ids(sources) :: conversations[c];
    }

    method LinkOrphans(id: InternetId, c: ConversationId, m: MessageId)
      requires Linked(Snapshot())
      modifies this`messages
      ensures Snapshot() == SetParents(old(Snapshot()), Orphans(old(Snapshot()), id, c), m)
    {
      messages := map o | o in messages ::
        if messages[o].parent.None? && messages[o].inReplyTo == Some(id) && messages[o].conversation == c
        then messages[o].(parent := Some(m)) else messages[o];
    }

    /** `_max: { emailCreatedAt: true }` over the messages of the conversation. */
    method LatestEmail(c: ConversationId) returns (latest: Option<int>)
      ensures latest.Some? <==> HasMessage(Snapshot(), c)
      ensures latest.Some? ==> IsLatest(Snapshot(), c, latest.value)
    {
      latest := None;
      var left := messages.Keys;
      while left != {}
        invariant left <= messages.Keys
        invariant latest.None? ==> forall m | m in messages.Keys - left :: messages[m].conversation != c
        invariant latest.Some? ==>
                    && (exists m | m in messages && messages[m].conversation == c :: messages[m].emailCreatedAt == latest.value)
                    && (forall m | m in messages.Keys - left && messages[m].conversation == c :: messages[m].emailCreatedAt <= latest.value)
        decreases left
      {
        var m :| m in left;
        if messages[m].conversation == c && (latest.None? || latest.value < messages[m].emailCreatedAt) {
          latest := Some(messages[m].emailCreatedAt);
        }
        left := left - {m};
      }
    }

    method RefreshLastMessageAt(c: ConversationId)
      requires Linked(Snapshot()) && c in conversations && c < nextConversation
      modifies this
      ensures Snapshot() == RefreshLast(old(Snapshot()), c)
    {
      ghost var s := Snapshot();
      var latest := LatestEmail(c);
      if latest.Some? {
        ghost var at := RefreshIs(s, c);
        LatestIsUnique(s, c);
        conversations := conversations[c := conversations[c].(lastMessageAt := latest.value)];
      }
    }

    /** `applyAutomaticState`: one guarded UPDATE. */
    method ApplyAutomatic(c: ConversationId, state: State, changedAt: int) returns (changed: bool)
      requires Linked(Snapshot()) && c in conversations && c < nextConversation
      modifies this`conversations
      ensures Snapshot() == MarkAutomatic(old(Snapshot()), c, state, changedAt)
      ensures changed <==> conversations[c].clock != old(conversations[c].clock) || (old(conversations[c].clock.state) != state && old(conversations[c].clock.state) != Terminated)
    {
      var row := conversations[c];
      changed := row.clock.state != state && row.clock.state != Terminated;
      if changed {
        conversations := conversations[c := row.(clock := Clock(state, changedAt))];
      } else {
        assert conversations == conversations[c := row];
      }
    }

    /** The distinct conversations, other than `target` and unassigned, of some rows. */
    method ForeignUnassigned(rows: seq<MessageId>, target: ConversationId) returns (sources: seq<ConversationId>)
      requires Linked(Snapshot()) && AllStored(Snapshot(), rows)
      ensures sources == Sources(Snapshot(), rows, target)
    {
      sources := [];
      var i := 0;
      while i < |rows|
        invariant 0 <= i <= |rows|
        invariant sources == Sources(Snapshot(), rows[..i], target)
      {
        var c := messages[rows[i]].conversation;
        assert rows[..i + 1][..i] == rows[..i];
        if c != target && conversations[c].topic.None? && c !in sources {
          sources := sources + [c];
        }
        i := i + 1;
      }
      assert rows[..i] == rows;
    }

    // --- Inbound mail ------------------------------------------------------------------------------

    /** The conversation of the routing candidates, if exactly one is eligible. */
    method RouteByToken(e: Email, defaultBase: string) returns (routed: Option<ConversationId>)
      ensures routed == Routed(Snapshot(), e, defaultBase)
    {
      var eligible := RoutedConversations(Snapshot(), e, defaultBase);
      routed := None;
      if |eligible| == 1 {
        var c :| c in eligible;
        routed := Some(c);
        OnlyMember(eligible, c, Routed(Snapshot(), e, defaultBase).value);
      }
    }

    method ChooseConversation(e: Email, d: Draw, defaultBase: string) returns (conversation: Option<ConversationId>)
      requires Linked(Snapshot()) && Answers(Snapshot(), e, d)
      ensures conversation == ChosenConversation(Snapshot(), e, d, defaultBase)
    {
      hide Answers, Routed, NearestAncestor, FindById, FindAssigned, RoutedConversations;
      AnswersAreStored(Snapshot(), e, d);
      FoundIsStored(Snapshot(), d.related, References(e), EffectiveParent(e).GetOr([]));
      FindAssignedFinds(Snapshot(), d.waiting);
      var parent := if EffectiveParent(e).Some? then FindById(Snapshot(), d.related, EffectiveParent(e).value) else None;
      var nearestAncestor := NearestAncestor(Snapshot(), d.related, References(e));
      var row := PickRow(Snapshot(), parent, nearestAncestor, d.waiting);
      conversation := if row.Some? then Some(messages[row.value].conversation) else None;
      if conversation.None? && Candidates(e.recipients) != [] {
        conversation := RouteByToken(e, defaultBase);
      }
    }

    /** The statements from the merge to the refreshed `lastMessageAt`. */
    method AttachInbound(c: ConversationId, sources: seq<ConversationId>, m: MessageId, row: Message, id: InternetId)
      requires Linked(Snapshot()) && IdsDrawn(Snapshot()) && c in conversations && AllLive(Snapshot(), sources) && c !in sources && row.conversation == c
      modifies this
      ensures Snapshot() == Attach(old(Snapshot()), c, sources, m, row, id)
    {
      hide MergedRow, SourcePairs, RefreshLast, DeleteConversations;
      if sources != [] {
        PreserveMergedConversationState(c, sources);
        MoveMessagesTo(c, sources);
        DeleteMany(sources);
      }
      assert Snapshot() == if sources == [] then old(Snapshot()) else MergeInto(old(Snapshot()), c, sources);
      KeepsIdsDrawn(old(Snapshot()), c, sources);
      messages := messages[m := row];
      LinkOrphans(id, c, m);
      RefreshLastMessageAt(c);
    }

    /** `projectInboundEmail`. `d` holds the rows that the two queries return and the fresh ids. */
    method ProjectInboundEmail(e: Email, d: Draw, defaultBase: string) returns (message: MessageId)
      requires Valid(Snapshot()) && IdsDrawn(Snapshot()) && Enabled(Snapshot(), Receive(e, d, defaultBase))
      modifies this
      ensures Does(old(Snapshot()), Receive(e, d, defaultBase), Snapshot())
      ensures Valid(Snapshot()) && IdsDrawn(Snapshot()) && message in messages
      ensures messages[message].resendEmailId == Some(e.resendEmailId) || messages[message].internetId == Some(e.internetId)
    {
      hide Core, LastOk, Attach, Attachable, ChosenConversation, Sources, Answers, FreshToken, Evolves, ProjectInbound, Target, Ready, InboundSources, InboundRow;
      ghost var s := Snapshot();
      CoreParts(s);
      StepKeepsValid(s, Receive(e, d, defaultBase));
      StepEvolves(s, Receive(e, d, defaultBase));
      if m :| m in messages && (messages[m].resendEmailId == Some(e.resendEmailId) || messages[m].internetId == Some(e.internetId)) {
        RepeatedMailChangesNothing(s, e, d, defaultBase);
        return m;
      }
      AnswersAreStored(s, e, d);
      var parent := if EffectiveParent(e).Some? then FindById(Snapshot(), d.related, EffectiveParent(e).value) else None;
      var conversation := ChooseConversation(e, d, defaultBase);
      var c := conversation.GetOr(d.conversation);
      var sources := ForeignUnassigned(d.related + d.waiting, c);
      if conversation.None? {
        CreateConversation(c, NewConversation(e, d.token));
      }
      ReadyIs(s, e, d, defaultBase);
      InboundPlan(s, e, d, defaultBase);
      AttachInbound(c, sources, d.message, NewMessage(e, c, parent), e.internetId);
      var changed := ApplyAutomatic(c, AwaitingUs, e.createdAt);
      message := d.message;
    }

    // --- A late Message-ID ----------------------------------------------------------------------------

    /** The statements from the update of the row to the refreshed `lastMessageAt`. */
    method AttachOutbound(m: MessageId, row: Message, id: InternetId, waiting: seq<MessageId>)
      requires Linked(Snapshot()) && IdsDrawn(Snapshot()) && AllStored(Snapshot(), waiting)
      requires m in messages && row.conversation == messages[m].conversation
      modifies this
      ensures row.conversation !in Sources(old(Snapshot()), waiting, row.conversation)
      ensures AllLive(old(Snapshot()), Sources(old(Snapshot()), waiting, row.conversation))
      ensures Snapshot() == Attach(old(Snapshot()), row.conversation, Sources(old(Snapshot()), waiting, row.conversation), m, row, id)
    {
      hide MergedRow, SourcePairs, RefreshLast, DeleteConversations, Sources, Attach;
      ghost var s := Snapshot();
      var c := row.conversation;
      SourcesAreOther(s, waiting, c);
      messages := messages[m := row];
      SameRowSources(s, Snapshot(), waiting, c);
      var sources := ForeignUnassigned(waiting, c);
      if sources != [] {
        PreserveMergedConversationState(c, sources);
        MoveMessagesTo(c, sources);
      }
      LinkOrphans(id, c, m);
      if sources != [] {
        DeleteMany(sources);
      }
      OrderDoesNotMatter(s, c, sources, m, row, id);
      RefreshLastMessageAt(c);
    }

    /** `recordOutboundInternetMessageId`; false where the source throws, with nothing changed. */
    method RecordOutboundInternetMessageId(m: MessageId, id: InternetId, at: Option<int>,
          waiting: seq<MessageId>) returns (recorded: bool)
      requires Valid(Snapshot()) && IdsDrawn(Snapshot()) && Enabled(Snapshot(), Record(m, id, at, waiting))
      modifies this
      ensures Does(old(Snapshot()), Record(m, id, at, waiting), Snapshot())
      ensures Valid(Snapshot()) && IdsDrawn(Snapshot())
      ensures recorded <==> old(messages[m].state) != Inbound && forall o | o in old(messages) && o != m :: old(messages[o].internetId) != Some(id)
      ensures recorded ==> m in messages && messages[m].internetId == Some(id)
    {
      hide Core, LastOk, Attach, Attachable, Sources, Evolves;
      ghost var s := Snapshot();
      CoreParts(s);
      StepKeepsValid(s, Record(m, id, at, waiting));
      StepEvolves(s, Record(m, id, at, waiting));
      if messages[m].state == Inbound || exists o | o in messages && o != m :: messages[o].internetId == Some(id) {
        return false;
      }
      RecordAttachable(s, m, id, at, waiting);
      var row := messages[m].(internetId := Some(id), emailCreatedAt := at.GetOr(messages[m].emailCreatedAt));
      SourcesAreOther(s, waiting, row.conversation);
      AttachShape(s, row.conversation, Sources(s, waiting, row.conversation), m, row, id);
      AttachOutbound(m, row, id, waiting);
      recorded := true;
    }

    // --- Outbound intent --------------------------------------------------------------------------------

    method CreateOutbound(m: MessageId, row: Message)
      requires row.conversation in conversations
      modifies this`messages
      ensures messages == old(messages)[m := row]
    {
      messages := messages[m := row];
    }

    /** `reopenFailedConversation`; false where the source rejects the request. */
    method ReopenFailedConversation(c: ConversationId, m: MessageId, topic: Topic, participant: string, base: string,
          from: string, requested: int) returns (reopened: bool)
      requires Valid(Snapshot()) && IdsDrawn(Snapshot()) && Enabled(Snapshot(), ReopenFailed(c, m, topic, participant, base, from, requested))
      requires c in conversations && conversations[c].topic == Some(topic)
      modifies this
      ensures Does(old(Snapshot()), ReopenFailed(c, m, topic, participant, base, from, requested), Snapshot())
      ensures Valid(Snapshot()) && IdsDrawn(Snapshot())
      ensures reopened <==> old(conversations[c].base).GetOr(base) == base && forall o | o in old(messages) && old(messages[o].conversation) == c :: old(messages[o].state) == Failed
      ensures reopened <==> m in messages
    {
      hide Core, LastOk, Evolves;
      ghost var s := Snapshot();
      CoreParts(s);
      StepKeepsValid(s, ReopenFailed(c, m, topic, participant, base, from, requested));
      StepEvolves(s, ReopenFailed(c, m, topic, participant, base, from, requested));
      var current := conversations[c];
      if current.base.Some? && current.base != Some(base) {
        return false;
      }
      if o :| o in messages && messages[o].conversation == c && messages[o].state != Failed {
        return false;
      }
      conversations := conversations[c := current.(apiVersion := Some(V2), participant := participant, base := Some(base), requiresAllowlist := true,
                                                   clock := Clock(AwaitingParticipant, requested), lastMessageAt := requested)];
      CreateOutbound(m, OutboundRow(Snapshot(), c, None, base, from, requested));
      reopened := true;
    }

    /** `createConversationV2`: a new conversation, or the failed one that holds the topic; None for a conflict. */
    method CreateConversationV2(c: ConversationId, m: MessageId, token: string, topic: Topic, participant: string,
          base: string, from: string, requested: int, stamped: int)
      returns (created: Option<ConversationId>)
      requires Valid(Snapshot()) && IdsDrawn(Snapshot()) && Enabled(Snapshot(), OpenTopic(c, m, token, topic, participant, base, from, requested, stamped))
      modifies this
      ensures Valid(Snapshot()) && IdsDrawn(Snapshot())
      ensures !TopicTaken(old(Snapshot()), topic) ==>
                created == Some(c) && Does(old(Snapshot()), OpenTopic(c, m, token, topic, participant, base, from, requested, stamped), Snapshot())
      ensures forall d | d in old(conversations) && old(conversations[d].topic) == Some(topic) ::
                && Does(old(Snapshot()), ReopenFailed(d, m, topic, participant, base, from, requested), Snapshot())
                && created == if m in messages then Some(d) else None
    {
      hide Core, LastOk, Evolves, FreshToken;
      ghost var s := Snapshot();
      CoreParts(s);
      if d :| d in conversations && conversations[d].topic == Some(topic) {
        TopicHolderIsUnique(s, topic, d);
        var reopened := ReopenFailedConversation(d, m, topic, participant, base, from, requested);
        return if reopened then Some(d) else None;
      }
      StepKeepsValid(s, OpenTopic(c, m, token, topic, participant, base, from, requested, stamped));
      StepEvolves(s, OpenTopic(c, m, token, topic, participant, base, from, requested, stamped));
      CreateConversation(c, Conversation(token, Some(V2), Some(topic), participant, Some(base), true, Clock(AwaitingParticipant, stamped), requested));
      CreateOutbound(m, OutboundRow(Snapshot(), c, None, base, from, requested));
      created := Some(c);
    }

    /** The transaction of `createMessageV2`; false where the source rejects the request. */
    method CreateMessageV2(c: ConversationId, parent: MessageId, m: MessageId, base: string,
          from: string, requested: int) returns (created: bool)
      requires Valid(Snapshot()) && IdsDrawn(Snapshot()) && Enabled(Snapshot(), Reply(c, parent, m, base, from, requested))
      modifies this
      ensures Does(old(Snapshot()), Reply(c, parent, m, base, from, requested), Snapshot())
      ensures Valid(Snapshot()) && IdsDrawn(Snapshot())
      ensures created <==> m in messages
    {
      hide Core, LastOk, Evolves;
      ghost var s := Snapshot();
      CoreParts(s);
      StepKeepsValid(s, Reply(c, parent, m, base, from, requested));
      StepEvolves(s, Reply(c, parent, m, base, from, requested));
      if c !in conversations || (conversations[c].base.Some? && conversations[c].base != Some(base)) {
        return false;
      }
      if parent !in messages || messages[parent].conversation != c || messages[parent].internetId.None? {
        return false;
      }
      var message := OutboundRow(Snapshot(), c, Some(parent), base, from, requested);
      CreateOutbound(m, message);
      conversations := conversations[c := conversations[c].(apiVersion := Some(V2), base := Some(base), requiresAllowlist := true)];
      conversations := conversations[c := conversations[c].(lastMessageAt := Max(conversations[c].lastMessageAt, requested))];
      var changed := ApplyAutomatic(c, AwaitingParticipant, requested);
      created := true;
    }
  }

  lemma TopicHolderIsUnique(s: Store, topic: Topic, d: ConversationId)
    requires Core(s) && d in s.conversations && s.conversations[d].topic == Some(topic)
    ensures TopicTaken(s, topic) && forall c | c in s.conversations && s.conversations[c].topic == Some(topic) :: c == d
  {
  }

  lemma ReadyIs(s: Store, e: Email, d: Draw, defaultBase: string)
    requires Linked(s) && Answers(s, e, d)
    ensures AllStored(s, d.related) && AllStored(s, d.related + d.waiting)
    ensures Target(s, e, d, defaultBase) == ChosenConversation(s, e, d, defaultBase).GetOr(d.conversation)
    ensures InboundSources(s, e, d, defaultBase) == Sources(s, d.related + d.waiting, Target(s, e, d, defaultBase))
    ensures InboundRow(s, e, d, defaultBase) == NewMessage(e, Target(s, e, d, defaultBase), ParentOf(s, e, d))
    ensures Ready(s, e, d, defaultBase) == if ChosenConversation(s, e, d, defaultBase).Some? then s else WithConversation(s, d.conversation, NewConversation(e, d.token))
  {
  }

  /** What the statements of the inbound projection may rely on. */
  lemma InboundPlan(s: Store, e: Email, d: Draw, defaultBase: string)
    requires Valid(s) && IdsDrawn(s) && Enabled(s, Receive(e, d, defaultBase)) && !AlreadyProjected(s, e)
    ensures var c, ready, sources, row := Target(s, e, d, defaultBase), Ready(s, e, d, defaultBase), InboundSources(s, e, d, defaultBase), InboundRow(s, e, d, defaultBase);
            && IdsDrawn(ready) && c in ready.conversations && AllLive(ready, sources) && c !in sources && row.conversation == c
            && var attached := Attach(ready, c, sources, d.message, row, e.internetId);
               && c in attached.conversations && IdsDrawn(attached)
               && ProjectInbound(s, e, d, defaultBase) == MarkAutomatic(attached, c, AwaitingUs, e.createdAt)
               && d.message in attached.messages && attached.messages[d.message].resendEmailId == Some(e.resendEmailId)
  {
    hide Core, LastOk, Attach, Attachable, ChosenConversation, Answers, FreshToken, Evolves, ProjectInbound, Target, Ready, InboundSources;
    CoreParts(s);
    InboundIs(s, e, d, defaultBase);
    ReadyEvolves(s, e, d, defaultBase);
    InboundAttachable(s, e, d, defaultBase);
    var c, ready, sources, row := Target(s, e, d, defaultBase), Ready(s, e, d, defaultBase), InboundSources(s, e, d, defaultBase), InboundRow(s, e, d, defaultBase);
    AttachEvolves(ready, c, sources, d.message, row, e.internetId);
    AttachShape(ready, c, sources, d.message, row, e.internetId);
  }

  lemma KeepsIdsDrawn(s: Store, c: ConversationId, sources: seq<ConversationId>)
    requires Linked(s) && IdsDrawn(s) && c in s.conversations && AllLive(s, sources) && c !in sources
    ensures IdsDrawn(MergeInto(s, c, sources)) && c in MergeInto(s, c, sources).conversations
  {
    hide MergedRow, MergeInto;
    MergeConserves(s, c, sources);
  }

  lemma {:induction false} SameRowSources(s: Store, r: Store, rows: seq<MessageId>, target: ConversationId)
    requires Linked(s) && Linked(r) && AllStored(s, rows)
    requires r.conversations == s.conversations && forall o | o in s.messages :: o in r.messages && r.messages[o].conversation == s.messages[o].conversation
    ensures AllStored(r, rows) && Sources(r, rows, target) == Sources(s, rows, target)
  {
    if rows != [] {
      SameRowSources(s, r, rows[..|rows| - 1], target);
    }
  }
}