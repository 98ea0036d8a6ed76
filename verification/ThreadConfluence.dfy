/** The two transactions that deliver mail keep the bounds of ThreadConvergence,
    and once every mail has arrived the bounds meet: partition, parent links and
    last-message times no longer depend on the order of arrival. */
module ThreadConfluence {
  import opened Text
  import opened States
  import opened Routing
  import opened Threads
  import opened ThreadInvariant
  import opened ThreadHistory
  import opened ThreadConvergence

  // --- Updates that touch no mail ---------------------------------------------------------------

  ghost predicate SameMail(s: Store, r: Store)
    requires Linked(s) && Linked(r)
  {
    && r.messages == s.messages
    && forall m | m in s.messages :: Home(r, m).topic == Home(s, m).topic && Home(r, m).participant == Home(s, m).participant
  }

  lemma SameMailKeepsThreaded(s: Store, r: Store, u: Universe)
    requires Linked(s) && Linked(r) && SameMail(s, r) && Threaded(s, u)
    ensures Threaded(r, u)
  {
    hide Connected, IsMail, IsKnown, Name, OutboundOk, ProviderIdsOk, MailOk, OneTopic, HoldsConnected, JoinsReplies;
    SameMailSameRows(s, r, u);
    SameMailKeepsMail(s, r, u);
    SameMailKeepsTopics(s, r, u);
  }

  lemma SameMailSameRows(s: Store, r: Store, u: Universe)
    requires r.messages == s.messages
    ensures OutboundOk(s, u) ==> OutboundOk(r, u)
    ensures ProviderIdsOk(s, u) ==> ProviderIdsOk(r, u)
    ensures HoldsConnected(s, u) ==> HoldsConnected(r, u)
    ensures JoinsReplies(s, u) ==> JoinsReplies(r, u)
  {
    hide Connected;
  }

  lemma SameMailKeepsMail(s: Store, r: Store, u: Universe)
    requires Linked(s) && Linked(r) && SameMail(s, r) && MailOk(s, u)
    ensures MailOk(r, u)
  {
    assert forall m | m in s.messages :: Participant(r, m) == Participant(s, m);
  }

  lemma SameMailKeepsTopics(s: Store, r: Store, u: Universe)
    requires Linked(s) && Linked(r) && SameMail(s, r) && OneTopic(s, u)
    ensures OneTopic(r, u)
  {
    hide Connected;
    assert forall m | m in s.messages :: IsAssigned(r, m) == IsAssigned(s, m);
    hide IsAssigned;
  }

  // --- Replies that wait for a mail --------------------------------------------------------------

  lemma WaitingIsMail(s: Store, u: Universe, k: InternetId, x: MessageId)
    requires Linked(s) && MailOk(s, u) && k in u.mail && x in Waiting(s, k, u.participant)
    ensures IsMail(s, u, x) && Connected(u, Name(s, u, x), k) && s.messages[x].inReplyTo == Some(k)
  {
    AdjacentConnected(u, Name(s, u, x), k);
  }

  /** A stored reply to `k` waits for it unless `k` itself is on record. */
  lemma ReplyWaits(s: Store, u: Universe, m: MessageId, k: InternetId, x: MessageId)
    requires Linked(s) && LinksOk(s) && MailOk(s, u)
    requires forall o | o in s.messages && o != m :: s.messages[o].internetId != Some(k)
    requires IsMail(s, u, x) && s.messages[x].inReplyTo == Some(k)
    ensures s.messages[x].parent.None? || s.messages[x].parent == Some(m)
    ensures s.messages[x].parent.None? ==> x in Waiting(s, k, u.participant)
  {
    assert LinkOk(s, x);
  }

  // --- Recording a Message-ID ---------------------------------------------------------------------

  /** The row that `recordOutboundInternetMessageId` writes. */
  function RecordedRow(row: Message, id: InternetId, at: Option<int>): Message {
    row.(internetId := Some(id), emailCreatedAt := at.GetOr(row.emailCreatedAt))
  }

  lemma RecordFacts(s: Store, u: Universe, m: MessageId, id: InternetId, at: Option<int>, waiting: seq<MessageId>)
    requires Linked(s) && Describes(s, u) && Delivers(Record(m, id, at, waiting), u)
    ensures m in s.messages && IsMail(s, u, m) && Name(s, u, m) == id && Participant(s, m) == u.participant
    ensures s.messages[m].inReplyTo == u.mail[id].parent
    ensures s.messages[m].state == Accepted && (s.messages[m].internetId.Some? ==> s.messages[m].internetId.value == id)
    ensures forall x | x in s.messages && x != m :: s.messages[x].internetId != Some(id)
  {
    hide Connected, ProviderIdsOk;
  }

  lemma RecordNames(s: Store, u: Universe, m: MessageId, id: InternetId, at: Option<int>, waiting: seq<MessageId>)
    requires Linked(s) && Describes(s, u) && Delivers(Record(m, id, at, waiting), u)
    ensures m in s.messages && IsMail(s, u, m) && Name(s, u, m) == id && Participant(s, m) == u.participant
    ensures s.messages[m].state == Accepted && (s.messages[m].internetId.Some? ==> s.messages[m].internetId.value == id)
    ensures Names(s, u, s.messages[m].conversation, m, RecordedRow(s.messages[m], id, at), id)
  {
    hide Connected, Describes, Participant;
    RecordFacts(s, u, m, id, at, waiting);
  }

  /** A waiting reply is in the conversation of the outbound message or in an unassigned one. */
  lemma WaitingIsSource(s: Store, u: Universe, m: MessageId, k: InternetId, x: MessageId)
    requires Between(s, u) && m in u.outbound && u.outbound[m] == k && k in u.mail && IsMail(s, u, m)
    requires x in Waiting(s, k, u.participant)
    ensures s.messages[x].conversation == s.messages[m].conversation || Home(s, x).topic.None?
  {
    hide Connected, Between, Waiting, IsAssigned, IsKnown, MailOk, OneTopic, JoinsReplies, OutboundOk, ProviderIdsOk, HoldsConnected, LinksOk, IdsOk, Describes;
    BetweenParts(s, u);
    WaitingIsMail(s, u, k, x);
    if IsAssigned(s, x) {
      if IsKnown(s, u, m) {
        KnownHasReplies(s, u, m, x);
      } else {
        UnknownHasTopic(s, u, m, x);
      }
    }
    NotAssigned(s, x);
  }

  lemma NotAssigned(s: Store, x: MessageId)
    requires Linked(s) && x in s.messages
    ensures IsAssigned(s, x) <==> Home(s, x).topic.Some?
  {
  }

  lemma KnownHasReplies(s: Store, u: Universe, m: MessageId, x: MessageId)
    requires Linked(s) && JoinsReplies(s, u) && IsKnown(s, u, m) && IsMail(s, u, x) && s.messages[x].inReplyTo == Some(Name(s, u, m))
    ensures s.messages[x].conversation == s.messages[m].conversation
  {
  }

  /** The conversation of an outbound message whose Message-ID is unknown is the assigned one of its component. */
  lemma UnknownHasTopic(s: Store, u: Universe, m: MessageId, x: MessageId)
    requires Linked(s) && OneTopic(s, u) && m in u.outbound && IsMail(s, u, m) && !IsKnown(s, u, m) && IsMail(s, u, x) && IsAssigned(s, x)
    requires Connected(u, Name(s, u, x), Name(s, u, m))
    ensures s.messages[x].conversation == s.messages[m].conversation
  {
    hide Connected, IsKnown, IsAssigned;
    assert IsAssigned(s, m);
  }

  lemma RecordSourcesAre(s: Store, m: MessageId, id: InternetId, waiting: seq<MessageId>)
    requires Linked(s) && m in s.messages && Enumerates(waiting, Waiting(s, id, Participant(s, m)))
    ensures AllStored(s, waiting)
    ensures var c := s.messages[m].conversation;
            var sources := Sources(s, waiting, c);
            && c !in sources
            && (forall d | d in sources :: d in s.conversations && s.conversations[d].topic.None?
                  && exists x | x in Waiting(s, id, Participant(s, m)) :: s.messages[x].conversation == d)
            && (forall x | x in Waiting(s, id, Participant(s, m)) && Home(s, x).topic.None? && s.messages[x].conversation != c ::
                  s.messages[x].conversation in sources)
  {
    var c := s.messages[m].conversation;
    SourcesAreOther(s, waiting, c);
    hide Sources;
    forall d | d in Sources(s, waiting, c) ensures exists x | x in Waiting(s, id, Participant(s, m)) :: s.messages[x].conversation == d {
      var x :| x in waiting && s.messages[x].conversation == d;
      assert x in Waiting(s, id, Participant(s, m));
    }
    forall x | x in Waiting(s, id, Participant(s, m)) && Home(s, x).topic.None? && s.messages[x].conversation != c
      ensures s.messages[x].conversation in Sources(s, waiting, c)
    {
      assert x in waiting;
    }
  }

  lemma BetweenParts(s: Store, u: Universe)
    requires Between(s, u)
    ensures Linked(s) && LinksOk(s) && IdsOk(s) && Describes(s, u) && MailOk(s, u) && OutboundOk(s, u) && ProviderIdsOk(s, u)
    ensures JoinsReplies(s, u) && HoldsConnected(s, u) && OneTopic(s, u)
  {
  }

  lemma RecordRelated(s: Store, u: Universe, id: InternetId)
    requires Linked(s) && MailOk(s, u) && id in u.mail
    ensures forall x | x in Waiting(s, id, u.participant) :: IsMail(s, u, x) && Connected(u, Name(s, u, x), id)
  {
    hide Connected, Waiting, MailOk;
    forall x | x in Waiting(s, id, u.participant) ensures IsMail(s, u, x) && Connected(u, Name(s, u, x), id) {
      WaitingIsMail(s, u, id, x);
    }
  }

  lemma RecordReplies(s: Store, u: Universe, m: MessageId, id: InternetId, waiting: seq<MessageId>)
    requires Between(s, u) && m in u.outbound && u.outbound[m] == id && id in u.mail && IsMail(s, u, m)
    requires Linked(s) && Participant(s, m) == u.participant && Enumerates(waiting, Waiting(s, id, Participant(s, m)))
    ensures AllStored(s, waiting)
    ensures forall x | IsMail(s, u, x) && s.messages[x].inReplyTo == Some(id) ::
              && (s.messages[x].parent.None? || s.messages[x].parent == Some(m))
              && (x != m ==> s.messages[x].conversation == s.messages[m].conversation || s.messages[x].conversation in Sources(s, waiting, s.messages[m].conversation))
  {
    hide Between, Waiting, Enumerates, Sources;
    RecordSourcesAre(s, m, id, waiting);
    forall x | IsMail(s, u, x) && s.messages[x].inReplyTo == Some(id)
      ensures s.messages[x].parent.None? || s.messages[x].parent == Some(m)
      ensures x != m ==> s.messages[x].conversation == s.messages[m].conversation || s.messages[x].conversation in Sources(s, waiting, s.messages[m].conversation)
    {
      RecordReply(s, u, m, id, x);
    }
  }

  lemma RecordParent(s: Store, u: Universe, m: MessageId)
    requires Linked(s) && JoinsReplies(s, u) && IsMail(s, u, m)
    ensures forall p | IsKnown(s, u, p) && s.messages[m].inReplyTo == Some(Name(s, u, p)) ::
              s.messages[m].parent == Some(p) && s.messages[p].conversation == s.messages[m].conversation
  {
  }

  lemma RecordJoins(s: Store, u: Universe, m: MessageId, id: InternetId, at: Option<int>, waiting: seq<MessageId>)
    requires Between(s, u) && Enabled(s, Record(m, id, at, waiting)) && Delivers(Record(m, id, at, waiting), u)
    ensures AllStored(s, waiting) && m in s.messages
    ensures var c := s.messages[m].conversation;
            Joins(s, u, c, Sources(s, waiting, c), m, RecordedRow(s.messages[m], id, at), id, Waiting(s, id, u.participant))
  {
    hide Connected, Core, LastOk, Threaded, Describes, ProviderIdsOk, OneTopic, HoldsConnected, JoinsReplies, MailOk, OutboundOk,
         Sources, Enumerates, LinksOk, Waiting, IdsOk, Names, Between, Enabled, Delivers, Anchored, IsKnown;
    BetweenParts(s, u);
    RecordIsDelivery(s, u, m, id, at, waiting);
    RecordNames(s, u, m, id, at, waiting);
    RecordSourcesAre(s, m, id, waiting);
    RecordRelated(s, u, id);
    RecordReplies(s, u, m, id, waiting);
    RecordParent(s, u, m);
    ConnectedToItself(u, id);
    IsAnchored(s, u, m, id);
  }

  lemma RecordIsDelivery(s: Store, u: Universe, m: MessageId, id: InternetId, at: Option<int>, waiting: seq<MessageId>)
    requires Linked(s) && Enabled(s, Record(m, id, at, waiting)) && Delivers(Record(m, id, at, waiting), u)
    ensures m in s.messages && m in u.outbound && u.outbound[m] == id && id in u.mail
    ensures Enumerates(waiting, Waiting(s, id, Participant(s, m)))
  {
  }

  lemma IsAnchored(s: Store, u: Universe, m: MessageId, id: InternetId)
    requires IsMail(s, u, m) && Connected(u, Name(s, u, m), id)
    ensures Anchored(s, u, s.messages[m].conversation, id)
  {
    hide Connected;
  }

  lemma RecordReply(s: Store, u: Universe, m: MessageId, id: InternetId, x: MessageId)
    requires Between(s, u) && m in u.outbound && u.outbound[m] == id && id in u.mail && IsMail(s, u, m) && IsMail(s, u, x) && s.messages[x].inReplyTo == Some(id)
    ensures s.messages[x].parent.None? || s.messages[x].parent == Some(m)
    ensures s.messages[x].conversation == s.messages[m].conversation || (x in Waiting(s, id, u.participant) && Home(s, x).topic.None?)
  {
    hide Connected, Core, LastOk, Waiting, OneTopic, HoldsConnected, ProviderIdsOk, LinksOk, IdsOk;
    BetweenParts(s, u);
    ReplyWaits(s, u, m, id, x);
    if s.messages[x].parent.None? {
      WaitingIsSource(s, u, m, id, x);
    } else {
      LinkedTogether(s, x);
    }
  }

  lemma LinkedTogether(s: Store, x: MessageId)
    requires LinksOk(s) && x in s.messages && s.messages[x].parent.Some?
    ensures var p := s.messages[x].parent.value;
            p in s.messages && s.messages[p].conversation == s.messages[x].conversation && s.messages[p].internetId == s.messages[x].inReplyTo && s.messages[p].internetId.Some?
  {
    assert LinkOk(s, x);
  }

  lemma RecordKeepsThreaded(s: Store, u: Universe, m: MessageId, id: InternetId, at: Option<int>,
        waiting: seq<MessageId>)
    requires Between(s, u) && Enabled(s, Record(m, id, at, waiting)) && Delivers(Record(m, id, at, waiting), u)
    ensures Linked(s) && Threaded(RecordId(s, m, id, at, waiting), u) && Traced(s, RecordId(s, m, id, at, waiting), u)
    ensures m in RecordId(s, m, id, at, waiting).messages && RecordId(s, m, id, at, waiting).messages[m].internetId == Some(id)
  {
    hide Connected, Core, LastOk, Threaded, Describes, OneTopic, HoldsConnected, JoinsReplies, Sources, Enumerates, LinksOk, Waiting, IdsOk,
         Attach, Attachable, Joins, Names, Attached, MailOk, ProviderIdsOk;
    BetweenParts(s, u);
    RecordNames(s, u, m, id, at, waiting);
    RecordJoins(s, u, m, id, at, waiting);
    RecordIdUnique(s, u, m);
    RecordAttachable(s, m, id, at, waiting);
    RecordSourcesAre(s, m, id, waiting);
    RecordMergeable(s, m, id, waiting);
    var c, row := s.messages[m].conversation, RecordedRow(s.messages[m], id, at);
    var sources := Sources(s, waiting, c);
    var r := Attach(s, c, sources, m, row, id);
    assert r == RecordId(s, m, id, at, waiting);
    AttachShape(s, c, sources, m, row, id);
    AttachKeepsRow(s, c, sources, m, row, id);
    assert Joined(s, r, u, c, sources, m, row, id);
    hide Joined, Traced;
    JoinKeepsThreaded(s, r, u, c, sources, m, row, id, Waiting(s, id, u.participant));
    JoinTraces(s, r, u, c, sources, m, row, id, Waiting(s, id, u.participant));
    RowsKept(s, r, u, c, sources, m, row, id);
  }

  lemma RecordIdUnique(s: Store, u: Universe, m: MessageId)
    requires OutboundOk(s, u) && m in u.outbound
    ensures forall o | o in s.messages && o != m :: s.messages[o].internetId != Some(u.outbound[m])
  {
  }

  // --- Receiving a mail -------------------------------------------------------------------------

  ghost predicate ReceivesMail(s: Store, u: Universe, e: Email, d: Draw, defaultBase: string) {
    && Between(s, u) && Enabled(s, Receive(e, d, defaultBase)) && Delivers(Receive(e, d, defaultBase), u) && !AlreadyProjected(s, e)
  }

  lemma ReceiveFacts(s: Store, u: Universe, e: Email, d: Draw, defaultBase: string)
    requires ReceivesMail(s, u, e, d, defaultBase)
    ensures Linked(s) && Answers(s, e, d) && d.conversation !in s.conversations && d.message !in s.messages && FreshToken(s, d.token)
    ensures e.internetId in u.mail && Lower(e.from) == u.participant && EffectiveParent(e) == u.mail[e.internetId].parent
    ensures Candidates(e.recipients) == []
    ensures forall o | o in s.messages :: s.messages[o].internetId != Some(e.internetId)
  {
  }

  lemma EligibleIsMail(s: Store, u: Universe, e: Email, x: MessageId)
    requires Linked(s) && MailOk(s, u) && OutboundOk(s, u) && Lower(e.from) == u.participant
    requires forall y | y in References(e) && y in u.mail :: Connected(u, y, e.internetId)
    requires x in Eligible(s, e)
    ensures IsMail(s, u, x) && Connected(u, Name(s, u, x), e.internetId)
  {
    hide Connected;
    assert Participant(s, x) == u.participant;
    assert IsMail(s, u, x) && Name(s, u, x) == s.messages[x].internetId.value;
  }

  /** The rows an inbound projection joins. */
  ghost function Related(s: Store, e: Email): set<MessageId>
    requires Linked(s)
  {
    Eligible(s, e) + Waiting(s, e.internetId, Lower(e.from))
  }

  lemma RelatedIsMail(s: Store, u: Universe, e: Email, d: Draw, defaultBase: string)
    requires ReceivesMail(s, u, e, d, defaultBase)
    ensures Linked(s) && forall x | x in Related(s, e) :: IsMail(s, u, x) && Connected(u, Name(s, u, x), e.internetId)
  {
    hide Connected, Core, LastOk, Eligible, Waiting, MailOk, OutboundOk, IsMail, AlreadyProjected;
    BetweenParts(s, u);
    forall x | x in Related(s, e) ensures IsMail(s, u, x) && Connected(u, Name(s, u, x), e.internetId) {
      if x in Eligible(s, e) {
        EligibleIsMail(s, u, e, x);
      } else {
        WaitingIsMail(s, u, e.internetId, x);
      }
    }
  }

  /** With no routing candidate the conversation is that of a related row, an assigned one
      if a waiting reply is in an assigned one, or it is new. */
  lemma ChosenIsRelated(s: Store, e: Email, d: Draw, defaultBase: string)
    requires Linked(s) && Answers(s, e, d) && Candidates(e.recipients) == []
    ensures var chosen := ChosenConversation(s, e, d, defaultBase);
            && (chosen.Some? ==> exists x | x in Related(s, e) :: s.messages[x].conversation == chosen.value)
            && (forall x | x in Waiting(s, e.internetId, Lower(e.from)) && Home(s, x).topic.Some? ::
                  chosen.Some? && chosen.value in s.conversations && s.conversations[chosen.value].topic.Some?)
  {
    hide Routed, NearestAncestor, FindById, FindAssigned, EffectiveParent, References, Eligible, Waiting;
    AnswersAreStored(s, e, d);
    FoundIsStored(s, d.related, References(e), EffectiveParent(e).GetOr([]));
    FindAssignedFinds(s, d.waiting);
    var row := PickRow(s, ParentOf(s, e, d), NearestAncestor(s, d.related, References(e)), d.waiting);
    if row.Some? {
      assert row.value in d.related || row.value in d.waiting;
      assert row.value in Related(s, e);
    }
    forall x | x in Waiting(s, e.internetId, Lower(e.from)) && Home(s, x).topic.Some?
      ensures row.Some? && Home(s, row.value).topic.Some?
    {
      assert x in d.waiting;
    }
  }

  lemma ReadyParts(s: Store, e: Email, d: Draw, defaultBase: string)
    requires Linked(s) && Answers(s, e, d) && d.conversation !in s.conversations
    ensures var ready := Ready(s, e, d, defaultBase);
            && SameMail(s, ready)
            && Target(s, e, d, defaultBase) in ready.conversations
            && (ChosenConversation(s, e, d, defaultBase).Some? ==> ready == s)
            && (ChosenConversation(s, e, d, defaultBase).None? ==>
                  && ready.conversations[d.conversation].topic.None?
                  && forall x | x in ready.messages :: ready.messages[x].conversation != d.conversation)
            && forall c | c in s.conversations :: c in ready.conversations && ready.conversations[c] == s.conversations[c]
  {
    ChosenIsLive(s, e, d, defaultBase);
    hide ChosenConversation, Answers;
  }

  lemma ReceiveAnchored(s: Store, u: Universe, e: Email, d: Draw, defaultBase: string)
    requires ReceivesMail(s, u, e, d, defaultBase)
    ensures Linked(s) && Answers(s, e, d)
    ensures Anchored(Ready(s, e, d, defaultBase), u, Target(s, e, d, defaultBase), e.internetId)
  {
    hide Connected, Core, LastOk, Related, ChosenConversation, Answers, Threaded, AlreadyProjected, Delivers, Ready, Between;
    ReceiveFacts(s, u, e, d, defaultBase);
    RelatedIsMail(s, u, e, d, defaultBase);
    ChosenIsRelated(s, e, d, defaultBase);
    ReadyParts(s, e, d, defaultBase);
  }

  /** A stored reply to the arriving mail waits for it, in the chosen conversation or in an unassigned one. */
  lemma ReceiveReply(s: Store, u: Universe, e: Email, d: Draw, defaultBase: string, x: MessageId)
    requires ReceivesMail(s, u, e, d, defaultBase) && IsMail(s, u, x)
    requires Linked(s) && Answers(s, e, d) && s.messages[x].inReplyTo == Some(e.internetId)
    ensures s.messages[x].parent.None?
    ensures s.messages[x].conversation == Target(s, e, d, defaultBase) || s.messages[x].conversation in InboundSources(s, e, d, defaultBase)
  {
    hide Connected, Core, LastOk, Eligible, Waiting, ChosenConversation, Answers, AlreadyProjected, Delivers, MailOk, OutboundOk, ProviderIdsOk,
         JoinsReplies, HoldsConnected, InboundSources, LinksOk, IdsOk, Threaded;
    BetweenParts(s, u);
    ReceiveFacts(s, u, e, d, defaultBase);
    ReplyWaits(s, u, d.message, e.internetId, x);
    if s.messages[x].parent.Some? {
      LinkedTogether(s, x);
    }
    InboundSourcesAre(s, e, d, defaultBase);
    assert x in Eligible(s, e) + Waiting(s, e.internetId, Lower(e.from));
    if Home(s, x).topic.Some? {
      RelatedIsMail(s, u, e, d, defaultBase);
      ChosenIsRelated(s, e, d, defaultBase);
      var y :| y in Related(s, e) && s.messages[y].conversation == Target(s, e, d, defaultBase);
      ConnectedThrough(u, Name(s, u, x), e.internetId, Name(s, u, y));
      assert IsAssigned(s, x) && IsAssigned(s, y);
    }
  }

  lemma EffectiveParentIsReference(e: Email)
    requires EffectiveParent(e).Some?
    ensures EffectiveParent(e).value in References(e)
  {
  }

  /** The known parent of the arriving mail becomes its parent, and its conversation takes part. */
  lemma ReceiveParent(s: Store, u: Universe, e: Email, d: Draw, defaultBase: string, p: MessageId)
    requires ReceivesMail(s, u, e, d, defaultBase)
    requires Linked(s) && Answers(s, e, d) && IsKnown(s, u, p) && EffectiveParent(e) == Some(Name(s, u, p))
    ensures InboundRow(s, e, d, defaultBase).parent == Some(p)
    ensures s.messages[p].conversation == Target(s, e, d, defaultBase) || s.messages[p].conversation in InboundSources(s, e, d, defaultBase)
  {
    hide Connected, Core, LastOk, Waiting, ChosenConversation, Answers, AlreadyProjected, Delivers, OutboundOk, ProviderIdsOk,
         JoinsReplies, HoldsConnected, InboundSources, LinksOk, Threaded, References, EffectiveParent, InboundRow;
    BetweenParts(s, u);
    ReceiveFacts(s, u, e, d, defaultBase);
    InboundSourcesAre(s, e, d, defaultBase);
    InboundParentIs(s, e, d, defaultBase);
    EffectiveParentIsReference(e);
    assert p in Eligible(s, e);
    assert p in Eligible(s, e) + Waiting(s, e.internetId, Lower(e.from));
  }

  lemma ReceiveOwnLink(s: Store, u: Universe, e: Email, d: Draw, defaultBase: string)
    requires ReceivesMail(s, u, e, d, defaultBase)
    requires Linked(s) && Answers(s, e, d) && EffectiveParent(e) == Some(e.internetId)
    ensures InboundRow(s, e, d, defaultBase).parent.None?
  {
    hide Core, LastOk, Waiting, ChosenConversation, Answers, AlreadyProjected, Delivers, Threaded, References, EffectiveParent, InboundRow;
    ReceiveFacts(s, u, e, d, defaultBase);
    InboundParentIs(s, e, d, defaultBase);
  }

  lemma ReceiveNames(s: Store, u: Universe, e: Email, d: Draw, defaultBase: string)
    requires ReceivesMail(s, u, e, d, defaultBase)
    ensures Linked(s) && Answers(s, e, d)
    ensures Names(Ready(s, e, d, defaultBase), u, Target(s, e, d, defaultBase), d.message, InboundRow(s, e, d, defaultBase), e.internetId)
  {
    hide Connected, Core, LastOk, Waiting, ChosenConversation, Answers, References, EffectiveParent, ParentOf, Threaded;
    BetweenParts(s, u);
    ReceiveFacts(s, u, e, d, defaultBase);
    ReadyParts(s, e, d, defaultBase);
  }

  lemma ReceiveJoins(s: Store, u: Universe, e: Email, d: Draw, defaultBase: string)
    requires ReceivesMail(s, u, e, d, defaultBase)
    ensures Linked(s) && Answers(s, e, d)
    ensures Joins(Ready(s, e, d, defaultBase), u, Target(s, e, d, defaultBase), InboundSources(s, e, d, defaultBase), d.message,
                  InboundRow(s, e, d, defaultBase), e.internetId, Related(s, e))
  {
    hide Connected, Core, LastOk, Related, ChosenConversation, Answers, AlreadyProjected, Delivers, Threaded, InboundSources, InboundRow, Ready,
         Names, Anchored, FreshToken, Between;
    ReceiveFacts(s, u, e, d, defaultBase);
    ReceiveNames(s, u, e, d, defaultBase);
    ReceiveAnchored(s, u, e, d, defaultBase);
    RelatedIsMail(s, u, e, d, defaultBase);
    ReadyParts(s, e, d, defaultBase);
    ReceiveSources(s, e, d, defaultBase);
    var ready, c, sources := Ready(s, e, d, defaultBase), Target(s, e, d, defaultBase), InboundSources(s, e, d, defaultBase);
    var row := InboundRow(s, e, d, defaultBase);
    assert row.inReplyTo == EffectiveParent(e) by {
      InReplyToIs(s, e, d, defaultBase);
    }
    forall x | IsMail(ready, u, x) && x != d.message && ready.messages[x].inReplyTo == Some(e.internetId)
      ensures ready.messages[x].parent.None? && (ready.messages[x].conversation == c || ready.messages[x].conversation in sources)
    {
      assert IsMail(s, u, x);
      ReceiveReply(s, u, e, d, defaultBase, x);
    }
    forall p | IsKnown(ready, u, p) && p != d.message && row.inReplyTo == Some(Name(ready, u, p))
      ensures row.parent == Some(p) && (ready.messages[p].conversation == c || ready.messages[p].conversation in sources)
    {
      assert IsKnown(s, u, p);
      ReceiveParent(s, u, e, d, defaultBase, p);
    }
    if row.inReplyTo == Some(e.internetId) {
      ReceiveOwnLink(s, u, e, d, defaultBase);
    }
  }

  lemma InReplyToIs(s: Store, e: Email, d: Draw, defaultBase: string)
    requires Linked(s) && Answers(s, e, d)
    ensures InboundRow(s, e, d, defaultBase).inReplyTo == EffectiveParent(e)
    ensures InboundRow(s, e, d, defaultBase).conversation == Target(s, e, d, defaultBase)
  {
  }

  lemma ReceiveSources(s: Store, e: Email, d: Draw, defaultBase: string)
    requires Linked(s) && Answers(s, e, d) && d.conversation !in s.conversations
    ensures var c, sources := Target(s, e, d, defaultBase), InboundSources(s, e, d, defaultBase);
            && c !in sources
            && forall x | x in sources :: x in s.conversations && s.conversations[x].topic.None?
                 && Lower(s.conversations[x].participant) == Lower(e.from)
                 && exists y | y in Related(s, e) :: s.messages[y].conversation == x
  {
    hide ChosenConversation, Answers, Eligible, Waiting, InboundSources;
    InboundSourcesAre(s, e, d, defaultBase);
  }

  lemma ReceiveKeepsThreaded(s: Store, u: Universe, e: Email, d: Draw, defaultBase: string)
    requires ReceivesMail(s, u, e, d, defaultBase)
    ensures Linked(s) && Answers(s, e, d)
    ensures var r := ProjectInbound(s, e, d, defaultBase);
            && Threaded(r, u) && Traced(s, r, u)
            && d.message in r.messages && r.messages[d.message].internetId == Some(e.internetId)
  {
    hide Connected, Core, LastOk, Related, ChosenConversation, Answers, AlreadyProjected, Delivers, Threaded, InboundSources, InboundRow, Ready,
         Names, Joins, FreshToken, Attach, Attachable, Attached, ProjectInbound, SameMail, Mergeable;
    ReceiveFacts(s, u, e, d, defaultBase);
    ReadyParts(s, e, d, defaultBase);
    var ready, c, sources := Ready(s, e, d, defaultBase), Target(s, e, d, defaultBase), InboundSources(s, e, d, defaultBase);
    var row := InboundRow(s, e, d, defaultBase);
    InReplyToIs(s, e, d, defaultBase);
    SameMailKeepsThreaded(s, ready, u);
    ReceiveSources(s, e, d, defaultBase);
    ReceiveNames(s, u, e, d, defaultBase);
    ReceiveJoins(s, u, e, d, defaultBase);
    InboundMergeable(s, e, d, defaultBase);
    InboundAttachable(s, e, d, defaultBase);
    InboundIs(s, e, d, defaultBase);
    AttachShape(ready, c, sources, d.message, row, e.internetId);
    AttachKeepsRow(ready, c, sources, d.message, row, e.internetId);
    var attached := Attach(ready, c, sources, d.message, row, e.internetId);
    assert Joined(ready, attached, u, c, sources, d.message, row, e.internetId);
    hide Joined, Traced;
    JoinKeepsThreaded(ready, attached, u, c, sources, d.message, row, e.internetId, Related(s, e));
    JoinTraces(ready, attached, u, c, sources, d.message, row, e.internetId, Related(s, e));
    RowsKept(ready, attached, u, c, sources, d.message, row, e.internetId);
    MarkSameMail(attached, c, AwaitingUs, e.createdAt);
    var r := MarkAutomatic(attached, c, AwaitingUs, e.createdAt);
    SameMailKeepsThreaded(attached, r, u);
    SameMailTraces(s, ready, u);
    SameMailTraces(attached, r, u);
    TracedIsTransitive(s, ready, attached, u);
    TracedIsTransitive(s, attached, r, u);
  }

  lemma SameMailTraces(s: Store, r: Store, u: Universe)
    requires Linked(s) && Linked(r) && SameMail(s, r) && Threaded(s, u)
    ensures Traced(s, r, u)
  {
    MailNames(s, u);
    SameMessagesTraced(s, r, u);
  }

  lemma MarkSameMail(s: Store, c: ConversationId, state: State, at: int)
    requires Linked(s) && c in s.conversations
    ensures SameMail(s, MarkAutomatic(s, c, state, at)) && MarkAutomatic(s, c, state, at).messages == s.messages
  {
  }

  // --- Whole runs --------------------------------------------------------------------------------

  /** The mail with this Message-ID is on record. */
  ghost predicate OnRecord(s: Store, id: InternetId) {
    exists m | m in s.messages :: s.messages[m].internetId == Some(id)
  }

  /** The Message-ID that the step delivers. */
  function DeliveredId(step: Step): Option<InternetId> {
    match step
    case Receive(e, _, _) => Some(e.internetId)
    case Record(_, id, _, _) => Some(id)
    case _ => None
  }

  /** Mail that is taken for a duplicate is on record. */
  lemma DuplicateIsOnRecord(s: Store, u: Universe, e: Email, d: Draw, defaultBase: string)
    requires ProviderIdsOk(s, u) && Delivers(Receive(e, d, defaultBase), u) && AlreadyProjected(s, e)
    ensures OnRecord(s, e.internetId)
  {
    hide Connected;
    var m :| m in s.messages && (s.messages[m].resendEmailId == Some(e.resendEmailId) || s.messages[m].internetId == Some(e.internetId));
  }

  /** A delivery keeps the bounds and puts its mail on record. */
  lemma DeliveryKeepsBetween(s: Store, u: Universe, step: Step)
    requires Between(s, u) && Enabled(s, step) && Delivers(step, u)
    ensures Between(Apply(s, step), u) && Traced(s, Apply(s, step), u)
    ensures DeliveredId(step).Some? ==> OnRecord(Apply(s, step), DeliveredId(step).value)
  {
    hide Core, LastOk, Threaded, AlreadyProjected, ProjectInbound, RecordId, Answers, Connected;
    hide Traced;
    BetweenParts(s, u);
    StepKeepsValid(s, step);
    match step
    case Tick(to) =>
      SameMailKeepsThreaded(s, s.(now := to), u);
      SameMailTraces(s, s.(now := to), u);
    case Receive(e, d, defaultBase) =>
      if AlreadyProjected(s, e) {
        DuplicateIsOnRecord(s, u, e, d, defaultBase);
        RepeatedMailChangesNothing(s, e, d, defaultBase);
        SameMailTraces(s, s, u);
      } else {
        ReceiveKeepsThreaded(s, u, e, d, defaultBase);
      }
    case Record(m, id, at, waiting) => RecordKeepsThreaded(s, u, m, id, at, waiting);
    case _ =>
  }

  lemma StaysOnRecord(s: Store, r: Store, id: InternetId)
    requires Linked(s) && Linked(r) && Evolves(s, r) && OnRecord(s, id)
    ensures OnRecord(r, id)
  {
    hide Evolves;
    var m :| m in s.messages && s.messages[m].internetId == Some(id);
    EvolvesParts(s, r, m);
  }

  /** A run of deliveries, in any order and with any repetition. */
  ghost predicate IsDelivery(states: seq<Store>, steps: seq<Step>, u: Universe) {
    && IsRun(states, steps) && Between(states[0], u) && IdsDrawn(states[0])
    && forall i | 0 <= i < |steps| :: Delivers(steps[i], u)
  }

  /** At every moment of a delivery a conversation holds only connected mail, and a reply to a
      mail on record is in its conversation and linked to it. */
  lemma {:induction false} RunKeepsBetween(states: seq<Store>, steps: seq<Step>, u: Universe, i: nat)
    requires IsDelivery(states, steps, u) && i < |states|
    ensures Between(states[i], u)
    ensures Valid(states[i]) && Linked(states[i])
  {
    hide Core, LastOk, Threaded, Delivers, Apply, Enabled;
    if i > 0 {
      RunKeepsBetween(states, steps, u, i - 1);
      DeliveryKeepsBetween(states[i - 1], u, steps[i - 1]);
    }
    BetweenParts(states[i], u);
  }

  ghost predicate AllOnRecord(s: Store, u: Universe) {
    forall id {:trigger OnRecord(s, id)} | id in u.mail :: OnRecord(s, id)
  }

  /** Every mail is on record from the start or is delivered at least once. */
  ghost predicate DeliversAll(states: seq<Store>, steps: seq<Step>, u: Universe)
    requires |states| > 0
  {
    forall id | id in u.mail :: OnRecord(states[0], id) || exists i | 0 <= i < |steps| :: DeliveredId(steps[i]) == Some(id)
  }

  lemma RunDelivers(states: seq<Store>, steps: seq<Step>, u: Universe)
    requires IsDelivery(states, steps, u) && DeliversAll(states, steps, u)
    ensures AllOnRecord(states[|steps|], u)
  {
    hide Between, Valid, IdsDrawn, Evolves, Delivers, Apply, Enabled, OnRecord;
    forall id | id in u.mail ensures OnRecord(states[|steps|], id) {
      RunKeepsBetween(states, steps, u, 0);
      if OnRecord(states[0], id) {
        RunEvolves(states, steps, 0, |steps|);
        StaysOnRecord(states[0], states[|steps|], id);
      } else {
        var i :| 0 <= i < |steps| && DeliveredId(steps[i]) == Some(id);
        RunKeepsBetween(states, steps, u, i);
        DeliveryKeepsBetween(states[i], u, steps[i]);
        RunEvolves(states, steps, i + 1, |steps|);
        StaysOnRecord(states[i + 1], states[|steps|], id);
      }
    }
  }

  // --- The bounds meet ------------------------------------------------------------------------------

  lemma MailIsKnown(s: Store, u: Universe, m: MessageId)
    requires Between(s, u) && AllOnRecord(s, u) && IsMail(s, u, m)
    ensures IsKnown(s, u, m) && Name(s, u, m) in u.mail
  {
    hide Core, LastOk, Connected;
    BetweenParts(s, u);
    if m in u.outbound {
      assert OnRecord(s, u.outbound[m]);
    }
  }

  lemma AdjacentTogether(s: Store, u: Universe, a: MessageId, b: MessageId)
    requires Between(s, u) && AllOnRecord(s, u) && IsMail(s, u, a) && IsMail(s, u, b) && Adjacent(u, Name(s, u, a), Name(s, u, b))
    ensures s.messages[a].conversation == s.messages[b].conversation
  {
    hide Core, LastOk, Connected, HoldsConnected, OneTopic, OutboundOk, ProviderIdsOk, AllOnRecord, LinksOk, IdsOk;
    BetweenParts(s, u);
    MailIsKnown(s, u, a);
    MailIsKnown(s, u, b);
    RepliesTo(s, u, a);
    RepliesTo(s, u, b);
    hide MailOk;
  }

  lemma RepliesTo(s: Store, u: Universe, m: MessageId)
    requires Linked(s) && MailOk(s, u) && IsMail(s, u, m)
    ensures Name(s, u, m) in u.mail && s.messages[m].inReplyTo == u.mail[Name(s, u, m)].parent
  {
  }

  lemma {:induction false} PathTogether(s: Store, u: Universe, p: seq<InternetId>, a: MessageId, b: MessageId)
    requires Between(s, u) && AllOnRecord(s, u) && IsPath(u, p) && IsMail(s, u, a) && IsMail(s, u, b)
    requires Name(s, u, a) == p[0] && Name(s, u, b) == p[|p| - 1]
    ensures s.messages[a].conversation == s.messages[b].conversation
    decreases |p|
  {
    hide Core, LastOk, Connected, Threaded, Adjacent, IsMail, Name, MailOk, OutboundOk, ProviderIdsOk, JoinsReplies, HoldsConnected, OneTopic, LinksOk, IdsOk, AllOnRecord;
    BetweenParts(s, u);
    if |p| == 1 {
      MailIsUnique(s, u, a, b);
    } else {
      var before := p[..|p| - 1];
      assert forall i, j | 0 <= i < |before| && 0 <= j < |before| && j == i + 1 :: before[i] == p[i] && before[j] == p[j];
      var c := MailOnRecord(s, u, p[|p| - 2]);
      PathTogether(s, u, before, a, c);
      assert Adjacent(u, p[|p| - 2], p[|p| - 1]);
      AdjacentTogether(s, u, c, b);
    }
  }

  lemma MailOnRecord(s: Store, u: Universe, id: InternetId) returns (m: MessageId)
    requires Between(s, u) && AllOnRecord(s, u) && id in u.mail
    ensures IsMail(s, u, m) && IsKnown(s, u, m) && Name(s, u, m) == id
  {
    hide Core, LastOk, Connected;
    BetweenParts(s, u);
    assert OnRecord(s, id);
    m :| m in s.messages && s.messages[m].internetId == Some(id);
  }

  lemma MailIsUnique(s: Store, u: Universe, a: MessageId, b: MessageId)
    requires Between(s, u) && AllOnRecord(s, u) && IsMail(s, u, a) && IsMail(s, u, b) && Name(s, u, a) == Name(s, u, b)
    ensures a == b
  {
    hide Core, LastOk, Connected, Threaded;
    BetweenParts(s, u);
    MailIsKnown(s, u, a);
    MailIsKnown(s, u, b);
  }

  /** Once all mail has arrived, the conversations are the connected components of the reply relation. */
  lemma ConversationsAreComponents(s: Store, u: Universe, a: MessageId, b: MessageId)
    requires Between(s, u) && AllOnRecord(s, u) && IsMail(s, u, a) && IsMail(s, u, b)
    ensures s.messages[a].conversation == s.messages[b].conversation <==> Connected(u, Name(s, u, a), Name(s, u, b))
  {
    hide Core, LastOk, Threaded, IsMail, Name, Adjacent, MailOk, OutboundOk, ProviderIdsOk, JoinsReplies, OneTopic, LinksOk, IdsOk, AllOnRecord;
    BetweenParts(s, u);
    if Connected(u, Name(s, u, a), Name(s, u, b)) {
      var p :| IsPath(u, p) && p[0] == Name(s, u, a) && p[|p| - 1] == Name(s, u, b);
      PathTogether(s, u, p, a, b);
    }
  }

  /** The Message-ID of the linked parent. */
  function ParentId(s: Store, m: MessageId): Option<InternetId>
    requires m in s.messages
  {
    var parent := s.messages[m].parent;
    if parent.Some? && parent.value in s.messages then s.messages[parent.value].internetId else None
  }

  /** Once all mail has arrived, every reply is linked to its parent if that is one of the mails, and to nothing otherwise. */
  lemma ParentsAreLinked(s: Store, u: Universe, m: MessageId)
    requires Between(s, u) && AllOnRecord(s, u) && IsMail(s, u, m)
    ensures var parent := u.mail[Name(s, u, m)].parent;
            ParentId(s, m) == if parent.Some? && parent.value in u.mail then parent else None
  {
    hide Core, LastOk, Connected, OneTopic, HoldsConnected, OutboundOk, ProviderIdsOk, LinksOk;
    BetweenParts(s, u);
    var parent := u.mail[Name(s, u, m)].parent;
    if parent.Some? && parent.value in u.mail {
      var p := MailOnRecord(s, u, parent.value);
      assert s.messages[m].parent == Some(p);
    } else if s.messages[m].parent.Some? {
      LinkedTogether(s, m);
    }
  }

  lemma LatestOfIsUnique(s: Store, u: Universe, id: InternetId, a: int, b: int)
    requires IsLatestOf(s, u, id, a) && IsLatestOf(s, u, id, b)
    ensures a == b
  {
    hide Connected, HasCompanion;
  }

  /** Mail connected to `id`, or a draft that stood with such mail in `s`: what a conversation around `id` will hold. */
  ghost predicate HasTime(s: Store, u: Universe, id: InternetId, at: int) {
    || (exists k | k in u.mail :: Connected(u, k, id) && u.mail[k].createdAt == at)
    || (exists d | d in s.messages && !IsMail(s, u, d) :: HasCompanion(s, u, d, id) && s.messages[d].emailCreatedAt == at)
  }

  /** `at` is the latest time of mail connected to `id` and of the drafts that stood with it in `s`. */
  ghost predicate IsLatestOf(s: Store, u: Universe, id: InternetId, at: int) {
    HasTime(s, u, id, at) && forall t | HasTime(s, u, id, t) :: t <= at
  }

  lemma {:induction false} RunIsTraced(states: seq<Store>, steps: seq<Step>, u: Universe, i: nat)
    requires IsDelivery(states, steps, u) && i < |states|
    ensures Traced(states[0], states[i], u)
  {
    hide Core, LastOk, Threaded, Delivers, Apply, Enabled, Traced;
    RunKeepsBetween(states, steps, u, 0);
    if i > 0 {
      RunIsTraced(states, steps, u, i - 1);
      RunKeepsBetween(states, steps, u, i - 1);
      DeliveryKeepsBetween(states[i - 1], u, steps[i - 1]);
      TracedIsTransitive(states[0], states[i - 1], states[i], u);
    } else {
      BetweenParts(states[0], u);
      SameMailTraces(states[0], states[0], u);
    }
  }

  lemma DeliveryKeepsExact(s: Store, u: Universe, step: Step)
    requires Linked(s) && Sound(s, {}) && Enabled(s, step) && Delivers(step, u)
    ensures Sound(Apply(s, step), {})
  {
    hide Sound, Apply, Enabled;
    StepKeepsSound(s, step, {});
    assert {} + SetBack(s, step) == {};
  }

  lemma {:induction false} DeliveryIsExact(states: seq<Store>, steps: seq<Step>, u: Universe, i: nat)
    requires IsDelivery(states, steps, u) && Sound(states[0], {}) && i < |states|
    ensures Sound(states[i], {})
  {
    hide Sound, Apply, Enabled, Delivers, Between;
    if i > 0 {
      DeliveryIsExact(states, steps, u, i - 1);
      DeliveryKeepsExact(states[i - 1], u, steps[i - 1]);
    }
  }

  /** Mail of one conversation, as the run left it. */
  lemma MailTime(s: Store, u: Universe, m: MessageId, x: MessageId)
    requires Between(s, u) && AllOnRecord(s, u) && IsMail(s, u, m) && IsMail(s, u, x)
    requires s.messages[x].conversation == s.messages[m].conversation
    ensures Name(s, u, x) in u.mail && Connected(u, Name(s, u, x), Name(s, u, m)) && s.messages[x].emailCreatedAt == u.mail[Name(s, u, x)].createdAt
  {
    hide Core, LastOk, Connected, OneTopic, OutboundOk, ProviderIdsOk, LinksOk, JoinsReplies, IdsOk;
    BetweenParts(s, u);
    MailIsKnown(s, u, x);
  }

  /** The drafts of a conversation are those that stood, at the start, with mail connected to it. */
  lemma DraftIsWith(states: seq<Store>, steps: seq<Step>, u: Universe, m: MessageId, d: MessageId)
    requires IsDelivery(states, steps, u) && DeliversAll(states, steps, u) && IsMail(states[|steps|], u, m)
    requires d in states[0].messages && !IsMail(states[0], u, d)
    ensures d in states[|steps|].messages
    ensures states[|steps|].messages[d].conversation == states[|steps|].messages[m].conversation
       <==> HasCompanion(states[0], u, d, Name(states[|steps|], u, m))
  {
    hide Between, Valid, Evolves, Delivers, Apply, Enabled, AllOnRecord, IdsDrawn, Connected, Traced, DeliversAll;
    var s, r := states[0], states[|steps|];
    RunIsTraced(states, steps, u, |steps|);
    RunKeepsBetween(states, steps, u, |steps|);
    RunKeepsBetween(states, steps, u, 0);
    RunDelivers(states, steps, u);
    RunEvolves(states, steps, 0, |steps|);
    TracedDraft(s, r, u, d, m);
    if HasCompanion(s, u, d, Name(r, u, m)) {
      var y :| IsMail(s, u, y) && s.messages[y].conversation == s.messages[d].conversation && Connected(u, Name(s, u, y), Name(r, u, m));
      TracedName(s, r, u, y);
      TogetherStays(s, r, d, y);
      ConversationsAreComponents(r, u, y, m);
    }
  }

  lemma TracedDraft(s: Store, r: Store, u: Universe, d: MessageId, m: MessageId)
    requires Traced(s, r, u) && d in s.messages && !IsMail(s, u, d) && IsMail(r, u, m)
    ensures d in r.messages && !IsMail(r, u, d) && r.messages[d].emailCreatedAt == s.messages[d].emailCreatedAt
    ensures r.messages[d].conversation == r.messages[m].conversation ==> HasCompanion(s, u, d, Name(r, u, m))
  {
    hide HasCompanion;
  }

  lemma TracedName(s: Store, r: Store, u: Universe, y: MessageId)
    requires Traced(s, r, u) && IsMail(s, u, y)
    ensures IsMail(r, u, y) && Name(r, u, y) == Name(s, u, y)
  {
  }

  lemma TogetherStays(s: Store, r: Store, a: MessageId, b: MessageId)
    requires Linked(s) && Linked(r) && Evolves(s, r) && a in s.messages && b in s.messages && s.messages[a].conversation == s.messages[b].conversation
    ensures a in r.messages && b in r.messages && r.messages[a].conversation == r.messages[b].conversation
  {
    EvolvesParts(s, r, a);
    EvolvesParts(s, r, b);
  }

  /** A message of the conversation of `m` has one of the times. */
  lemma MessageHasTime(states: seq<Store>, steps: seq<Step>, u: Universe, m: MessageId, x: MessageId)
    requires IsDelivery(states, steps, u) && DeliversAll(states, steps, u) && IsMail(states[|steps|], u, m)
    requires x in states[|steps|].messages && states[|steps|].messages[x].conversation == states[|steps|].messages[m].conversation
    ensures HasTime(states[0], u, Name(states[|steps|], u, m), states[|steps|].messages[x].emailCreatedAt)
  {
    hide Between, Valid, Delivers, Apply, Enabled, AllOnRecord, IdsDrawn, Connected, HasCompanion, DeliversAll;
    var s, r := states[0], states[|steps|];
    RunKeepsBetween(states, steps, u, |steps|);
    RunDelivers(states, steps, u);
    RunIsTraced(states, steps, u, |steps|);
    if IsMail(r, u, x) {
      MailTime(r, u, m, x);
    } else {
      assert x in s.messages && !IsMail(s, u, x);
      DraftIsWith(states, steps, u, m, x);
    }
  }

  /** Each of the times is that of a message of the conversation of `m`. */
  lemma TimeHasMessage(states: seq<Store>, steps: seq<Step>, u: Universe, m: MessageId, t: int) returns (x: MessageId)
    requires IsDelivery(states, steps, u) && DeliversAll(states, steps, u) && IsMail(states[|steps|], u, m)
    requires HasTime(states[0], u, Name(states[|steps|], u, m), t)
    ensures x in states[|steps|].messages && states[|steps|].messages[x].conversation == states[|steps|].messages[m].conversation
    ensures states[|steps|].messages[x].emailCreatedAt == t
  {
    hide Between, Valid, Delivers, Apply, Enabled, AllOnRecord, IdsDrawn, Connected, HasCompanion, DeliversAll, Traced;
    var s, r := states[0], states[|steps|];
    RunKeepsBetween(states, steps, u, |steps|);
    RunDelivers(states, steps, u);
    RunIsTraced(states, steps, u, |steps|);
    if k :| k in u.mail && Connected(u, k, Name(r, u, m)) && u.mail[k].createdAt == t {
      x := MailOnRecord(r, u, k);
      ConversationsAreComponents(r, u, x, m);
      MailTime(r, u, m, x);
    } else {
      x :| x in s.messages && !IsMail(s, u, x) && HasCompanion(s, u, x, Name(r, u, m)) && s.messages[x].emailCreatedAt == t;
      DraftIsWith(states, steps, u, m, x);
      TracedDraft(s, r, u, x, m);
    }
  }

  /** Once all mail has arrived, the last message of a conversation is the latest of the mail of its component and
      of the drafts that stood with that mail at the start. */
  lemma LastIsLatest(states: seq<Store>, steps: seq<Step>, u: Universe, m: MessageId)
    requires IsDelivery(states, steps, u) && DeliversAll(states, steps, u) && Sound(states[0], {}) && IsMail(states[|steps|], u, m)
    ensures Linked(states[|steps|])
    ensures IsLatestOf(states[0], u, Name(states[|steps|], u, m), Home(states[|steps|], m).lastMessageAt)
  {
    hide Between, Core, Delivers, Apply, Enabled, IdsDrawn, Connected, HasTime, DeliversAll;
    var r := states[|steps|];
    RunKeepsBetween(states, steps, u, |steps|);
    DeliveryIsExact(states, steps, u, |steps|);
    var c, at := r.messages[m].conversation, Home(r, m).lastMessageAt;
    assert IsLatest(r, c, at);
    var x :| x in r.messages && r.messages[x].conversation == c && r.messages[x].emailCreatedAt == at;
    MessageHasTime(states, steps, u, m, x);
    forall t | HasTime(states[0], u, Name(r, u, m), t) ensures t <= at {
      var y := TimeHasMessage(states, steps, u, m, t);
    }
  }

  /** Without drafts that is the latest mail of the component. */
  lemma LastIsLatestMail(s: Store, u: Universe, id: InternetId, at: int)
    requires Between(s, u) && u.drafts == {} && IsLatestOf(s, u, id, at)
    ensures exists k | k in u.mail :: Connected(u, k, id) && u.mail[k].createdAt == at
    ensures forall k | k in u.mail && Connected(u, k, id) :: u.mail[k].createdAt <= at
  {
    hide Core, LastOk, Connected, OneTopic, OutboundOk, ProviderIdsOk, LinksOk, JoinsReplies, HoldsConnected, IdsOk;
    BetweenParts(s, u);
    assert forall d | d in s.messages && !IsMail(s, u, d) :: !HasCompanion(s, u, d, id);
    forall k | k in u.mail && Connected(u, k, id) ensures u.mail[k].createdAt <= at {
      assert HasTime(s, u, id, u.mail[k].createdAt);
    }
  }

  /** The rows of the same mail in two stores. */
  predicate Twins(s: Store, t: Store, u: Universe, a: MessageId, x: MessageId) {
    IsMail(s, u, a) && IsMail(t, u, x) && Name(s, u, a) == Name(t, u, x)
  }

  /** Who shares a conversation with whom. */
  ghost predicate SamePartition(s: Store, t: Store, u: Universe) {
    forall a, x, b, y | Twins(s, t, u, a, x) && Twins(s, t, u, b, y) ::
      s.messages[a].conversation == s.messages[b].conversation <==> t.messages[x].conversation == t.messages[y].conversation
  }

  /** Who is linked to whom. */
  ghost predicate SameLinks(s: Store, t: Store, u: Universe) {
    forall a, x | Twins(s, t, u, a, x) :: ParentId(s, a) == ParentId(t, x)
  }

  ghost predicate SameLast(s: Store, t: Store, u: Universe)
    requires Linked(s) && Linked(t)
  {
    forall a, x | Twins(s, t, u, a, x) :: Home(s, a).lastMessageAt == Home(t, x).lastMessageAt
  }

  ghost predicate Arrived(s: Store, u: Universe) {
    Between(s, u) && AllOnRecord(s, u)
  }

  lemma TwinsShare(s: Store, t: Store, u: Universe, a: MessageId, x: MessageId, b: MessageId, y: MessageId)
    requires Arrived(s, u) && Arrived(t, u) && Twins(s, t, u, a, x) && Twins(s, t, u, b, y)
    ensures s.messages[a].conversation == s.messages[b].conversation <==> t.messages[x].conversation == t.messages[y].conversation
  {
    hide Between, AllOnRecord, Connected;
    ConversationsAreComponents(s, u, a, b);
    ConversationsAreComponents(t, u, x, y);
  }

  lemma TwinsAreLinked(s: Store, t: Store, u: Universe, a: MessageId, x: MessageId)
    requires Arrived(s, u) && Arrived(t, u) && Twins(s, t, u, a, x)
    ensures ParentId(s, a) == ParentId(t, x)
  {
    hide Between, AllOnRecord, Connected, ParentId;
    ParentsAreLinked(s, u, a);
    ParentsAreLinked(t, u, x);
  }

  lemma RecordDeterminesPartition(s: Store, t: Store, u: Universe)
    requires Arrived(s, u) && Arrived(t, u)
    ensures SamePartition(s, t, u)
  {
    hide Arrived, Connected;
    forall a, x, b, y | Twins(s, t, u, a, x) && Twins(s, t, u, b, y)
      ensures s.messages[a].conversation == s.messages[b].conversation <==> t.messages[x].conversation == t.messages[y].conversation
    {
      TwinsShare(s, t, u, a, x, b, y);
    }
  }

  lemma RecordDeterminesLinks(s: Store, t: Store, u: Universe)
    requires Arrived(s, u) && Arrived(t, u)
    ensures SameLinks(s, t, u)
  {
    hide Arrived, Connected, ParentId;
    forall a, x | Twins(s, t, u, a, x) ensures ParentId(s, a) == ParentId(t, x) {
      TwinsAreLinked(s, t, u, a, x);
    }
  }

  /** Confluence: two deliveries of the same mail, in whatever orders and with whatever repetitions, and even from
      different stores, end in the same partition and the same parent links. */
  lemma DeliveriesConverge(states: seq<Store>, steps: seq<Step>, others: seq<Store>, otherSteps: seq<Step>, u: Universe)
    requires IsDelivery(states, steps, u) && DeliversAll(states, steps, u)
    requires IsDelivery(others, otherSteps, u) && DeliversAll(others, otherSteps, u)
    ensures SamePartition(states[|steps|], others[|otherSteps|], u) && SameLinks(states[|steps|], others[|otherSteps|], u)
  {
    hide SamePartition, SameLinks, AllOnRecord, Between, DeliversAll, Delivers, Enabled, Apply;
    RunDelivers(states, steps, u);
    RunDelivers(others, otherSteps, u);
    RunKeepsBetween(states, steps, u, |steps|);
    RunKeepsBetween(others, otherSteps, u, |otherSteps|);
    RecordDeterminesPartition(states[|steps|], others[|otherSteps|], u);
    RecordDeterminesLinks(states[|steps|], others[|otherSteps|], u);
  }

  /** From one store, or from any two when there are no drafts, they also end in the same last-message times. */
  lemma LastMessagesConverge(states: seq<Store>, steps: seq<Step>, others: seq<Store>, otherSteps: seq<Step>,
        u: Universe)
    requires IsDelivery(states, steps, u) && DeliversAll(states, steps, u) && Sound(states[0], {})
    requires IsDelivery(others, otherSteps, u) && DeliversAll(others, otherSteps, u) && Sound(others[0], {})
    requires states[0] == others[0] || u.drafts == {}
    ensures Linked(states[|steps|]) && Linked(others[|otherSteps|])
    ensures SameLast(states[|steps|], others[|otherSteps|], u)
  {
    hide Between, Sound, Delivers, Enabled, Apply, DeliversAll, IsLatestOf, Connected, IdsDrawn;
    var s, t := states[|steps|], others[|otherSteps|];
    RunKeepsBetween(states, steps, u, 0);
    RunKeepsBetween(others, otherSteps, u, 0);
    forall a, x | Twins(s, t, u, a, x) ensures Home(s, a).lastMessageAt == Home(t, x).lastMessageAt {
      LastIsLatest(states, steps, u, a);
      LastIsLatest(others, otherSteps, u, x);
      if states[0] == others[0] {
        LatestOfIsUnique(states[0], u, Name(s, u, a), Home(s, a).lastMessageAt, Home(t, x).lastMessageAt);
      } else {
        LastIsLatestMail(states[0], u, Name(s, u, a), Home(s, a).lastMessageAt);
        LastIsLatestMail(others[0], u, Name(s, u, a), Home(t, x).lastMessageAt);
      }
    }
  }

  /** An empty store is a possible start: then all mail is inbound. */
  lemma EmptyStoreIsBetween(u: Universe, now: int)
    requires u.outbound == map[] && forall j, k | j in u.mail && k in u.mail && u.mail[j].resendEmailId == u.mail[k].resendEmailId :: j == k
    ensures Between(Store(map[], map[], map[], now, 0), u)
  {
    hide Connected;
    EmptyStoreIsSound(now);
  }

  // --- Where convergence ends -------------------------------------------------------------------------

  /** Recording a Message-ID always merges into the conversation of the outbound message. So a
      reply that waits for it is brought together with it if and only if it is there already or
      its own conversation has no topic. Otherwise both stay apart and unlinked. */
  lemma RecordJoinsReplyIff(s: Store, m: MessageId, id: InternetId, at: Option<int>, waiting: seq<MessageId>,
        x: MessageId)
    requires Valid(s) && Enabled(s, Record(m, id, at, waiting)) && s.messages[m].state != Inbound
    requires !exists o | o in s.messages && o != m :: s.messages[o].internetId == Some(id)
    requires x in waiting && x != m
    ensures Linked(s) && x in s.messages
    ensures var r := RecordId(s, m, id, at, waiting);
            var together := s.messages[x].conversation == s.messages[m].conversation || Home(s, x).topic.None?;
            && x in r.messages && m in r.messages
            && (r.messages[x].conversation == r.messages[m].conversation <==> together)
            && r.messages[x].parent == if together then Some(m) else None
  {
    hide Core, LastOk, Attach, Attachable, Sources, Enumerates;
    CoreParts(s);
    RecordAttachable(s, m, id, at, waiting);
    RecordSourcesAre(s, m, id, waiting);
    var c := s.messages[m].conversation;
    var sources, row := Sources(s, waiting, c), RecordedRow(s.messages[m], id, at);
    AttachShape(s, c, sources, m, row, id);
    assert x in Waiting(s, id, Participant(s, m)) by {
      WaitingHas(s, id, Participant(s, m), waiting, x);
    }
    var r := Attach(s, c, sources, m, row, id);
    assert r.messages[x] == LinkedRow(MovedRow(s.messages[x], c, Ids(sources)), c, m, id);
    assert r.messages[m] == LinkedRow(row, c, m, id);
  }

  lemma WaitingHas(s: Store, id: InternetId, participant: string, waiting: seq<MessageId>, x: MessageId)
    requires Linked(s) && Enumerates(waiting, Waiting(s, id, participant)) && x in waiting
    ensures x in Waiting(s, id, participant)
  {
  }

  lemma RecordPutsOnRecord(s: Store, m: MessageId, id: InternetId, at: Option<int>, waiting: seq<MessageId>,
        x: MessageId)
    requires Valid(s) && Enabled(s, Record(m, id, at, waiting)) && s.messages[m].state != Inbound
    requires !exists o | o in s.messages && o != m :: s.messages[o].internetId == Some(id)
    requires x in s.messages && x != m
    ensures Linked(s)
    ensures var r := RecordId(s, m, id, at, waiting);
            m in r.messages && r.messages[m].internetId == Some(id) && x in r.messages && r.messages[x].inReplyTo == s.messages[x].inReplyTo
  {
    hide Core, LastOk, Attach, Attachable, Sources, Enumerates;
    CoreParts(s);
    RecordAttachable(s, m, id, at, waiting);
    RecordSourcesAre(s, m, id, waiting);
    AttachShape(s, s.messages[m].conversation, Sources(s, waiting, s.messages[m].conversation), m, RecordedRow(s.messages[m], id, at), id);
  }
}
