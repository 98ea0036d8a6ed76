/** Thread reconciliation converges: whatever the order in which the mail of one
    participant arrives, and however often, the conversations end as the
    connected components of the reply relation (section 3.6.4 of RFC 5322). */
module ThreadConvergence {
  import opened Text
  import opened States
  import opened Routing
  import opened Threads
  import opened ThreadInvariant
  import opened ThreadHistory

  /** One mail of the participant: what it replies to and when it was written. */
  datatype Mail = Mail(parent: Option<InternetId>, createdAt: int, resendEmailId: string)

  /** All mail of one participant (lower-case address), by Message-ID, the Message-IDs that
      the stored outbound messages have or will turn out to have, and the other stored
      messages of the participant: those that failed or were not sent yet. */
  datatype Universe = Universe(participant: string, mail: map<InternetId, Mail>, outbound: map<MessageId, InternetId>, drafts: set<MessageId>)

  // --- The reply relation -----------------------------------------------------------------

  predicate Adjacent(u: Universe, a: InternetId, b: InternetId) {
    && a in u.mail && b in u.mail
    && (u.mail[a].parent == Some(b) || u.mail[b].parent == Some(a))
  }

  ghost predicate IsPath(u: Universe, p: seq<InternetId>) {
    && p != [] && (forall i | 0 <= i < |p| :: p[i] in u.mail)
    && (forall i, j | 0 <= i < |p| && 0 <= j < |p| && j == i + 1 :: Adjacent(u, p[i], p[j]))
  }

  /** `a` and `b` are joined by a chain of replies. */
  ghost predicate Connected(u: Universe, a: InternetId, b: InternetId) {
    exists p :: IsPath(u, p) && p[0] == a && p[|p| - 1] == b
  }

  lemma ConnectedToItself(u: Universe, a: InternetId)
    requires a in u.mail
    ensures Connected(u, a, a)
  {
    assert IsPath(u, [a]);
  }

  lemma AdjacentConnected(u: Universe, a: InternetId, b: InternetId)
    requires Adjacent(u, a, b)
    ensures Connected(u, a, b) && Connected(u, b, a)
  {
    assert IsPath(u, [a, b]) && IsPath(u, [b, a]);
  }

  lemma ConnectedTransitive(u: Universe, a: InternetId, b: InternetId, c: InternetId)
    requires Connected(u, a, b) && Connected(u, b, c)
    ensures Connected(u, a, c)
  {
    var p :| IsPath(u, p) && p[0] == a && p[|p| - 1] == b;
    var q :| IsPath(u, q) && q[0] == b && q[|q| - 1] == c;
    var r := p + q[1..];
    forall i, j | 0 <= i < |r| && 0 <= j < |r| && j == i + 1 ensures Adjacent(u, r[i], r[j]) {
      if j < |p| {
      } else {
        assert r[j] == q[j - |p| + 1] && r[i] == q[i - |p| + 1];
        assert Adjacent(u, q[i - |p| + 1], q[j - |p| + 1]);
      }
    }
    assert IsPath(u, r);
  }

  lemma ConnectedSymmetric(u: Universe, a: InternetId, b: InternetId)
    requires Connected(u, a, b)
    ensures Connected(u, b, a)
  {
    var p :| IsPath(u, p) && p[0] == a && p[|p| - 1] == b;
    var r := seq(|p|, i requires 0 <= i < |p| => p[|p| - 1 - i]);
    forall i, j | 0 <= i < |r| && 0 <= j < |r| && j == i + 1 ensures Adjacent(u, r[i], r[j]) {
      assert Adjacent(u, p[|p| - 1 - j], p[|p| - 1 - i]);
    }
    assert IsPath(u, r);
  }

  /** Both are connected to `k`. */
  lemma ConnectedThrough(u: Universe, a: InternetId, k: InternetId, b: InternetId)
    requires Connected(u, a, k) && Connected(u, b, k)
    ensures Connected(u, a, b)
  {
    ConnectedSymmetric(u, b, k);
    ConnectedTransitive(u, a, k, b);
  }

  // --- Stored mail ----------------------------------------------------------------------------

  /** The stored message is one of the mails. */
  predicate IsMail(s: Store, u: Universe, m: MessageId) {
    m in s.messages && (m in u.outbound || (s.messages[m].internetId.Some? && s.messages[m].internetId.value in u.mail))
  }

  function Name(s: Store, u: Universe, m: MessageId): InternetId
    requires IsMail(s, u, m)
  {
    if m in u.outbound then u.outbound[m] else s.messages[m].internetId.value
  }

  /** Its Message-ID is on record. */
  predicate IsKnown(s: Store, u: Universe, m: MessageId) {
    IsMail(s, u, m) && s.messages[m].internetId == Some(Name(s, u, m))
  }

  /** The outbound messages whose Message-ID is or will be on record. */
  ghost predicate OutboundOk(s: Store, u: Universe) {
    && (forall o | o in u.outbound :: o in s.messages && u.outbound[o] in u.mail && s.messages[o].state == Accepted
          && (s.messages[o].internetId.Some? ==> s.messages[o].internetId.value == u.outbound[o]))
    && (forall o, m | o in u.outbound && m in s.messages && s.messages[m].internetId == Some(u.outbound[o]) :: m == o)
    && (forall m, o | m in u.outbound && o in u.outbound && u.outbound[m] == u.outbound[o] :: m == o)
  }

  /** Every message of the participant is a mail of the universe, or a draft: it has no Message-ID and waits for none. */
  ghost predicate MailOk(s: Store, u: Universe)
    requires Linked(s)
  {
    && (forall m | IsMail(s, u, m) :: Name(s, u, m) in u.mail)
    && (forall m | IsMail(s, u, m) :: Participant(s, m) == u.participant && s.messages[m].inReplyTo == u.mail[Name(s, u, m)].parent)
    && (forall m | IsKnown(s, u, m) :: s.messages[m].emailCreatedAt == u.mail[Name(s, u, m)].createdAt)
    && (forall m | m in s.messages && Participant(s, m) == u.participant && !IsMail(s, u, m) ::
          m in u.drafts && s.messages[m].internetId.None? && (s.messages[m].parent.Some? || s.messages[m].inReplyTo.None?))
  }

  /** Each provider id stands for one mail. */
  ghost predicate ProviderIdsOk(s: Store, u: Universe) {
    && (forall j, k | j in u.mail && k in u.mail && u.mail[j].resendEmailId == u.mail[k].resendEmailId :: j == k)
    && (forall m, k | m in s.messages && k in u.mail && s.messages[m].resendEmailId == Some(u.mail[k].resendEmailId) :: IsMail(s, u, m) && Name(s, u, m) == k)
  }

  /** The stored rows describe the mail. */
  ghost predicate Describes(s: Store, u: Universe)
    requires Linked(s)
  {
    OutboundOk(s, u) && MailOk(s, u) && ProviderIdsOk(s, u)
  }

  /** Upper bound: a conversation holds only connected mail. */
  ghost predicate HoldsConnected(s: Store, u: Universe) {
    forall a, b | IsMail(s, u, a) && IsMail(s, u, b) && s.messages[a].conversation == s.messages[b].conversation ::
      Connected(u, Name(s, u, a), Name(s, u, b))
  }

  /** Lower bound: a reply to a known mail is in its conversation and linked to it. */
  ghost predicate JoinsReplies(s: Store, u: Universe) {
    forall a, p | IsMail(s, u, a) && IsKnown(s, u, p) && s.messages[a].inReplyTo == Some(Name(s, u, p)) ::
      s.messages[a].conversation == s.messages[p].conversation && s.messages[a].parent == Some(p)
  }

  ghost predicate IsAssigned(s: Store, m: MessageId)
    requires Linked(s) && m in s.messages
  {
    Home(s, m).topic.Some?
  }

  /** At most one topic-assigned conversation per component, and an outbound message whose
      Message-ID is still unknown is in it if there is one. */
  ghost predicate OneTopic(s: Store, u: Universe)
    requires Linked(s)
  {
    && (forall a, b | IsMail(s, u, a) && IsMail(s, u, b) && IsAssigned(s, a) && IsAssigned(s, b) && Connected(u, Name(s, u, a), Name(s, u, b)) ::
          s.messages[a].conversation == s.messages[b].conversation)
    && (forall o, m | o in u.outbound && IsMail(s, u, o) && !IsKnown(s, u, o) && IsMail(s, u, m)
          && IsAssigned(s, m) && Connected(u, Name(s, u, m), Name(s, u, o)) :: IsAssigned(s, o))
  }

  ghost predicate Threaded(s: Store, u: Universe)
    requires Linked(s)
  {
    Describes(s, u) && HoldsConnected(s, u) && JoinsReplies(s, u) && OneTopic(s, u)
  }

  /** What every state on the way to convergence satisfies. */
  ghost predicate Between(s: Store, u: Universe) {
    Valid(s) && Threaded(s, u)
  }

  /** The step delivers mail of the universe: an inbound email with no routing candidate whose
      stored references are connected to it, or the Message-ID of an outbound message. */
  ghost predicate Delivers(step: Step, u: Universe) {
    match step
    case Receive(e, _, _) =>
      && e.internetId in u.mail && e.internetId !in u.outbound.Values
      && Lower(e.from) == u.participant && Candidates(e.recipients) == []
      && EffectiveParent(e) == u.mail[e.internetId].parent
      && e.createdAt == u.mail[e.internetId].createdAt && e.resendEmailId == u.mail[e.internetId].resendEmailId
      && (forall x | x in References(e) && x in u.mail :: Connected(u, x, e.internetId))
    case Record(m, id, at, _) => m in u.outbound && id == u.outbound[m] && id in u.mail && at == Some(u.mail[id].createdAt)
    case Tick(_) => true
    case _ => false
  }

  // --- Attaching a mail keeps both bounds ------------------------------------------------------

  /** Mail `k` is stored or becomes known as message `m`, with row `row`, in conversation `c`. */
  ghost predicate Names(s: Store, u: Universe, c: ConversationId, m: MessageId, row: Message, k: InternetId) {
    && k in u.mail
    && row.conversation == c && row.internetId == Some(k) && row.inReplyTo == u.mail[k].parent && row.emailCreatedAt == u.mail[k].createdAt
    && (m in s.messages ==> m in u.outbound && u.outbound[m] == k && SameMessage(s.messages[m], row)
                            && row.state == s.messages[m].state && row.resendEmailId == s.messages[m].resendEmailId)
    && (m !in s.messages ==> m !in u.outbound && k !in u.outbound.Values && row.resendEmailId == Some(u.mail[k].resendEmailId))
    && (forall x | x in s.messages && x != m :: s.messages[x].internetId != Some(k))
  }

  /** What the two transactions have in common: the conversations `sources` of some connected
      `rows` move to `c`, replies to `k` and its own parent among them. */
  ghost predicate Joins(s: Store, u: Universe, c: ConversationId, sources: seq<ConversationId>, m: MessageId,
        row: Message, k: InternetId, rows: set<MessageId>)
    requires Linked(s)
  {
    && Names(s, u, c, m, row, k)
    && c in s.conversations && c !in sources
    && (forall x | x in rows :: IsMail(s, u, x) && Connected(u, Name(s, u, x), k))
    && (forall d | d in sources :: d in s.conversations && s.conversations[d].topic.None? && exists x | x in rows :: s.messages[x].conversation == d)
    && Anchored(s, u, c, k)
    && (forall x | IsMail(s, u, x) && x != m && s.messages[x].inReplyTo == Some(k) ::
          && (s.messages[x].conversation == c || s.messages[x].conversation in sources)
          && (s.messages[x].parent.None? || s.messages[x].parent == Some(m)))
    && (forall p | IsKnown(s, u, p) && p != m && row.inReplyTo == Some(Name(s, u, p)) ::
          row.parent == Some(p) && (s.messages[p].conversation == c || s.messages[p].conversation in sources))
    && (row.inReplyTo == Some(k) ==> row.parent.None? || row.parent == Some(m))
  }

  /** `c` is empty and unassigned, or it holds mail connected to `k`. */
  ghost predicate Anchored(s: Store, u: Universe, c: ConversationId, k: InternetId) {
    || (c in s.conversations && s.conversations[c].topic.None? && forall x | x in s.messages :: s.messages[x].conversation != c)
    || (exists a | IsMail(s, u, a) :: s.messages[a].conversation == c && Connected(u, Name(s, u, a), k))
  }

  /** The rows after the attachment, as far as convergence is concerned. */
  ghost predicate Joined(s: Store, r: Store, u: Universe, c: ConversationId, sources: seq<ConversationId>,
        m: MessageId, row: Message, k: InternetId)
    requires Linked(s)
  {
    && Linked(r)
    && Attached(s, r, c, sources, m, row, k)
    && c in s.conversations && c in r.conversations && r.conversations[c].topic == s.conversations[c].topic && r.conversations[c].participant == s.conversations[c].participant
  }

  lemma NamesKept(s: Store, r: Store, u: Universe, c: ConversationId, sources: seq<ConversationId>, m: MessageId,
        row: Message, k: InternetId)
    requires Linked(s) && Names(s, u, c, m, row, k) && Joined(s, r, u, c, sources, m, row, k)
    ensures IsKnown(r, u, m) && Name(r, u, m) == k && r.messages[m].conversation == c && r.messages[m].inReplyTo == row.inReplyTo
    ensures forall x :: IsMail(r, u, x) <==> IsMail(s, u, x) || x == m
    ensures forall x | IsMail(s, u, x) :: IsMail(r, u, x) && Name(r, u, x) == Name(s, u, x)
              && r.messages[x].inReplyTo == s.messages[x].inReplyTo && r.messages[x].conversation == Moved(s.messages[x].conversation, c, Ids(sources))
    ensures forall x | x != m :: IsKnown(r, u, x) <==> IsKnown(s, u, x)
  {
  }

  /** Whatever ends up in `c` is connected to `k`. */
  lemma TargetHoldsConnected(s: Store, r: Store, u: Universe, c: ConversationId, sources: seq<ConversationId>,
        m: MessageId, row: Message, k: InternetId, rows: set<MessageId>, x: MessageId)
    requires Linked(s) && HoldsConnected(s, u) && Joins(s, u, c, sources, m, row, k, rows) && Joined(s, r, u, c, sources, m, row, k)
    requires IsMail(r, u, x) && r.messages[x].conversation == c
    ensures Connected(u, Name(r, u, x), k)
  {
    hide Connected;
    NamesKept(s, r, u, c, sources, m, row, k);
    hide Joined;
    if x == m {
      ConnectedToItself(u, k);
    } else if s.messages[x].conversation == c {
      var a :| IsMail(s, u, a) && s.messages[a].conversation == c && Connected(u, Name(s, u, a), k);
      ConnectedTransitive(u, Name(s, u, x), Name(s, u, a), k);
    } else {
      var a :| a in rows && s.messages[a].conversation == s.messages[x].conversation;
      ConnectedTransitive(u, Name(s, u, x), Name(s, u, a), k);
    }
  }

  lemma UpperBoundKept(s: Store, r: Store, u: Universe, c: ConversationId, sources: seq<ConversationId>, m: MessageId,
        row: Message, k: InternetId, rows: set<MessageId>)
    requires Linked(s) && HoldsConnected(s, u) && Joins(s, u, c, sources, m, row, k, rows) && Joined(s, r, u, c, sources, m, row, k)
    ensures HoldsConnected(r, u)
  {
    hide Connected;
    NamesKept(s, r, u, c, sources, m, row, k);
    forall a, b | IsMail(r, u, a) && IsMail(r, u, b) && r.messages[a].conversation == r.messages[b].conversation
      ensures Connected(u, Name(r, u, a), Name(r, u, b))
    {
      if r.messages[a].conversation == c {
        TargetHoldsConnected(s, r, u, c, sources, m, row, k, rows, a);
        TargetHoldsConnected(s, r, u, c, sources, m, row, k, rows, b);
        ConnectedThrough(u, Name(r, u, a), k, Name(r, u, b));
      } else {
        assert s.messages[a].conversation == s.messages[b].conversation;
      }
    }
  }

  /** A reply to the mail that became known is linked to it, in its conversation. */
  lemma WaitingReplyLinked(s: Store, r: Store, u: Universe, c: ConversationId, sources: seq<ConversationId>,
        m: MessageId, row: Message, k: InternetId, rows: set<MessageId>, a: MessageId)
    requires Linked(s) && Joins(s, u, c, sources, m, row, k, rows) && Joined(s, r, u, c, sources, m, row, k)
    requires (IsMail(s, u, a) && s.messages[a].inReplyTo == Some(k)) || (a == m && row.inReplyTo == Some(k))
    ensures a in r.messages && r.messages[a].conversation == c && r.messages[a].parent == Some(m)
  {
    hide Connected, Anchored, IsKnown;
    if a != m {
      assert r.messages[a] == LinkedRow(MovedRow(s.messages[a], c, Ids(sources)), c, m, k);
    } else {
      assert r.messages[m] == LinkedRow(row, c, m, k);
    }
  }

  /** The mail that became known is in the conversation of its parent and linked to it. */
  lemma OwnParentLinked(s: Store, r: Store, u: Universe, c: ConversationId, sources: seq<ConversationId>,
        m: MessageId, row: Message, k: InternetId, rows: set<MessageId>, p: MessageId)
    requires Linked(s) && Joins(s, u, c, sources, m, row, k, rows) && Joined(s, r, u, c, sources, m, row, k)
    requires IsKnown(s, u, p) && p != m && row.inReplyTo == Some(Name(s, u, p))
    ensures p in r.messages && r.messages[p].conversation == c && r.messages[m].parent == Some(p)
  {
    hide Connected, Anchored;
    assert r.messages[p] == LinkedRow(MovedRow(s.messages[p], c, Ids(sources)), c, m, k);
    assert r.messages[m] == LinkedRow(row, c, m, k);
  }

  lemma OldLinkKept(s: Store, r: Store, u: Universe, c: ConversationId, sources: seq<ConversationId>, m: MessageId,
        row: Message, k: InternetId, a: MessageId, p: MessageId)
    requires Linked(s) && Names(s, u, c, m, row, k) && Joined(s, r, u, c, sources, m, row, k)
    requires a in s.messages && p in s.messages && s.messages[a].parent == Some(p) && s.messages[a].conversation == s.messages[p].conversation
    requires a != m && p != m
    ensures a in r.messages && p in r.messages && r.messages[a].parent == Some(p) && r.messages[a].conversation == r.messages[p].conversation
  {
    assert r.messages[a] == LinkedRow(MovedRow(s.messages[a], c, Ids(sources)), c, m, k);
    assert r.messages[p] == LinkedRow(MovedRow(s.messages[p], c, Ids(sources)), c, m, k);
  }

  lemma RowBefore(s: Store, r: Store, u: Universe, c: ConversationId, sources: seq<ConversationId>, m: MessageId,
        row: Message, k: InternetId, x: MessageId)
    requires Linked(s) && Names(s, u, c, m, row, k) && Joined(s, r, u, c, sources, m, row, k) && IsMail(r, u, x)
    ensures x == m ==> Name(r, u, x) == k && r.messages[x].inReplyTo == row.inReplyTo
    ensures x != m ==> IsMail(s, u, x) && Name(s, u, x) == Name(r, u, x) && r.messages[x].inReplyTo == s.messages[x].inReplyTo
    ensures x != m ==> IsKnown(r, u, x) ==> IsKnown(s, u, x)
    ensures x == m && x in s.messages ==> IsMail(s, u, x) && Name(s, u, x) == k && s.messages[x].inReplyTo == row.inReplyTo
  {
  }

  /** A reply to a known mail after the attachment. */
  lemma LowerBoundAt(s: Store, r: Store, u: Universe, c: ConversationId, sources: seq<ConversationId>, m: MessageId,
        row: Message, k: InternetId, rows: set<MessageId>, a: MessageId, p: MessageId)
    requires Linked(s) && JoinsReplies(s, u) && Joins(s, u, c, sources, m, row, k, rows) && Joined(s, r, u, c, sources, m, row, k)
    requires IsMail(r, u, a) && IsKnown(r, u, p) && r.messages[a].inReplyTo == Some(Name(r, u, p))
    ensures r.messages[a].conversation == r.messages[p].conversation && r.messages[a].parent == Some(p)
  {
    JoinsIncludes(s, u, c, sources, m, row, k, rows);
    RowBefore(s, r, u, c, sources, m, row, k, a);
    RowBefore(s, r, u, c, sources, m, row, k, p);
    hide Joins, Joined, Names, Attached;
    if p == m {
      TargetOfSelf(s, r, u, c, sources, m, row, k);
      WaitingReplyLinked(s, r, u, c, sources, m, row, k, rows, a);
    } else if a == m {
      TargetOfSelf(s, r, u, c, sources, m, row, k);
      OwnParentLinked(s, r, u, c, sources, m, row, k, rows, p);
    } else {
      OldLinkKept(s, r, u, c, sources, m, row, k, a, p);
    }
  }

  lemma TargetOfSelf(s: Store, r: Store, u: Universe, c: ConversationId, sources: seq<ConversationId>, m: MessageId,
        row: Message, k: InternetId)
    requires Linked(s) && Names(s, u, c, m, row, k) && Joined(s, r, u, c, sources, m, row, k)
    ensures m in r.messages && r.messages[m].conversation == c
  {
  }

  lemma LowerBoundKept(s: Store, r: Store, u: Universe, c: ConversationId, sources: seq<ConversationId>, m: MessageId,
        row: Message, k: InternetId, rows: set<MessageId>)
    requires Linked(s) && JoinsReplies(s, u) && Joins(s, u, c, sources, m, row, k, rows) && Joined(s, r, u, c, sources, m, row, k)
    ensures JoinsReplies(r, u)
  {
    hide Joins, Joined;
    forall a, p | IsMail(r, u, a) && IsKnown(r, u, p) && r.messages[a].inReplyTo == Some(Name(r, u, p))
      ensures r.messages[a].conversation == r.messages[p].conversation && r.messages[a].parent == Some(p)
    {
      LowerBoundAt(s, r, u, c, sources, m, row, k, rows, a, p);
    }
  }

  lemma JoinsIncludes(s: Store, u: Universe, c: ConversationId, sources: seq<ConversationId>, m: MessageId,
        row: Message, k: InternetId, rows: set<MessageId>)
    requires Linked(s) && Joins(s, u, c, sources, m, row, k, rows)
    ensures Names(s, u, c, m, row, k)
    ensures forall d | d in sources :: d in s.conversations
  {
  }

  /** An assigned conversation that holds a mail held, before the step, a mail connected to it. */
  lemma AssignedBefore(s: Store, r: Store, u: Universe, c: ConversationId, sources: seq<ConversationId>, m: MessageId,
        row: Message, k: InternetId, rows: set<MessageId>, x: MessageId)
    returns (y: MessageId)
    requires Linked(s) && HoldsConnected(s, u) && Joins(s, u, c, sources, m, row, k, rows) && Joined(s, r, u, c, sources, m, row, k)
    requires IsMail(r, u, x) && IsAssigned(r, x)
    ensures IsMail(s, u, y) && IsAssigned(s, y) && s.messages[y].conversation == r.messages[x].conversation
    ensures Connected(u, Name(s, u, y), Name(r, u, x))
  {
    hide Connected;
    NamesKept(s, r, u, c, sources, m, row, k);
    if r.messages[x].conversation == c {
      y :| IsMail(s, u, y) && s.messages[y].conversation == c && Connected(u, Name(s, u, y), k);
      TargetHoldsConnected(s, r, u, c, sources, m, row, k, rows, x);
      ConnectedThrough(u, Name(s, u, y), k, Name(r, u, x));
    } else {
      y := x;
    }
  }

  lemma OneTopicKept(s: Store, r: Store, u: Universe, c: ConversationId, sources: seq<ConversationId>, m: MessageId,
        row: Message, k: InternetId, rows: set<MessageId>)
    requires Linked(s) && HoldsConnected(s, u) && OneTopic(s, u) && Joins(s, u, c, sources, m, row, k, rows) && Joined(s, r, u, c, sources, m, row, k)
    ensures OneTopic(r, u)
  {
    hide Connected;
    NamesKept(s, r, u, c, sources, m, row, k);
    forall a, b | IsMail(r, u, a) && IsMail(r, u, b) && IsAssigned(r, a) && IsAssigned(r, b) && Connected(u, Name(r, u, a), Name(r, u, b))
      ensures r.messages[a].conversation == r.messages[b].conversation
    {
      var x := AssignedBefore(s, r, u, c, sources, m, row, k, rows, a);
      var y := AssignedBefore(s, r, u, c, sources, m, row, k, rows, b);
      ConnectedTransitive(u, Name(s, u, x), Name(r, u, a), Name(r, u, b));
      ConnectedThrough(u, Name(s, u, x), Name(r, u, b), Name(s, u, y));
    }
    forall o, x | o in u.outbound && IsMail(r, u, o) && !IsKnown(r, u, o) && IsMail(r, u, x) && IsAssigned(r, x) && Connected(u, Name(r, u, x), Name(r, u, o))
      ensures IsAssigned(r, o)
    {
      var y := AssignedBefore(s, r, u, c, sources, m, row, k, rows, x);
      ConnectedTransitive(u, Name(s, u, y), Name(r, u, x), Name(r, u, o));
      assert IsAssigned(s, o);
    }
  }

  lemma RowsKept(s: Store, r: Store, u: Universe, c: ConversationId, sources: seq<ConversationId>, m: MessageId,
        row: Message, k: InternetId)
    requires Linked(s) && Names(s, u, c, m, row, k) && Joined(s, r, u, c, sources, m, row, k)
    ensures r.messages.Keys == s.messages.Keys + {m}
    ensures forall x | x in s.messages :: r.messages[x].state == s.messages[x].state && r.messages[x].resendEmailId == s.messages[x].resendEmailId
    ensures forall x | x in s.messages && x != m :: r.messages[x].internetId == s.messages[x].internetId
    ensures r.messages[m].internetId == Some(k) && r.messages[m].resendEmailId == row.resendEmailId
  {
  }

  lemma OutboundKept(s: Store, r: Store, u: Universe, c: ConversationId, sources: seq<ConversationId>, m: MessageId,
        row: Message, k: InternetId)
    requires Linked(s) && OutboundOk(s, u) && Names(s, u, c, m, row, k) && Joined(s, r, u, c, sources, m, row, k)
    ensures OutboundOk(r, u)
  {
    RowsKept(s, r, u, c, sources, m, row, k);
    hide Joined, SameMessage;
    forall o, x | o in u.outbound && x in r.messages && r.messages[x].internetId == Some(u.outbound[o]) ensures x == o {
      if x == m {
        assert u.outbound[o] == k && k in u.outbound.Values;
      }
    }
  }

  lemma ParticipantKept(s: Store, r: Store, u: Universe, c: ConversationId, sources: seq<ConversationId>,
        m: MessageId, row: Message, k: InternetId, x: MessageId)
    requires Linked(s) && Names(s, u, c, m, row, k) && Joined(s, r, u, c, sources, m, row, k) && x in s.messages
    requires forall d | d in sources :: d in s.conversations && Lower(s.conversations[d].participant) == Lower(s.conversations[c].participant)
    ensures x in r.messages && Participant(r, x) == Participant(s, x)
  {
  }

  lemma ParentsKept(s: Store, r: Store, u: Universe, c: ConversationId, sources: seq<ConversationId>, m: MessageId,
        row: Message, k: InternetId)
    requires Linked(s) && Names(s, u, c, m, row, k) && Joined(s, r, u, c, sources, m, row, k)
    ensures forall x | x in s.messages && x != m :: x in r.messages
              && r.messages[x].inReplyTo == s.messages[x].inReplyTo && r.messages[x].emailCreatedAt == s.messages[x].emailCreatedAt
              && (s.messages[x].parent.Some? ==> r.messages[x].parent.Some?)
    ensures m in r.messages && r.messages[m].emailCreatedAt == row.emailCreatedAt
  {
  }

  /** The row of one message after the attachment is that of a mail or of a draft. */
  lemma MailAt(s: Store, r: Store, u: Universe, c: ConversationId, sources: seq<ConversationId>, m: MessageId,
        row: Message, k: InternetId, x: MessageId)
    requires Linked(s) && Linked(r) && MailOk(s, u) && Names(s, u, c, m, row, k) && Joined(s, r, u, c, sources, m, row, k) && x in r.messages
    requires Lower(s.conversations[c].participant) == u.participant
    requires forall d | d in sources :: d in s.conversations && Lower(s.conversations[d].participant) == u.participant
    ensures IsMail(r, u, x) ==> Name(r, u, x) in u.mail
    ensures IsMail(r, u, x) ==> Participant(r, x) == u.participant && r.messages[x].inReplyTo == u.mail[Name(r, u, x)].parent
    ensures IsKnown(r, u, x) ==> r.messages[x].emailCreatedAt == u.mail[Name(r, u, x)].createdAt
    ensures Participant(r, x) == u.participant && !IsMail(r, u, x) ==>
              x in u.drafts && r.messages[x].internetId.None? && (r.messages[x].parent.Some? || r.messages[x].inReplyTo.None?)
  {
    hide Connected;
    NameKept(s, r, u, c, sources, m, row, k, x);
    if x in s.messages {
      ParticipantKept(s, r, u, c, sources, m, row, k, x);
    }
    if IsMail(r, u, x) {
      RowBefore(s, r, u, c, sources, m, row, k, x);
    }
    ParentsKept(s, r, u, c, sources, m, row, k);
    if x == m {
      assert Participant(r, m) == u.participant;
    }
    hide Joined, Participant;
  }

  lemma MailKept(s: Store, r: Store, u: Universe, c: ConversationId, sources: seq<ConversationId>, m: MessageId,
        row: Message, k: InternetId)
    requires Linked(s) && MailOk(s, u) && Names(s, u, c, m, row, k) && Joined(s, r, u, c, sources, m, row, k)
    requires Lower(s.conversations[c].participant) == u.participant
    requires forall d | d in sources :: d in s.conversations && Lower(s.conversations[d].participant) == u.participant
    ensures MailOk(r, u)
  {
    forall x | x in r.messages
      ensures IsMail(r, u, x) ==> Name(r, u, x) in u.mail
      ensures IsMail(r, u, x) ==> Participant(r, x) == u.participant && r.messages[x].inReplyTo == u.mail[Name(r, u, x)].parent
      ensures IsKnown(r, u, x) ==> r.messages[x].emailCreatedAt == u.mail[Name(r, u, x)].createdAt
      ensures Participant(r, x) == u.participant && !IsMail(r, u, x) ==>
                x in u.drafts && r.messages[x].internetId.None? && (r.messages[x].parent.Some? || r.messages[x].inReplyTo.None?)
    {
      hide Joined, Names, MailOk;
      MailAt(s, r, u, c, sources, m, row, k, x);
    }
    hide Joined, Names, Participant;
  }

  lemma NameKept(s: Store, r: Store, u: Universe, c: ConversationId, sources: seq<ConversationId>, m: MessageId,
        row: Message, k: InternetId, x: MessageId)
    requires Linked(s) && Names(s, u, c, m, row, k) && Joined(s, r, u, c, sources, m, row, k)
    ensures x == m ==> IsMail(r, u, x) && Name(r, u, x) == k
    ensures x != m && IsMail(s, u, x) ==> IsMail(r, u, x) && Name(r, u, x) == Name(s, u, x)
  {
  }

  lemma ProviderIdAt(s: Store, r: Store, u: Universe, c: ConversationId, sources: seq<ConversationId>, m: MessageId,
        row: Message, k: InternetId, x: MessageId, j: InternetId)
    requires Linked(s) && ProviderIdsOk(s, u) && Names(s, u, c, m, row, k) && Joined(s, r, u, c, sources, m, row, k)
    requires x in r.messages && j in u.mail && r.messages[x].resendEmailId == Some(u.mail[j].resendEmailId)
    ensures IsMail(r, u, x) && Name(r, u, x) == j
  {
    RowsKept(s, r, u, c, sources, m, row, k);
    NameKept(s, r, u, c, sources, m, row, k, x);
    hide Joined;
    if x in s.messages {
      assert s.messages[x].resendEmailId == Some(u.mail[j].resendEmailId);
    }
  }

  lemma ProviderIdsKept(s: Store, r: Store, u: Universe, c: ConversationId, sources: seq<ConversationId>,
        m: MessageId, row: Message, k: InternetId)
    requires Linked(s) && ProviderIdsOk(s, u) && Names(s, u, c, m, row, k) && Joined(s, r, u, c, sources, m, row, k)
    ensures ProviderIdsOk(r, u)
  {
    hide Joined, Names;
    forall x, j | x in r.messages && j in u.mail && r.messages[x].resendEmailId == Some(u.mail[j].resendEmailId) ensures IsMail(r, u, x) && Name(r, u, x) == j {
      ProviderIdAt(s, r, u, c, sources, m, row, k, x, j);
    }
  }

  /** Attaching a mail keeps everything convergence rests on. */
  lemma JoinKeepsThreaded(s: Store, r: Store, u: Universe, c: ConversationId, sources: seq<ConversationId>,
        m: MessageId, row: Message, k: InternetId, rows: set<MessageId>)
    requires Linked(s) && Threaded(s, u) && Joins(s, u, c, sources, m, row, k, rows) && Joined(s, r, u, c, sources, m, row, k)
    requires Lower(s.conversations[c].participant) == u.participant
    requires forall d | d in sources :: d in s.conversations && Lower(s.conversations[d].participant) == u.participant
    ensures Threaded(r, u)
  {
    OutboundKept(s, r, u, c, sources, m, row, k);
    MailKept(s, r, u, c, sources, m, row, k);
    ProviderIdsKept(s, r, u, c, sources, m, row, k);
    UpperBoundKept(s, r, u, c, sources, m, row, k, rows);
    LowerBoundKept(s, r, u, c, sources, m, row, k, rows);
    OneTopicKept(s, r, u, c, sources, m, row, k, rows);
  }

  // --- Where a draft goes -----------------------------------------------------------------------------

  /** The message shares its conversation with a mail connected to `id`. */
  ghost predicate HasCompanion(s: Store, u: Universe, d: MessageId, id: InternetId)
    requires d in s.messages
  {
    exists y | IsMail(s, u, y) :: s.messages[y].conversation == s.messages[d].conversation && Connected(u, Name(s, u, y), id)
  }

  /** From `s` to `r` only mail was added, mail kept its name, and a draft that shares a conversation with a mail
      in `r` shared one with a mail connected to it in `s`. */
  ghost predicate Traced(s: Store, r: Store, u: Universe) {
    && (forall x | x in r.messages && x !in s.messages :: IsMail(r, u, x))
    && (forall x | IsMail(s, u, x) :: IsMail(r, u, x) && Name(r, u, x) == Name(s, u, x))
    && (forall d | d in s.messages && !IsMail(s, u, d) ::
          d in r.messages && !IsMail(r, u, d) && r.messages[d].emailCreatedAt == s.messages[d].emailCreatedAt)
    && (forall d, a | d in s.messages && !IsMail(s, u, d) && IsMail(r, u, a) && r.messages[d].conversation == r.messages[a].conversation ::
          HasCompanion(s, u, d, Name(r, u, a)))
  }

  lemma CompanionOfCompanion(s: Store, u: Universe, d: MessageId, a: InternetId, b: InternetId)
    requires d in s.messages && HasCompanion(s, u, d, a) && Connected(u, a, b)
    ensures HasCompanion(s, u, d, b)
  {
    hide Connected;
    var y :| IsMail(s, u, y) && s.messages[y].conversation == s.messages[d].conversation && Connected(u, Name(s, u, y), a);
    ConnectedTransitive(u, Name(s, u, y), a, b);
  }

  lemma TracedIsTransitive(s: Store, r: Store, t: Store, u: Universe)
    requires Traced(s, r, u) && Traced(r, t, u)
    ensures Traced(s, t, u)
  {
    hide Connected, HasCompanion, IsMail, Name;
    forall d, a | d in s.messages && !IsMail(s, u, d) && d in t.messages && a in t.messages && IsMail(t, u, a)
        && t.messages[d].conversation == t.messages[a].conversation
      ensures HasCompanion(s, u, d, Name(t, u, a))
    {
      assert d in r.messages && !IsMail(r, u, d) && HasCompanion(r, u, d, Name(t, u, a));
      TracedCompanion(s, r, u, d, Name(t, u, a));
    }
    MailsAreStored(t, u);
  }

  lemma MailsAreStored(s: Store, u: Universe)
    ensures forall x | IsMail(s, u, x) :: x in s.messages
  {
  }

  lemma TracedCompanion(s: Store, r: Store, u: Universe, d: MessageId, id: InternetId)
    requires Traced(s, r, u) && d in s.messages && !IsMail(s, u, d) && d in r.messages && HasCompanion(r, u, d, id)
    ensures HasCompanion(s, u, d, id)
  {
    hide Connected;
    var y :| IsMail(r, u, y) && r.messages[y].conversation == r.messages[d].conversation && Connected(u, Name(r, u, y), id);
    assert HasCompanion(s, u, d, Name(r, u, y));
    CompanionOfCompanion(s, u, d, Name(r, u, y), id);
  }

  lemma SameMessagesTraced(s: Store, r: Store, u: Universe)
    requires r.messages == s.messages && forall m | IsMail(s, u, m) :: Name(s, u, m) in u.mail
    ensures Traced(s, r, u)
  {
    hide Connected;
    forall d, a | d in s.messages && !IsMail(s, u, d) && IsMail(r, u, a) && r.messages[d].conversation == r.messages[a].conversation
      ensures HasCompanion(s, u, d, Name(r, u, a))
    {
      assert IsMail(s, u, a);
      ConnectedToItself(u, Name(s, u, a));
    }
  }

  /** A draft that shares a conversation with a mail after an attachment. */
  lemma JoinTracesDraft(s: Store, r: Store, u: Universe, c: ConversationId, sources: seq<ConversationId>, m: MessageId,
        row: Message, k: InternetId, rows: set<MessageId>, d: MessageId, a: MessageId)
    requires Linked(s) && HoldsConnected(s, u) && Joins(s, u, c, sources, m, row, k, rows) && Joined(s, r, u, c, sources, m, row, k)
    requires forall x | IsMail(s, u, x) :: Name(s, u, x) in u.mail
    requires d in s.messages && !IsMail(s, u, d) && IsMail(r, u, a) && d in r.messages && r.messages[d].conversation == r.messages[a].conversation
    ensures HasCompanion(s, u, d, Name(r, u, a))
  {
    hide Connected;
    NamesKept(s, r, u, c, sources, m, row, k);
    if r.messages[a].conversation == c {
      TargetHoldsConnected(s, r, u, c, sources, m, row, k, rows, a);
      ConnectedSymmetric(u, Name(r, u, a), k);
      var y :| IsMail(s, u, y) && s.messages[y].conversation == s.messages[d].conversation && Connected(u, Name(s, u, y), k);
      ConnectedTransitive(u, Name(s, u, y), k, Name(r, u, a));
    } else {
      assert IsMail(s, u, a) && s.messages[a].conversation == s.messages[d].conversation;
      ConnectedToItself(u, Name(s, u, a));
    }
  }

  lemma JoinTracesRow(s: Store, r: Store, u: Universe, c: ConversationId, sources: seq<ConversationId>, m: MessageId,
        row: Message, k: InternetId, x: MessageId)
    requires Linked(s) && Names(s, u, c, m, row, k) && Joined(s, r, u, c, sources, m, row, k)
    ensures x in r.messages && x !in s.messages ==> IsMail(r, u, x)
    ensures IsMail(s, u, x) ==> IsMail(r, u, x) && Name(r, u, x) == Name(s, u, x)
    ensures x in s.messages && !IsMail(s, u, x) ==>
              x in r.messages && !IsMail(r, u, x) && r.messages[x].emailCreatedAt == s.messages[x].emailCreatedAt
  {
    NameKept(s, r, u, c, sources, m, row, k, x);
    RowsKept(s, r, u, c, sources, m, row, k);
    ParentsKept(s, r, u, c, sources, m, row, k);
    hide Joined;
  }

  lemma JoinTraces(s: Store, r: Store, u: Universe, c: ConversationId, sources: seq<ConversationId>, m: MessageId,
        row: Message, k: InternetId, rows: set<MessageId>)
    requires Linked(s) && Threaded(s, u) && Joins(s, u, c, sources, m, row, k, rows) && Joined(s, r, u, c, sources, m, row, k)
    ensures Traced(s, r, u)
  {
    hide Connected, HasCompanion, Threaded, Joins, Joined, Names, IsMail, Name;
    MailNames(s, u);
    JoinsIncludes(s, u, c, sources, m, row, k, rows);
    MailsAreStored(s, u);
    MailsAreStored(r, u);
    forall x ensures x in r.messages && x !in s.messages ==> IsMail(r, u, x)
      ensures IsMail(s, u, x) ==> IsMail(r, u, x) && Name(r, u, x) == Name(s, u, x)
      ensures x in s.messages && !IsMail(s, u, x) ==> x in r.messages && !IsMail(r, u, x) && r.messages[x].emailCreatedAt == s.messages[x].emailCreatedAt
    {
      JoinTracesRow(s, r, u, c, sources, m, row, k, x);
    }
    forall d, a | d in s.messages && !IsMail(s, u, d) && IsMail(r, u, a) && r.messages[d].conversation == r.messages[a].conversation
      ensures HasCompanion(s, u, d, Name(r, u, a))
    {
      JoinTracesDraft(s, r, u, c, sources, m, row, k, rows, d, a);
    }
  }

  lemma MailNames(s: Store, u: Universe)
    requires Linked(s) && Threaded(s, u)
    ensures HoldsConnected(s, u) && forall x | IsMail(s, u, x) :: Name(s, u, x) in u.mail
  {
  }
}
