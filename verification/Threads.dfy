/** Conversations, messages and routing aliases, and the transactions that
    change them: src/lib/email/conversations.ts (inbound projection, recording
    an outbound Message-ID, merging), src/lib/conversation-v2.ts (open, reopen,
    reply) and the topic and state routes. Every transaction is one step. */
module Threads {
  import opened Text
  import opened States
  import opened Routing

  type ConversationId = nat
  type MessageId = nat

  /** An RFC 5322 Message-ID, angle brackets included. */
  type InternetId = string

  datatype ApiVersion = V1 | V2

  datatype Topic = Topic(kind: string, externalId: string)

  datatype Conversation = Conversation(
    routingToken: string,
    apiVersion: Option<ApiVersion>,
    topic: Option<Topic>,
    participant: string,
    base: Option<string>,
    requiresAllowlist: bool,
    clock: Clock,
    lastMessageAt: int)

  datatype MessageState = Inbound | Pending | Accepted | Failed | Indeterminate

  /** `replyTo` is the pair from which the Reply-To address of an outbound message was built. */
  datatype Message = Message(
    conversation: ConversationId,
    parent: Option<MessageId>,
    state: MessageState,
    resendEmailId: Option<string>,
    internetId: Option<InternetId>,
    inReplyTo: Option<InternetId>,
    references: seq<InternetId>,
    from: string,
    replyTo: Option<Candidate>,
    emailCreatedAt: int)

  /** `aliases` is keyed by its unique columns; `now` is the latest time any transaction has seen;
      conversation ids from `nextConversation` on were never drawn (they are time-ordered UUIDs). */
  datatype Store = Store(
    conversations: map<ConversationId, Conversation>,
    messages: map<MessageId, Message>,
    aliases: map<Candidate, ConversationId>,
    now: int,
    nextConversation: nat)

  /** The foreign key from messages to conversations. */
  predicate Linked(s: Store) {
    forall m | m in s.messages :: s.messages[m].conversation in s.conversations
  }

  function Home(s: Store, m: MessageId): Conversation
    requires Linked(s) && m in s.messages
  {
    s.conversations[s.messages[m].conversation]
  }

  /** `participantAddress.toLowerCase()` of the conversation that holds the message. */
  function Participant(s: Store, m: MessageId): string
    requires Linked(s) && m in s.messages
  {
    Lower(Home(s, m).participant)
  }

  // --- Row updates -----------------------------------------------------------------

  function WithConversation(s: Store, c: ConversationId, row: Conversation): (r: Store)
    requires Linked(s)
    ensures Linked(r)
  {
    s.(conversations := s.conversations[c := row],
       nextConversation := if c < s.nextConversation then s.nextConversation else c + 1)
  }

  function WithMessage(s: Store, m: MessageId, row: Message): (r: Store)
    requires Linked(s) && row.conversation in s.conversations
    ensures Linked(r)
  {
    s.(messages := s.messages[m := row])
  }

  function SetParents(s: Store, children: set<MessageId>, parent: MessageId): (r: Store)
    requires Linked(s)
    ensures Linked(r)
  {
    s.(messages := map m | m in s.messages ::
      if m in children then s.messages[m].(parent := Some(parent)) else s.messages[m])
  }

  ghost predicate IsLatest(s: Store, c: ConversationId, at: int) {
    && (exists m | m in s.messages && s.messages[m].conversation == c :: s.messages[m].emailCreatedAt == at)
    && (forall m | m in s.messages && s.messages[m].conversation == c :: s.messages[m].emailCreatedAt <= at)
  }

  ghost predicate HasMessage(s: Store, c: ConversationId) {
    exists m | m in s.messages :: s.messages[m].conversation == c
  }

  /** Some message of the conversation is at least as late. */
  ghost predicate IsNotAfterLatest(s: Store, c: ConversationId, at: int) {
    exists m | m in s.messages && s.messages[m].conversation == c :: at <= s.messages[m].emailCreatedAt
  }

  lemma LatestExists(s: Store, c: ConversationId)
    requires HasMessage(s, c)
    ensures exists at :: IsLatest(s, c, at)
  {
    var times := set m | m in s.messages && s.messages[m].conversation == c :: s.messages[m].emailCreatedAt;
    var m :| m in s.messages && s.messages[m].conversation == c;
    assert s.messages[m].emailCreatedAt in times;
    var at := MaximumExists(times, s.messages[m].emailCreatedAt);
    forall m | m in s.messages && s.messages[m].conversation == c ensures s.messages[m].emailCreatedAt <= at {
      assert s.messages[m].emailCreatedAt in times;
    }
    assert IsLatest(s, c, at);
  }

  lemma {:induction false} MaximumExists(times: set<int>, t: int) returns (at: int)
    requires t in times
    ensures at in times && forall u | u in times :: u <= at
    decreases times
  {
    at := t;
    if v :| v in times - {t} {
      var other := MaximumExists(times - {t}, v);
      at := if t < other then other else t;
      forall u | u in times ensures u <= at {
        assert u == t || u in times - {t};
      }
    } else {
      assert forall u | u in times :: u == t || u in times - {t};
    }
  }

  /** `lastMessageAt := max(emailCreatedAt)` over the messages of the conversation. */
  ghost function RefreshLast(s: Store, c: ConversationId): (r: Store)
    requires Linked(s) && c in s.conversations
    ensures Linked(r)
  {
    if HasMessage(s, c) then
      LatestExists(s, c);
      var at :| IsLatest(s, c, at);
      WithConversation(s, c, s.conversations[c].(lastMessageAt := at))
    else s
  }

  // --- Merging conversations ---------------------------------------------------------

  predicate AllLive(s: Store, cs: seq<ConversationId>) {
    forall c | c in cs :: c in s.conversations
  }

  /** `uniqueSources.find(source => source.apiVersion === 'V2' && source.replyToBaseAddress)`. */
  function PromotedSource(s: Store, sources: seq<ConversationId>): Option<Conversation>
    requires AllLive(s, sources)
  {
    if sources == [] then None
    else
      var row := s.conversations[sources[0]];
      if row.apiVersion == Some(V2) && row.base.Some? then Some(row) else PromotedSource(s, sources[1..])
  }

  function SourceWithBase(s: Store, sources: seq<ConversationId>): Option<Conversation>
    requires AllLive(s, sources)
  {
    if sources == [] then None
    else if s.conversations[sources[0]].base.Some? then Some(s.conversations[sources[0]])
    else SourceWithBase(s, sources[1..])
  }

  function FirstVersion(s: Store, sources: seq<ConversationId>): Option<ApiVersion>
    requires AllLive(s, sources)
  {
    if sources == [] then None
    else if s.conversations[sources[0]].apiVersion.Some? then s.conversations[sources[0]].apiVersion
    else FirstVersion(s, sources[1..])
  }

  function Clocks(s: Store, cs: seq<ConversationId>): (clocks: seq<Clock>)
    requires AllLive(s, cs)
    ensures |clocks| == |cs|
    ensures forall i | 0 <= i < |cs| :: clocks[i] == s.conversations[cs[i]].clock
  {
    seq(|cs|, i requires 0 <= i < |cs| => s.conversations[cs[i]].clock)
  }

  /** The surviving row. */
  function MergedRow(s: Store, target: ConversationId, sources: seq<ConversationId>): Conversation
    requires target in s.conversations && AllLive(s, sources)
  {
    var row := s.conversations[target];
    var promoted := PromotedSource(s, sources);
    var selected := if promoted.Some? then promoted else SourceWithBase(s, sources);
    var base := if row.base.Some? then row.base else if selected.Some? then selected.value.base else None;
    var apiVersion :=
      if row.apiVersion == Some(V2) || promoted.Some? then Some(V2)
      else if row.apiVersion.Some? then row.apiVersion else FirstVersion(s, sources);
    var requiresAllowlist :=
      if apiVersion == Some(V2)
      then (row.apiVersion == Some(V2) && row.requiresAllowlist) || (promoted.Some? && promoted.value.requiresAllowlist)
      else row.requiresAllowlist;
    var merged := MergeConversationState(Clocks(s, [target] + sources));
    row.(apiVersion := apiVersion, base := base, requiresAllowlist := requiresAllowlist, clock := merged.GetOr(row.clock))
  }

  /** The pairs `(routing_token, reply_to_base_address)` of the source rows that have a base. */
  function SourcePairs(s: Store, sources: seq<ConversationId>): set<Candidate>
    requires AllLive(s, sources)
  {
    set c | c in sources && s.conversations[c].base.Some? ::
      Candidate(s.conversations[c].routingToken, s.conversations[c].base.value)
  }

  function Ids(cs: seq<ConversationId>): set<ConversationId> {
    set c | c in cs
  }

  function Moved(c: ConversationId, target: ConversationId, gone: set<ConversationId>): ConversationId {
    if c in gone then target else c
  }

  /** Aliases follow their conversation into the target; the source pairs are added, duplicates skipped. */
  function PreserveMergedState(s: Store, target: ConversationId, sources: seq<ConversationId>): (r: Store)
    requires Linked(s) && target in s.conversations && AllLive(s, sources)
    ensures Linked(r)
  {
    s.(aliases := map k | k in s.aliases.Keys + SourcePairs(s, sources) ::
         if k in s.aliases then Moved(s.aliases[k], target, Ids(sources)) else target,
       conversations := s.conversations[target := MergedRow(s, target, sources)])
  }

  function MoveMessages(s: Store, target: ConversationId, gone: set<ConversationId>): (r: Store)
    requires Linked(s) && target in s.conversations
    ensures Linked(r)
  {
    s.(messages := map m | m in s.messages ::
      s.messages[m].(conversation := Moved(s.messages[m].conversation, target, gone)))
  }

  /** Deleting conversations cascades to their messages and aliases; replies to a deleted message lose their parent. */
  function DeleteConversations(s: Store, cs: set<ConversationId>): (r: Store)
    requires Linked(s)
    ensures Linked(r)
  {
    var messages := map m | m in s.messages && s.messages[m].conversation !in cs :: s.messages[m];
    Store(
      map c | c in s.conversations && c !in cs :: s.conversations[c],
      map m | m in messages ::
        if messages[m].parent.Some? && messages[m].parent.value in s.messages && messages[m].parent.value !in messages
        then messages[m].(parent := None) else messages[m],
      map k | k in s.aliases && s.aliases[k] !in cs :: s.aliases[k],
      s.now,
      s.nextConversation)
  }

  function MergeInto(s: Store, target: ConversationId, sources: seq<ConversationId>): (r: Store)
    requires Linked(s) && target in s.conversations && AllLive(s, sources)
    ensures Linked(r)
  {
    DeleteConversations(MoveMessages(PreserveMergedState(s, target, sources), target, Ids(sources)), Ids(sources))
  }

  // --- Choosing a conversation for inbound mail ----------------------------------------

  /** A received email after header extraction. */
  datatype Email = Email(
    resendEmailId: string,
    internetId: InternetId,
    inReplyTo: Option<InternetId>,
    rawReferences: seq<InternetId>,
    from: string,
    recipients: seq<string>,
    createdAt: int)

  const MAX_ID_LENGTH := 998
  const MAX_REFERENCES := 100

  function ShortIds(ids: seq<InternetId>): seq<InternetId> {
    if ids == [] then []
    else if |ids[0]| <= MAX_ID_LENGTH then [ids[0]] + ShortIds(ids[1..]) else ShortIds(ids[1..])
  }

  function Without(ids: seq<InternetId>, id: InternetId): seq<InternetId> {
    if ids == [] then []
    else if ids[0] == id then Without(ids[1..], id) else [ids[0]] + Without(ids[1..], id)
  }

  function RawReferences(e: Email): seq<InternetId> {
    var short := ShortIds(e.rawReferences);
    if |short| > MAX_REFERENCES then short[|short| - MAX_REFERENCES..] else short
  }

  function EffectiveParent(e: Email): Option<InternetId> {
    var raw := RawReferences(e);
    if e.inReplyTo.Some? then e.inReplyTo else if raw == [] then None else Some(raw[|raw| - 1])
  }

  function References(e: Email): seq<InternetId> {
    var raw := RawReferences(e);
    if e.inReplyTo.Some? then Without(raw, e.inReplyTo.value) + [e.inReplyTo.value] else raw
  }

  predicate AlreadyProjected(s: Store, e: Email) {
    exists m | m in s.messages :: s.messages[m].resendEmailId == Some(e.resendEmailId) || s.messages[m].internetId == Some(e.internetId)
  }

  /** The stored ancestors of the email that belong to its sender. */
  function Eligible(s: Store, e: Email): set<MessageId>
    requires Linked(s)
  {
    set m | m in s.messages && s.messages[m].internetId.Some? && s.messages[m].internetId.value in References(e)
            && Participant(s, m) == Lower(e.from)
  }

  /** The stored messages of this participant that answer `id` and have no parent yet. */
  function Waiting(s: Store, id: InternetId, participant: string): set<MessageId>
    requires Linked(s)
  {
    set m | m in s.messages && s.messages[m].parent.None? && s.messages[m].inReplyTo == Some(id)
            && Participant(s, m) == participant
  }

  predicate AllStored(s: Store, rows: seq<MessageId>) {
    forall m | m in rows :: m in s.messages
  }

  function FindById(s: Store, rows: seq<MessageId>, id: InternetId): Option<MessageId>
    requires AllStored(s, rows)
  {
    if rows == [] then None
    else if s.messages[rows[0]].internetId == Some(id) then Some(rows[0])
    else FindById(s, rows[1..], id)
  }

  /** The stored message for the last of the references that has one. */
  function NearestAncestor(s: Store, rows: seq<MessageId>, references: seq<InternetId>): Option<MessageId>
    requires AllStored(s, rows)
  {
    if references == [] then None
    else
      var found := FindById(s, rows, references[|references| - 1]);
      if found.Some? then found else NearestAncestor(s, rows, references[..|references| - 1])
  }

  function FindAssigned(s: Store, rows: seq<MessageId>): Option<MessageId>
    requires Linked(s) && AllStored(s, rows)
  {
    if rows == [] then None
    else if Home(s, rows[0]).topic.Some? then Some(rows[0])
    else FindAssigned(s, rows[1..])
  }

  /** The order of preference among parent, nearest ancestor and waiting children. */
  function PickRow(s: Store, parent: Option<MessageId>, ancestor: Option<MessageId>,
        waiting: seq<MessageId>): Option<MessageId>
    requires Linked(s) && AllStored(s, waiting)
    requires parent.Some? ==> parent.value in s.messages
    requires ancestor.Some? ==> ancestor.value in s.messages
  {
    if parent.Some? && Home(s, parent.value).topic.Some? then parent
    else if ancestor.Some? && Home(s, ancestor.value).topic.Some? then ancestor
    else if FindAssigned(s, waiting).Some? then FindAssigned(s, waiting)
    else if parent.Some? then parent
    else if ancestor.Some? then ancestor
    else if waiting != [] then Some(waiting[0])
    else None
  }

  /** The token-or-alias pair rule; a conversation without a base answers to the configured default. */
  predicate PairMatches(s: Store, c: ConversationId, candidate: Candidate, defaultBase: string)
    requires c in s.conversations
  {
    || (candidate.routingToken == s.conversations[c].routingToken
        && candidate.baseAddress == s.conversations[c].base.GetOr(Normalize(defaultBase)))
    || (candidate in s.aliases && s.aliases[candidate] == c)
  }

  function RoutedConversations(s: Store, e: Email, defaultBase: string): set<ConversationId> {
    set c | c in s.conversations && Lower(s.conversations[c].participant) == Lower(e.from)
            && exists candidate | candidate in Candidates(e.recipients) :: PairMatches(s, c, candidate, defaultBase)
  }

  ghost function Routed(s: Store, e: Email, defaultBase: string): Option<ConversationId> {
    var eligible := RoutedConversations(s, e, defaultBase);
    if |eligible| == 1 then
      var c :| c in eligible;
      Some(c)
    else None
  }

  /** The other, unassigned conversations of the related messages, each once, in row order. */
  function Sources(s: Store, rows: seq<MessageId>, target: ConversationId): seq<ConversationId>
    requires Linked(s) && AllStored(s, rows)
  {
    if rows == [] then []
    else
      var m := rows[|rows| - 1];
      var c := s.messages[m].conversation;
      AddNew(Sources(s, rows[..|rows| - 1], target),
             if c != target && Home(s, m).topic.None? then Some(c) else None)
  }

  // --- The inbound projection ---------------------------------------------------------

  /** What the transaction reads and draws: rows in the order the queries returned them, new ids, a new token. */
  datatype Draw = Draw(related: seq<MessageId>, waiting: seq<MessageId>, conversation: ConversationId, message: MessageId, token: string)

  ghost predicate Answers(s: Store, e: Email, d: Draw)
    requires Linked(s)
  {
    Enumerates(d.related, Eligible(s, e)) && Enumerates(d.waiting, Waiting(s, e.internetId, Lower(e.from)))
  }

  lemma AnswersAreStored(s: Store, e: Email, d: Draw)
    requires Linked(s) && Answers(s, e, d)
    ensures AllStored(s, d.related) && AllStored(s, d.waiting) && AllStored(s, d.related + d.waiting)
  {
  }

  ghost function ParentOf(s: Store, e: Email, d: Draw): Option<MessageId>
    requires AllStored(s, d.related)
  {
    if EffectiveParent(e).Some? then FindById(s, d.related, EffectiveParent(e).value) else None
  }

  ghost function ChosenConversation(s: Store, e: Email, d: Draw, defaultBase: string): Option<ConversationId>
    requires Linked(s) && Answers(s, e, d)
  {
    AnswersAreStored(s, e, d);
    var parent := ParentOf(s, e, d);
    var ancestor := NearestAncestor(s, d.related, References(e));
    FoundIsStored(s, d.related, References(e), EffectiveParent(e).GetOr([]));
    FindAssignedFinds(s, d.waiting);
    var row := PickRow(s, parent, ancestor, d.waiting);
    if row.Some? then Some(s.messages[row.value].conversation)
    else if Candidates(e.recipients) == [] then None
    else Routed(s, e, defaultBase)
  }

  lemma FoundIsStored(s: Store, rows: seq<MessageId>, references: seq<InternetId>, id: InternetId)
    requires AllStored(s, rows)
    ensures FindById(s, rows, id).Some? ==> FindById(s, rows, id).value in rows && s.messages[FindById(s, rows, id).value].internetId == Some(id)
    ensures FindById(s, rows, id).None? ==> forall m | m in rows :: s.messages[m].internetId != Some(id)
    ensures NearestAncestor(s, rows, references).Some? ==> NearestAncestor(s, rows, references).value in rows
    ensures NearestAncestor(s, rows, references).None? ==> forall m | m in rows :: s.messages[m].internetId.Some? ==> s.messages[m].internetId.value !in references
  {
    FindByIdFinds(s, rows, id);
    NearestAncestorFinds(s, rows, references);
  }

  lemma {:induction false} FindByIdFinds(s: Store, rows: seq<MessageId>, id: InternetId)
    requires AllStored(s, rows)
    ensures FindById(s, rows, id).Some? ==> FindById(s, rows, id).value in rows && s.messages[FindById(s, rows, id).value].internetId == Some(id)
    ensures FindById(s, rows, id).None? ==> forall m | m in rows :: s.messages[m].internetId != Some(id)
  {
    if rows != [] {
      FindByIdFinds(s, rows[1..], id);
      assert rows == [rows[0]] + rows[1..];
    }
  }

  lemma {:induction false} NearestAncestorFinds(s: Store, rows: seq<MessageId>, references: seq<InternetId>)
    requires AllStored(s, rows)
    ensures NearestAncestor(s, rows, references).Some? ==> NearestAncestor(s, rows, references).value in rows
    ensures NearestAncestor(s, rows, references).None? ==> forall m | m in rows :: s.messages[m].internetId.Some? ==> s.messages[m].internetId.value !in references
  {
    if references != [] {
      var init, last := references[..|references| - 1], references[|references| - 1];
      FindByIdFinds(s, rows, last);
      NearestAncestorFinds(s, rows, init);
      assert references == init + [last];
    }
  }

  /** `references[i]` is the last reference that has a stored message. */
  predicate IsLastStored(s: Store, rows: seq<MessageId>, references: seq<InternetId>, i: nat)
    requires AllStored(s, rows)
  {
    && i < |references| && FindById(s, rows, references[i]).Some?
    && forall j | i < j < |references| :: FindById(s, rows, references[j]).None?
  }

  /** The nearest ancestor is the stored message of the last reference that has one. */
  lemma {:induction false} NearestAncestorIsNearest(s: Store, rows: seq<MessageId>, references: seq<InternetId>)
    requires AllStored(s, rows)
    ensures var found := NearestAncestor(s, rows, references);
            && (found.Some? ==> exists i: nat :: IsLastStored(s, rows, references, i) && found == FindById(s, rows, references[i]))
            && (found.None? ==> forall i | 0 <= i < |references| :: FindById(s, rows, references[i]).None?)
  {
    if references != [] {
      var before, last := references[..|references| - 1], |references| - 1;
      if FindById(s, rows, references[last]).Some? {
        assert IsLastStored(s, rows, references, last);
      } else {
        NearestAncestorIsNearest(s, rows, before);
        if NearestAncestor(s, rows, before).Some? {
          var i: nat :| IsLastStored(s, rows, before, i) && NearestAncestor(s, rows, before) == FindById(s, rows, before[i]);
          assert IsLastStored(s, rows, references, i);
        }
      }
    }
  }

  lemma {:induction false} WithoutDrops(ids: seq<InternetId>, id: InternetId)
    ensures id !in Without(ids, id) && |Without(ids, id)| <= |ids|
    ensures forall x :: x in Without(ids, id) <==> x in ids && x != id
  {
    if ids != [] {
      WithoutDrops(ids[1..], id);
      assert ids == [ids[0]] + ids[1..];
    }
  }

  lemma {:induction false} ShortIdsAreShort(ids: seq<InternetId>)
    ensures forall x :: x in ShortIds(ids) <==> x in ids && |x| <= MAX_ID_LENGTH
  {
    if ids != [] {
      ShortIdsAreShort(ids[1..]);
      assert ids == [ids[0]] + ids[1..];
    }
  }

  /** `ys` are the elements of `xs` at the positions `at`, which ascend. */
  ghost predicate Picks<T(!new)>(xs: seq<T>, at: seq<nat>, ys: seq<T>) {
    && (forall j, k | 0 <= j < k < |at| :: at[j] < at[k])
    && |ys| == |at| && forall k | 0 <= k < |at| :: at[k] < |xs| && ys[k] == xs[at[k]]
  }

  function Shift(at: seq<nat>): (later: seq<nat>)
    ensures |later| == |at| && forall k | 0 <= k < |at| :: later[k] == at[k] + 1
  {
    seq(|at|, k requires 0 <= k < |at| => at[k] + 1)
  }

  lemma ShiftHas(at: seq<nat>, i: nat)
    ensures i in Shift(at) <==> i > 0 && i - 1 in at
  {
    if i > 0 && i - 1 in at {
      var k :| 0 <= k < |at| && at[k] == i - 1;
      assert Shift(at)[k] == i;
    }
  }

  /** One more element in front. */
  lemma PicksLater<T(!new)>(x: T, xs: seq<T>, at: seq<nat>, ys: seq<T>)
    requires Picks(xs, at, ys)
    ensures Picks([x] + xs, Shift(at), ys) && Picks([x] + xs, [0] + Shift(at), [x] + ys)
  {
    hide Shift;
    var all := [x] + xs;
    assert forall k | 0 <= k < |at| :: all[at[k] + 1] == xs[at[k]];
    forall j, k | 0 <= j < k < |at| + 1 ensures ([0] + Shift(at))[j] < ([0] + Shift(at))[k] {
      assert j > 0 ==> at[j - 1] < at[k - 1];
    }
    forall k | 0 <= k < |at| + 1 ensures ([x] + ys)[k] == all[([0] + Shift(at))[k]] {
    }
  }

  lemma {:induction false} ShortIdsPick(ids: seq<InternetId>) returns (at: seq<nat>)
    ensures Picks(ids, at, ShortIds(ids))
    ensures forall i: nat | i < |ids| :: i in at <==> |ids[i]| <= 998
  {
    if ids == [] {
      at := [];
    } else {
      var rest := ShortIdsPick(ids[1..]);
      PicksLater(ids[0], ids[1..], rest, ShortIds(ids[1..]));
      assert ids == [ids[0]] + ids[1..];
      at := if |ids[0]| <= 998 then [0] + Shift(rest) else Shift(rest);
      forall i: nat | i < |ids| ensures i in at <==> (i == 0 && |ids[0]| <= 998) || (i > 0 && i - 1 in rest) {
        ShiftHas(rest, i);
      }
    }
  }

  lemma {:induction false} WithoutPicks(ids: seq<InternetId>, id: InternetId) returns (at: seq<nat>)
    ensures Picks(ids, at, Without(ids, id))
    ensures forall i: nat | i < |ids| :: i in at <==> ids[i] != id
  {
    if ids == [] {
      at := [];
    } else {
      var rest := WithoutPicks(ids[1..], id);
      PicksLater(ids[0], ids[1..], rest, Without(ids[1..], id));
      assert ids == [ids[0]] + ids[1..];
      at := if ids[0] != id then [0] + Shift(rest) else Shift(rest);
      forall i: nat | i < |ids| ensures i in at <==> (i == 0 && ids[0] != id) || (i > 0 && i - 1 in rest) {
        ShiftHas(rest, i);
      }
    }
  }

  /** The last hundred of the positions, or all. */
  function Last100(at: seq<nat>): seq<nat> {
    if |at| > 100 then at[|at| - 100..] else at
  }

  /** What is kept of the References header: `short` are the positions of its Message-IDs of at most 998 characters,
      in header order. Without In-Reply-To the last of them is the parent, and the last hundred are stored as they
      stand; with it, that is the parent, and is stored last in place of its occurrences among them. */
  lemma HeaderIsKept(e: Email) returns (short: seq<nat>, stored: seq<nat>)
    ensures forall i: nat | i < |e.rawReferences| :: i in short <==> |e.rawReferences[i]| <= 998
    ensures (forall k | 0 <= k < |short| :: short[k] < |e.rawReferences|) && forall j, k | 0 <= j < k < |short| :: short[j] < short[k]
    ensures e.inReplyTo.None? ==>
              && EffectiveParent(e) == (if short == [] then None else Some(e.rawReferences[short[|short| - 1]]))
              && stored == Last100(short) && Picks(e.rawReferences, stored, References(e))
    ensures e.inReplyTo.Some? ==>
              && EffectiveParent(e) == e.inReplyTo
              && References(e) != [] && References(e)[|References(e)| - 1] == e.inReplyTo.value
              && Picks(e.rawReferences, stored, References(e)[..|References(e)| - 1])
              && forall i: nat | i < |e.rawReferences| :: i in stored <==> i in Last100(short) && e.rawReferences[i] != e.inReplyTo.value
  {
    short := ShortIdsPick(e.rawReferences);
    var kept, raw := Last100(short), RawReferences(e);
    assert Picks(e.rawReferences, kept, raw);
    if e.inReplyTo.None? {
      stored := kept;
    } else {
      stored := PicksOthers(e.rawReferences, kept, raw, e.inReplyTo.value);
      assert References(e)[..|References(e)| - 1] == Without(raw, e.inReplyTo.value);
    }
  }

  lemma PicksOthers(ids: seq<InternetId>, kept: seq<nat>, raw: seq<InternetId>, id: InternetId) returns (stored: seq<nat>)
    requires Picks(ids, kept, raw)
    ensures Picks(ids, stored, Without(raw, id))
    ensures forall i: nat | i < |ids| :: i in stored <==> i in kept && ids[i] != id
  {
    var others := WithoutPicks(raw, id);
    stored := seq(|others|, k requires 0 <= k < |others| => kept[others[k]]);
    forall i: nat | i < |ids| ensures i in stored <==> i in kept && ids[i] != id {
      if i in kept && ids[i] != id {
        var k: nat :| k < |kept| && kept[k] == i;
        assert raw[k] == ids[i] && k in others;
        var j: nat :| j < |others| && others[j] == k;
        assert stored[j] == i;
      }
    }
  }

  /** The stored references end with the effective parent, name In-Reply-To once, keep at most
      100 header references of at most 998 characters, and invent none. */
  lemma ReferencesEndWithParent(e: Email)
    ensures EffectiveParent(e).Some? <==> References(e) != []
    ensures References(e) != [] ==> EffectiveParent(e) == Some(References(e)[|References(e)| - 1])
    ensures |References(e)| <= MAX_REFERENCES + 1
    ensures e.inReplyTo.Some? ==> e.inReplyTo.value !in References(e)[..|References(e)| - 1]
    ensures forall x | x in References(e) :: e.inReplyTo == Some(x) || (x in e.rawReferences && |x| <= MAX_ID_LENGTH)
  {
    ShortIdsAreShort(e.rawReferences);
    var short, raw := ShortIds(e.rawReferences), RawReferences(e);
    assert forall x | x in raw :: x in short;
    if e.inReplyTo.Some? {
      WithoutDrops(raw, e.inReplyTo.value);
      assert References(e)[..|References(e)| - 1] == Without(raw, e.inReplyTo.value);
    }
  }

  /** An assigned conversation wins wherever it is found; among unassigned ones the parent's, the nearest ancestor's, a waiting reply's. */
  lemma PickPrefersAssigned(s: Store, parent: Option<MessageId>, ancestor: Option<MessageId>, waiting: seq<MessageId>)
    requires Linked(s) && AllStored(s, waiting)
    requires (parent.Some? ==> parent.value in s.messages) && (ancestor.Some? ==> ancestor.value in s.messages)
    ensures var row := PickRow(s, parent, ancestor, waiting);
            var candidates := set m | (parent == Some(m) || ancestor == Some(m) || m in waiting) && m in s.messages;
            && (row.Some? <==> candidates != {})
            && (row.Some? ==> row.value in candidates)
            && (row.Some? && Home(s, row.value).topic.None? ==>
                  && (forall m | m in candidates :: Home(s, m).topic.None?)
                  && (parent.Some? ==> row == parent) && (parent.None? && ancestor.Some? ==> row == ancestor))
  {
    FindAssignedFinds(s, waiting);
    var candidates := set m | (parent == Some(m) || ancestor == Some(m) || m in waiting) && m in s.messages;
    assert parent.Some? ==> parent.value in candidates;
    assert ancestor.Some? ==> ancestor.value in candidates;
    assert waiting != [] ==> waiting[0] in candidates;
  }

  lemma {:induction false} FindAssignedIsFirst(s: Store, rows: seq<MessageId>) returns (k: nat)
    requires Linked(s) && AllStored(s, rows) && FindAssigned(s, rows).Some?
    ensures k < |rows| && FindAssigned(s, rows) == Some(rows[k]) && Home(s, rows[k]).topic.Some?
    ensures forall j | 0 <= j < k :: Home(s, rows[j]).topic.None?
  {
    if Home(s, rows[0]).topic.Some? {
      k := 0;
    } else {
      var rest := FindAssignedIsFirst(s, rows[1..]);
      k := rest + 1;
      forall j | 0 <= j < k ensures Home(s, rows[j]).topic.None? {
        assert j > 0 ==> rows[j] == rows[1..][j - 1];
      }
    }
  }

  function AsList(m: Option<MessageId>): seq<MessageId> {
    if m.Some? then [m.value] else []
  }

  /** In the order parent, nearest ancestor, waiting replies: the first in an assigned conversation, or else the first. */
  lemma PickIsFirstAssigned(s: Store, parent: Option<MessageId>, ancestor: Option<MessageId>, waiting: seq<MessageId>)
    requires Linked(s) && AllStored(s, waiting)
    requires (parent.Some? ==> parent.value in s.messages) && (ancestor.Some? ==> ancestor.value in s.messages)
    ensures var all, row := AsList(parent) + AsList(ancestor) + waiting, PickRow(s, parent, ancestor, waiting);
            && AllStored(s, all) && (row.None? <==> all == [])
            && (row.Some? ==>
                  exists k: nat | k < |all| ::
                    && row == Some(all[k])
                    && (forall j | 0 <= j < k :: Home(s, all[j]).topic.None?)
                    && (Home(s, all[k]).topic.Some? || (k == 0 && forall j | 0 <= j < |all| :: Home(s, all[j]).topic.None?)))
  {
    var all, row := AsList(parent) + AsList(ancestor) + waiting, PickRow(s, parent, ancestor, waiting);
    var n := |AsList(parent) + AsList(ancestor)|;
    FindAssignedFinds(s, waiting);
    if parent.Some? && Home(s, parent.value).topic.Some? {
      assert row == Some(all[0]);
    } else if ancestor.Some? && Home(s, ancestor.value).topic.Some? {
      assert row == Some(all[n - 1]);
    } else if FindAssigned(s, waiting).Some? {
      var k := FindAssignedIsFirst(s, waiting);
      assert row == Some(all[n + k]);
    } else if all != [] {
      assert row == Some(all[0]);
      forall j | 0 <= j < |all| ensures Home(s, all[j]).topic.None? {
        assert j >= n ==> all[j] == waiting[j - n];
      }
    }
  }

  /** The conversation may take mail of this sender to one of these addresses. */
  ghost predicate MayTake(s: Store, e: Email, defaultBase: string, c: ConversationId) {
    && c in s.conversations && Lower(s.conversations[c].participant) == Lower(e.from)
    && exists k | k in Candidates(e.recipients) ::
         || (k in s.aliases && s.aliases[k] == c)
         || (k.routingToken == s.conversations[c].routingToken
             && match s.conversations[c].base
                case Some(base) => k.baseAddress == base
                case None => k.baseAddress == Normalize(defaultBase))
  }

  /** Mail is routed by its addresses exactly when one conversation alone may take it. */
  lemma RoutedIffUnique(s: Store, e: Email, defaultBase: string, c: ConversationId)
    ensures Routed(s, e, defaultBase) == Some(c) <==> forall x :: MayTake(s, e, defaultBase, x) <==> x == c
  {
    var eligible := RoutedConversations(s, e, defaultBase);
    forall x ensures x in eligible <==> MayTake(s, e, defaultBase, x) {
    }
    hide RoutedConversations, MayTake;
    if |eligible| == 1 {
      var d :| d in eligible;
      assert |eligible - {d}| == 0;
      assert eligible == {d};
    } else {
      assert eligible != {c};
    }
  }

  /** Related mail comes before addresses: mail with a stored ancestor of its sender or with waiting replies goes to
      the conversation of one of these, any other mail where its addresses point. */
  lemma RelatedBeatRouting(s: Store, e: Email, d: Draw, defaultBase: string)
    requires Linked(s) && Answers(s, e, d)
    ensures var chosen := ChosenConversation(s, e, d, defaultBase);
            if Eligible(s, e) + Waiting(s, e.internetId, Lower(e.from)) == {}
            then chosen == if Candidates(e.recipients) == [] then None else Routed(s, e, defaultBase)
            else exists m | m in Eligible(s, e) + Waiting(s, e.internetId, Lower(e.from)) :: chosen == Some(s.messages[m].conversation)
  {
    hide Routed, Candidates, Lower, EffectiveParent, References, NearestAncestor, FindById;
    AnswersAreStored(s, e, d);
    FoundIsStored(s, d.related, References(e), EffectiveParent(e).GetOr([]));
    FindAssignedFinds(s, d.waiting);
    assert forall m :: m in d.related <==> m in Eligible(s, e);
    assert forall m :: m in d.waiting <==> m in Waiting(s, e.internetId, Lower(e.from));
    var row := PickRow(s, ParentOf(s, e, d), NearestAncestor(s, d.related, References(e)), d.waiting);
    if d.related != [] {
      assert d.related[0] in d.related;
    }
    if row.Some? {
      assert row.value in Eligible(s, e) + Waiting(s, e.internetId, Lower(e.from));
    } else {
      assert d.related == [] && d.waiting == [];
      forall m ensures m !in Eligible(s, e) + Waiting(s, e.internetId, Lower(e.from)) {
      }
      assert Eligible(s, e) + Waiting(s, e.internetId, Lower(e.from)) == {};
    }
  }

  function NewConversation(e: Email, token: string): Conversation {
    Conversation(token, None, None, e.from, None, false, Clock(AwaitingUs, e.createdAt), e.createdAt)
  }

  function NewMessage(e: Email, c: ConversationId, parent: Option<MessageId>): Message {
    Message(c, parent, Inbound, Some(e.resendEmailId), Some(e.internetId), EffectiveParent(e), References(e), e.from, None, e.createdAt)
  }

  /** The messages of `c` that answer `id` and have no parent. */
  function Orphans(s: Store, id: InternetId, c: ConversationId): set<MessageId> {
    set m | m in s.messages && s.messages[m].parent.None? && s.messages[m].inReplyTo == Some(id) && s.messages[m].conversation == c
  }

  /** Merge, then store the message, then link the replies that were waiting for it. */
  ghost function Attach(s: Store, c: ConversationId, sources: seq<ConversationId>, m: MessageId, row: Message,
        id: InternetId): (r: Store)
    requires Linked(s) && c in s.conversations && AllLive(s, sources) && c !in sources && row.conversation == c
    ensures Linked(r) && c in r.conversations
  {
    var merged := if sources == [] then s else MergeInto(s, c, sources);
    var stored := WithMessage(merged, m, row);
    RefreshLast(SetParents(stored, Orphans(stored, id, c), m), c)
  }

  function MarkAutomatic(s: Store, c: ConversationId, state: State, at: int): (r: Store)
    requires Linked(s) && c in s.conversations
    ensures Linked(r)
  {
    WithConversation(s, c, s.conversations[c].(clock := ApplyAutomaticState(s.conversations[c].clock, state, at)))
  }

  ghost function ProjectInbound(s: Store, e: Email, d: Draw, defaultBase: string): (r: Store)
    requires Linked(s) && Answers(s, e, d) && d.conversation !in s.conversations
    ensures Linked(r)
  {
    if AlreadyProjected(s, e) then s
    else
      AnswersAreStored(s, e, d);
      var chosen := ChosenConversation(s, e, d, defaultBase);
      ChosenIsLive(s, e, d, defaultBase);
      var c := chosen.GetOr(d.conversation);
      var ready := if chosen.Some? then s else WithConversation(s, c, NewConversation(e, d.token));
      var sources := Sources(s, d.related + d.waiting, c);
      SourcesAreOther(s, d.related + d.waiting, c);
      var attached := Attach(ready, c, sources, d.message, NewMessage(e, c, ParentOf(s, e, d)), e.internetId);
      MarkAutomatic(attached, c, AwaitingUs, e.createdAt)
  }

  lemma ChosenIsLive(s: Store, e: Email, d: Draw, defaultBase: string)
    requires Linked(s) && Answers(s, e, d)
    ensures var chosen := ChosenConversation(s, e, d, defaultBase);
            chosen.Some? ==> chosen.value in s.conversations && Lower(s.conversations[chosen.value].participant) == Lower(e.from)
  {
    AnswersAreStored(s, e, d);
    FoundIsStored(s, d.related, References(e), EffectiveParent(e).GetOr([]));
    FindAssignedFinds(s, d.waiting);
    var row := PickRow(s, ParentOf(s, e, d), NearestAncestor(s, d.related, References(e)), d.waiting);
    if row.Some? {
      assert row.value in d.related || row.value in d.waiting;
      assert Participant(s, row.value) == Lower(e.from);
    }
  }

  lemma {:induction false} FindAssignedFinds(s: Store, rows: seq<MessageId>)
    requires Linked(s) && AllStored(s, rows)
    ensures FindAssigned(s, rows).Some? ==> FindAssigned(s, rows).value in rows && Home(s, FindAssigned(s, rows).value).topic.Some?
    ensures FindAssigned(s, rows).None? ==> forall m | m in rows :: Home(s, m).topic.None?
  {
    if rows != [] {
      FindAssignedFinds(s, rows[1..]);
      assert rows == [rows[0]] + rows[1..];
    }
  }

  /** The conversation `c` of row `m` is one to merge into `target`. */
  predicate IsForeign(s: Store, m: MessageId, c: ConversationId, target: ConversationId)
    requires Linked(s) && m in s.messages
  {
    s.messages[m].conversation == c && c != target && Home(s, m).topic.None?
  }

  lemma {:induction false} SourcesAreForeign(s: Store, rows: seq<MessageId>, target: ConversationId, c: ConversationId)
    requires Linked(s) && AllStored(s, rows)
    ensures c in Sources(s, rows, target) <==> exists m | m in rows :: IsForeign(s, m, c, target)
  {
    if rows != [] {
      var before, last := rows[..|rows| - 1], rows[|rows| - 1];
      assert rows == before + [last];
      SourcesAreForeign(s, before, target, c);
      assert last in rows;
      if m :| m in before && IsForeign(s, m, c, target) {
        assert m in rows;
      } else {
        assert forall m | m in rows && m != last :: m in before;
      }
    }
  }

  lemma {:induction false} SourcesAreDistinct(s: Store, rows: seq<MessageId>, target: ConversationId)
    requires Linked(s) && AllStored(s, rows)
    ensures NoDuplicates(Sources(s, rows, target))
  {
    if rows != [] {
      SourcesAreDistinct(s, rows[..|rows| - 1], target);
    }
  }

  lemma SourcesAreOther(s: Store, rows: seq<MessageId>, target: ConversationId)
    requires Linked(s) && AllStored(s, rows)
    ensures target !in Sources(s, rows, target) && AllLive(s, Sources(s, rows, target))
    ensures NoDuplicates(Sources(s, rows, target))
    ensures forall c :: c in Sources(s, rows, target)
              <==> exists m | m in rows :: s.messages[m].conversation == c && c != target && Home(s, m).topic.None?
  {
    hide Sources;
    SourcesAreDistinct(s, rows, target);
    forall c ensures c in Sources(s, rows, target)
               <==> exists m | m in rows :: s.messages[m].conversation == c && c != target && Home(s, m).topic.None?
    {
      SourcesAreForeign(s, rows, target, c);
    }
  }

  // --- Recording the Message-ID of a sent email ------------------------------------------

  /** The provider reported `id` for the sent message `m`; `waiting` are the replies that arrived before. */
  ghost function RecordId(s: Store, m: MessageId, id: InternetId, at: Option<int>, waiting: seq<MessageId>): (r: Store)
    requires Linked(s) && m in s.messages
    requires Enumerates(waiting, Waiting(s, id, Participant(s, m)))
    ensures Linked(r)
  {
    var row := s.messages[m];
    if row.state == Inbound || (exists o | o in s.messages && o != m :: s.messages[o].internetId == Some(id)) then s
    else
      var c := row.conversation;
      SourcesAreOther(s, waiting, c);
      Attach(s, c, Sources(s, waiting, c), m, row.(internetId := Some(id), emailCreatedAt := at.GetOr(row.emailCreatedAt)), id)
  }

  // --- Outbound intent ---------------------------------------------------------------------

  function Distinct(ids: seq<InternetId>): seq<InternetId> {
    if ids == [] then [] else AddNew(Distinct(ids[..|ids| - 1]), Some(ids[|ids| - 1]))
  }

  /** `[...new Set([...references, parentInternetMessageId])]`. */
  function BuildReferences(references: seq<InternetId>, parent: Option<InternetId>): seq<InternetId> {
    Distinct(references + if parent.Some? then [parent.value] else [])
  }

  lemma {:induction false} DistinctIsSet(ids: seq<InternetId>)
    ensures NoDuplicates(Distinct(ids)) && forall x :: x in Distinct(ids) <==> x in ids
  {
    if ids != [] {
      DistinctIsSet(ids[..|ids| - 1]);
      assert ids == ids[..|ids| - 1] + [ids[|ids| - 1]];
    }
  }

  /** The references of a reply are its parent's and its parent, each once; a new parent comes last. */
  lemma ReplyReferences(references: seq<InternetId>, parent: InternetId)
    ensures var built := BuildReferences(references, Some(parent));
            && NoDuplicates(built) && (forall x :: x in built <==> x in references || x == parent)
            && (parent !in references ==> built != [] && built[|built| - 1] == parent)
  {
    var all := references + [parent];
    DistinctIsSet(all);
    DistinctIsSet(references);
    assert all[..|all| - 1] == references;
  }

  /** An outbound row as `messageCreateData` and `replyCreateData` build it; `now` is when the request was handled. */
  function OutboundRow(s: Store, c: ConversationId, parent: Option<MessageId>, base: string, from: string,
        now: int): Message
    requires c in s.conversations && (parent.Some? ==> parent.value in s.messages)
  {
    var pair := Candidate(s.conversations[c].routingToken, base);
    if parent.Some? then
      var p := s.messages[parent.value];
      Message(c, parent, Pending, None, None, p.internetId, BuildReferences(p.references, p.internetId), from, Some(pair), now)
    else
      Message(c, None, Pending, None, None, None, [], from, Some(pair), now)
  }

  function StoreOutbound(s: Store, c: ConversationId, row: Conversation, m: MessageId, parent: Option<MessageId>,
        from: string, now: int): (r: Store)
    requires Linked(s) && (parent.Some? ==> parent.value in s.messages)
    ensures Linked(r)
  {
    var t := WithConversation(s, c, row);
    WithMessage(t, m, OutboundRow(t, c, parent, row.base.GetOr([]), from, now))
  }

  predicate TopicTaken(s: Store, topic: Topic) {
    exists c | c in s.conversations :: s.conversations[c].topic == Some(topic)
  }

  function OpenedRow(token: string, topic: Topic, participant: string, base: string, since: int, now: int): Conversation {
    Conversation(token, Some(V2), Some(topic), participant, Some(base), true, Clock(AwaitingParticipant, since), now)
  }

  function Max(a: int, b: int): int {
    if a < b then b else a
  }

  /** The row of a conversation that is replied to; the last-message time only moves forward. */
  function RepliedRow(row: Conversation, base: string, now: int): Conversation {
    row.(apiVersion := Some(V2), base := Some(base), requiresAllowlist := true,
         lastMessageAt := Max(row.lastMessageAt, now), clock := ApplyAutomaticState(row.clock, AwaitingParticipant, now))
  }

  /** A failed conversation is reopened when the base fits and all its messages are FAILED. */
  predicate CanReopen(s: Store, c: ConversationId, topic: Topic, base: string) {
    && c in s.conversations && s.conversations[c].topic == Some(topic)
    && (s.conversations[c].base.Some? ==> s.conversations[c].base == Some(base))
    && forall o | o in s.messages && s.messages[o].conversation == c :: s.messages[o].state == Failed
  }

  /** The service reads the clock when it handles a request, before the transaction: `requested` is no later than
      the time at which the step commits. `stamped` is the database's default, the start of the transaction. */
  datatype Step =
    | OpenTopic(conversation: ConversationId, message: MessageId, token: string, topic: Topic, participant: string,
        base: string, from: string, requested: int, stamped: int)
    | ReopenFailed(conversation: ConversationId, message: MessageId, topic: Topic, participant: string,
        base: string, from: string, requested: int)
    | Reply(conversation: ConversationId, parent: MessageId, message: MessageId, base: string, from: string, requested: int)
    | Receive(email: Email, draw: Draw, defaultBase: string)
    | Record(message: MessageId, id: InternetId, at: Option<int>, waiting: seq<MessageId>)
    | Settle(message: MessageId, outcome: MessageState, resendEmailId: Option<string>)
    | Assign(conversation: ConversationId, topic: Topic)
    | Unreachable(conversation: ConversationId, bouncedAt: int)
    | Override(conversation: ConversationId, state: State, requested: int)
    | Tick(to: int)

  predicate FreshToken(s: Store, token: string) {
    && (forall c | c in s.conversations :: s.conversations[c].routingToken != token)
    && (forall k | k in s.aliases :: k.routingToken != token)
  }

  /** What the environment provides: a clock that does not run back, fresh ids and tokens, query results
      that are the queried rows, one Message-ID per sent email and one provider id per accepted email. */
  ghost predicate Enabled(s: Store, step: Step)
    requires Linked(s)
  {
    match step
       case Tick(to) => s.now <= to
       case OpenTopic(c, m, token, _, _, _, _, requested, stamped) =>
         && c !in s.conversations && s.nextConversation <= c && m !in s.messages && FreshToken(s, token)
         && requested <= stamped <= s.now
       case ReopenFailed(_, m, _, _, _, _, requested) => m !in s.messages && requested <= s.now
       case Reply(_, _, m, _, _, requested) => m !in s.messages && requested <= s.now
       case Receive(e, d, _) =>
         && Answers(s, e, d)
         && d.conversation !in s.conversations && s.nextConversation <= d.conversation
         && d.message !in s.messages && FreshToken(s, d.token)
       case Record(m, id, _, waiting) =>
         && m in s.messages && Enumerates(waiting, Waiting(s, id, Participant(s, m)))
         && (s.messages[m].state != Inbound ==>
               s.messages[m].state == Accepted && (s.messages[m].internetId.Some? ==> s.messages[m].internetId.value == id))
       case Settle(m, state, r) =>
         && m in s.messages
         && s.messages[m].state in {Pending, Indeterminate}
         && state in {Accepted, Failed, Indeterminate} && (state == Accepted <==> r.Some?)
         && (r.Some? ==> forall o | o in s.messages :: s.messages[o].resendEmailId != r)
       case _ => true
  }

  /** One committed transaction at the time `s.now`; where the source rejects the request or the database aborts, nothing changes. */
  ghost function Apply(s: Store, step: Step): (r: Store)
    requires Linked(s) && Enabled(s, step)
    ensures Linked(r)
  {
    match step
      case Tick(to) => s.(now := to)
      case OpenTopic(c, m, token, topic, participant, base, from, requested, stamped) =>
        if TopicTaken(s, topic) then s
        else StoreOutbound(s, c, OpenedRow(token, topic, participant, base, stamped, requested), m, None, from, requested)
      case ReopenFailed(c, m, topic, participant, base, from, requested) =>
        if !CanReopen(s, c, topic, base) then s
        else StoreOutbound(s, c, OpenedRow(s.conversations[c].routingToken, topic, participant, base, requested, requested), m, None, from, requested)
      case Reply(c, p, m, base, from, requested) =>
        if c !in s.conversations || (s.conversations[c].base.Some? && s.conversations[c].base != Some(base))
           || p !in s.messages || s.messages[p].conversation != c || s.messages[p].internetId.None?
        then s
        else StoreOutbound(s, c, RepliedRow(s.conversations[c], base, requested), m, Some(p), from, requested)
      case Receive(e, d, defaultBase) => ProjectInbound(s, e, d, defaultBase)
      case Record(m, id, at, waiting) => RecordId(s, m, id, at, waiting)
      case Settle(m, state, r) =>
        WithMessage(s, m, s.messages[m].(state := state, resendEmailId := r))
      case Assign(c, topic) =>
        if c !in s.conversations || s.conversations[c].topic.Some? || s.conversations[c].apiVersion == Some(V1) || TopicTaken(s, topic)
        then s
        else WithConversation(s, c, s.conversations[c].(apiVersion := Some(V2), topic := Some(topic)))
      case Unreachable(c, at) =>
        if c !in s.conversations then s
        else WithConversation(s, c, s.conversations[c].(clock := MarkTerminated(s.conversations[c].clock, at)))
      case Override(c, state, requested) =>
        if c !in s.conversations then s
        else WithConversation(s, c, s.conversations[c].(clock := Clock(state, requested)))
  }

  /** The step is enabled in `s` and leads to `r`. */
  ghost predicate Does(s: Store, step: Step, r: Store) {
    Linked(s) && Enabled(s, step) && r == Apply(s, step)
  }

  /** `states` is a run of the service: each state follows from the one before by an enabled step. */
  ghost predicate IsRun(states: seq<Store>, steps: seq<Step>) {
    && |states| == |steps| + 1
    && (forall i | 0 <= i < |states| :: Linked(states[i]))
    && (forall i | 0 <= i < |steps| :: Enabled(states[i], steps[i]) && states[i + 1] == Apply(states[i], steps[i]))
  }
}
