/** The conversation event feed: sequences allocated per conversation
    (src/lib/conversation-events.ts), and any number of runtimes that claim, publish and
    acknowledge deliveries of one sink (src/lib/conversation-event-runtime.ts). */
module EventFeed {
  import opened Text

  type EventId = nat
  type ConversationId = nat
  type Token = nat

  const LEASE := 30_000
  const BATCH_SIZE := 50
  const RETRY_DELAYS: seq<int> := [1_000, 5_000, 30_000, 120_000, 300_000]

  datatype Event = Event(conversation: ConversationId, sequence: nat)

  datatype Delivery = Delivery(
    nextAttemptAt: int,
    attemptCount: nat,
    leaseToken: Option<Token>,
    leaseUntil: Option<int>,
    publishedAt: Option<int>)

  datatype Batch = Batch(rows: seq<EventId>, at: int)

  /** `log` is what reached the stream; `claims` and `published` record what the runtimes did. */
  datatype Feed = Feed(
    now: int,
    sequences: map<ConversationId, nat>,
    events: map<EventId, Event>,
    deliveries: map<EventId, Delivery>,
    log: seq<EventId>,
    claims: map<Token, Batch>,
    published: set<(Token, EventId)>)

  predicate Older(f: Feed, a: EventId, b: EventId) {
    && a in f.events && b in f.events
    && f.events[a].conversation == f.events[b].conversation && f.events[a].sequence < f.events[b].sequence
  }

  /** The condition of the claiming query at the time `at`: due, not leased, and no older event of the conversation is unpublished. */
  ghost predicate Claimable(f: Feed, e: EventId, at: int) {
    && e in f.events && e in f.deliveries
    && f.deliveries[e].publishedAt.None? && f.deliveries[e].nextAttemptAt <= at
    && (f.deliveries[e].leaseUntil.None? || f.deliveries[e].leaseUntil.value <= at)
    && (forall o | o in f.deliveries && Older(f, o, e) :: f.deliveries[o].publishedAt.Some?)
  }

  function LeasedDelivery(d: Delivery, token: Token, now: int): Delivery {
    d.(leaseToken := Some(token), leaseUntil := Some(now + LEASE), attemptCount := d.attemptCount + 1)
  }

  function RetryDelay(attemptCount: nat): int {
    RETRY_DELAYS[if attemptCount <= 1 then 0 else if attemptCount <= 5 then attemptCount - 1 else 4]
  }

  predicate Owns(f: Feed, token: Token, e: EventId) {
    e in f.deliveries && f.deliveries[e].leaseToken == Some(token)
  }

  /** The worker with this token claimed the event. */
  predicate Holds(f: Feed, token: Token, e: EventId) {
    token in f.claims && e in f.claims[token].rows
  }

  /** A step commits at `now`; `at` is the time that it wrote, read before. */
  datatype Step =
    | Tick(to: int)
    | Append(conversation: ConversationId, event: EventId, at: int)
    | Claim(token: Token, rows: seq<EventId>, at: int)
    | Publish(token: Token, event: EventId)
    | Acknowledge(token: Token, event: EventId, at: int)
    | Retry(token: Token, event: EventId, attemptCount: nat, at: int)

  /** A claim takes some claimable rows, at most 50: rows locked by another claim are skipped. A worker
      publishes only what it claimed and acknowledges only what it published; it may
      stop anywhere, publish again, or go on after its lease ran out. */
  ghost predicate Enabled(f: Feed, step: Step) {
    match step
    case Tick(to) => f.now <= to
    case Append(_, e, at) => e !in f.events && e !in f.deliveries && at <= f.now
    case Claim(token, rows, at) =>
      && token !in f.claims && NoDuplicates(rows) && |rows| <= BATCH_SIZE && at <= f.now
      && forall e | e in rows :: Claimable(f, e, at)
    case Publish(token, e) => Holds(f, token, e)
    case Acknowledge(token, e, at) => (token, e) in f.published && token in f.claims && f.claims[token].at <= at <= f.now
    case Retry(token, e, _, at) => Holds(f, token, e) && f.claims[token].at <= at <= f.now
  }

  function NextSequence(f: Feed, c: ConversationId): nat {
    1 + if c in f.sequences then f.sequences[c] else 0
  }

  function Apply(f: Feed, step: Step): Feed {
    match step
    case Tick(to) => f.(now := to)
    case Append(c, e, at) =>
      var sequence := NextSequence(f, c);
      f.(sequences := f.sequences[c := sequence],
         events := f.events[e := Event(c, sequence)],
         deliveries := f.deliveries[e := Delivery(at, 0, None, None, None)])
    case Claim(token, rows, at) =>
      f.(deliveries := map e | e in f.deliveries :: if e in rows then LeasedDelivery(f.deliveries[e], token, at) else f.deliveries[e],
         claims := f.claims[token := Batch(rows, at)])
    case Publish(token, e) => f.(log := f.log + [e], published := f.published + {(token, e)})
    case Acknowledge(token, e, at) =>
      if Owns(f, token, e) then
        f.(deliveries := f.deliveries[e := f.deliveries[e].(publishedAt := Some(at), leaseToken := None, leaseUntil := None)])
      else f
    case Retry(token, e, attemptCount, at) =>
      if Owns(f, token, e) then
        f.(deliveries := f.deliveries[e := f.deliveries[e].(nextAttemptAt := at + RetryDelay(attemptCount), leaseToken := None, leaseUntil := None)])
      else f
  }

  // --- The invariant ------------------------------------------------------------------------------------------

  /** The events of a conversation are numbered 1, 2, ... without gaps or repetitions. */
  ghost predicate NumbersOk(f: Feed) {
    && f.deliveries.Keys == f.events.Keys
    && (forall a, b | a in f.events && b in f.events && f.events[a] == f.events[b] :: a == b)
    && (forall e | e in f.events :: f.events[e].conversation in f.sequences && 1 <= f.events[e].sequence <= f.sequences[f.events[e].conversation])
    && (forall c, n | c in f.sequences && 1 <= n <= f.sequences[c] :: HasEvent(f, c, n))
  }

  ghost predicate HasEvent(f: Feed, c: ConversationId, n: nat) {
    exists e | e in f.events :: f.events[e] == Event(c, n)
  }

  /** What any worker ever claimed has only published events before it. */
  ghost predicate ClaimsOk(f: Feed) {
    forall token, e, o | Holds(f, token, e) && Older(f, o, e) :: o in f.deliveries && f.deliveries[o].publishedAt.Some?
  }

  ghost predicate WorkersOk(f: Feed) {
    && (forall token, e | Holds(f, token, e) :: e in f.events)
    && (forall p | p in f.published :: p.1 in f.log)
    && (forall e | e in f.log :: e in f.events)
    && (forall e | e in f.deliveries && f.deliveries[e].publishedAt.Some? :: e in f.log)
  }

  /** Before every occurrence of an event in the stream there is one of each older event of its conversation. */
  ghost predicate LogOk(f: Feed) {
    forall i, o | 0 <= i < |f.log| && Older(f, o, f.log[i]) :: o in f.log[..i]
  }

  ghost predicate Valid(f: Feed) {
    NumbersOk(f) && ClaimsOk(f) && WorkersOk(f) && LogOk(f)
  }

  function Start(now: int): Feed {
    Feed(now, map[], map[], map[], [], map[], {})
  }

  lemma StartIsValid(now: int)
    ensures Valid(Start(now))
  {
  }

  lemma AppendFillsTheGap(f: Feed, c: ConversationId, e: EventId, at: int, d: ConversationId, n: nat)
    requires NumbersOk(f) && Enabled(f, Append(c, e, at))
    requires var r := Apply(f, Append(c, e, at)); d in r.sequences && 1 <= n <= r.sequences[d]
    ensures HasEvent(Apply(f, Append(c, e, at)), d, n)
  {
    var r := Apply(f, Append(c, e, at));
    if d == c && n == NextSequence(f, c) {
      assert r.events[e] == Event(c, n);
    } else {
      assert HasEvent(f, d, n);
      var o :| o in f.events && f.events[o] == Event(d, n);
      assert r.events[o] == Event(d, n);
    }
  }

  lemma AppendKeepsNumbers(f: Feed, c: ConversationId, e: EventId, at: int)
    requires NumbersOk(f) && Enabled(f, Append(c, e, at))
    ensures NumbersOk(Apply(f, Append(c, e, at)))
  {
    hide HasEvent;
    var r := Apply(f, Append(c, e, at));
    forall d, n | d in r.sequences && 1 <= n <= r.sequences[d] ensures HasEvent(r, d, n) {
      AppendFillsTheGap(f, c, e, at, d, n);
    }
  }

  /** A new event is the youngest of its conversation. */
  lemma NewestIsNotOlder(f: Feed, c: ConversationId, e: EventId, at: int, o: EventId, y: EventId)
    requires NumbersOk(f) && Enabled(f, Append(c, e, at)) && y in f.events && Older(Apply(f, Append(c, e, at)), o, y)
    ensures Older(f, o, y)
  {
  }

  lemma AppendKeepsOrder(f: Feed, c: ConversationId, e: EventId, at: int)
    requires Valid(f) && Enabled(f, Append(c, e, at))
    ensures var r := Apply(f, Append(c, e, at)); ClaimsOk(r) && LogOk(r) && WorkersOk(r)
  {
    var r := Apply(f, Append(c, e, at));
    hide NumbersOk, Older;
    forall token, y, o | Holds(r, token, y) && Older(r, o, y) ensures o in r.deliveries && r.deliveries[o].publishedAt.Some? {
      assert Holds(f, token, y);
      NewestIsNotOlder(f, c, e, at, o, y);
    }
    forall token, y | Holds(r, token, y) ensures y in r.events {
      assert Holds(f, token, y);
    }
    forall i, o | 0 <= i < |r.log| && Older(r, o, r.log[i]) ensures o in r.log[..i] {
      assert f.log[i] in f.log;
      NewestIsNotOlder(f, c, e, at, o, f.log[i]);
    }
  }

  lemma SameEvents(f: Feed, r: Feed)
    requires NumbersOk(f) && r.events == f.events && r.sequences == f.sequences && r.deliveries.Keys == f.deliveries.Keys
    ensures NumbersOk(r)
  {
    assert forall c, n | HasEvent(f, c, n) :: HasEvent(r, c, n);
    hide HasEvent;
  }

  /** Events do not change, and deliveries only in the lease columns and in newly set `publishedAt`. */
  lemma LeasesKeepValid(f: Feed, r: Feed, at: int)
    requires Valid(f) && r == f.(now := r.now, deliveries := r.deliveries, claims := r.claims)
    requires r.deliveries.Keys == f.deliveries.Keys
    requires forall e | e in f.deliveries && f.deliveries[e].publishedAt.Some? :: r.deliveries[e].publishedAt.Some?
    requires forall e | e in f.deliveries && r.deliveries[e].publishedAt.Some? && f.deliveries[e].publishedAt.None? :: e in f.log
    requires forall token, e | Holds(r, token, e) && !Holds(f, token, e) :: Claimable(f, e, at)
    ensures Valid(r)
  {
    SameEvents(f, r);
    hide NumbersOk, ClaimsOk, LogOk, WorkersOk, Claimable;
    LeasesKeepClaims(f, r, at);
    LeasesKeepLog(f, r);
    LeasesKeepWorkers(f, r, at);
    hide Holds;
  }

  lemma LeasesKeepClaims(f: Feed, r: Feed, at: int)
    requires NumbersOk(f) && ClaimsOk(f) && r.events == f.events && r.deliveries.Keys == f.deliveries.Keys
    requires forall e | e in f.deliveries && f.deliveries[e].publishedAt.Some? :: r.deliveries[e].publishedAt.Some?
    requires forall token, e | Holds(r, token, e) && !Holds(f, token, e) :: Claimable(f, e, at)
    ensures ClaimsOk(r)
  {
    hide Holds;
    forall token, e, o | Holds(r, token, e) && Older(r, o, e) ensures o in r.deliveries && r.deliveries[o].publishedAt.Some? {
      assert Older(f, o, e);
      OlderIsStored(f, o, e);
      if !Holds(f, token, e) {
        assert Claimable(f, e, at);
      }
    }
  }

  lemma LeasesKeepWorkers(f: Feed, r: Feed, at: int)
    requires WorkersOk(f) && r == f.(now := r.now, deliveries := r.deliveries, claims := r.claims)
    requires r.deliveries.Keys == f.deliveries.Keys
    requires forall e | e in f.deliveries && r.deliveries[e].publishedAt.Some? && f.deliveries[e].publishedAt.None? :: e in f.log
    requires forall token, e | Holds(r, token, e) && !Holds(f, token, e) :: Claimable(f, e, at)
    ensures WorkersOk(r)
  {
    hide Older;
  }

  lemma LeasesKeepLog(f: Feed, r: Feed)
    requires LogOk(f) && r.events == f.events && r.log == f.log
    ensures LogOk(r)
  {
    forall i, o | 0 <= i < |r.log| && Older(r, o, r.log[i]) ensures o in r.log[..i] {
      assert Older(f, o, f.log[i]);
    }
  }

  lemma OlderIsStored(f: Feed, o: EventId, e: EventId)
    requires NumbersOk(f) && Older(f, o, e)
    ensures o in f.deliveries
  {
  }

  lemma PublishKeepsLog(f: Feed, token: Token, e: EventId)
    requires Valid(f) && Enabled(f, Publish(token, e))
    ensures LogOk(Apply(f, Publish(token, e)))
  {
    var r := Apply(f, Publish(token, e));
    assert forall a, b :: Older(r, a, b) <==> Older(f, a, b);
    hide NumbersOk, Older;
    forall i, o | 0 <= i < |r.log| && Older(r, o, r.log[i]) ensures o in r.log[..i] {
      if i < |f.log| {
        assert r.log[i] == f.log[i] && r.log[..i] == f.log[..i];
      } else {
        assert r.log[..i] == f.log;
        assert Older(f, o, e);
      }
    }
  }

  /** Publishing adds to the stream only what is stored. */
  lemma PublishKeepsWorkers(f: Feed, token: Token, e: EventId)
    requires WorkersOk(f) && ClaimsOk(f) && Enabled(f, Publish(token, e))
    ensures var r := Apply(f, Publish(token, e)); WorkersOk(r) && ClaimsOk(r)
  {
    var r := Apply(f, Publish(token, e));
    assert forall t, x :: Holds(r, t, x) <==> Holds(f, t, x);
    assert forall a, b :: Older(r, a, b) <==> Older(f, a, b);
    hide Older, Holds;
  }

  lemma PublishKeepsValid(f: Feed, token: Token, e: EventId)
    requires Valid(f) && Enabled(f, Publish(token, e))
    ensures Valid(Apply(f, Publish(token, e)))
  {
    hide NumbersOk, LogOk, ClaimsOk, WorkersOk, Holds;
    PublishKeepsLog(f, token, e);
    PublishKeepsWorkers(f, token, e);
    SameEvents(f, Apply(f, Publish(token, e)));
  }

  lemma StepKeepsValid(f: Feed, step: Step)
    requires Valid(f) && Enabled(f, step)
    ensures Valid(Apply(f, step))
  {
    match step
    case Append(c, e, at) =>
      AppendKeepsNumbers(f, c, e, at);
      AppendKeepsOrder(f, c, e, at);
    case Publish(token, e) => PublishKeepsValid(f, token, e);
    case Claim(_, _, at) =>
      hide LogOk, ClaimsOk, NumbersOk, HasEvent;
      LeasesKeepValid(f, Apply(f, step), at);
    case _ =>
      hide LogOk, ClaimsOk, NumbersOk, HasEvent;
      LeasesKeepValid(f, Apply(f, step), f.now);
  }

  ghost predicate IsRun(feeds: seq<Feed>, steps: seq<Step>) {
    && |feeds| == |steps| + 1
    && forall i | 0 <= i < |steps| :: Enabled(feeds[i], steps[i]) && feeds[i + 1] == Apply(feeds[i], steps[i])
  }

  lemma {:induction false} RunKeepsValid(feeds: seq<Feed>, steps: seq<Step>, i: nat)
    requires IsRun(feeds, steps) && Valid(feeds[0]) && i < |feeds|
    ensures Valid(feeds[i])
  {
    hide Valid, Enabled, Apply;
    if i > 0 {
      RunKeepsValid(feeds, steps, i - 1);
      StepKeepsValid(feeds[i - 1], steps[i - 1]);
    }
  }

  // --- What a consumer sees -----------------------------------------------------------------------------------

  /** A consumer of one conversation that drops every event id it has seen before. */
  function Deduplicated(events: map<EventId, Event>, log: seq<EventId>, c: ConversationId): seq<nat> {
    if log == [] then []
    else
      var before, e := log[..|log| - 1], log[|log| - 1];
      if e in events && events[e].conversation == c && e !in before then Deduplicated(events, before, c) + [events[e].sequence]
      else Deduplicated(events, before, c)
  }

  /** The sequences 1, 2, ..., k. */
  predicate CountsUp(numbers: seq<nat>) {
    forall i | 0 <= i < |numbers| :: numbers[i] == i + 1
  }

  lemma {:induction false} DeduplicatedHas(f: Feed, n: nat, c: ConversationId, e: EventId)
    requires n <= |f.log| && e in f.log[..n] && e in f.events && f.events[e].conversation == c
    ensures f.events[e].sequence in Deduplicated(f.events, f.log[..n], c)
  {
    var log := f.log[..n];
    var before := log[..n - 1];
    assert before == f.log[..n - 1];
    assert log == before + [log[n - 1]];
    if e in before {
      DeduplicatedHas(f, n - 1, c, e);
    }
  }

  lemma {:induction false} DeduplicatedOf(f: Feed, n: nat, c: ConversationId, k: nat)
    requires n <= |f.log| && k in Deduplicated(f.events, f.log[..n], c)
    ensures exists e | e in f.log[..n] :: e in f.events && f.events[e] == Event(c, k)
  {
    var log := f.log[..n];
    var before := log[..n - 1];
    assert before == f.log[..n - 1];
    assert log == before + [log[n - 1]];
    if k in Deduplicated(f.events, before, c) {
      DeduplicatedOf(f, n - 1, c, k);
      var e :| e in before && e in f.events && f.events[e] == Event(c, k);
      assert e in log;
    } else {
      assert log[n - 1] in log;
    }
  }

  /** The next new event continues the count. */
  lemma NextIsNext(f: Feed, n: nat, c: ConversationId)
    requires Valid(f) && n < |f.log| && f.log[n] in f.events && f.events[f.log[n]].conversation == c && f.log[n] !in f.log[..n]
    requires CountsUp(Deduplicated(f.events, f.log[..n], c))
    ensures f.events[f.log[n]].sequence == |Deduplicated(f.events, f.log[..n], c)| + 1
  {
    var seen := Deduplicated(f.events, f.log[..n], c);
    var k := f.events[f.log[n]].sequence;
    if k > |seen| + 1 {
      assert HasEvent(f, c, k - 1);
      var o :| o in f.events && f.events[o] == Event(c, k - 1);
      assert Older(f, o, f.log[n]);
      DeduplicatedHas(f, n, c, o);
      assert false;
    } else if k <= |seen| {
      assert seen[k - 1] == k;
      DeduplicatedOf(f, n, c, k);
      assert false;
    }
  }

  lemma {:induction false} PrefixCountsUp(f: Feed, n: nat, c: ConversationId)
    requires Valid(f) && n <= |f.log|
    ensures CountsUp(Deduplicated(f.events, f.log[..n], c))
  {
    if n > 0 {
      var log := f.log[..n];
      assert log[..n - 1] == f.log[..n - 1];
      PrefixCountsUp(f, n - 1, c);
      if f.log[n - 1] in f.events && f.events[f.log[n - 1]].conversation == c && f.log[n - 1] !in f.log[..n - 1] {
        NextIsNext(f, n - 1, c);
      }
    }
  }

  /** Order survives duplicates: for any number of runtimes, publish failures, lost
      acknowledgements and expired leases, dropping repeated ids from the stream leaves
      exactly the sequences 1, 2, ..., k of a conversation, in order. */
  lemma OrderSurvivesDuplicates(feeds: seq<Feed>, steps: seq<Step>, i: nat, c: ConversationId)
    requires IsRun(feeds, steps) && Valid(feeds[0]) && i < |feeds|
    ensures CountsUp(Deduplicated(feeds[i].events, feeds[i].log, c))
  {
    hide Valid, IsRun, CountsUp, Deduplicated;
    RunKeepsValid(feeds, steps, i);
    var f := feeds[i];
    assert f.log[..|f.log|] == f.log;
    PrefixCountsUp(f, |f.log|, c);
  }

  /** Once every delivery of the conversation is marked published, the consumer has seen every sequence up to the last. */
  lemma PublishedMeansComplete(f: Feed, c: ConversationId)
    requires Valid(f) && c in f.sequences
    requires forall e | e in f.events && f.events[e].conversation == c :: f.deliveries[e].publishedAt.Some?
    ensures |Deduplicated(f.events, f.log, c)| == f.sequences[c]
  {
    var n, last := |f.log|, f.sequences[c];
    assert f.log[..n] == f.log;
    PrefixCountsUp(f, n, c);
    var seen := Deduplicated(f.events, f.log, c);
    if last > 0 {
      assert HasEvent(f, c, last);
      var e :| e in f.events && f.events[e] == Event(c, last);
      DeduplicatedHas(f, n, c, e);
    }
    if |seen| > last {
      assert seen[|seen| - 1] == |seen|;
      DeduplicatedOf(f, n, c, |seen|);
    }
  }

  lemma StepKeepsPublished(f: Feed, step: Step, e: EventId)
    requires Enabled(f, step) && e in f.deliveries && f.deliveries[e].publishedAt.Some?
    ensures e in Apply(f, step).deliveries && Apply(f, step).deliveries[e].publishedAt.Some?
  {
    hide Claimable;
  }

  lemma PublishedIsInLog(f: Feed, e: EventId)
    requires Valid(f) && e in f.deliveries && f.deliveries[e].publishedAt.Some?
    ensures e in f.log
  {
    hide NumbersOk, ClaimsOk, LogOk;
  }

  /** At-least-once: a delivery marked published is in the stream, and stays marked. */
  lemma {:induction false} PublishedStaysPublished(feeds: seq<Feed>, steps: seq<Step>, i: nat, j: nat, e: EventId)
    requires IsRun(feeds, steps) && Valid(feeds[0]) && i <= j < |feeds|
    requires e in feeds[i].deliveries && feeds[i].deliveries[e].publishedAt.Some?
    ensures e in feeds[j].deliveries && feeds[j].deliveries[e].publishedAt.Some? && e in feeds[j].log
    decreases j
  {
    hide Valid, Enabled, Apply;
    RunKeepsValid(feeds, steps, j);
    if i < j {
      PublishedStaysPublished(feeds, steps, i, j - 1, e);
      StepKeepsPublished(feeds[j - 1], steps[j - 1], e);
    }
    PublishedIsInLog(feeds[j], e);
  }

  // --- What each step writes --------------------------------------------------------------------------------

  /** An event gets the next number of its conversation and is due at once. */
  lemma AppendedIs(f: Feed, c: ConversationId, e: EventId, at: int)
    requires Enabled(f, Append(c, e, at))
    ensures var r, n := Apply(f, Append(c, e, at)), if c in f.sequences then f.sequences[c] + 1 else 1;
            && r.sequences == f.sequences[c := n] && r.events == f.events[e := Event(c, n)]
            && r.deliveries == f.deliveries[e := Delivery(at, 0, None, None, None)]
            && r.log == f.log && r.claims == f.claims && r.published == f.published
  {
  }

  /** A claim may take any deliveries, at most 50, that are unpublished, due and not leased and have no unpublished event
      of their conversation before them. It leases them for 30 seconds. */
  lemma ClaimedIs(f: Feed, token: Token, rows: seq<EventId>, at: int)
    ensures Enabled(f, Claim(token, rows, at))
       <==> && token !in f.claims && NoDuplicates(rows) && |rows| <= 50 && at <= f.now
            && forall e | e in rows ::
                 && e in f.events && e in f.deliveries && f.deliveries[e].publishedAt.None? && f.deliveries[e].nextAttemptAt <= at
                 && (f.deliveries[e].leaseUntil.Some? ==> f.deliveries[e].leaseUntil.value <= at)
                 && forall o | o in f.events && o in f.deliveries && f.events[o].conversation == f.events[e].conversation
                                && f.events[o].sequence < f.events[e].sequence :: f.deliveries[o].publishedAt.Some?
    ensures var r := Apply(f, Claim(token, rows, at));
            && r.deliveries.Keys == f.deliveries.Keys
            && (forall e | e in f.deliveries && e !in rows :: r.deliveries[e] == f.deliveries[e])
            && (forall e | e in f.deliveries && e in rows :: r.deliveries[e] ==
                  f.deliveries[e].(attemptCount := f.deliveries[e].attemptCount + 1, leaseToken := Some(token), leaseUntil := Some(at + 30_000)))
            && r.log == f.log && r.events == f.events && r.sequences == f.sequences
  {
    assert forall e | e in rows && Claimable(f, e, at) :: forall o | o in f.deliveries && Older(f, o, e) :: f.deliveries[o].publishedAt.Some?;
  }

  /** The owner's acknowledgement marks the delivery published. */
  lemma AcknowledgedIs(f: Feed, token: Token, e: EventId, at: int)
    requires Enabled(f, Acknowledge(token, e, at)) && Owns(f, token, e)
    ensures Apply(f, Acknowledge(token, e, at))
            == f.(deliveries := f.deliveries[e := f.deliveries[e].(publishedAt := Some(at), leaseToken := None, leaseUntil := None)])
  {
  }

  /** The owner's retry makes it due again 1 s after a first attempt, then 5 s, 30 s, 2 min, and 5 min from the fifth on. */
  lemma RetriedIs(f: Feed, token: Token, e: EventId, attemptCount: nat, at: int) returns (delay: int)
    requires Enabled(f, Retry(token, e, attemptCount, at)) && Owns(f, token, e)
    ensures attemptCount <= 1 ==> delay == 1_000
    ensures attemptCount == 2 ==> delay == 5_000
    ensures attemptCount == 3 ==> delay == 30_000
    ensures attemptCount == 4 ==> delay == 120_000
    ensures attemptCount >= 5 ==> delay == 300_000
    ensures Apply(f, Retry(token, e, attemptCount, at))
            == f.(deliveries := f.deliveries[e := f.deliveries[e].(nextAttemptAt := at + delay, leaseToken := None, leaseUntil := None)])
  {
    delay := RetryDelay(attemptCount);
  }

  // --- A lease excludes other runtimes ------------------------------------------------------------------------

  /** The delivery is published, or leased by `token` until 30 s after `at`, or was freed only after that. */
  ghost predicate Excludes(f: Feed, token: Token, e: EventId, at: int) {
    && e in f.deliveries && e in f.events && token in f.claims
    && var d := f.deliveries[e];
       || d.publishedAt.Some?
       || (d.leaseToken == Some(token) && d.leaseUntil == Some(at + 30_000))
       || (d.leaseToken.Some? && d.leaseToken.value in f.claims && f.claims[d.leaseToken.value].at >= at + 30_000
           && d.leaseUntil.Some? && d.leaseUntil.value >= at + 30_000)
       || (d.leaseToken.None? && d.nextAttemptAt >= at + 30_000)
  }

  lemma StepKeepsExcludes(f: Feed, step: Step, token: Token, e: EventId, at: int)
    requires Enabled(f, step) && Excludes(f, token, e, at)
    requires !(step.Retry? && step.token == token && step.event == e && Owns(f, token, e))
    ensures Excludes(Apply(f, step), token, e, at)
  {
    if step.Claim? && e in step.rows {
      assert Claimable(f, e, step.at);
    }
    hide Claimable;
  }

  lemma {:induction false} LeaseHolds(feeds: seq<Feed>, steps: seq<Step>, i: nat, n: nat, e: EventId)
    requires IsRun(feeds, steps) && i < n < |feeds| && steps[i].Claim? && e in steps[i].rows
    requires forall k | i < k < n :: !(steps[k].Retry? && steps[k].token == steps[i].token && steps[k].event == e && Owns(feeds[k], steps[i].token, e))
    ensures Excludes(feeds[n], steps[i].token, e, steps[i].at)
    decreases n
  {
    hide Apply, Enabled, Excludes, Owns;
    if n == i + 1 {
      ClaimExcludes(feeds[i], steps[i], e);
    } else {
      LeaseHolds(feeds, steps, i, n - 1, e);
      StepKeepsExcludes(feeds[n - 1], steps[n - 1], steps[i].token, e, steps[i].at);
    }
  }

  lemma ClaimExcludes(f: Feed, step: Step, e: EventId)
    requires Enabled(f, step) && step.Claim? && e in step.rows
    ensures Excludes(Apply(f, step), step.token, e, step.at)
  {
    assert Claimable(f, e, step.at);
  }

  /** Of two claims with a common event the later one reads its clock at least 30 seconds after the earlier, unless the
      earlier worker rescheduled the event in between. */
  lemma ClaimsAreExclusive(feeds: seq<Feed>, steps: seq<Step>, i: nat, j: nat, e: EventId)
    requires IsRun(feeds, steps) && i < j < |steps| && steps[i].Claim? && steps[j].Claim? && e in steps[i].rows && e in steps[j].rows
    requires forall k | i < k < j :: !(steps[k].Retry? && steps[k].token == steps[i].token && steps[k].event == e && Owns(feeds[k], steps[i].token, e))
    ensures steps[j].at >= steps[i].at + 30_000
  {
    LeaseHolds(feeds, steps, i, j, e);
    assert Enabled(feeds[j], steps[j]);
    assert Claimable(feeds[j], e, steps[j].at);
  }

  /** A worker whose lease was replaced can repeat an event in the stream but changes no delivery. */
  lemma StaleWorkerChangesNothing(f: Feed, step: Step)
    requires Enabled(f, step) && (step.Acknowledge? || step.Retry?) && !Owns(f, step.token, step.event)
    ensures Apply(f, step) == f
  {
  }
}
