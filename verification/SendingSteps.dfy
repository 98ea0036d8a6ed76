/** What each step of the sending machine does to the rows, in the statuses, codes and milliseconds of
    src/lib/outbox-service.ts, src/lib/attachment-outbox-service.ts and src/lib/conversation-service.ts. */
module SendingSteps {
  import opened Text
  import opened Provider
  import opened Outbox
  import opened Sending
  import opened SendingInvariant
  import opened SendingSafety

  // --- Queueing and claiming --------------------------------------------------------------------------

  /** A message is queued as PENDING in the table of its lane, due at once. */
  lemma QueuedIs(w: World, step: Step)
    requires Enabled(w, step) && step.Queue?
    ensures var r, m := Apply(w, step), step.message;
            && r == w.(tables := r.tables)
            && r.tables.messages == w.tables.messages[m := Row(step.lane, step.stamped, Pending, None)]
            && (step.lane == BatchLane ==> r.tables.entries == w.tables.entries[m := Entry(step.stamped, None)] && r.tables.jobs == w.tables.jobs)
            && (step.lane == AttachmentLane ==>
                  && r.tables.jobs == w.tables.jobs[AttachmentKey(m) := Job(step.stamped, step.stamped, None, 0, None, None)]
                  && r.tables.entries == w.tables.entries)
  {
  }

  /** A message of the synchronous lane is stored as PENDING and its delivery begins. */
  lemma IntendedIs(w: World, step: Step)
    requires Enabled(w, step) && step.Intend?
    ensures var r, m := Apply(w, step), step.message;
            && r.tables == w.tables.(messages := w.tables.messages[m := Row(SyncLane, step.stamped, Pending, None)])
            && r.attempts == w.attempts[step.token := Attempt(SyncKey(m), [m], step.stamped, 1, step.stamped, false, None)]
            && r.locks == w.locks && r.mailer == w.mailer
  {
  }

  /** A batch may be opened exactly when no batch is due, from the waiting messages that come first in queue order: as many as
      the limit, or all there are. */
  lemma MayOpenIff(w: World, batch: nat, picked: seq<MessageId>, limit: nat, token: Token, at: int, stamped: int)
    requires Valid(w)
    ensures Enabled(w, Open(batch, picked, limit, token, at, stamped))
       <==> && token !in w.attempts && BatchKey(batch) !in w.rosters && BatchKey(batch) !in w.tables.jobs && at <= stamped <= w.now
            && (forall k | k in w.tables.jobs && k.BatchKey? :: !IsDue(w.tables.jobs[k], at))
            && picked != [] && |picked| <= limit
            && (forall i | 0 <= i < |picked| :: Waits(w, picked[i]))
            && (forall i, j | 0 <= i < j < |picked| :: Earlier(w.tables, picked[i], picked[j]))
            && (forall u | Waits(w, u) && u !in picked :: |picked| == limit && forall i | 0 <= i < |picked| :: Earlier(w.tables, picked[i], u))
  {
    hide RostersOk, JobsOk, AttemptsOk, MailerOk, ResultsOk, LocksOk, KeysOk;
    PruningRemovesNothing(w);
    forall m ensures Queued(w.tables, m) <==> Waits(w, m) {
    }
    forall m, u | Waits(w, m) && Waits(w, u) ensures Before(w.tables, m, u) <==> Earlier(w.tables, m, u) {
    }
    forall k | k in w.tables.jobs && k.BatchKey? ensures ReadyBatch(w.tables, k, at) <==> IsDue(w.tables.jobs[k], at) {
    }
  }

  /** A new batch leaves a message waiting only if it is full, and holds its lease for two minutes. */
  lemma OpenedIs(w: World, step: Step)
    requires Valid(w) && Enabled(w, step) && step.Open?
    ensures var r, key := Apply(w, step), BatchKey(step.batch);
            && r.tables.messages == w.tables.messages
            && r.tables.jobs == w.tables.jobs[key := Job(step.stamped, step.stamped, Some(step.at), 1, Some(step.token), Some(step.at + 120_000))]
            && r.attempts == w.attempts[step.token := Attempt(key, step.picked, step.at, 1, step.at, false, None)]
            && (forall i | 0 <= i < |step.picked| ::
                  step.picked[i] in r.tables.entries && r.tables.entries[step.picked[i]].slot == Some(Slot(step.batch, i)))
            && (forall u | u in w.tables.entries && u !in step.picked :: u in r.tables.entries && r.tables.entries[u] == w.tables.entries[u])
            && |step.picked| <= step.limit
            && (forall u | Waits(w, u) && u !in step.picked :: |step.picked| == step.limit)
  {
    hide RostersOk, JobsOk, AttemptsOk, MailerOk, ResultsOk, LocksOk, ReadyBatch, Before;
    PruningRemovesNothing(w);
    HeadHasNoDuplicates(w.tables, step.limit, step.picked);
    hide PruneEntries, KeysOk;
    var r := Apply(w, step);
    forall i | 0 <= i < |step.picked| ensures step.picked[i] in r.tables.entries && r.tables.entries[step.picked[i]].slot == Some(Slot(step.batch, i)) {
      assert Queued(w.tables, step.picked[i]);
      IndexOfIs(step.picked, i);
    }
    forall u | Waits(w, u) && u !in step.picked ensures |step.picked| == step.limit {
      assert Queued(w.tables, u);
    }
  }

  /** Due at `at`, and not leased then. */
  predicate IsDue(job: Job, at: int) {
    job.nextAttemptAt <= at && (job.leaseUntil.Some? ==> job.leaseUntil.value <= at)
  }

  /** Comes no later in the order of its lane: batches by the time that they are due, attachment entries by the time
      that they were queued, and by their ids at equal times. */
  predicate ComesFirst(t: Tables, key: Key, other: Key)
    requires key in t.jobs && other in t.jobs
  {
    match (key, other)
    case (BatchKey(a), BatchKey(b)) =>
      t.jobs[key].nextAttemptAt < t.jobs[other].nextAttemptAt || (t.jobs[key].nextAttemptAt == t.jobs[other].nextAttemptAt && a <= b)
    case (AttachmentKey(a), AttachmentKey(b)) =>
      t.jobs[key].queuedAt < t.jobs[other].queuedAt || (t.jobs[key].queuedAt == t.jobs[other].queuedAt && a <= b)
    case _ => true
  }

  /** A job may be claimed again exactly when it comes first of the due jobs of its lane. */
  lemma MayReclaimIff(w: World, key: Key, members: seq<MessageId>, token: Token, at: int)
    requires Valid(w)
    ensures Enabled(w, Reclaim(key, members, token, at))
       <==> && token !in w.attempts && at <= w.now && key in w.tables.jobs && IsDue(w.tables.jobs[key], at)
            && (forall k | k in w.tables.jobs && IsDue(w.tables.jobs[k], at) :: ComesFirst(w.tables, key, k))
            && IsRoster(w.tables, key, members)
  {
    hide RostersOk, JobsOk, AttemptsOk, MailerOk, ResultsOk, LocksOk, IsRoster, EntriesOk, PruneEntries, PruneAttachments;
    ValidTables(w);
    PruningRemovesNothing(w);
  }

  /** The job is leased for two minutes, as the next attempt. */
  lemma ReclaimedIs(w: World, step: Step)
    requires Valid(w) && Enabled(w, step) && step.Reclaim?
    ensures step.key in w.tables.jobs
    ensures var r, job := Apply(w, step), w.tables.jobs[step.key];
            var first := if job.firstAttemptAt.Some? then job.firstAttemptAt.value else step.at;
            && r.tables == w.tables.(jobs := w.tables.jobs[step.key :=
                 job.(firstAttemptAt := Some(first), attemptCount := job.attemptCount + 1, leaseToken := Some(step.token), leaseUntil := Some(step.at + 120_000))])
            && r.attempts == w.attempts[step.token := Attempt(step.key, step.members, first, job.attemptCount + 1, step.at, false, None)]
  {
    hide RostersOk, JobsOk, AttemptsOk, MailerOk, ResultsOk, LocksOk, IsRoster, EntriesOk, PruneEntries, PruneAttachments;
    ValidTables(w);
    PruningRemovesNothing(w);
  }

  lemma ValidTables(w: World)
    requires Valid(w)
    ensures EntriesOk(w.tables) && KeysOk(w)
  {
  }

  /** A first attempt may always be sent; a later one exactly within 23 hours of the first, and after them it is given up.
      A synchronous message may be sent exactly when it is PENDING and no other delivery holds its lock. */
  lemma MaySubmitIff(w: World, token: Token, at: int)
    requires token in w.attempts && !w.attempts[token].submitted && w.attempts[token].claimedAt <= at <= w.now
    ensures var a := w.attempts[token];
            && (IsLeased(a.key) ==> (Enabled(w, Submit(token, at)) <==> a.attemptCount <= 1 || at - a.firstAttemptAt < 82_800_000))
            && (IsLeased(a.key) ==> (Enabled(w, GiveUp(token)) <==> a.attemptCount > 1 && w.now - a.firstAttemptAt >= 82_800_000))
            && (a.key.SyncKey? ==>
                  (Enabled(w, Submit(token, at)) <==> a.key.sync in w.tables.messages && w.tables.messages[a.key.sync].state == Pending && a.key.sync !in w.locks))
  {
  }

  // --- Settling a queued message ----------------------------------------------------------------------

  /** The answer accepts the request: as many ids as messages, none of them empty. */
  predicate IsUsable(seen: Seen, n: nat) {
    seen.Ids? && |seen.ids| == n && forall i | 0 <= i < n :: seen.ids[i] != ""
  }

  /** The provider refused the request for good. */
  predicate IsRefusal(seen: Seen) {
    && seen.ApiError? && seen.status < 500
    && (seen.status == 429 ==> seen.code in {MonthlyQuotaExceeded, DailyQuotaExceeded})
    && (seen.status == 409 ==> seen.code !in {ConcurrentIdempotentRequests, InvalidIdempotentRequest})
  }

  /** The provider knows the key with another payload. */
  predicate IsOtherPayload(seen: Seen) {
    seen.ApiError? && seen.status == 409 && seen.code == InvalidIdempotentRequest
  }

  /** Anything else leaves open whether the request was carried out. */
  predicate IsOpen(seen: Seen, n: nat) {
    !IsUsable(seen, n) && !IsRefusal(seen) && !IsOtherPayload(seen)
  }

  lemma DecisionIs(seen: Seen, n: nat, first: int, at: int)
    ensures var outcome := Decide(seen, n, Expired(first, at));
            && (IsUsable(seen, n) <==> outcome.Accept?) && (outcome.Accept? ==> outcome == Accept(seen.ids))
            && (outcome == Finish(Failed) <==> IsRefusal(seen))
            && (outcome == Finish(Indeterminate) <==> IsOtherPayload(seen) || (IsOpen(seen, n) && at - first >= 82_800_000))
            && (outcome == Retry <==> IsOpen(seen, n) && at - first < 82_800_000)
  {
  }

  lemma DelayIs(attemptCount: nat)
    requires attemptCount > 0
    ensures RetryDelay(attemptCount) == if attemptCount == 1 then 60_000 else if attemptCount == 2 then 120_000 else 300_000
  {
  }

  /** The row of a job is released and due again after 1, 2 or 5 minutes. */
  ghost predicate IsRescheduled(t: Tables, r: Tables, a: Attempt, at: int)
    requires a.key in t.jobs
  {
    var delay := if a.attemptCount == 1 then 60_000 else if a.attemptCount == 2 then 120_000 else 300_000;
    r == t.(jobs := t.jobs[a.key := t.jobs[a.key].(nextAttemptAt := at + delay, leaseToken := None, leaseUntil := None)])
  }

  /** The job and the entries of its members are gone; no other row changes. */
  ghost predicate IsClosed(t: Tables, r: Tables, a: Attempt) {
    && r.jobs == t.jobs - {a.key} && r.messages.Keys == t.messages.Keys
    && (forall m | m in t.messages && m !in a.members :: r.messages[m] == t.messages[m])
    && (forall m | m in t.entries :: m in r.entries <==> m !in a.members)
    && (forall m | m in r.entries :: m in t.entries && r.entries[m] == t.entries[m])
  }

  /** All members have the state, and their rows are otherwise as before. */
  ghost predicate AllHave(t: Tables, r: Tables, members: seq<MessageId>, state: SendState) {
    forall m | m in members :: m in t.messages && m in r.messages && r.messages[m] == t.messages[m].(state := state)
  }

  lemma MembersAreStored(w: World, token: Token)
    requires AttemptsOk(w) && RostersOk(w) && token in w.attempts
    ensures NoDuplicates(w.attempts[token].members) && w.attempts[token].attemptCount > 0
    ensures forall m | m in w.attempts[token].members :: m in w.tables.messages
  {
    assert AttemptOk(w, token) && RosterOk(w, w.attempts[token].key);
  }

  lemma CompletionCloses(w: World, token: Token, outcome: Outcome, at: int)
    requires Completes(w, token, outcome, at) && !outcome.Retry?
    ensures IsClosed(w.tables, Completed(w, token, outcome, at).tables, w.attempts[token])
    ensures outcome.Finish? ==> AllHave(w.tables, Completed(w, token, outcome, at).tables, w.attempts[token].members, outcome.state)
  {
    hide Valid, Completed;
    CompletedIs(w, token, outcome, at);
  }

  lemma CompletionAccepts(w: World, token: Token, ids: seq<string>, at: int)
    requires Completes(w, token, Accept(ids), at) && NoDuplicates(w.attempts[token].members)
    ensures var r, members := Completed(w, token, Accept(ids), at).tables, w.attempts[token].members;
            forall i | 0 <= i < |members| ::
              && members[i] in w.tables.messages && members[i] in r.messages
              && r.messages[members[i]] == w.tables.messages[members[i]].(state := Accepted, resendEmailId := Some(ids[i]))
  {
    hide Valid, Completed, NoDuplicates;
    CompletedIs(w, token, Accept(ids), at);
    var members := w.attempts[token].members;
    forall i | 0 <= i < |members| ensures members[i] in members && IndexOf(members, members[i]) == i {
      IndexOfIs(members, i);
    }
  }

  /** What the owner of a job does with each answer: ids go to the members in order; a refusal fails all members; another
      payload, or an open answer 23 hours after the first attempt, leaves them INDETERMINATE; an open answer before that
      changes no message and makes the job due again. */
  lemma OwnerSettles(w: World, step: Step)
    requires Valid(w) && Enabled(w, step) && step.Settle? && IsLeased(w.attempts[step.token].key)
    requires Owns(w.tables, w.attempts[step.token].key, step.token)
    ensures var r, a, n := Apply(w, step), w.attempts[step.token], |w.attempts[step.token].members|;
            && r == w.(tables := r.tables)
            && (a.key in r.tables.jobs <==> IsOpen(step.seen, n) && step.at - a.firstAttemptAt < 82_800_000)
            && (a.key in r.tables.jobs ==> IsRescheduled(w.tables, r.tables, a, step.at))
            && (a.key !in r.tables.jobs ==> IsClosed(w.tables, r.tables, a))
            && (IsRefusal(step.seen) ==> AllHave(w.tables, r.tables, a.members, Failed))
            && (IsOtherPayload(step.seen) || (IsOpen(step.seen, n) && step.at - a.firstAttemptAt >= 82_800_000) ==>
                  AllHave(w.tables, r.tables, a.members, Indeterminate))
            && (IsUsable(step.seen, n) ==> forall i | 0 <= i < n ::
                  && a.members[i] in w.tables.messages && a.members[i] in r.tables.messages
                  && r.tables.messages[a.members[i]] == w.tables.messages[a.members[i]].(state := Accepted, resendEmailId := Some(step.seen.ids[i])))
  {
    hide EntriesOk, KeysOk, RostersOk, JobsOk, AttemptsOk, MailerOk, ResultsOk, LocksOk, Complete, IsClosed, AllHave, Decide, IsUsable, IsRefusal, IsOtherPayload;
    StepCompletes(w, step);
    SettledParts(w);
    MembersAreStored(w, step.token);
    var a := w.attempts[step.token];
    var outcome := OutcomeOf(w, step);
    DecisionIs(step.seen, |a.members|, a.firstAttemptAt, step.at);
    if outcome.Retry? {
      RetryReschedules(w, step.token, step.at);
    } else {
      CompletionCloses(w, step.token, outcome, step.at);
      ClosedHasNoJob(w.tables, Apply(w, step).tables, a);
      if outcome.Accept? {
        CompletionAccepts(w, step.token, outcome.ids, step.at);
      }
    }
  }

  lemma SettledParts(w: World)
    requires Valid(w)
    ensures AttemptsOk(w) && RostersOk(w)
  {
  }

  lemma ClosedHasNoJob(t: Tables, r: Tables, a: Attempt)
    requires IsClosed(t, r, a)
    ensures a.key !in r.jobs
  {
  }

  lemma RetryReschedules(w: World, token: Token, at: int)
    requires Completes(w, token, Retry, at) && w.attempts[token].attemptCount > 0
    ensures var r := Completed(w, token, Retry, at);
            w.attempts[token].key in r.tables.jobs && IsRescheduled(w.tables, r.tables, w.attempts[token], at) && r == w.(tables := r.tables)
  {
    hide EntriesOk, KeysOk, RostersOk, JobsOk, AttemptsOk, MailerOk, ResultsOk, LocksOk;
    DelayIs(w.attempts[token].attemptCount);
  }

  // --- The synchronous lane -----------------------------------------------------------------------------

  /** A synchronous delivery records what it saw: the provider's id; FAILED exactly for an error response of the provider or
      a missing API key; INDETERMINATE exactly for anything else. It changes its own row only, and gives up the lock. */
  lemma SyncSettlementIs(w: World, step: Step)
    requires Valid(w) && Enabled(w, step) && step.Settle? && w.attempts[step.token].key.SyncKey?
    ensures var r, m := Apply(w, step), w.attempts[step.token].key.sync;
            && m in w.tables.messages && m in r.tables.messages
            && r == w.(tables := w.tables.(messages := w.tables.messages[m := r.tables.messages[m]]), locks := w.locks - {m})
            && r.tables.messages[m].lane == w.tables.messages[m].lane && r.tables.messages[m].createdAt == w.tables.messages[m].createdAt
            && (r.tables.messages[m].state == Failed <==> step.seen.ApiError? || step.seen.MissingKey?)
            && (r.tables.messages[m].state == Indeterminate <==> step.seen.NoAnswer?)
            && (r.tables.messages[m].state == Accepted <==> step.seen.Ids?)
            && (step.seen.Ids? ==> |step.seen.ids| == 1 && r.tables.messages[m].resendEmailId == Some(step.seen.ids[0]))
            && (!step.seen.Ids? ==> r.tables.messages[m].resendEmailId.None?)
  {
    hide EntriesOk, KeysOk, JobsOk, SentOnce, LogOk, RosterOk, AttemptOk;
    var m := w.attempts[step.token].key.sync;
    RowResult(w, m);
    if step.seen.Ids? {
      SyncAnswerIsSent(w, step.token, step.seen.ids);
    }
  }

  /** Recovery gives up a PENDING message 23 hours after it was created, begins another delivery before that, and leaves
      any other message alone. */
  lemma RecoveryIs(w: World, step: Step)
    requires Enabled(w, step) && step.Recover?
    ensures var r, m, row := Apply(w, step), step.message, w.tables.messages[step.message];
            && (row.state != Pending ==> r == w)
            && (row.state == Pending && step.at - row.createdAt >= 82_800_000 ==>
                  r == w.(tables := w.tables.(messages := w.tables.messages[m := row.(state := Indeterminate)])))
            && (row.state == Pending && step.at - row.createdAt < 82_800_000 ==>
                  r == w.(attempts := w.attempts[step.token := Attempt(SyncKey(m), [m], row.createdAt, 1, step.at, false, None)]))
  {
  }
}
