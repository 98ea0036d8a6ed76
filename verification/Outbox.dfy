/** The outbox tables and what each transaction of src/lib/outbox-service.ts and
    src/lib/attachment-outbox-service.ts does to them. Both lanes lease a row, send under the
    row's key and finish or reschedule it: a batch of messages in one lane, a single message in
    the other. `jobs` holds the rows of both tables. */
module Outbox {
  import opened Text
  import opened Provider

  type Token = nat

  const LEASE := 2 * 60 * 1000
  const WINDOW := 23 * 60 * 60 * 1000
  const RETRY_DELAYS: seq<int> := [60_000, 120_000, 300_000]

  datatype Lane = BatchLane | AttachmentLane | SyncLane

  datatype SendState = Pending | Accepted | Failed | Indeterminate

  /** The columns of a queued or sent message that delivery reads or writes. */
  datatype Row = Row(lane: Lane, createdAt: int, state: SendState, resendEmailId: Option<string>)

  datatype Slot = Slot(batch: nat, position: nat)

  datatype Entry = Entry(queuedAt: int, slot: Option<Slot>)

  datatype Job = Job(
    queuedAt: int,
    nextAttemptAt: int,
    firstAttemptAt: Option<int>,
    attemptCount: nat,
    leaseToken: Option<Token>,
    leaseUntil: Option<int>)

  datatype Tables = Tables(messages: map<MessageId, Row>, entries: map<MessageId, Entry>, jobs: map<Key, Job>)

  // --- Claiming --------------------------------------------------------------------------------------

  predicate IsPending(t: Tables, m: MessageId) {
    m in t.messages && t.messages[m].state == Pending
  }

  /** Entries whose message is no longer PENDING are dropped before every claim. */
  function PruneEntries(t: Tables): Tables {
    t.(entries := map m | m in t.entries && !(t.entries[m].slot.None? && m in t.messages && t.messages[m].state != Pending) :: t.entries[m])
  }

  function PruneAttachments(t: Tables): Tables {
    t.(jobs := map k | k in t.jobs && !(k.AttachmentKey? && k.message in t.messages && t.messages[k.message].state != Pending) :: t.jobs[k])
  }

  /** Due and not leased. */
  predicate Ready(job: Job, now: int) {
    job.nextAttemptAt <= now && (job.leaseUntil.None? || job.leaseUntil.value <= now)
  }

  predicate ReadyBatch(t: Tables, key: Key, now: int) {
    key.BatchKey? && key in t.jobs && Ready(t.jobs[key], now)
  }

  /** `ORDER BY next_attempt_at, id LIMIT 1`. */
  predicate IsNextBatch(t: Tables, key: Key, now: int) {
    && ReadyBatch(t, key, now)
    && forall k | k in t.jobs && ReadyBatch(t, k, now) ::
         t.jobs[key].nextAttemptAt < t.jobs[k].nextAttemptAt
         || (t.jobs[key].nextAttemptAt == t.jobs[k].nextAttemptAt && key.batch <= k.batch)
  }

  predicate ReadyAttachment(t: Tables, key: Key, now: int) {
    key.AttachmentKey? && key in t.jobs && IsPending(t, key.message) && Ready(t.jobs[key], now)
  }

  /** `ORDER BY queued_at, message_id LIMIT 1`. */
  predicate IsNextAttachment(t: Tables, key: Key, now: int) {
    && ReadyAttachment(t, key, now)
    && forall k | k in t.jobs && ReadyAttachment(t, k, now) ::
         t.jobs[key].queuedAt < t.jobs[k].queuedAt
         || (t.jobs[key].queuedAt == t.jobs[k].queuedAt && key.message <= k.message)
  }

  predicate Queued(t: Tables, m: MessageId) {
    m in t.entries && t.entries[m].slot.None? && IsPending(t, m)
  }

  /** The order `queued_at, message_id`. */
  predicate Before(t: Tables, a: MessageId, b: MessageId)
    requires a in t.entries && b in t.entries
  {
    t.entries[a].queuedAt < t.entries[b].queuedAt || (t.entries[a].queuedAt == t.entries[b].queuedAt && a < b)
  }

  /** `picked` are the first queued messages in that order, `limit` of them or all there are. */
  ghost predicate IsQueueHead(t: Tables, limit: nat, picked: seq<MessageId>) {
    && |picked| <= limit
    && (forall i | 0 <= i < |picked| :: Queued(t, picked[i]))
    && (forall i, j | 0 <= i < j < |picked| :: Before(t, picked[i], picked[j]))
    && (forall m | Queued(t, m) && m !in picked :: |picked| == limit && forall i | 0 <= i < |picked| :: Before(t, picked[i], m))
  }

  /** A new batch of the picked messages, at positions 0, 1, ... in that order, leased at once. */
  function OpenBatch(t: Tables, batch: nat, picked: seq<MessageId>, token: Token, now: int, stamped: int): Tables {
    t.(jobs := t.jobs[BatchKey(batch) := Job(stamped, stamped, Some(now), 1, Some(token), Some(now + LEASE))],
       entries := map m | m in t.entries ::
         if m in picked then t.entries[m].(slot := Some(Slot(batch, IndexOf(picked, m)))) else t.entries[m])
  }

  function IndexOf(xs: seq<MessageId>, x: MessageId): (i: nat)
    requires x in xs
    ensures i < |xs| && xs[i] == x && forall j | 0 <= j < i :: xs[j] != x
  {
    if xs[0] == x then 0 else 1 + IndexOf(xs[1..], x)
  }

  function LeasedJob(job: Job, token: Token, now: int): Job {
    job.(firstAttemptAt := if job.firstAttemptAt.Some? then job.firstAttemptAt else Some(now),
         attemptCount := job.attemptCount + 1, leaseToken := Some(token), leaseUntil := Some(now + LEASE))
  }

  function Lease(t: Tables, key: Key, token: Token, now: int): Tables
    requires key in t.jobs
  {
    t.(jobs := t.jobs[key := LeasedJob(t.jobs[key], token, now)])
  }

  /** The messages of a batch, `ORDER BY batch_position`; of an attachment entry, its one message. */
  ghost predicate IsRoster(t: Tables, key: Key, members: seq<MessageId>) {
    match key
    case BatchKey(b) =>
      && (forall i | 0 <= i < |members| :: members[i] in t.entries && t.entries[members[i]].slot == Some(Slot(b, i)))
      && (forall m | m in t.entries && t.entries[m].slot.Some? && t.entries[m].slot.value.batch == b :: m in members)
    case AttachmentKey(m) => members == [m]
    case SyncKey(m) => members == [m]
  }

  // --- Finishing --------------------------------------------------------------------------------------

  datatype ErrorCode = InvalidIdempotentRequest | ConcurrentIdempotentRequests | MonthlyQuotaExceeded | DailyQuotaExceeded | OtherCode

  /** What the worker sees: ids, an error response of the provider, the error that no API key is configured, or
      anything else (no or an unusable answer). */
  datatype Seen = Ids(ids: seq<string>) | ApiError(status: int, code: ErrorCode) | MissingKey | NoAnswer

  datatype Outcome = Accept(ids: seq<string>) | Retry | Finish(state: SendState)

  predicate IsRetryable(seen: Seen) {
    match seen
    case Ids(_) => true
    case MissingKey => true
    case NoAnswer => true
    case ApiError(status, code) =>
      || (status == 429 && code != MonthlyQuotaExceeded && code != DailyQuotaExceeded)
      || status >= 500
      || (status == 409 && code == ConcurrentIdempotentRequests)
  }

  predicate AreIds(ids: seq<string>, n: nat) {
    |ids| == n && forall i | 0 <= i < |ids| :: |ids[i]| > 0
  }

  /** The branches of the two drain functions after the request; `expired` is the window check at that time. */
  function Decide(seen: Seen, n: nat, expired: bool): Outcome {
    if seen.Ids? && AreIds(seen.ids, n) then Accept(seen.ids)
    else if seen == ApiError(409, InvalidIdempotentRequest) then Finish(Indeterminate)
    else if IsRetryable(seen) then (if expired then Finish(Indeterminate) else Retry)
    else Finish(Failed)
  }

  predicate Expired(firstAttemptAt: int, now: int) {
    now - firstAttemptAt >= WINDOW
  }

  /** `assertLeaseOwner`, and the condition of every guarded update and delete. */
  predicate Owns(t: Tables, key: Key, token: Token) {
    key in t.jobs && t.jobs[key].leaseToken == Some(token)
  }

  predicate AllPending(t: Tables, members: seq<MessageId>) {
    forall m | m in members :: IsPending(t, m)
  }

  /** Deleting the job cascades to the entries of a batch. */
  function DropJob(t: Tables, key: Key): Tables {
    t.(jobs := t.jobs - {key},
       entries := map m | m in t.entries && !(t.entries[m].slot.Some? && BatchKey(t.entries[m].slot.value.batch) == key) :: t.entries[m])
  }

  /** `UPDATE ... SET state, resend_email_id WHERE state = 'PENDING'`, by position. */
  function AcceptMessages(t: Tables, members: seq<MessageId>, ids: seq<string>): Tables
    requires |ids| == |members|
  {
    t.(messages := map m | m in t.messages ::
      if m in members && t.messages[m].state == Pending
      then t.messages[m].(state := Accepted, resendEmailId := Some(ids[IndexOf(members, m)])) else t.messages[m])
  }

  function FinishMessages(t: Tables, members: seq<MessageId>, state: SendState): Tables {
    t.(messages := map m | m in t.messages ::
      if m in members && t.messages[m].state == Pending then t.messages[m].(state := state) else t.messages[m])
  }

  /** The ladder, indexed by `Math.min(attemptCount - 1, 2)`; a claim has at least one attempt. */
  function RetryDelay(attemptCount: nat): int {
    RETRY_DELAYS[if attemptCount <= 1 then 0 else if attemptCount == 2 then 1 else 2]
  }

  function Reschedule(t: Tables, key: Key, attemptCount: nat, now: int): Tables
    requires key in t.jobs
  {
    t.(jobs := t.jobs[key := t.jobs[key].(nextAttemptAt := now + RetryDelay(attemptCount), leaseToken := None, leaseUntil := None)])
  }

  /** The finalizing transaction of one claim: nothing changes unless the claim still owns the row;
      accepting also throws when a message changed meanwhile. */
  function Complete(t: Tables, key: Key, token: Token, members: seq<MessageId>, attemptCount: nat, outcome: Outcome,
        now: int): Tables
    requires outcome.Accept? ==> |outcome.ids| == |members|
  {
    if !Owns(t, key, token) then t
    else match outcome
      case Accept(ids) => if AllPending(t, members) then DropJob(AcceptMessages(t, members, ids), key) else t
      case Retry => Reschedule(t, key, attemptCount, now)
      case Finish(state) => DropJob(FinishMessages(t, members, state), key)
  }
}
