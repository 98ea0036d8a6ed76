/** All three ways to send, with any number of workers and requests in flight, against the
    provider. A worker may stall between any two steps, crash, lose the answer or outlive its
    lease; its request may reach the provider after the worker was given up. */
module Sending {
  import opened Text
  import opened Provider
  import opened Outbox

  /** The assumed bound on the time from the clock reading of a claim to the arrival of its request. */
  const TRANSIT := 60 * 60 * 1000

  /** A claim as the worker holds it, and what became of its one request. */
  datatype Attempt = Attempt(
    key: Key,
    members: seq<MessageId>,
    firstAttemptAt: int,
    attemptCount: nat,
    claimedAt: int,
    submitted: bool,
    reply: Option<Reply>)

  /** What was sent under a key the first time it was claimed. */
  datatype Roster = Roster(members: seq<MessageId>, since: int)

  /** `locks` are the per-message advisory locks of the synchronous lane; `rosters` is history that no step reads. */
  datatype World = World(
    now: int,
    tables: Tables,
    locks: map<MessageId, Token>,
    attempts: map<Token, Attempt>,
    rosters: map<Key, Roster>,
    mailer: Mailer)

  /** A step commits at `now`; the times in its rows were read before: `at` by the worker, `stamped` as the
      database's default when the transaction began. */
  datatype Step =
    | Tick(to: int)
    | Queue(message: MessageId, lane: Lane, stamped: int)
    | Intend(message: MessageId, token: Token, stamped: int)
    | Recover(message: MessageId, token: Token, at: int)
    | Open(batch: nat, picked: seq<MessageId>, limit: nat, token: Token, at: int, stamped: int)
    | Reclaim(key: Key, members: seq<MessageId>, token: Token, at: int)
    | Submit(token: Token, at: int)
    | Arrive(token: Token, drawn: seq<string>)
    | Settle(token: Token, seen: Seen, at: int)
    | GiveUp(token: Token)
    | Abort(token: Token)

  predicate IsLeased(key: Key) {
    !key.SyncKey?
  }

  /** The check before sending: a first attempt goes out without one. */
  predicate TooLate(a: Attempt, now: int) {
    a.attemptCount > 1 && Expired(a.firstAttemptAt, now)
  }

  /** The pruning that precedes the claims of the key's lane. */
  function Pruned(t: Tables, key: Key): Tables {
    if key.BatchKey? then PruneEntries(t) else PruneAttachments(t)
  }

  predicate CanSee(a: Attempt, seen: Seen) {
    && (seen.Ids? ==> a.reply == Some(Answer(seen.ids)))
    && (seen == ApiError(409, InvalidIdempotentRequest) ==> a.reply == Some(Conflict))
  }

  /** Clocks never run back, tokens, batch ids and provider ids are drawn fresh, rows are the
      queried ones, a request arrives at most once and within the assumed bound, and a
      worker sees only what the provider answered. */
  ghost predicate Enabled(w: World, step: Step) {
    match step
    case Tick(to) => w.now <= to
    case Queue(m, lane, stamped) => m !in w.tables.messages && lane != SyncLane && stamped <= w.now
    case Intend(m, token, stamped) => m !in w.tables.messages && token !in w.attempts && stamped <= w.now
    case Recover(m, token, at) =>
      && m in w.tables.messages && w.tables.messages[m].lane == SyncLane && token !in w.attempts
      && w.tables.messages[m].createdAt <= at <= w.now
    case Open(batch, picked, limit, token, at, stamped) =>
      && token !in w.attempts && BatchKey(batch) !in w.rosters && BatchKey(batch) !in w.tables.jobs
      && at <= stamped <= w.now && (forall key | key in w.tables.jobs :: !ReadyBatch(w.tables, key, at))
      && IsQueueHead(PruneEntries(w.tables), limit, picked) && picked != []
    case Reclaim(key, members, token, at) =>
      && token !in w.attempts && at <= w.now
      && (IsNextBatch(w.tables, key, at) || IsNextAttachment(PruneAttachments(w.tables), key, at))
      && IsRoster(Pruned(w.tables, key), key, members)
    case Submit(token, at) =>
      && token in w.attempts && !w.attempts[token].submitted && w.attempts[token].claimedAt <= at <= w.now
      && var a := w.attempts[token];
         if a.key.SyncKey? then IsPending(w.tables, a.key.sync) && a.key.sync !in w.locks else !TooLate(a, at)
    case Arrive(token, drawn) =>
      && token in w.attempts && w.attempts[token].submitted && w.attempts[token].reply.None?
      && w.now <= w.attempts[token].claimedAt + TRANSIT
      && |drawn| == |w.attempts[token].members| && AreNewIds(w.mailer, drawn)
    case Settle(token, seen, at) =>
      && token in w.attempts && (w.attempts[token].submitted || seen in {MissingKey, NoAnswer}) && CanSee(w.attempts[token], seen)
      && w.attempts[token].claimedAt <= at <= w.now
      && (w.attempts[token].key.SyncKey? ==> var m := w.attempts[token].key.sync; m in w.locks && w.locks[m] == token && m in w.tables.messages)
    case GiveUp(token) => token in w.attempts && IsLeased(w.attempts[token].key) && !w.attempts[token].submitted && TooLate(w.attempts[token], w.now)
    case Abort(token) =>
      && token in w.attempts && w.attempts[token].key.SyncKey?
      && w.attempts[token].key.sync in w.locks && w.locks[w.attempts[token].key.sync] == token
  }

  function NewClaim(w: World, tables: Tables, key: Key, members: seq<MessageId>, token: Token, at: int): World
    requires key in tables.jobs && tables.jobs[key].firstAttemptAt.Some?
  {
    var job := tables.jobs[key];
    w.(tables := tables,
       attempts := w.attempts[token := Attempt(key, members, job.firstAttemptAt.value, job.attemptCount, at, false, None)],
       rosters := if key in w.rosters then w.rosters else w.rosters[key := Roster(members, at)])
  }

  function StartSync(w: World, m: MessageId, since: int, token: Token, at: int): World {
    w.(attempts := w.attempts[token := Attempt(SyncKey(m), [m], since, 1, at, false, None)])
  }

  function SetRow(w: World, m: MessageId, row: Row): World {
    w.(tables := w.tables.(messages := w.tables.messages[m := row]))
  }

  /** The update at the end of `deliverPendingMessage`; it has no guard on the state. */
  function SyncResult(row: Row, seen: Seen): Row {
    match seen
    case Ids(ids) => if ids == [] then row.(state := Indeterminate) else row.(state := Accepted, resendEmailId := Some(ids[0]))
    case ApiError(_, _) => row.(state := Failed)
    case MissingKey => row.(state := Failed)
    case NoAnswer => row.(state := Indeterminate)
  }

  function SettleTables(w: World, a: Attempt, token: Token, seen: Seen, at: int): Tables {
    Complete(w.tables, a.key, token, a.members, a.attemptCount, Decide(seen, |a.members|, Expired(a.firstAttemptAt, at)), at)
  }

  ghost function Apply(w: World, step: Step): World
    requires Enabled(w, step)
  {
    match step
    case Tick(to) => w.(now := to)
    case Queue(m, lane, stamped) =>
      var row := Row(lane, stamped, Pending, None);
      if lane == BatchLane then
        w.(tables := w.tables.(messages := w.tables.messages[m := row], entries := w.tables.entries[m := Entry(stamped, None)]))
      else
        w.(tables := w.tables.(messages := w.tables.messages[m := row],
                               jobs := w.tables.jobs[AttachmentKey(m) := Job(stamped, stamped, None, 0, None, None)]))
    case Intend(m, token, stamped) =>
      StartSync(SetRow(w, m, Row(SyncLane, stamped, Pending, None)), m, stamped, token, stamped).(rosters := w.rosters[SyncKey(m) := Roster([m], stamped)])
    case Recover(m, token, at) =>
      var row := w.tables.messages[m];
      if row.state != Pending then w
      else if Expired(row.createdAt, at) then SetRow(w, m, row.(state := Indeterminate))
      else StartSync(w, m, row.createdAt, token, at)
    case Open(batch, picked, _, token, at, stamped) =>
      NewClaim(w, OpenBatch(PruneEntries(w.tables), batch, picked, token, at, stamped), BatchKey(batch), picked, token, at)
    case Reclaim(key, members, token, at) =>
      NewClaim(w, Lease(Pruned(w.tables, key), key, token, at), key, members, token, at)
    case Submit(token, _) =>
      var a := w.attempts[token];
      w.(attempts := w.attempts[token := a.(submitted := true)], locks := if a.key.SyncKey? then w.locks[a.key.sync := token] else w.locks)
    case Arrive(token, drawn) =>
      var a := w.attempts[token];
      var (mailer, reply) := Process(w.mailer, a.key, a.members, w.now, drawn);
      w.(mailer := mailer, attempts := w.attempts[token := a.(reply := Some(reply))])
    case Settle(token, seen, at) =>
      var a := w.attempts[token];
      if a.key.SyncKey? then
        SetRow(w, a.key.sync, SyncResult(w.tables.messages[a.key.sync], seen)).(locks := w.locks - {a.key.sync})
      else w.(tables := SettleTables(w, a, token, seen, at))
    case GiveUp(token) =>
      var a := w.attempts[token];
      w.(tables := Complete(w.tables, a.key, token, a.members, a.attemptCount, Finish(Indeterminate), w.now))
    case Abort(token) => w.(locks := w.locks - {w.attempts[token].key.sync})
  }

  /** The step is enabled in `w` and leads to `r`. */
  ghost predicate Does(w: World, step: Step, r: World) {
    Enabled(w, step) && r == Apply(w, step)
  }

  ghost predicate IsRun(worlds: seq<World>, steps: seq<Step>) {
    && |worlds| == |steps| + 1
    && forall i | 0 <= i < |steps| :: Enabled(worlds[i], steps[i]) && worlds[i + 1] == Apply(worlds[i], steps[i])
  }

  function Start(now: int): World {
    World(now, Tables(map[], map[], map[]), map[], map[], map[], Mailer(map[], []))
  }
}
