/** What every reachable state of the sending machine satisfies, and the proof that every step keeps it. */
module SendingInvariant {
  import opened Text
  import opened Provider
  import opened Outbox
  import opened Sending

  function LaneOf(key: Key): Lane {
    match key
    case BatchKey(_) => BatchLane
    case AttachmentKey(_) => AttachmentLane
    case SyncKey(_) => SyncLane
  }

  /** An entry exists for every undelivered message of the batch lane and for no other; a slot names a live batch. */
  ghost predicate EntriesOk(t: Tables) {
    && (forall m | m in t.entries :: IsPending(t, m) && t.messages[m].lane == BatchLane && t.entries[m].queuedAt == t.messages[m].createdAt)
    && (forall m | IsPending(t, m) && t.messages[m].lane == BatchLane :: m in t.entries)
    && (forall m | m in t.entries && t.entries[m].slot.Some? :: BatchKey(t.entries[m].slot.value.batch) in t.jobs)
  }

  /** A job is a batch that was opened or the entry of an undelivered message of the attachment lane. */
  ghost predicate KeysOk(w: World) {
    && (forall k | k in w.tables.jobs :: match k
          case BatchKey(_) => k in w.rosters
          case AttachmentKey(m) => IsPending(w.tables, m) && w.tables.messages[m].lane == AttachmentLane
          case SyncKey(_) => false)
    && (forall m | IsPending(w.tables, m) && w.tables.messages[m].lane == AttachmentLane :: AttachmentKey(m) in w.tables.jobs)
    && (forall m | m in w.tables.messages :: w.tables.messages[m].createdAt <= w.now)
  }

  /** The order `queued_at, message_id`, read from the messages. */
  predicate Earlier(t: Tables, a: MessageId, b: MessageId) {
    && a in t.messages && b in t.messages
    && (t.messages[a].createdAt < t.messages[b].createdAt || (t.messages[a].createdAt == t.messages[b].createdAt && a < b))
  }

  /** The members under a key: fixed, each once, of the key's lane; in their slots as long as the
      batch lives and delivered or given up when it does not; those of a batch in queue order. */
  ghost predicate RosterOk(w: World, key: Key)
    requires key in w.rosters
  {
    var members := w.rosters[key].members;
    && NoDuplicates(members) && members != [] && w.rosters[key].since <= w.now
    && (forall m | m in members :: m in w.tables.messages && w.tables.messages[m].lane == LaneOf(key))
    && match key
       case BatchKey(b) =>
         && (forall i, j | 0 <= i < j < |members| :: Earlier(w.tables, members[i], members[j]))
         && (key in w.tables.jobs ==> IsRoster(w.tables, key, members))
         && (key !in w.tables.jobs ==> forall m | m in members :: !IsPending(w.tables, m))
       case AttachmentKey(m) => members == [m]
       case SyncKey(m) => members == [m] && w.tables.messages[m].createdAt == w.rosters[key].since
  }

  ghost predicate RostersOk(w: World) {
    && (forall key {:trigger RosterOk(w, key)} | key in w.rosters :: RosterOk(w, key))
    && (forall j, k, m | j in w.rosters && k in w.rosters && m in w.rosters[j].members && m in w.rosters[k].members :: j == k)
    && (forall m | m in w.tables.messages && w.tables.messages[m].lane == SyncLane :: SyncKey(m) in w.rosters)
  }

  /** The earliest time of the claim after `n` attempts. */
  function NextSlot(since: int, n: nat): int {
    if n == 0 then since else since + 60_000 + 120_000 * (n - 1)
  }

  ghost predicate JobOk(w: World, key: Key)
    requires key in w.tables.jobs
  {
    var job := w.tables.jobs[key];
    && (job.attemptCount > 0 <==> key in w.rosters)
    && (key in w.rosters ==>
          && job.firstAttemptAt == Some(w.rosters[key].since)
          && (if job.leaseUntil.Some? then job.leaseUntil.value else job.nextAttemptAt) >= NextSlot(w.rosters[key].since, job.attemptCount))
    && (key !in w.rosters ==> job.firstAttemptAt.None? && job.leaseToken.None?)
    && (job.leaseToken.Some? <==> job.leaseUntil.Some?)
    && (job.leaseToken.Some? ==>
          && job.leaseToken.value in w.attempts
          && w.attempts[job.leaseToken.value].key == key && w.attempts[job.leaseToken.value].attemptCount == job.attemptCount)
  }

  ghost predicate JobsOk(w: World) {
    forall key {:trigger JobOk(w, key)} | key in w.tables.jobs :: JobOk(w, key)
  }

  ghost predicate AttemptOk(w: World, token: Token)
    requires token in w.attempts
  {
    var a := w.attempts[token];
    && a.key in w.rosters && a.members == w.rosters[a.key].members && a.firstAttemptAt == w.rosters[a.key].since
    && a.firstAttemptAt <= a.claimedAt <= w.now && a.attemptCount > 0
    && (IsLeased(a.key) ==> a.claimedAt >= NextSlot(a.firstAttemptAt, a.attemptCount - 1))
    && (IsLeased(a.key) && a.key in w.tables.jobs ==> a.attemptCount <= w.tables.jobs[a.key].attemptCount)
    && (a.attemptCount == 1 && IsLeased(a.key) ==> a.claimedAt == a.firstAttemptAt)
    && (a.submitted || a.key.SyncKey? ==> a.claimedAt < a.firstAttemptAt + WINDOW)
    && (a.reply.Some? ==> a.submitted && a.key in w.mailer.records && a.reply == Some(Answer(w.mailer.records[a.key].ids)))
  }

  ghost predicate AttemptsOk(w: World) {
    && (forall token {:trigger AttemptOk(w, token)} | token in w.attempts :: AttemptOk(w, token))
    && (forall a, b | a in w.attempts && b in w.attempts && w.attempts[a].key == w.attempts[b].key && IsLeased(w.attempts[a].key)
          && w.attempts[a].attemptCount == w.attempts[b].attemptCount :: a == b)
  }

  ghost predicate MailerOk(w: World) {
    && SentOnce(w.mailer) && LogOk(w.mailer)
    && (forall key | key in w.mailer.records ::
          && key in w.rosters && w.mailer.records[key].body == w.rosters[key].members && w.mailer.records[key].at >= w.rosters[key].since
          && AreIds(w.mailer.records[key].ids, |w.mailer.records[key].body|))
  }

  /** An accepted message carries the id under which the provider sent it; no other message carries one. */
  ghost predicate ResultsOk(w: World) {
    forall m | m in w.tables.messages ::
      match w.tables.messages[m].resendEmailId
      case Some(id) => w.tables.messages[m].state == Accepted && Provider.Sent(m, id) in w.mailer.log
      case None => w.tables.messages[m].state != Accepted
  }

  /** The holder of a message's lock sends its request after it read the message as PENDING; only the age check may have changed it since. */
  ghost predicate LocksOk(w: World) {
    forall m | m in w.locks ::
      && w.locks[m] in w.attempts && w.attempts[w.locks[m]].key == SyncKey(m) && w.attempts[w.locks[m]].submitted && m in w.tables.messages
      && w.tables.messages[m].state in {Pending, Indeterminate}
  }

  ghost predicate Valid(w: World) {
    && EntriesOk(w.tables) && KeysOk(w) && RostersOk(w) && JobsOk(w) && AttemptsOk(w) && MailerOk(w) && ResultsOk(w) && LocksOk(w)
  }

  lemma StartIsValid(now: int)
    ensures Valid(Start(now))
  {
  }

  // --- Pruning ------------------------------------------------------------------------------------------

  /** The clean-up before each claim never finds anything to remove. */
  lemma PruningRemovesNothing(w: World)
    requires EntriesOk(w.tables) && KeysOk(w)
    ensures PruneEntries(w.tables) == w.tables && PruneAttachments(w.tables) == w.tables
  {
    assert PruneEntries(w.tables).entries == w.tables.entries;
    assert PruneAttachments(w.tables).jobs == w.tables.jobs;
  }

  // --- Opening a batch --------------------------------------------------------------------------------

  lemma {:induction false} IndexOfIs(xs: seq<MessageId>, i: nat)
    requires i < |xs| && NoDuplicates(xs)
    ensures IndexOf(xs, xs[i]) == i
  {
  }

  lemma HeadHasNoDuplicates(t: Tables, limit: nat, picked: seq<MessageId>)
    requires IsQueueHead(t, limit, picked)
    ensures NoDuplicates(picked)
  {
    forall i, j | 0 <= i < j < |picked| ensures picked[i] != picked[j] {
      assert Before(t, picked[i], picked[j]);
    }
  }

  ghost predicate Opens(w: World, batch: nat, picked: seq<MessageId>, limit: nat, token: Token, at: int, stamped: int) {
    && Valid(w) && token !in w.attempts && BatchKey(batch) !in w.rosters && BatchKey(batch) !in w.tables.jobs
    && IsQueueHead(w.tables, limit, picked) && picked != [] && NoDuplicates(picked) && at <= stamped <= w.now
  }

  ghost function Opened(w: World, batch: nat, picked: seq<MessageId>, token: Token, at: int, stamped: int): World {
    NewClaim(w, OpenBatch(w.tables, batch, picked, token, at, stamped), BatchKey(batch), picked, token, at)
  }

  lemma OpenKeepsEntries(w: World, batch: nat, picked: seq<MessageId>, limit: nat, token: Token, at: int, stamped: int)
    requires Opens(w, batch, picked, limit, token, at, stamped)
    ensures EntriesOk(Opened(w, batch, picked, token, at, stamped).tables)
  {
    hide KeysOk, MailerOk, RostersOk, JobsOk, AttemptsOk, ResultsOk, LocksOk, Before, NoDuplicates;
    var t, r := w.tables, Opened(w, batch, picked, token, at, stamped).tables;
    assert r.messages == t.messages && r.jobs.Keys == t.jobs.Keys + {BatchKey(batch)};
    hide IsQueueHead;
    forall m | m in r.entries ensures m in t.entries && r.entries[m].queuedAt == t.entries[m].queuedAt
      && (r.entries[m].slot == t.entries[m].slot || (r.entries[m].slot.Some? && r.entries[m].slot.value.batch == batch))
    {
    }
    hide Opened, OpenBatch;
  }

  lemma OpenKeepsKeys(w: World, r: World, batch: nat)
    requires KeysOk(w) && r.tables.messages == w.tables.messages && r.now == w.now
    requires r.tables.jobs.Keys == w.tables.jobs.Keys + {BatchKey(batch)} && r.rosters.Keys == w.rosters.Keys + {BatchKey(batch)}
    ensures KeysOk(r)
  {
  }

  lemma OpenedIs(w: World, batch: nat, picked: seq<MessageId>, token: Token, at: int, stamped: int)
    requires BatchKey(batch) !in w.rosters
    ensures var r := Opened(w, batch, picked, token, at, stamped);
            && r.tables.messages == w.tables.messages && r.now == w.now
            && r.tables.jobs.Keys == w.tables.jobs.Keys + {BatchKey(batch)} && r.rosters.Keys == w.rosters.Keys + {BatchKey(batch)}
  {
  }

  lemma OpenKeepsTables(w: World, batch: nat, picked: seq<MessageId>, limit: nat, token: Token, at: int, stamped: int)
    requires Opens(w, batch, picked, limit, token, at, stamped)
    ensures var r := Opened(w, batch, picked, token, at, stamped); EntriesOk(r.tables) && KeysOk(r)
  {
    hide EntriesOk, KeysOk, RostersOk, JobsOk, AttemptsOk, MailerOk, ResultsOk, LocksOk, IsQueueHead, NoDuplicates, Opened;
    OpenKeepsEntries(w, batch, picked, limit, token, at, stamped);
    OpenedIs(w, batch, picked, token, at, stamped);
    OpenKeepsKeys(w, Opened(w, batch, picked, token, at, stamped), batch);
  }

  lemma OpenKeepsResults(w: World, batch: nat, picked: seq<MessageId>, limit: nat, token: Token, at: int, stamped: int)
    requires Opens(w, batch, picked, limit, token, at, stamped)
    ensures var r := Opened(w, batch, picked, token, at, stamped); ResultsOk(r) && LocksOk(r) && MailerOk(r)
  {
    hide SentOnce, LogOk, RostersOk, EntriesOk, KeysOk, JobsOk, IsQueueHead;
  }

  /** The picked messages are in queue order. */
  lemma PickedAreOrdered(t: Tables, limit: nat, picked: seq<MessageId>)
    requires EntriesOk(t) && IsQueueHead(t, limit, picked)
    ensures forall i, j | 0 <= i < j < |picked| :: Earlier(t, picked[i], picked[j])
  {
    forall i, j | 0 <= i < j < |picked| ensures Earlier(t, picked[i], picked[j]) {
      assert Queued(t, picked[i]) && Queued(t, picked[j]) && Before(t, picked[i], picked[j]);
    }
  }

  lemma OpenedSlots(w: World, batch: nat, picked: seq<MessageId>, limit: nat, token: Token, at: int, stamped: int)
    requires Opens(w, batch, picked, limit, token, at, stamped)
    ensures IsRoster(Opened(w, batch, picked, token, at, stamped).tables, BatchKey(batch), picked)
  {
    hide MailerOk, JobsOk, AttemptsOk, ResultsOk, LocksOk, RostersOk, Before;
    var r := Opened(w, batch, picked, token, at, stamped);
    forall i | 0 <= i < |picked| ensures Queued(w.tables, picked[i]) && r.tables.entries[picked[i]].slot == Some(Slot(batch, i)) {
      IndexOfIs(picked, i);
    }
    forall m | m in r.tables.entries && r.tables.entries[m].slot.Some? && r.tables.entries[m].slot.value.batch == batch ensures m in picked {
    }
    hide IsQueueHead;
  }

  lemma OpenedRoster(w: World, batch: nat, picked: seq<MessageId>, limit: nat, token: Token, at: int, stamped: int)
    requires Opens(w, batch, picked, limit, token, at, stamped)
    ensures RosterOk(Opened(w, batch, picked, token, at, stamped), BatchKey(batch))
  {
    hide MailerOk, JobsOk, AttemptsOk, ResultsOk, LocksOk, RostersOk, Before, IsRoster, KeysOk;
    OpenedSlots(w, batch, picked, limit, token, at, stamped);
    PickedAreOrdered(w.tables, limit, picked);
    forall m | m in picked ensures Queued(w.tables, m) {
    }
    hide IsQueueHead, OpenBatch, Opens;
  }

  lemma OpenKeepsRoster(w: World, batch: nat, picked: seq<MessageId>, limit: nat, token: Token, at: int, stamped: int,
        key: Key)
    requires Opens(w, batch, picked, limit, token, at, stamped) && key in w.rosters
    ensures RosterOk(Opened(w, batch, picked, token, at, stamped), key)
  {
    hide MailerOk, JobsOk, AttemptsOk, ResultsOk, LocksOk, Before, IsQueueHead, KeysOk, IsRoster, NoDuplicates;
    assert RosterOk(w, key);
    if key.BatchKey? && key in w.tables.jobs {
      OpenLeavesRoster(w, batch, picked, limit, token, at, stamped, key);
    }
  }

  lemma OpenKeepsRosters(w: World, batch: nat, picked: seq<MessageId>, limit: nat, token: Token, at: int, stamped: int)
    requires Opens(w, batch, picked, limit, token, at, stamped)
    ensures RostersOk(Opened(w, batch, picked, token, at, stamped))
  {
    hide MailerOk, JobsOk, AttemptsOk, ResultsOk, LocksOk, RosterOk, EntriesOk, KeysOk, IsQueueHead, NoDuplicates, OpenBatch;
    var r := Opened(w, batch, picked, token, at, stamped);
    OpenedIs(w, batch, picked, token, at, stamped);
    forall key | key in r.rosters ensures RosterOk(r, key) {
      if key == BatchKey(batch) {
        OpenedRoster(w, batch, picked, limit, token, at, stamped);
      } else {
        OpenKeepsRoster(w, batch, picked, limit, token, at, stamped, key);
      }
    }
    forall key, m | key in w.rosters && m in w.rosters[key].members ensures m !in picked {
      if m in picked {
        PickedIsNew(w, limit, picked, key, m);
      }
    }
  }

  lemma OpenLeavesRoster(w: World, batch: nat, picked: seq<MessageId>, limit: nat, token: Token, at: int,
        stamped: int, key: Key)
    requires Opens(w, batch, picked, limit, token, at, stamped) && key.BatchKey? && key in w.tables.jobs && key in w.rosters
    ensures IsRoster(Opened(w, batch, picked, token, at, stamped).tables, key, w.rosters[key].members)
  {
    hide MailerOk, JobsOk, AttemptsOk, ResultsOk, LocksOk;
    assert RosterOk(w, key);
  }

  /** A queued message is in no earlier batch. */
  lemma PickedIsNew(w: World, limit: nat, picked: seq<MessageId>, key: Key, m: MessageId)
    requires Valid(w) && IsQueueHead(w.tables, limit, picked) && key in w.rosters && m in picked
    ensures m !in w.rosters[key].members
  {
    hide MailerOk, JobsOk, AttemptsOk, ResultsOk, LocksOk;
    assert RosterOk(w, key);
    assert Queued(w.tables, m);
  }

  lemma OpenKeepsClaims(w: World, batch: nat, picked: seq<MessageId>, limit: nat, token: Token, at: int, stamped: int)
    requires Opens(w, batch, picked, limit, token, at, stamped)
    ensures var r := Opened(w, batch, picked, token, at, stamped); JobsOk(r) && AttemptsOk(r)
  {
    hide MailerOk, EntriesOk, ResultsOk, LocksOk, IsQueueHead, KeysOk, NoDuplicates;
    var key, r := BatchKey(batch), Opened(w, batch, picked, token, at, stamped);
    forall k | k in r.tables.jobs ensures JobOk(r, k) {
      if k != key {
        assert JobOk(w, k);
      }
    }
    forall t | t in r.attempts ensures AttemptOk(r, t) {
      if t != token {
        assert AttemptOk(w, t);
      }
    }
    forall t | t in w.attempts ensures w.attempts[t].key != key {
      assert AttemptOk(w, t);
    }
    hide JobOk, AttemptOk, RostersOk;
  }

  lemma OpenKeepsValid(w: World, batch: nat, picked: seq<MessageId>, limit: nat, token: Token, at: int, stamped: int)
    requires Opens(w, batch, picked, limit, token, at, stamped)
    ensures Valid(Opened(w, batch, picked, token, at, stamped))
  {
    OpenKeepsTables(w, batch, picked, limit, token, at, stamped);
    OpenKeepsResults(w, batch, picked, limit, token, at, stamped);
    OpenKeepsRosters(w, batch, picked, limit, token, at, stamped);
    OpenKeepsClaims(w, batch, picked, limit, token, at, stamped);
    hide Opened, EntriesOk, KeysOk, RostersOk, JobsOk, AttemptsOk, MailerOk, ResultsOk, LocksOk;
  }

  // --- Claiming a job again ---------------------------------------------------------------------------

  ghost predicate Reclaims(w: World, key: Key, members: seq<MessageId>, token: Token, at: int) {
    && Valid(w) && token !in w.attempts && key in w.tables.jobs && at <= w.now && Ready(w.tables.jobs[key], at) && IsRoster(w.tables, key, members)
  }

  ghost function Reclaimed(w: World, key: Key, members: seq<MessageId>, token: Token, at: int): World
    requires key in w.tables.jobs
  {
    NewClaim(w, Lease(w.tables, key, token, at), key, members, token, at)
  }

  lemma RosterIsPrefix(t: Tables, b: nat, xs: seq<MessageId>, ys: seq<MessageId>)
    requires IsRoster(t, BatchKey(b), xs) && IsRoster(t, BatchKey(b), ys)
    ensures xs <= ys
  {
    forall i | 0 <= i < |xs| ensures i < |ys| && xs[i] == ys[i] {
      assert xs[i] in ys;
    }
    if xs != [] {
      var last := xs[|xs| - 1];
      var j :| 0 <= j < |ys| && ys[j] == last;
      assert t.entries[last].slot == Some(Slot(b, j)) && t.entries[last].slot == Some(Slot(b, |xs| - 1));
    }
  }

  lemma SlotsDetermineRoster(t: Tables, b: nat, xs: seq<MessageId>, ys: seq<MessageId>)
    requires IsRoster(t, BatchKey(b), xs) && IsRoster(t, BatchKey(b), ys)
    ensures xs == ys
  {
    RosterIsPrefix(t, b, xs, ys);
    RosterIsPrefix(t, b, ys, xs);
  }

  /** Every claim of a batch reads the member list that the first claim froze. */
  lemma ReclaimedRosterIsFrozen(w: World, key: Key, members: seq<MessageId>)
    requires RostersOk(w) && key in w.tables.jobs && key in w.rosters && IsRoster(w.tables, key, members)
    ensures members == w.rosters[key].members
  {
    assert RosterOk(w, key);
    if key.BatchKey? {
      SlotsDetermineRoster(w.tables, key.batch, members, w.rosters[key].members);
    }
  }

  lemma ReclaimKeepsTables(w: World, key: Key, members: seq<MessageId>, token: Token, at: int)
    requires Reclaims(w, key, members, token, at)
    ensures var r := Reclaimed(w, key, members, token, at); EntriesOk(r.tables) && KeysOk(r)
  {
    hide MailerOk, RostersOk, AttemptsOk, ResultsOk, LocksOk, IsRoster;
    assert JobOk(w, key);
    hide JobsOk, JobOk;
  }

  lemma ReclaimKeepsResults(w: World, key: Key, members: seq<MessageId>, token: Token, at: int)
    requires Reclaims(w, key, members, token, at)
    ensures var r := Reclaimed(w, key, members, token, at); ResultsOk(r) && LocksOk(r) && MailerOk(r)
  {
    hide SentOnce, LogOk, RostersOk, EntriesOk, KeysOk, IsRoster;
    assert JobOk(w, key);
  }

  /** The first claim of an attachment entry sets a roster of its own. */
  lemma FirstRosterIsNew(w: World, key: Key, members: seq<MessageId>, other: Key)
    requires KeysOk(w) && RostersOk(w) && key in w.tables.jobs && key !in w.rosters && IsRoster(w.tables, key, members) && other in w.rosters
    ensures key.AttachmentKey? && members == [key.message] && key.message !in w.rosters[other].members
  {
    JobsAreLeased(w, key);
    assert RosterOk(w, other);
  }

  lemma ReclaimKeepsRosters(w: World, key: Key, members: seq<MessageId>, token: Token, at: int)
    requires Reclaims(w, key, members, token, at)
    ensures RostersOk(Reclaimed(w, key, members, token, at))
  {
    hide MailerOk, JobsOk, AttemptsOk, ResultsOk, LocksOk, KeysOk, EntriesOk;
    var r := Reclaimed(w, key, members, token, at);
    JobsAreLeased(w, key);
    forall k | k in r.rosters ensures RosterOk(r, k) {
      if k in w.rosters {
        assert RosterOk(w, k);
      }
    }
    forall k | k in w.rosters && key !in w.rosters ensures key.AttachmentKey? && members == [key.message] && key.message !in w.rosters[k].members {
      FirstRosterIsNew(w, key, members, k);
    }
    hide RosterOk;
  }

  /** A job that is due again waited for its slot. */
  lemma SlotIsOver(w: World, key: Key, at: int)
    requires JobsOk(w) && key in w.tables.jobs && key in w.rosters && Ready(w.tables.jobs[key], at)
    ensures at >= NextSlot(w.rosters[key].since, w.tables.jobs[key].attemptCount)
  {
    assert JobOk(w, key);
  }

  lemma ReclaimedAttempt(w: World, key: Key, members: seq<MessageId>, token: Token, at: int)
    requires Reclaims(w, key, members, token, at)
    ensures AttemptOk(Reclaimed(w, key, members, token, at), token)
  {
    hide MailerOk, EntriesOk, ResultsOk, LocksOk, IsRoster, RostersOk, KeysOk, AttemptsOk;
    assert JobOk(w, key);
    JobsAreLeased(w, key);
    if key in w.rosters {
      SlotIsOver(w, key, at);
      ReclaimedRosterIsFrozen(w, key, members);
      RosterSince(w, key);
    }
    hide JobsOk;
  }

  lemma ReclaimKeepsJobs(w: World, key: Key, members: seq<MessageId>, token: Token, at: int)
    requires Reclaims(w, key, members, token, at)
    ensures JobsOk(Reclaimed(w, key, members, token, at))
  {
    hide MailerOk, EntriesOk, ResultsOk, LocksOk, IsRoster, RostersOk, KeysOk, AttemptsOk;
    var r := Reclaimed(w, key, members, token, at);
    assert JobOk(w, key);
    JobsAreLeased(w, key);
    if key in w.rosters {
      SlotIsOver(w, key, at);
      RosterSince(w, key);
    }
    forall k | k in r.tables.jobs ensures JobOk(r, k) {
      assert JobOk(w, k);
    }
  }

  /** The new claim is the highest-numbered of its job. */
  lemma ReclaimKeepsAttempts(w: World, key: Key, members: seq<MessageId>, token: Token, at: int)
    requires Reclaims(w, key, members, token, at)
    ensures AttemptsOk(Reclaimed(w, key, members, token, at))
  {
    hide MailerOk, EntriesOk, ResultsOk, LocksOk, IsRoster, RostersOk, KeysOk;
    var r := Reclaimed(w, key, members, token, at);
    assert JobOk(w, key);
    JobsAreLeased(w, key);
    hide JobsOk;
    ReclaimedAttempt(w, key, members, token, at);
    forall t | t in w.attempts ensures AttemptOk(r, t) && (w.attempts[t].key == key ==> w.attempts[t].attemptCount <= w.tables.jobs[key].attemptCount) {
      assert AttemptOk(w, t);
    }
    hide AttemptOk;
  }

  lemma JobsAreLeased(w: World, key: Key)
    requires KeysOk(w) && key in w.tables.jobs
    ensures IsLeased(key) && (key in w.rosters || (key.AttachmentKey? && IsPending(w.tables, key.message) && w.tables.messages[key.message].lane == AttachmentLane))
  {
  }

  lemma RosterSince(w: World, key: Key)
    requires RostersOk(w) && key in w.rosters
    ensures w.rosters[key].since <= w.now
  {
    assert RosterOk(w, key);
  }

  lemma ReclaimKeepsValid(w: World, key: Key, members: seq<MessageId>, token: Token, at: int)
    requires Reclaims(w, key, members, token, at)
    ensures Valid(Reclaimed(w, key, members, token, at))
  {
    ReclaimKeepsTables(w, key, members, token, at);
    ReclaimKeepsResults(w, key, members, token, at);
    ReclaimKeepsRosters(w, key, members, token, at);
    ReclaimKeepsJobs(w, key, members, token, at);
    ReclaimKeepsAttempts(w, key, members, token, at);
    hide Reclaimed, EntriesOk, KeysOk, RostersOk, JobsOk, AttemptsOk, MailerOk, ResultsOk, LocksOk;
  }

  // --- Completing a claim -------------------------------------------------------------------------------

  /** The tables after the claim `token` completed. */
  ghost function Completed(w: World, token: Token, outcome: Outcome, at: int): World
    requires token in w.attempts && (outcome.Accept? ==> |outcome.ids| == |w.attempts[token].members|)
  {
    var a := w.attempts[token];
    w.(tables := Complete(w.tables, a.key, token, a.members, a.attemptCount, outcome, at))
  }

  ghost predicate Completes(w: World, token: Token, outcome: Outcome, at: int) {
    && Valid(w) && token in w.attempts && IsLeased(w.attempts[token].key) && Owns(w.tables, w.attempts[token].key, token)
    && w.attempts[token].claimedAt <= at <= w.now
    && (outcome.Accept? ==> w.attempts[token].reply == Some(Answer(outcome.ids)) && |outcome.ids| == |w.attempts[token].members|)
    && (outcome.Finish? ==> outcome.state in {Failed, Indeterminate})
  }

  /** The owner's messages are all PENDING: the guards behind the lease check never fail. */
  lemma OwnedArePending(w: World, token: Token)
    requires EntriesOk(w.tables) && KeysOk(w) && RostersOk(w) && AttemptsOk(w)
    requires token in w.attempts && w.attempts[token].key in w.tables.jobs
    ensures AllPending(w.tables, w.attempts[token].members)
  {
    var a := w.attempts[token];
    assert AttemptOk(w, token);
    assert RosterOk(w, a.key);
    if a.key.BatchKey? {
      forall m | m in a.members ensures IsPending(w.tables, m) {
        var i :| 0 <= i < |a.members| && a.members[i] == m;
      }
    }
  }

  // A retry changes one job.

  lemma RetryKeepsJobs(w: World, token: Token, at: int)
    requires Completes(w, token, Retry, at)
    ensures JobsOk(Completed(w, token, Retry, at))
  {
    hide EntriesOk, KeysOk, RostersOk, MailerOk, ResultsOk, LocksOk;
    var r := Completed(w, token, Retry, at);
    var a := w.attempts[token];
    assert AttemptOk(w, token) && JobOk(w, a.key);
    forall k | k in r.tables.jobs ensures JobOk(r, k) {
      assert JobOk(w, k);
    }
  }

  lemma RetryKeepsValid(w: World, token: Token, at: int)
    requires Completes(w, token, Retry, at)
    ensures Valid(Completed(w, token, Retry, at))
  {
    hide JobsOk, MailerOk, ResultsOk, LocksOk, RostersOk, AttemptsOk;
    RetryKeepsJobs(w, token, at);
    SameRowsKeep(w, Completed(w, token, Retry, at));
  }

  /** Only the lease columns of the jobs differ. */
  lemma SameRowsKeep(w: World, r: World)
    requires r == w.(tables := w.tables.(jobs := r.tables.jobs)) && r.tables.jobs.Keys == w.tables.jobs.Keys
    requires forall k | k in w.tables.jobs :: r.tables.jobs[k].attemptCount == w.tables.jobs[k].attemptCount
    ensures RostersOk(w) ==> RostersOk(r)
    ensures AttemptsOk(w) ==> AttemptsOk(r)
    ensures MailerOk(w) ==> MailerOk(r)
    ensures ResultsOk(w) ==> ResultsOk(r)
    ensures LocksOk(w) ==> LocksOk(r)
  {
    hide LogOk, SentOnce;
    forall k | RostersOk(w) && k in w.rosters ensures RosterOk(r, k) {
      assert RosterOk(w, k);
    }
    forall t | AttemptsOk(w) && t in w.attempts ensures AttemptOk(r, t) {
      assert AttemptOk(w, t);
    }
  }

  // Accepting and finishing change the members and delete the job with its entries.

  /** What becomes of a row. */
  function RowAfter(a: Attempt, outcome: Outcome, m: MessageId, row: Row): Row
    requires m in a.members && (outcome.Accept? ==> |outcome.ids| == |a.members|)
  {
    match outcome
    case Accept(ids) => row.(state := Accepted, resendEmailId := Some(ids[IndexOf(a.members, m)]))
    case Finish(state) => row.(state := state)
    case Retry => row
  }

  /** The tables after a terminal outcome, table by table. */
  lemma CompletedIs(w: World, token: Token, outcome: Outcome, at: int)
    requires Completes(w, token, outcome, at) && !outcome.Retry?
    ensures var a, t, r := w.attempts[token], w.tables, Completed(w, token, outcome, at).tables;
            && r.messages.Keys == t.messages.Keys
            && (forall m | m in a.members :: IsPending(t, m) && r.messages[m] == RowAfter(a, outcome, m, t.messages[m]))
            && (forall m | m in t.messages && m !in a.members :: r.messages[m] == t.messages[m])
            && r.jobs == t.jobs - {a.key}
            && (forall m :: m in r.entries <==> m in t.entries && m !in a.members)
            && (forall m | m in r.entries :: r.entries[m] == t.entries[m])
  {
    hide JobsOk, MailerOk, ResultsOk, LocksOk;
    OwnedArePending(w, token);
    var a := w.attempts[token];
    assert AttemptOk(w, token) && RosterOk(w, a.key);
    hide AttemptsOk, RostersOk, KeysOk;
    forall m | m in w.tables.entries
      ensures m in a.members <==> w.tables.entries[m].slot.Some? && BatchKey(w.tables.entries[m].slot.value.batch) == a.key
    {
      if m in a.members && a.key.BatchKey? {
        var i :| 0 <= i < |a.members| && a.members[i] == m;
      }
    }
  }

  /** What a terminal outcome means to the other tables: the members are no longer PENDING, and
      the job and the entries of the members are gone. */
  ghost predicate Closes(w: World, r: World, key: Key, members: seq<MessageId>) {
    && r == w.(tables := r.tables)
    && r.tables.messages.Keys == w.tables.messages.Keys
    && (forall m | m in w.tables.messages :: r.tables.messages[m].lane == w.tables.messages[m].lane && r.tables.messages[m].createdAt == w.tables.messages[m].createdAt)
    && (forall m | m in members :: IsPending(w.tables, m) && !IsPending(r.tables, m))
    && (forall m | m in w.tables.messages && m !in members :: r.tables.messages[m] == w.tables.messages[m])
    && r.tables.jobs == w.tables.jobs - {key}
    && (forall m :: m in r.tables.entries <==> m in w.tables.entries && m !in members)
    && (forall m | m in r.tables.entries :: r.tables.entries[m] == w.tables.entries[m])
  }

  lemma CompletedCloses(w: World, token: Token, outcome: Outcome, at: int)
    requires Completes(w, token, outcome, at) && !outcome.Retry?
    ensures Closes(w, Completed(w, token, outcome, at), w.attempts[token].key, w.attempts[token].members)
  {
    hide EntriesOk, KeysOk, RostersOk, JobsOk, AttemptsOk, MailerOk, ResultsOk, LocksOk, Completed;
    CompletedIs(w, token, outcome, at);
    CompletedTables(w, token, outcome, at);
  }

  lemma CloseKeepsEntries(w: World, r: World, key: Key, members: seq<MessageId>)
    requires EntriesOk(w.tables) && Closes(w, r, key, members)
    requires forall m | m in w.tables.entries && w.tables.entries[m].slot.Some? && BatchKey(w.tables.entries[m].slot.value.batch) == key :: m in members
    ensures EntriesOk(r.tables)
  {
  }

  lemma CloseKeepsKeys(w: World, r: World, key: Key, members: seq<MessageId>)
    requires KeysOk(w) && Closes(w, r, key, members) && IsLeased(key)
    requires if key.AttachmentKey? then members == [key.message] else forall m | m in members :: m in w.tables.messages && w.tables.messages[m].lane == BatchLane
    ensures KeysOk(r)
  {
    hide IsPending;
    forall m | IsPending(r.tables, m) ensures m !in members && m in w.tables.messages && IsPending(w.tables, m) {
      SamePending(w, r, key, members, m);
    }
    forall m | IsPending(w.tables, m) && m !in members ensures IsPending(r.tables, m) && m in r.tables.messages {
      SamePending(w, r, key, members, m);
    }
  }

  lemma SamePending(w: World, r: World, key: Key, members: seq<MessageId>, m: MessageId)
    requires Closes(w, r, key, members)
    ensures IsPending(r.tables, m) <==> IsPending(w.tables, m) && m !in members
    ensures IsPending(w.tables, m) ==> m in w.tables.messages
  {
  }

  lemma CompleteKeepsTables(w: World, token: Token, outcome: Outcome, at: int)
    requires Completes(w, token, outcome, at) && !outcome.Retry?
    ensures var r := Completed(w, token, outcome, at); EntriesOk(r.tables) && KeysOk(r)
  {
    CompletedCloses(w, token, outcome, at);
    hide JobsOk, MailerOk, ResultsOk, LocksOk, Completed, EntriesOk, KeysOk, Closes, IsPending;
    var a, r := w.attempts[token], Completed(w, token, outcome, at);
    assert AttemptOk(w, token) && RosterOk(w, a.key);
    hide AttemptsOk, RostersOk, IsRoster;
    forall m | m in w.tables.entries && w.tables.entries[m].slot.Some? && BatchKey(w.tables.entries[m].slot.value.batch) == a.key ensures m in a.members {
      SlotHolderIsMember(w, token, m);
    }
    CloseKeepsEntries(w, r, a.key, a.members);
    CloseKeepsKeys(w, r, a.key, a.members);
  }

  lemma CompletedTables(w: World, token: Token, outcome: Outcome, at: int)
    requires token in w.attempts && (outcome.Accept? ==> |outcome.ids| == |w.attempts[token].members|)
    ensures Completed(w, token, outcome, at) == w.(tables := Completed(w, token, outcome, at).tables)
  {
  }

  lemma SlotHolderIsMember(w: World, token: Token, m: MessageId)
    requires Valid(w) && token in w.attempts && w.attempts[token].key in w.tables.jobs
    requires m in w.tables.entries && w.tables.entries[m].slot.Some? && BatchKey(w.tables.entries[m].slot.value.batch) == w.attempts[token].key
    ensures m in w.attempts[token].members
  {
    assert AttemptOk(w, token) && RosterOk(w, w.attempts[token].key);
  }

  lemma CloseKeepsRoster(w: World, r: World, key: Key, k: Key)
    requires RostersOk(w) && key in w.rosters && k in w.rosters && Closes(w, r, key, w.rosters[key].members)
    ensures RosterOk(r, k)
  {
    assert RosterOk(w, k);
    if k != key {
      forall m | m in w.rosters[k].members ensures m !in w.rosters[key].members {
      }
      hide RostersOk;
      CloseKeepsOtherRoster(w, r, key, k);
    }
  }

  lemma CloseKeepsOtherRoster(w: World, r: World, key: Key, k: Key)
    requires key in w.rosters && k in w.rosters && RosterOk(w, k) && k != key && Closes(w, r, key, w.rosters[key].members)
    requires forall m | m in w.rosters[k].members :: m !in w.rosters[key].members
    ensures RosterOk(r, k)
  {
  }

  lemma CompleteKeepsRosters(w: World, token: Token, outcome: Outcome, at: int)
    requires Completes(w, token, outcome, at) && !outcome.Retry?
    ensures RostersOk(Completed(w, token, outcome, at))
  {
    hide JobsOk, MailerOk, ResultsOk, LocksOk, Completed, KeysOk, EntriesOk;
    CompletedCloses(w, token, outcome, at);
    var a, r := w.attempts[token], Completed(w, token, outcome, at);
    assert AttemptOk(w, token);
    hide AttemptsOk;
    forall k | k in r.rosters ensures RosterOk(r, k) {
      CloseKeepsRoster(w, r, a.key, k);
    }
    hide RosterOk;
  }

  lemma CompleteKeepsClaims(w: World, token: Token, outcome: Outcome, at: int)
    requires Completes(w, token, outcome, at) && !outcome.Retry?
    ensures var r := Completed(w, token, outcome, at); JobsOk(r) && AttemptsOk(r) && MailerOk(r)
  {
    hide ResultsOk, LocksOk, Completed, RostersOk, KeysOk, EntriesOk, LogOk, SentOnce;
    CompletedIs(w, token, outcome, at);
    CompletedTables(w, token, outcome, at);
    var r := Completed(w, token, outcome, at);
    forall k | k in r.tables.jobs ensures JobOk(r, k) {
      assert JobOk(w, k);
    }
    forall t | t in r.attempts ensures AttemptOk(r, t) {
      assert AttemptOk(w, t);
    }
  }

  /** The id stored for a member is the one under which the provider sent that member. */
  lemma AcceptedIdIsSent(w: World, token: Token, outcome: Outcome, at: int, m: MessageId)
    requires Completes(w, token, outcome, at) && outcome.Accept? && m in w.attempts[token].members
    ensures Provider.Sent(m, outcome.ids[IndexOf(w.attempts[token].members, m)]) in w.mailer.log
  {
    hide EntriesOk, KeysOk, RostersOk, JobsOk, ResultsOk, LocksOk;
    var a := w.attempts[token];
    assert AttemptOk(w, token);
    var i := IndexOf(a.members, m);
    assert At(w.mailer, a.key, i, Provider.Sent(m, outcome.ids[i]));
  }

  lemma CompleteKeepsLocks(w: World, token: Token, outcome: Outcome, at: int)
    requires Completes(w, token, outcome, at) && !outcome.Retry?
    ensures LocksOk(Completed(w, token, outcome, at))
  {
    CompletedCloses(w, token, outcome, at);
    hide Completed, KeysOk, EntriesOk, MailerOk, JobsOk, ResultsOk, RostersOk, AttemptsOk;
    forall m | m in w.locks ensures m !in w.attempts[token].members {
      LockedIsSync(w, m);
      SyncIsNoMember(w, token, m);
    }
  }

  lemma SyncIsNoMember(w: World, token: Token, m: MessageId)
    requires AttemptsOk(w) && RostersOk(w) && token in w.attempts && IsLeased(w.attempts[token].key)
    requires m in w.tables.messages && w.tables.messages[m].lane == SyncLane
    ensures m !in w.attempts[token].members
  {
    assert AttemptOk(w, token) && RosterOk(w, w.attempts[token].key);
  }

  lemma LockedIsSync(w: World, m: MessageId)
    requires Valid(w) && m in w.locks
    ensures m in w.tables.messages && w.tables.messages[m].lane == SyncLane
  {
    hide EntriesOk, KeysOk, JobsOk, MailerOk, ResultsOk;
    SyncLaneOf(w, w.locks[m]);
  }

  lemma CompleteKeepsResults(w: World, token: Token, outcome: Outcome, at: int)
    requires Completes(w, token, outcome, at) && !outcome.Retry?
    ensures var r := Completed(w, token, outcome, at); ResultsOk(r)
  {
    hide Completed, KeysOk, EntriesOk, MailerOk, JobsOk, LocksOk, RostersOk, AttemptsOk;
    CompletedIs(w, token, outcome, at);
    CompletedTables(w, token, outcome, at);
    var a, r := w.attempts[token], Completed(w, token, outcome, at);
    forall m | m in r.tables.messages ensures
      match r.tables.messages[m].resendEmailId
      case Some(id) => r.tables.messages[m].state == Accepted && Provider.Sent(m, id) in w.mailer.log
      case None => r.tables.messages[m].state != Accepted
    {
      if m in a.members {
        RowResult(w, m);
        if outcome.Accept? {
          AcceptedIdIsSent(w, token, outcome, at, m);
        }
      }
    }
  }

  lemma CompleteKeepsValid(w: World, token: Token, outcome: Outcome, at: int)
    requires Completes(w, token, outcome, at)
    ensures Valid(Completed(w, token, outcome, at))
  {
    if outcome.Retry? {
      RetryKeepsValid(w, token, at);
    } else {
      CompleteKeepsTables(w, token, outcome, at);
      CompleteKeepsRosters(w, token, outcome, at);
      CompleteKeepsClaims(w, token, outcome, at);
      CompleteKeepsResults(w, token, outcome, at);
      CompleteKeepsLocks(w, token, outcome, at);
      hide Completed, EntriesOk, KeysOk, RostersOk, JobsOk, AttemptsOk, MailerOk, ResultsOk, LocksOk;
    }
  }

  // --- The request reaches the provider -----------------------------------------------------------------

  /** 23 hours up to the claim and one hour in transit stay within the 24 hours of retention. */
  lemma SubmissionIsHonest(w: World, token: Token)
    requires AttemptsOk(w) && MailerOk(w) && RostersOk(w)
    requires token in w.attempts && w.attempts[token].submitted && w.now <= w.attempts[token].claimedAt + TRANSIT
    ensures Honest(w.mailer, w.attempts[token].key, w.attempts[token].members, w.now)
  {
    hide SentOnce, LogOk;
    var a := w.attempts[token];
    assert AttemptOk(w, token);
    assert RosterOk(w, a.key);
    hide RosterOk, AttemptOk;
  }

  lemma ArriveKeepsValid(w: World, token: Token, drawn: seq<string>)
    requires Valid(w) && Enabled(w, Arrive(token, drawn))
    ensures Valid(Apply(w, Arrive(token, drawn)))
  {
    var a, r := w.attempts[token], Apply(w, Arrive(token, drawn));
    SubmissionIsHonest(w, token);
    ProcessKeepsSentOnce(w.mailer, a.key, a.members, w.now, drawn);
    ArriveKeepsMailer(w, token, drawn);
    ArriveKeepsClaims(w, token, drawn);
    ArriveKeepsTables(w, token, drawn);
    hide Apply, EntriesOk, KeysOk, RostersOk, JobsOk, AttemptsOk, MailerOk, ResultsOk, LocksOk;
  }

  lemma ArriveKeepsTables(w: World, token: Token, drawn: seq<string>)
    requires Valid(w) && Enabled(w, Arrive(token, drawn))
    requires w.mailer.log <= Apply(w, Arrive(token, drawn)).mailer.log
    ensures var r := Apply(w, Arrive(token, drawn)); EntriesOk(r.tables) && KeysOk(r) && RostersOk(r) && ResultsOk(r) && LocksOk(r)
  {
    hide MailerOk, JobsOk, AttemptsOk, RostersOk, EntriesOk, KeysOk, Process;
    var r := Apply(w, Arrive(token, drawn));
    assert r.tables == w.tables && r.rosters == w.rosters && r.now == w.now && r.locks == w.locks;
    RostersSame(w, r);
    KeysSame(w, r);
    forall m | m in w.tables.messages && w.tables.messages[m].resendEmailId.Some?
      ensures Provider.Sent(m, w.tables.messages[m].resendEmailId.value) in r.mailer.log
    {
      assert Provider.Sent(m, w.tables.messages[m].resendEmailId.value) in w.mailer.log;
    }
  }

  lemma KeysSame(w: World, r: World)
    requires KeysOk(w) && r.tables == w.tables && r.rosters == w.rosters && r.now == w.now
    ensures KeysOk(r)
  {
  }

  lemma ArriveKeepsMailer(w: World, token: Token, drawn: seq<string>)
    requires Valid(w) && Enabled(w, Arrive(token, drawn))
    ensures MailerOk(Apply(w, Arrive(token, drawn)))
  {
    hide EntriesOk, KeysOk, RostersOk, JobsOk, ResultsOk, LocksOk;
    var a := w.attempts[token];
    assert AttemptOk(w, token);
    SubmissionIsHonest(w, token);
    ProcessKeepsSentOnce(w.mailer, a.key, a.members, w.now, drawn);
    hide SentOnce, LogOk, AttemptsOk;
  }

  lemma ArriveKeepsClaims(w: World, token: Token, drawn: seq<string>)
    requires Valid(w) && Enabled(w, Arrive(token, drawn))
    ensures var r := Apply(w, Arrive(token, drawn)); JobsOk(r) && AttemptsOk(r)
  {
    hide EntriesOk, KeysOk, RostersOk, ResultsOk, LocksOk, SentOnce, LogOk;
    var a, r := w.attempts[token], Apply(w, Arrive(token, drawn));
    SubmissionIsHonest(w, token);
    ProcessKeepsSentOnce(w.mailer, a.key, a.members, w.now, drawn);
    hide Process;
    forall k | k in r.tables.jobs ensures JobOk(r, k) {
      assert JobOk(w, k);
    }
    forall t | t in r.attempts ensures AttemptOk(r, t) {
      assert AttemptOk(w, t);
    }
  }

  // --- The other steps ------------------------------------------------------------------------------------

  /** Rosters do not see new messages and new requests. */
  lemma RostersFrame(w: World, r: World)
    requires RostersOk(w) && r.rosters == w.rosters && w.now <= r.now
    requires forall m | m in w.tables.messages ::
               && m in r.tables.messages && r.tables.messages[m].lane == w.tables.messages[m].lane
               && r.tables.messages[m].createdAt == w.tables.messages[m].createdAt && (IsPending(r.tables, m) ==> IsPending(w.tables, m))
    requires forall m | m in r.tables.messages && m !in w.tables.messages :: r.tables.messages[m].lane != SyncLane
    requires forall m | m in w.tables.entries :: m in r.tables.entries && r.tables.entries[m] == w.tables.entries[m]
    requires forall m | m in r.tables.entries && m !in w.tables.entries :: r.tables.entries[m].slot.None?
    requires forall b :: BatchKey(b) in r.tables.jobs <==> BatchKey(b) in w.tables.jobs
    ensures RostersOk(r)
  {
    forall k | k in r.rosters ensures RosterOk(r, k) {
      RosterFrame(w, r, k);
    }
    hide RosterOk;
  }

  lemma RosterFrame(w: World, r: World, k: Key)
    requires k in w.rosters && RosterOk(w, k) && r.rosters == w.rosters && w.now <= r.now
    requires forall m | m in w.tables.messages ::
               && m in r.tables.messages && r.tables.messages[m].lane == w.tables.messages[m].lane
               && r.tables.messages[m].createdAt == w.tables.messages[m].createdAt && (IsPending(r.tables, m) ==> IsPending(w.tables, m))
    requires forall m | m in w.tables.entries :: m in r.tables.entries && r.tables.entries[m] == w.tables.entries[m]
    requires forall m | m in r.tables.entries && m !in w.tables.entries :: r.tables.entries[m].slot.None?
    requires forall b :: BatchKey(b) in r.tables.jobs <==> BatchKey(b) in w.tables.jobs
    ensures RosterOk(r, k)
  {
  }

  /** Claims do not see changes of rows, new jobs and later requests. */
  lemma ClaimsFrame(w: World, r: World)
    requires JobsOk(w) && w.now <= r.now && r.mailer == w.mailer
    requires forall k | k in w.rosters :: k in r.rosters && r.rosters[k] == w.rosters[k]
    requires forall k | k in r.rosters && k !in w.rosters :: k.SyncKey? && k !in w.tables.jobs
    requires forall k | k in w.tables.jobs :: k in r.tables.jobs && r.tables.jobs[k] == w.tables.jobs[k]
    requires forall k | k in r.tables.jobs && k !in w.tables.jobs ::
               k !in r.rosters && k !in w.rosters && r.tables.jobs[k].attemptCount == 0 && r.tables.jobs[k].firstAttemptAt.None?
               && r.tables.jobs[k].leaseToken.None? && r.tables.jobs[k].leaseUntil.None?
    requires forall t | t in w.attempts ::
               t in r.attempts && r.attempts[t] == w.attempts[t].(submitted := r.attempts[t].submitted)
    ensures JobsOk(r)
    ensures forall t | t in w.attempts && AttemptOk(w, t) && r.attempts[t] == w.attempts[t] :: AttemptOk(r, t)
  {
    forall k | k in r.tables.jobs ensures JobOk(r, k) {
      if k in w.tables.jobs {
        assert JobOk(w, k);
      }
    }
  }

  /** The same tables at a later time. */
  lemma RostersSame(w: World, r: World)
    requires RostersOk(w) && r.tables == w.tables && r.rosters == w.rosters && w.now <= r.now
    ensures RostersOk(r)
  {
    forall k | k in r.rosters ensures RosterOk(r, k) {
      assert RosterOk(w, k);
    }
    hide RosterOk;
  }

  /** The same tables at a later time, perhaps with more requests. */
  lemma ClaimsSame(w: World, r: World)
    requires JobsOk(w) && r.tables == w.tables && r.rosters == w.rosters && r.mailer == w.mailer && w.now <= r.now
    requires forall t | t in w.attempts :: t in r.attempts && r.attempts[t].key == w.attempts[t].key && r.attempts[t].attemptCount == w.attempts[t].attemptCount
    ensures JobsOk(r)
    ensures forall t | t in w.attempts && AttemptOk(w, t) && r.attempts[t] == w.attempts[t] :: AttemptOk(r, t)
  {
    forall k | k in r.tables.jobs ensures JobOk(r, k) {
      assert JobOk(w, k);
    }
    hide JobOk;
  }

  /** The mailer sees only the rosters. */
  lemma MailerFrame(w: World, r: World)
    requires MailerOk(w) && r.mailer == w.mailer && forall k | k in w.rosters :: k in r.rosters && r.rosters[k] == w.rosters[k]
    ensures MailerOk(r)
  {
    hide SentOnce, LogOk;
  }

  lemma SameTablesFrame(w: World, r: World)
    requires KeysOk(w) && ResultsOk(w) && r.tables == w.tables && r.mailer == w.mailer && w.now <= r.now
    requires forall k | k in w.rosters :: k in r.rosters
    ensures KeysOk(r) && ResultsOk(r)
  {
  }

  lemma SubmitKeepsLocks(w: World, token: Token, at: int)
    requires LocksOk(w) && Enabled(w, Submit(token, at))
    ensures LocksOk(Apply(w, Submit(token, at)))
  {
  }

  lemma SubmittedAttempt(w: World, token: Token, at: int)
    requires AttemptsOk(w) && Enabled(w, Submit(token, at))
    ensures AttemptOk(Apply(w, Submit(token, at)), token)
  {
    assert AttemptOk(w, token);
  }

  lemma OneAttemptUpdated(w: World, r: World, token: Token, a: Attempt)
    requires AttemptsOk(w) && token in w.attempts && r.attempts == w.attempts[token := a]
    requires a.key == w.attempts[token].key && a.attemptCount == w.attempts[token].attemptCount
    requires AttemptOk(r, token) && forall t | t in w.attempts && t != token && AttemptOk(w, t) :: AttemptOk(r, t)
    ensures AttemptsOk(r)
  {
    hide AttemptOk;
  }

  lemma SubmitKeepsClaims(w: World, token: Token, at: int)
    requires Valid(w) && Enabled(w, Submit(token, at))
    ensures var r := Apply(w, Submit(token, at)); JobsOk(r) && AttemptsOk(r) && LocksOk(r)
  {
    hide EntriesOk, KeysOk, RostersOk, JobsOk, AttemptsOk, MailerOk, ResultsOk, LocksOk, AttemptOk;
    SubmitKeepsLocks(w, token, at);
    SubmittedAttempt(w, token, at);
    var r := Apply(w, Submit(token, at));
    ClaimsSame(w, r);
    OneAttemptUpdated(w, r, token, r.attempts[token]);
  }

  lemma SubmitKeepsValid(w: World, token: Token, at: int)
    requires Valid(w) && Enabled(w, Submit(token, at))
    ensures Valid(Apply(w, Submit(token, at)))
  {
    SubmitKeepsClaims(w, token, at);
    hide EntriesOk, KeysOk, RostersOk, JobsOk, AttemptsOk, MailerOk, ResultsOk, LocksOk;
    var r := Apply(w, Submit(token, at));
    RostersSame(w, r);
    MailerFrame(w, r);
    SameTablesFrame(w, r);
  }

  lemma TickKeepsValid(w: World, to: int)
    requires Valid(w) && w.now <= to
    ensures Valid(w.(now := to))
  {
    hide EntriesOk, KeysOk, RostersOk, JobsOk, AttemptsOk, MailerOk, ResultsOk, LocksOk, AttemptOk;
    var r := w.(now := to);
    RostersSame(w, r);
    ClaimsSame(w, r);
    MailerFrame(w, r);
    SameTablesFrame(w, r);
    SameAttempts(w, r);
    LocksFrame(w, r);
  }

  lemma QueueKeepsTables(w: World, m: MessageId, lane: Lane, stamped: int)
    requires EntriesOk(w.tables) && KeysOk(w) && Enabled(w, Queue(m, lane, stamped))
    ensures var r := Apply(w, Queue(m, lane, stamped)); EntriesOk(r.tables) && KeysOk(r)
  {
  }

  lemma QueueKeepsResults(w: World, m: MessageId, lane: Lane, stamped: int)
    requires ResultsOk(w) && LocksOk(w) && Enabled(w, Queue(m, lane, stamped))
    ensures var r := Apply(w, Queue(m, lane, stamped)); ResultsOk(r) && LocksOk(r)
  {
  }

  lemma QueueKeepsRosters(w: World, m: MessageId, lane: Lane, stamped: int)
    requires RostersOk(w) && Enabled(w, Queue(m, lane, stamped)) && m !in w.tables.entries
    ensures RostersOk(Apply(w, Queue(m, lane, stamped)))
  {
    hide RostersOk;
    RostersFrame(w, Apply(w, Queue(m, lane, stamped)));
  }

  lemma QueueKeepsClaims(w: World, m: MessageId, lane: Lane, stamped: int)
    requires JobsOk(w) && AttemptsOk(w) && MailerOk(w) && Enabled(w, Queue(m, lane, stamped))
    requires AttachmentKey(m) !in w.tables.jobs && AttachmentKey(m) !in w.rosters
    ensures var r := Apply(w, Queue(m, lane, stamped)); JobsOk(r) && AttemptsOk(r) && MailerOk(r)
  {
    hide JobsOk, AttemptsOk, MailerOk, AttemptOk;
    var r := Apply(w, Queue(m, lane, stamped));
    ClaimsFrame(w, r);
    MailerFrame(w, r);
    SameAttempts(w, r);
  }

  lemma QueueKeepsValid(w: World, m: MessageId, lane: Lane, stamped: int)
    requires Valid(w) && Enabled(w, Queue(m, lane, stamped))
    ensures Valid(Apply(w, Queue(m, lane, stamped)))
  {
    NewMessageIsNowhere(w, m);
    hide EntriesOk, KeysOk, RostersOk, JobsOk, AttemptsOk, MailerOk, ResultsOk, LocksOk;
    QueueKeepsTables(w, m, lane, stamped);
    QueueKeepsResults(w, m, lane, stamped);
    QueueKeepsRosters(w, m, lane, stamped);
    QueueKeepsClaims(w, m, lane, stamped);
  }

  /** Requests are as before. */
  lemma SameAttempts(w: World, r: World)
    requires AttemptsOk(w) && r.attempts == w.attempts && forall t | t in w.attempts && AttemptOk(w, t) :: AttemptOk(r, t)
    ensures AttemptsOk(r)
  {
    hide AttemptOk;
  }

  lemma NewMessageIsNowhere(w: World, m: MessageId)
    requires Valid(w) && m !in w.tables.messages
    ensures m !in w.tables.entries && AttachmentKey(m) !in w.tables.jobs && AttachmentKey(m) !in w.rosters && SyncKey(m) !in w.rosters
    ensures forall k | k in w.rosters :: m !in w.rosters[k].members
  {
    hide SentOnce, LogOk, AttemptsOk, JobsOk;
    forall k | k in w.rosters ensures m !in w.rosters[k].members && k != AttachmentKey(m) && k != SyncKey(m) {
      assert RosterOk(w, k);
    }
  }

  lemma IntendKeepsRosters(w: World, m: MessageId, token: Token, stamped: int)
    requires Valid(w) && Enabled(w, Intend(m, token, stamped))
    ensures RostersOk(Apply(w, Intend(m, token, stamped)))
  {
    NewMessageIsNowhere(w, m);
    hide EntriesOk, KeysOk, JobsOk, AttemptsOk, MailerOk, ResultsOk, LocksOk;
    var r := Apply(w, Intend(m, token, stamped));
    assert RosterOk(r, SyncKey(m));
    forall k | k in w.rosters ensures RosterOk(r, k) {
      assert RosterOk(w, k);
      OldRosterKept(w, r, m, k);
    }
    hide RosterOk;
  }

  lemma OldRosterKept(w: World, r: World, m: MessageId, k: Key)
    requires k in w.rosters && RosterOk(w, k) && k in r.rosters && r.rosters[k] == w.rosters[k] && w.now <= r.now
    requires r.tables.entries == w.tables.entries && r.tables.jobs == w.tables.jobs
    requires forall o | o in w.tables.messages :: o in r.tables.messages && r.tables.messages[o] == w.tables.messages[o]
    ensures RosterOk(r, k)
  {
  }

  lemma IntendKeepsTables(w: World, m: MessageId, token: Token, stamped: int)
    requires EntriesOk(w.tables) && KeysOk(w) && Enabled(w, Intend(m, token, stamped))
    ensures var r := Apply(w, Intend(m, token, stamped)); EntriesOk(r.tables) && KeysOk(r)
  {
  }

  lemma IntendKeepsResults(w: World, m: MessageId, token: Token, stamped: int)
    requires ResultsOk(w) && LocksOk(w) && Enabled(w, Intend(m, token, stamped))
    ensures var r := Apply(w, Intend(m, token, stamped)); ResultsOk(r) && LocksOk(r)
  {
  }

  lemma IntendKeepsClaims(w: World, m: MessageId, token: Token, stamped: int)
    requires Valid(w) && Enabled(w, Intend(m, token, stamped))
    ensures var r := Apply(w, Intend(m, token, stamped)); JobsOk(r) && AttemptsOk(r) && MailerOk(r)
  {
    hide EntriesOk, KeysOk, RostersOk, ResultsOk, LocksOk, MailerOk, JobsOk, AttemptsOk, AttemptOk;
    NewMessageIsNowhere(w, m);
    NewSyncKeyIsNoJob(w, m);
    var r := Apply(w, Intend(m, token, stamped));
    IntendedAttempt(w, m, token, stamped);
    assert r.tables.jobs == w.tables.jobs && r.mailer == w.mailer && r.now == w.now && r.rosters.Keys == w.rosters.Keys + {SyncKey(m)};
    assert r.attempts.Keys == w.attempts.Keys + {token} && token !in w.attempts && r.attempts[token].key.SyncKey?;
    assert forall t | t in w.attempts :: r.attempts[t] == w.attempts[t];
    assert forall k | k in w.rosters :: r.rosters[k] == w.rosters[k];
    hide Apply, Enabled;
    ClaimsFrame(w, r);
    MailerFrame(w, r);
    NewAttempt(w, r, token);
  }

  lemma IntendedAttempt(w: World, m: MessageId, token: Token, stamped: int)
    requires Enabled(w, Intend(m, token, stamped))
    ensures AttemptOk(Apply(w, Intend(m, token, stamped)), token)
  {
  }

  /** A request of the synchronous lane is added. */
  lemma NewAttempt(w: World, r: World, token: Token)
    requires AttemptsOk(w) && token !in w.attempts && r.attempts.Keys == w.attempts.Keys + {token}
    requires forall t | t in w.attempts :: r.attempts[t] == w.attempts[t]
    requires forall t | t in w.attempts && AttemptOk(w, t) :: AttemptOk(r, t)
    requires r.attempts[token].key.SyncKey?
    ensures AttemptOk(r, token) ==> AttemptsOk(r)
  {
    hide AttemptOk;
  }

  lemma NewSyncKeyIsNoJob(w: World, m: MessageId)
    requires KeysOk(w)
    ensures SyncKey(m) !in w.tables.jobs
  {
  }

  lemma IntendKeepsValid(w: World, m: MessageId, token: Token, stamped: int)
    requires Valid(w) && Enabled(w, Intend(m, token, stamped))
    ensures Valid(Apply(w, Intend(m, token, stamped)))
  {
    IntendKeepsRosters(w, m, token, stamped);
    IntendKeepsTables(w, m, token, stamped);
    IntendKeepsResults(w, m, token, stamped);
    IntendKeepsClaims(w, m, token, stamped);
    hide Apply, EntriesOk, KeysOk, RostersOk, JobsOk, AttemptsOk, MailerOk, ResultsOk, LocksOk;
  }

  lemma SyncRowKeepsTables(w: World, m: MessageId, row: Row)
    requires EntriesOk(w.tables) && KeysOk(w) && m in w.tables.messages && w.tables.messages[m].lane == SyncLane
    requires row.lane == SyncLane && row.createdAt == w.tables.messages[m].createdAt
    ensures var r := SetRow(w, m, row); EntriesOk(r.tables) && KeysOk(r)
  {
  }

  lemma SyncRowKeepsResults(w: World, m: MessageId, row: Row, locks: map<MessageId, Token>)
    requires ResultsOk(w) && LocksOk(w)
    requires match row.resendEmailId case Some(id) => row.state == Accepted && Provider.Sent(m, id) in w.mailer.log case None => row.state != Accepted
    requires forall o | o in locks :: o in w.locks && locks[o] == w.locks[o] && (o == m ==> row.state in {Pending, Indeterminate})
    ensures var r := SetRow(w, m, row).(locks := locks); ResultsOk(r) && LocksOk(r)
  {
  }

  lemma KeysIgnoreLocks(w: World, locks: map<MessageId, Token>)
    requires KeysOk(w)
    ensures KeysOk(w.(locks := locks))
  {
  }

  /** A change of the state of one synchronous message. */
  lemma SyncRowKeepsValid(w: World, m: MessageId, row: Row, locks: map<MessageId, Token>)
    requires Valid(w) && m in w.tables.messages && w.tables.messages[m].lane == SyncLane
    requires row.lane == SyncLane && row.createdAt == w.tables.messages[m].createdAt && (row.state == Pending ==> w.tables.messages[m].state == Pending)
    requires match row.resendEmailId case Some(id) => row.state == Accepted && Provider.Sent(m, id) in w.mailer.log case None => row.state != Accepted
    requires forall o | o in locks :: o in w.locks && locks[o] == w.locks[o] && (o == m ==> row.state in {Pending, Indeterminate})
    ensures Valid(SetRow(w, m, row).(locks := locks))
  {
    hide EntriesOk, KeysOk, RostersOk, JobsOk, AttemptsOk, MailerOk, ResultsOk, LocksOk, AttemptOk;
    SyncRowKeepsTables(w, m, row);
    KeysIgnoreLocks(SetRow(w, m, row), locks);
    SyncRowKeepsResults(w, m, row, locks);
    var r := SetRow(w, m, row).(locks := locks);
    RostersFrame(w, r);
    ClaimsFrame(w, r);
    MailerFrame(w, r);
    SameAttempts(w, r);
  }

  lemma RecoverKeepsValid(w: World, m: MessageId, token: Token, at: int)
    requires Valid(w) && Enabled(w, Recover(m, token, at))
    ensures Valid(Apply(w, Recover(m, token, at)))
  {
    var row := w.tables.messages[m];
    if row.state == Pending {
      if Expired(row.createdAt, at) {
        RowResult(w, m);
        SyncRowKeepsValid(w, m, row.(state := Indeterminate), w.locks);
      } else {
        RestartKeepsValid(w, m, token, at);
      }
    }
  }

  lemma RowResult(w: World, m: MessageId)
    requires ResultsOk(w) && m in w.tables.messages
    ensures w.tables.messages[m].state != Accepted ==> w.tables.messages[m].resendEmailId.None?
  {
  }

  lemma RestartKeepsClaims(w: World, m: MessageId, token: Token, at: int)
    requires Valid(w) && Enabled(w, Recover(m, token, at)) && !Expired(w.tables.messages[m].createdAt, at)
    ensures var r := StartSync(w, m, w.tables.messages[m].createdAt, token, at); JobsOk(r) && AttemptsOk(r)
  {
    hide EntriesOk, KeysOk, RostersOk, JobsOk, AttemptsOk, MailerOk, ResultsOk, LocksOk, AttemptOk;
    var r := StartSync(w, m, w.tables.messages[m].createdAt, token, at);
    RestartedAttempt(w, m, token, at);
    assert r == w.(attempts := r.attempts) && r.attempts.Keys == w.attempts.Keys + {token} && token !in w.attempts && r.attempts[token].key.SyncKey?;
    assert forall t | t in w.attempts :: r.attempts[t] == w.attempts[t];
    hide StartSync, Enabled;
    ClaimsSame(w, r);
    NewAttempt(w, r, token);
  }

  lemma MoreAttemptsKeepValid(w: World, r: World)
    requires Valid(w) && r == w.(attempts := r.attempts) && JobsOk(r) && AttemptsOk(r)
    requires forall t | t in w.attempts :: t in r.attempts && r.attempts[t].key == w.attempts[t].key && r.attempts[t].submitted == w.attempts[t].submitted
    ensures Valid(r)
  {
    hide EntriesOk, KeysOk, RostersOk, JobsOk, AttemptsOk, MailerOk, ResultsOk, LocksOk;
    RostersSame(w, r);
    MailerFrame(w, r);
    SameTablesFrame(w, r);
    LocksFrame(w, r);
  }

  lemma RestartKeepsValid(w: World, m: MessageId, token: Token, at: int)
    requires Valid(w) && Enabled(w, Recover(m, token, at)) && !Expired(w.tables.messages[m].createdAt, at)
    ensures Valid(StartSync(w, m, w.tables.messages[m].createdAt, token, at))
  {
    hide Valid;
    RestartKeepsClaims(w, m, token, at);
    MoreAttemptsKeepValid(w, StartSync(w, m, w.tables.messages[m].createdAt, token, at));
  }

  lemma RestartedAttempt(w: World, m: MessageId, token: Token, at: int)
    requires RostersOk(w) && KeysOk(w) && Enabled(w, Recover(m, token, at)) && !Expired(w.tables.messages[m].createdAt, at)
    ensures AttemptOk(StartSync(w, m, w.tables.messages[m].createdAt, token, at), token)
  {
    assert RosterOk(w, SyncKey(m));
  }

  lemma LocksFrame(w: World, r: World)
    requires LocksOk(w) && r.locks == w.locks && r.tables == w.tables
    requires forall t | t in w.attempts :: t in r.attempts && r.attempts[t].key == w.attempts[t].key && r.attempts[t].submitted == w.attempts[t].submitted
    ensures LocksOk(r)
  {
  }

  /** The id that a synchronous delivery stores is one the provider sent the message under. */
  lemma SyncAnswerIsSent(w: World, token: Token, ids: seq<string>)
    requires AttemptsOk(w) && MailerOk(w) && RostersOk(w)
    requires token in w.attempts && w.attempts[token].key.SyncKey? && w.attempts[token].reply == Some(Answer(ids))
    ensures |ids| == 1 && Provider.Sent(w.attempts[token].key.sync, ids[0]) in w.mailer.log
  {
    var a := w.attempts[token];
    assert AttemptOk(w, token);
    assert RosterOk(w, a.key);
    hide RostersOk, AttemptsOk, SentOnce;
    assert At(w.mailer, a.key, 0, Provider.Sent(a.key.sync, ids[0]));
  }

  lemma SyncSettleKeepsValid(w: World, token: Token, seen: Seen, at: int)
    requires Valid(w) && Enabled(w, Settle(token, seen, at)) && w.attempts[token].key.SyncKey?
    ensures Valid(Apply(w, Settle(token, seen, at)))
  {
    hide SentOnce, LogOk, EntriesOk, KeysOk, RosterOk, JobsOk, AttemptOk;
    var m := w.attempts[token].key.sync;
    assert w.tables.messages[m].state in {Pending, Indeterminate};
    RowResult(w, m);
    SyncLaneOf(w, token);
    if seen.Ids? {
      SyncAnswerIsSent(w, token, seen.ids);
    }
    SyncRowKeepsValid(w, m, SyncResult(w.tables.messages[m], seen), w.locks - {m});
  }

  lemma SyncLaneOf(w: World, token: Token)
    requires AttemptsOk(w) && RostersOk(w) && token in w.attempts && w.attempts[token].key.SyncKey?
    ensures var m := w.attempts[token].key.sync; m in w.tables.messages && w.tables.messages[m].lane == SyncLane
  {
    assert AttemptOk(w, token);
    assert RosterOk(w, w.attempts[token].key);
    assert w.attempts[token].key.sync in w.rosters[w.attempts[token].key].members;
  }

  lemma FewerLocksKeepValid(w: World, r: World)
    requires Valid(w) && r == w.(locks := r.locks)
    requires forall m | m in r.locks :: m in w.locks && r.locks[m] == w.locks[m]
    ensures Valid(r)
  {
    FewerLocks(w, r);
    hide EntriesOk, KeysOk, RostersOk, JobsOk, AttemptsOk, MailerOk, ResultsOk, LocksOk, AttemptOk;
    RostersSame(w, r);
    ClaimsSame(w, r);
    MailerFrame(w, r);
    SameTablesFrame(w, r);
    SameAttempts(w, r);
  }

  lemma AbortKeepsValid(w: World, token: Token)
    requires Valid(w) && Enabled(w, Abort(token))
    ensures Valid(Apply(w, Abort(token)))
  {
    hide Valid;
    FewerLocksKeepValid(w, Apply(w, Abort(token)));
  }

  lemma FewerLocks(w: World, r: World)
    requires LocksOk(w) && r.tables == w.tables && r.attempts == w.attempts
    requires forall m | m in r.locks :: m in w.locks && r.locks[m] == w.locks[m]
    ensures LocksOk(r)
  {
  }

  // --- Every step -------------------------------------------------------------------------------------------

  /** What the branch after the request decides is something the claim may do. */
  lemma DecisionCompletes(w: World, token: Token, seen: Seen, at: int)
    requires Valid(w) && Enabled(w, Settle(token, seen, at)) && IsLeased(w.attempts[token].key) && Owns(w.tables, w.attempts[token].key, token)
    ensures var a := w.attempts[token]; Completes(w, token, Decide(seen, |a.members|, Expired(a.firstAttemptAt, at)), at)
  {
    hide EntriesOk, KeysOk, RostersOk, JobsOk, AttemptsOk, MailerOk, ResultsOk, LocksOk;
  }

  lemma SettleKeepsValid(w: World, token: Token, seen: Seen, at: int)
    requires Valid(w) && Enabled(w, Settle(token, seen, at))
    ensures Valid(Apply(w, Settle(token, seen, at)))
  {
    var a := w.attempts[token];
    if a.key.SyncKey? {
      SyncSettleKeepsValid(w, token, seen, at);
    } else if Owns(w.tables, a.key, token) {
      DecisionCompletes(w, token, seen, at);
      CompleteKeepsValid(w, token, Decide(seen, |a.members|, Expired(a.firstAttemptAt, at)), at);
    }
  }

  lemma OpenStepKeepsValid(w: World, batch: nat, picked: seq<MessageId>, limit: nat, token: Token, at: int,
        stamped: int)
    requires Valid(w) && Enabled(w, Open(batch, picked, limit, token, at, stamped))
    ensures Valid(Apply(w, Open(batch, picked, limit, token, at, stamped)))
  {
    hide RostersOk, JobsOk, AttemptsOk, MailerOk, ResultsOk, LocksOk;
    PruningRemovesNothing(w);
    HeadHasNoDuplicates(w.tables, limit, picked);
    OpenKeepsValid(w, batch, picked, limit, token, at, stamped);
  }

  lemma ReclaimStepKeepsValid(w: World, key: Key, members: seq<MessageId>, token: Token, at: int)
    requires Valid(w) && Enabled(w, Reclaim(key, members, token, at))
    ensures Valid(Apply(w, Reclaim(key, members, token, at)))
  {
    hide RostersOk, JobsOk, AttemptsOk, MailerOk, ResultsOk, LocksOk;
    PruningRemovesNothing(w);
    ReclaimKeepsValid(w, key, members, token, at);
  }

  lemma ClaimIsPast(w: World, token: Token)
    requires AttemptsOk(w) && token in w.attempts
    ensures w.attempts[token].claimedAt <= w.now
  {
    assert AttemptOk(w, token);
  }

  lemma StepKeepsValid(w: World, step: Step)
    requires Valid(w) && Enabled(w, step)
    ensures Valid(Apply(w, step))
  {
    hide EntriesOk, KeysOk, RostersOk, JobsOk, AttemptsOk, MailerOk, ResultsOk, LocksOk;
    match step
    case Tick(to) => TickKeepsValid(w, to);
    case Queue(m, lane, stamped) => QueueKeepsValid(w, m, lane, stamped);
    case Intend(m, token, stamped) => IntendKeepsValid(w, m, token, stamped);
    case Recover(m, token, at) => RecoverKeepsValid(w, m, token, at);
    case Open(batch, picked, limit, token, at, stamped) => OpenStepKeepsValid(w, batch, picked, limit, token, at, stamped);
    case Reclaim(key, members, token, at) => ReclaimStepKeepsValid(w, key, members, token, at);
    case Submit(token, at) => SubmitKeepsValid(w, token, at);
    case Arrive(token, drawn) => ArriveKeepsValid(w, token, drawn);
    case Settle(token, seen, at) => SettleKeepsValid(w, token, seen, at);
    case GiveUp(token) =>
      if Owns(w.tables, w.attempts[token].key, token) {
        ClaimIsPast(w, token);
        CompleteKeepsValid(w, token, Finish(Indeterminate), w.now);
      }
    case Abort(token) => AbortKeepsValid(w, token);
  }

  lemma {:induction false} RunKeepsValid(worlds: seq<World>, steps: seq<Step>, i: nat)
    requires IsRun(worlds, steps) && Valid(worlds[0]) && i < |worlds|
    ensures Valid(worlds[i])
  {
    hide Valid, Enabled, Apply;
    if i > 0 {
      RunKeepsValid(worlds, steps, i - 1);
      StepKeepsValid(worlds[i - 1], steps[i - 1]);
    }
  }
}
