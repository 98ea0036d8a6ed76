/** The outbox tables as mutable state, and the transactions of src/lib/outbox-service.ts and
    src/lib/attachment-outbox-service.ts statement by statement. Each is proved to be a step of the sending
    machine on the tables, and so to keep its invariant; a transaction that throws changes nothing. */
module OutboxStore {
  import opened Text
  import opened Provider
  import opened Outbox
  import opened Sending
  import opened SendingInvariant

  /** What `claimOutboxBatch` and `claimEntry` return. */
  datatype Claim = Claim(key: Key, token: Token, members: seq<MessageId>, attemptCount: nat, firstAttemptAt: int)

  /** `InvalidState` stands for the error `Claimed outbox batch contains invalid message state`. */
  datatype ClaimResult = Claimed(claim: Claim) | NothingToClaim | InvalidState

  datatype Result = Delivered(ids: seq<string>) | Ended(state: SendState) | Rescheduled | LeaseLost

  /** The position of a message in a list without repetitions is where the loop found it. */
  lemma SlotAt(picked: seq<MessageId>, i: nat)
    requires i < |picked| && NoDuplicates(picked)
    ensures IndexOf(picked, picked[i]) == i
  {
    IndexOfIs(picked, i);
  }

  lemma ValidParts(w: World)
    requires Valid(w)
    ensures EntriesOk(w.tables) && KeysOk(w) && RostersOk(w) && JobsOk(w) && AttemptsOk(w)
  {
  }

  /** A batch with a row was claimed before. */
  lemma BatchWasClaimed(w: World, key: Key)
    requires Valid(w) && key.BatchKey? && key in w.tables.jobs
    ensures key in w.rosters && w.tables.jobs[key].firstAttemptAt.Some?
  {
    assert JobOk(w, key);
  }

  /** What the check after the transaction of `claimOutboxBatch` looks at. */
  lemma ClaimedIsPending(w: World, token: Token)
    requires Valid(w) && token in w.attempts && w.attempts[token].key in w.tables.jobs
    ensures AllPending(w.tables, w.attempts[token].members) && NoDuplicates(w.attempts[token].members)
    ensures w.tables.jobs[w.attempts[token].key].firstAttemptAt == Some(w.attempts[token].firstAttemptAt)
  {
    OwnedArePending(w, token);
    MembersAreDistinct(w, token);
    assert AttemptOk(w, token) && JobOk(w, w.attempts[token].key);
  }

  /** The claim that the transaction leaves behind. */
  lemma ClaimIsHeld(w: World, step: Step, key: Key, members: seq<MessageId>)
    requires Valid(w) && Enabled(w, step) && key in Apply(w, step).tables.jobs
    requires if step.Open? then key == BatchKey(step.batch) && members == step.picked else step.Reclaim? && key == step.key && members == step.members
    ensures var r := Apply(w, step);
            && step.token in r.attempts && Owns(r.tables, key, step.token) && IsLeased(key)
            && var a := r.attempts[step.token];
               a.key == key && a.members == members && a.attemptCount == r.tables.jobs[key].attemptCount
  {
    hide EntriesOk, KeysOk, RostersOk, JobsOk, AttemptsOk, MailerOk, ResultsOk, LocksOk, IsRoster, IsQueueHead;
  }

  /** The claiming transaction is a step of the machine, on tables where the clean-up finds nothing. */
  lemma ClaimIsStep(w: World, batch: nat, picked: seq<MessageId>, limit: nat, token: Token, at: int, stamped: int,
        retryable: Option<Key>)
    requires Valid(w) && token !in w.attempts && BatchKey(batch) !in w.rosters && at <= stamped <= w.now
    requires retryable.Some? ==> IsNextBatch(w.tables, retryable.value, at) && IsRoster(w.tables, retryable.value, picked)
    requires retryable.None? ==> (forall key | key in w.tables.jobs :: !ReadyBatch(w.tables, key, at)) && IsQueueHead(w.tables, limit, picked)
    ensures PruneEntries(w.tables) == w.tables
    ensures retryable.Some? ==>
              var step := Reclaim(retryable.value, picked, token, at);
              && retryable.value in w.tables.jobs && w.tables.jobs[retryable.value].firstAttemptAt.Some?
              && Enabled(w, step) && Valid(Apply(w, step)) && Apply(w, step).tables == Lease(w.tables, retryable.value, token, at)
    ensures retryable.None? && picked != [] ==>
              var step := Open(batch, picked, limit, token, at, stamped);
              && Enabled(w, step) && Valid(Apply(w, step)) && Apply(w, step).tables == OpenBatch(w.tables, batch, picked, token, at, stamped)
  {
    ValidParts(w);
    PruningRemovesNothing(w);
    if retryable.Some? {
      BatchWasClaimed(w, retryable.value);
      StepKeepsValid(w, Reclaim(retryable.value, picked, token, at));
    } else if picked != [] {
      if BatchKey(batch) in w.tables.jobs {
        BatchWasClaimed(w, BatchKey(batch));
      }
      StepKeepsValid(w, Open(batch, picked, limit, token, at, stamped));
    }
  }

  lemma EntryIsStep(w: World, token: Token, at: int, row: Option<Key>)
    requires Valid(w) && token !in w.attempts && at <= w.now
    requires row.Some? ==> row.value.AttachmentKey? && IsNextAttachment(w.tables, row.value, at)
    ensures PruneAttachments(w.tables) == w.tables
    ensures row.Some? ==>
              var step := Reclaim(row.value, [row.value.message], token, at);
              Enabled(w, step) && Valid(Apply(w, step))
  {
    ValidParts(w);
    PruningRemovesNothing(w);
    if row.Some? {
      StepKeepsValid(w, Reclaim(row.value, [row.value.message], token, at));
    }
  }

  lemma MembersAreDistinct(w: World, token: Token)
    requires Valid(w) && token in w.attempts
    ensures NoDuplicates(w.attempts[token].members)
  {
    assert AttemptOk(w, token) && RosterOk(w, w.attempts[token].key);
  }

  lemma FinishIgnoresTime(t: Tables, key: Key, token: Token, members: seq<MessageId>, attemptCount: nat,
        state: SendState, a: int, b: int)
    ensures Complete(t, key, token, members, attemptCount, Finish(state), a) == Complete(t, key, token, members, attemptCount, Finish(state), b)
  {
  }

  /** `world` is the machine around the tables: the workers, their requests and the provider. */
  class OutboxTables {
    var messages: map<MessageId, Row>
    var entries: map<MessageId, Entry>
    var jobs: map<Key, Job>
    ghost var world: World

    function Snapshot(): Tables
      reads this`messages, this`entries, this`jobs
    {
      Tables(messages, entries, jobs)
    }

    ghost predicate Consistent()
      reads this
    {
      world.tables == Snapshot() && Valid(world)
    }

    constructor (now: int)
      ensures Consistent() && world == Start(now)
    {
      messages, entries, jobs := map[], map[], map[];
      world := Start(now);
      new;
      StartIsValid(now);
    }

    /** The claim that a worker holds, as the machine knows it. */
    ghost predicate HeldClaim(claim: Claim)
      reads this
    {
      && claim.token in world.attempts && IsLeased(claim.key)
      && var a := world.attempts[claim.token];
         a.key == claim.key && a.members == claim.members && a.attemptCount == claim.attemptCount && a.firstAttemptAt == claim.firstAttemptAt
    }

    // --- Queueing: outboxRelationData ---------------------------------------------------------------------

    method CreateQueued(m: MessageId, hasAttachments: bool, stamped: int)
      requires Consistent() && m !in messages && stamped <= world.now
      modifies this
      ensures Consistent() && Does(old(world), Queue(m, if hasAttachments then AttachmentLane else BatchLane, stamped), world)
    {
      hide Valid;
      ghost var step := Queue(m, if hasAttachments then AttachmentLane else BatchLane, stamped);
      StepKeepsValid(world, step);
      messages := messages[m := Row(if hasAttachments then AttachmentLane else BatchLane, stamped, Pending, None)];
      if hasAttachments {
        jobs := jobs[AttachmentKey(m) := Job(stamped, stamped, None, 0, None, None)];
      } else {
        entries := entries[m := Entry(stamped, None)];
      }
      world := Apply(world, step);
    }

    // --- Claiming -------------------------------------------------------------------------------------------

    method AssignSlots(batch: nat, picked: seq<MessageId>)
      requires NoDuplicates(picked) && forall m | m in picked :: m in entries
      modifies this`entries
      ensures entries.Keys == old(entries).Keys
      ensures forall m | m in entries ::
                entries[m] == if m in picked then old(entries)[m].(slot := Some(Slot(batch, IndexOf(picked, m)))) else old(entries)[m]
    {
      var position := 0;
      while position < |picked|
        invariant 0 <= position <= |picked|
        invariant entries.Keys == old(entries).Keys
        invariant forall m | m in entries && m !in picked[..position] :: entries[m] == old(entries)[m]
        invariant forall i | 0 <= i < position :: entries[picked[i]] == old(entries)[picked[i]].(slot := Some(Slot(batch, i)))
      {
        entries := entries[picked[position] := entries[picked[position]].(slot := Some(Slot(batch, position)))];
        position := position + 1;
      }
      forall m | m in entries && m in picked ensures entries[m] == old(entries)[m].(slot := Some(Slot(batch, IndexOf(picked, m)))) {
        var i := IndexOf(picked, m);
        SlotAt(picked, i);
      }
    }

    /** The clean-up before a claim. */
    method DeleteFinished()
      modifies this`entries
      ensures Snapshot() == PruneEntries(old(Snapshot()))
    {
      entries := map m | m in entries && !(entries[m].slot.None? && m in messages && messages[m].state != Pending) :: entries[m];
    }

    /** The statements of the transaction of `claimOutboxBatch`; the batch it returns is None when no message waits. */
    method ClaimRows(at: int, stamped: int, limit: nat, token: Token, batch: nat, retryable: Option<Key>,
          picked: seq<MessageId>)
      returns (key: Option<Key>)
      requires retryable.Some? ==> retryable.value in jobs && jobs[retryable.value].firstAttemptAt.Some?
      requires retryable.None? ==> IsQueueHead(PruneEntries(Snapshot()), limit, picked)
      modifies this`entries, this`jobs
      ensures key == if retryable.Some? then retryable else if picked == [] then None else Some(BatchKey(batch))
      ensures key.Some? ==> key.value in jobs
      ensures Snapshot() ==
              if retryable.Some? then Lease(PruneEntries(old(Snapshot())), retryable.value, token, at)
              else if picked == [] then PruneEntries(old(Snapshot()))
              else OpenBatch(PruneEntries(old(Snapshot())), batch, picked, token, at, stamped)
    {
      hide PruneEntries;
      DeleteFinished();
      if retryable.None? {
        if picked == [] {
          return None;
        }
        HeadHasNoDuplicates(Snapshot(), limit, picked);
        assert forall i | 0 <= i < |picked| :: Queued(Snapshot(), picked[i]);
        jobs := jobs[BatchKey(batch) := Job(stamped, stamped, Some(at), 1, Some(token), Some(at + LEASE))];
        AssignSlots(batch, picked);
        assert entries == OpenBatch(PruneEntries(old(Snapshot())), batch, picked, token, at, stamped).entries;
        return Some(BatchKey(batch));
      }
      var job := jobs[retryable.value];
      jobs := jobs[retryable.value := job.(leaseToken := Some(token), leaseUntil := Some(at + LEASE), attemptCount := job.attemptCount + 1)];
      key := retryable;
    }

    /** `claimOutboxBatch`. `retryable` and `picked` are what the two queries return. The check of the claimed
        batch after the transaction never fails. */
    method ClaimOutboxBatch(at: int, stamped: int, limit: nat, token: Token, batch: nat, retryable: Option<Key>,
          picked: seq<MessageId>)
      returns (result: ClaimResult)
      requires Consistent() && token !in world.attempts && BatchKey(batch) !in world.rosters && at <= stamped <= world.now
      requires retryable.Some? ==> IsNextBatch(Snapshot(), retryable.value, at) && IsRoster(Snapshot(), retryable.value, picked)
      requires retryable.None? ==> (forall key | key in jobs :: !ReadyBatch(Snapshot(), key, at)) && IsQueueHead(Snapshot(), limit, picked)
      modifies this
      ensures Consistent() && result != InvalidState
      ensures retryable.Some? ==> Does(old(world), Reclaim(retryable.value, picked, token, at), world)
      ensures retryable.None? && picked != [] ==> Does(old(world), Open(batch, picked, limit, token, at, stamped), world)
      ensures retryable.None? && picked == [] ==> world == old(world) && result == NothingToClaim
      ensures result.Claimed? ==> HeldClaim(result.claim) && result.claim.token == token && Owns(Snapshot(), result.claim.key, token)
    {
      hide Valid, IsRoster, IsQueueHead, IsNextBatch, Apply, Enabled, Lease, OpenBatch, PruneEntries, ReadyBatch;
      ghost var step := if retryable.Some? then Reclaim(retryable.value, picked, token, at) else Open(batch, picked, limit, token, at, stamped);
      ClaimIsStep(world, batch, picked, limit, token, at, stamped, retryable);
      var key := ClaimRows(at, stamped, limit, token, batch, retryable, picked);
      if key.None? {
        return NothingToClaim;
      }
      ghost var before := world;
      world := Apply(world, step);
      ClaimIsHeld(before, step, key.value, picked);
      ClaimedIsPending(world, token);
      var job := jobs[key.value];
      var pending := CountPending(picked);
      if job.firstAttemptAt.None? || pending != |picked| {
        return InvalidState;
      }
      result := Claimed(Claim(key.value, token, picked, job.attemptCount, job.firstAttemptAt.value));
    }

    /** `claimEntry`. `row` is what the query returns. */
    method ClaimEntry(at: int, token: Token, row: Option<Key>) returns (claimed: Option<Claim>)
      requires Consistent() && token !in world.attempts && at <= world.now
      requires row.Some? ==> IsNextAttachment(Snapshot(), row.value, at)
      requires row.None? ==> forall key | key in jobs :: !ReadyAttachment(Snapshot(), key, at)
      modifies this
      ensures Consistent()
      ensures row.None? ==> world == old(world) && claimed.None?
      ensures row.Some? ==> row.value.AttachmentKey? && Does(old(world), Reclaim(row.value, [row.value.message], token, at), world)
      ensures row.Some? ==> claimed.Some? && HeldClaim(claimed.value) && claimed.value.token == token && Owns(Snapshot(), row.value, token)
    {
      hide Valid;
      EntryIsStep(world, token, at, row);
      jobs := map k | k in jobs && !(k.AttachmentKey? && k.message in messages && messages[k.message].state != Pending) :: jobs[k];
      assert Snapshot() == PruneAttachments(old(Snapshot()));
      if row.None? {
        return None;
      }
      var key := row.value;
      var entry := jobs[key].(leaseToken := Some(token), leaseUntil := Some(at + LEASE), attemptCount := jobs[key].attemptCount + 1);
      if jobs[key].firstAttemptAt.None? {
        entry := entry.(firstAttemptAt := Some(at));
      }
      jobs := jobs[key := entry];
      world := Apply(world, Reclaim(key, [key.message], token, at));
      claimed := Some(Claim(key, token, [key.message], entry.attemptCount, entry.firstAttemptAt.GetOr(at)));
    }

    // --- Finalizing ----------------------------------------------------------------------------------------------

    /** `deleteOwnedBatch` and `deleteOwnedEntry`, with the cascade to the entries of a batch. */
    method DeleteOwned(claim: Claim) returns (deleted: bool)
      modifies this`entries, this`jobs
      ensures deleted <==> Owns(old(Snapshot()), claim.key, claim.token)
      ensures Snapshot() == if deleted then DropJob(old(Snapshot()), claim.key) else old(Snapshot())
    {
      deleted := claim.key in jobs && jobs[claim.key].leaseToken == Some(claim.token);
      if deleted {
        jobs := jobs - {claim.key};
        entries := map m | m in entries && !(entries[m].slot.Some? && BatchKey(entries[m].slot.value.batch) == claim.key) :: entries[m];
      }
    }

    /** The number of members that the guarded UPDATE would touch. */
    method CountPending(members: seq<MessageId>) returns (updated: nat)
      requires NoDuplicates(members)
      ensures updated <= |members| && (updated == |members| <==> AllPending(Snapshot(), members))
    {
      updated := 0;
      var i := 0;
      while i < |members|
        invariant 0 <= i <= |members| && updated <= i
        invariant updated == i <==> forall j | 0 <= j < i :: IsPending(Snapshot(), members[j])
      {
        if members[i] in messages && messages[members[i]].state == Pending {
          updated := updated + 1;
        }
        i := i + 1;
      }
      assert (forall j | 0 <= j < |members| :: IsPending(Snapshot(), members[j])) <==> AllPending(Snapshot(), members);
    }

    /** `finalizeAcceptedBatch` and `accept`: the ids go to the members by position. */
    method FinalizeAccepted(claim: Claim, ids: seq<string>, at: int) returns (result: Result)
      requires NoDuplicates(claim.members) && AreIds(ids, |claim.members|)
      modifies this`messages, this`entries, this`jobs
      ensures Snapshot() == Complete(old(Snapshot()), claim.key, claim.token, claim.members, claim.attemptCount, Accept(ids), at)
      ensures result == if Owns(old(Snapshot()), claim.key, claim.token) && AllPending(old(Snapshot()), claim.members) then Delivered(ids) else LeaseLost
    {
      if claim.key !in jobs || jobs[claim.key].leaseToken != Some(claim.token) {
        return LeaseLost;
      }
      var updated := CountPending(claim.members);
      if updated != |claim.members| {
        return LeaseLost;
      }
      messages := map m | m in messages ::
        if m in claim.members && messages[m].state == Pending
        then messages[m].(state := Accepted, resendEmailId := Some(ids[IndexOf(claim.members, m)])) else messages[m];
      var deleted := DeleteOwned(claim);
      result := Delivered(ids);
    }

    /** `finalizeFailedBatch`, `finalizeIndeterminateBatch` and `finalize`. */
    method Finalize(claim: Claim, state: SendState, at: int) returns (result: Result)
      modifies this`messages, this`entries, this`jobs
      ensures Snapshot() == Complete(old(Snapshot()), claim.key, claim.token, claim.members, claim.attemptCount, Finish(state), at)
      ensures result == if Owns(old(Snapshot()), claim.key, claim.token) then Ended(state) else LeaseLost
    {
      if claim.key !in jobs || jobs[claim.key].leaseToken != Some(claim.token) {
        return LeaseLost;
      }
      messages := map m | m in messages ::
        if m in claim.members && messages[m].state == Pending then messages[m].(state := state) else messages[m];
      var deleted := DeleteOwned(claim);
      result := Ended(state);
    }

    /** `scheduleBatchRetry` and `scheduleRetry` after their window check. */
    method ScheduleRetry(claim: Claim, at: int) returns (result: Result)
      modifies this`jobs
      ensures Snapshot() == Complete(old(Snapshot()), claim.key, claim.token, claim.members, claim.attemptCount, Retry, at)
      ensures result == if Owns(old(Snapshot()), claim.key, claim.token) then Rescheduled else LeaseLost
    {
      if claim.key !in jobs || jobs[claim.key].leaseToken != Some(claim.token) {
        return LeaseLost;
      }
      jobs := jobs[claim.key := jobs[claim.key].(nextAttemptAt := at + RetryDelay(claim.attemptCount), leaseToken := None, leaseUntil := None)];
      result := Rescheduled;
    }

    /** The branches of `drainEmailOutbox` and `deliverEntry` after the request. */
    method HandleAnswer(claim: Claim, seen: Seen, at: int) returns (result: Result)
      requires NoDuplicates(claim.members)
      modifies this`messages, this`entries, this`jobs
      ensures Snapshot() == Complete(old(Snapshot()), claim.key, claim.token, claim.members, claim.attemptCount,
                                     Decide(seen, |claim.members|, Expired(claim.firstAttemptAt, at)), at)
      ensures result == LeaseLost
         <==> !Owns(old(Snapshot()), claim.key, claim.token) || (Decide(seen, |claim.members|, Expired(claim.firstAttemptAt, at)).Accept? && !AllPending(old(Snapshot()), claim.members))
      ensures result.Rescheduled? ==> !Expired(claim.firstAttemptAt, at)
    {
      if seen.Ids? && AreIds(seen.ids, |claim.members|) {
        result := FinalizeAccepted(claim, seen.ids, at);
      } else if seen == ApiError(409, InvalidIdempotentRequest) {
        result := Finalize(claim, Indeterminate, at);
      } else if IsRetryable(seen) {
        if at - claim.firstAttemptAt >= WINDOW {
          result := Finalize(claim, Indeterminate, at);
        } else {
          result := ScheduleRetry(claim, at);
        }
      } else {
        result := Finalize(claim, Failed, at);
      }
    }

    /** The check before the request: a late claim is given up, any other one is sent. */
    method BeginDelivery(claim: Claim, at: int) returns (sends: bool)
      requires Consistent() && HeldClaim(claim) && !world.attempts[claim.token].submitted && world.attempts[claim.token].claimedAt <= at <= world.now
      modifies this
      ensures Consistent() && HeldClaim(claim)
      ensures Does(old(world), if sends then Submit(claim.token, at) else GiveUp(claim.token), world)
    {
      hide Valid, Complete;
      ghost var before := world;
      if claim.attemptCount > 1 && at - claim.firstAttemptAt >= WINDOW {
        StepKeepsValid(world, GiveUp(claim.token));
        var result := Finalize(claim, Indeterminate, at);
        world := Apply(world, GiveUp(claim.token));
        FinishIgnoresTime(before.tables, claim.key, claim.token, claim.members, claim.attemptCount, Indeterminate, at, before.now);
        return false;
      }
      StepKeepsValid(world, Submit(claim.token, at));
      world := Apply(world, Submit(claim.token, at));
      sends := true;
    }

    /** What a worker does with what it saw of its request, whoever acted in between. */
    method EndDelivery(claim: Claim, seen: Seen, at: int) returns (result: Result)
      requires Consistent() && HeldClaim(claim) && Enabled(world, Settle(claim.token, seen, at))
      modifies this
      ensures Consistent() && Does(old(world), Settle(claim.token, seen, at), world)
      ensures result == LeaseLost <==> !Owns(old(Snapshot()), claim.key, claim.token)
      ensures result.Rescheduled? ==> !Expired(claim.firstAttemptAt, at)
    {
      hide Valid, Complete;
      StepKeepsValid(world, Settle(claim.token, seen, at));
      MembersAreDistinct(world, claim.token);
      if Owns(world.tables, claim.key, claim.token) {
        ClaimedIsPending(world, claim.token);
      }
      ghost var before := world;
      result := HandleAnswer(claim, seen, at);
      world := Apply(world, Settle(claim.token, seen, at));
    }
  }
}
