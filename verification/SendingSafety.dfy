/** The promises of the three lanes over whole runs: nothing is sent twice, stale workers are
    fenced off, a message leaves PENDING once, attempts are bounded and batches are frozen in
    queue order. */
module SendingSafety {
  import opened Text
  import opened Provider
  import opened Outbox
  import opened Sending
  import opened SendingInvariant

  // --- At most once ---------------------------------------------------------------------------------------

  /** For every interleaving of workers and requests, in all three lanes together, the
      provider's log never holds a message twice, and no submission is a conflict. */
  lemma NothingIsSentTwice(worlds: seq<World>, steps: seq<Step>, i: nat)
    requires IsRun(worlds, steps) && Valid(worlds[0]) && i < |worlds|
    ensures SentOnce(worlds[i].mailer)
    ensures forall t | t in worlds[i].attempts :: worlds[i].attempts[t].reply != Some(Conflict)
  {
    hide IsRun;
    RunKeepsValid(worlds, steps, i);
    var w := worlds[i];
    forall t | t in w.attempts ensures w.attempts[t].reply != Some(Conflict) {
      assert AttemptOk(w, t);
    }
  }

  /** The id stored with an accepted message is the only one under which the provider ever sent it. */
  lemma StoredIdIsTheOneSent(w: World, m: MessageId, id: string)
    requires Valid(w) && m in w.tables.messages
    ensures w.tables.messages[m].resendEmailId == Some(id) ==> w.tables.messages[m].state == Accepted
    ensures w.tables.messages[m].resendEmailId == Some(id) ==> forall other :: Provider.Sent(m, other) in w.mailer.log <==> other == id
    ensures w.tables.messages[m].state == Accepted ==> w.tables.messages[m].resendEmailId.Some?
  {
    hide EntriesOk, KeysOk, RostersOk, JobsOk, AttemptsOk, LocksOk, LogOk;
    if w.tables.messages[m].resendEmailId == Some(id) {
      assert Provider.Sent(m, id) in w.mailer.log;
      forall other | Provider.Sent(m, other) in w.mailer.log ensures other == id {
        SameMessageSameId(w.mailer, m, id, other);
      }
    }
  }

  lemma SameMessageSameId(p: Mailer, m: MessageId, a: string, b: string)
    requires SentOnce(p) && Provider.Sent(m, a) in p.log && Provider.Sent(m, b) in p.log
    ensures a == b
  {
    var i :| 0 <= i < |p.log| && p.log[i] == Provider.Sent(m, a);
    var j :| 0 <= j < |p.log| && p.log[j] == Provider.Sent(m, b);
    assert i < j || j < i || i == j;
  }

  // --- Fencing -----------------------------------------------------------------------------------------------

  /** A worker whose lease was replaced or released changes nothing when it finishes. */
  lemma StaleWorkerChangesNothing(w: World, step: Step, token: Token)
    requires Enabled(w, step) && token in w.attempts && IsLeased(w.attempts[token].key) && !Owns(w.tables, w.attempts[token].key, token)
    requires step == GiveUp(token) || (step.Settle? && step.token == token)
    ensures Apply(w, step) == w
  {
  }

  /** The time that the finishing worker read, and what it decided. */
  function TimeOf(w: World, step: Step): int
    requires step.Settle? || step.GiveUp?
  {
    if step.GiveUp? then w.now else step.at
  }

  function OutcomeOf(w: World, step: Step): Outcome
    requires (step.Settle? || step.GiveUp?) && step.token in w.attempts
  {
    var a := w.attempts[step.token];
    if step.GiveUp? then Finish(Indeterminate) else Decide(step.seen, |a.members|, Expired(a.firstAttemptAt, step.at))
  }

  lemma StepCompletes(w: World, step: Step)
    requires Valid(w) && Enabled(w, step) && (step.Settle? || step.GiveUp?) && IsLeased(w.attempts[step.token].key)
    requires Owns(w.tables, w.attempts[step.token].key, step.token)
    ensures Completes(w, step.token, OutcomeOf(w, step), TimeOf(w, step))
    ensures Apply(w, step) == Completed(w, step.token, OutcomeOf(w, step), TimeOf(w, step))
  {
    hide EntriesOk, KeysOk, RostersOk, JobsOk, AttemptsOk, MailerOk, ResultsOk, LocksOk, Complete;
    ClaimIsPast(w, step.token);
    if step.Settle? {
      DecisionCompletes(w, step.token, step.seen, step.at);
    }
  }

  lemma CompletionGrantsNothing(t: Tables, key: Key, token: Token, members: seq<MessageId>, attemptCount: nat,
        outcome: Outcome, now: int, k: Key, other: Token)
    requires (outcome.Accept? ==> |outcome.ids| == |members|) && !Owns(t, k, other)
    ensures !Owns(Complete(t, key, token, members, attemptCount, outcome, now), k, other)
  {
  }

  /** A step grants a lease only to the token that it draws. */
  lemma StepGrants(w: World, step: Step, key: Key, token: Token)
    requires Valid(w) && Enabled(w, step) && token in w.attempts && !Owns(w.tables, key, token)
    ensures token in Apply(w, step).attempts && Apply(w, step).attempts[token].key == w.attempts[token].key
    ensures !Owns(Apply(w, step).tables, key, token)
  {
    hide EntriesOk, KeysOk, RostersOk, JobsOk, AttemptsOk, MailerOk, ResultsOk, LocksOk, IsQueueHead, Before, IsRoster, Process, Ready, IsPending;
    if step.Settle? || step.GiveUp? {
      hide Complete;
      var a := w.attempts[step.token];
      CompletionGrantsNothing(w.tables, a.key, step.token, a.members, a.attemptCount, OutcomeOf(w, step), TimeOf(w, step), key, token);
    }
  }

  /** Once a claim lost its row it never owns it again. */
  lemma {:induction false} StaleStaysStale(worlds: seq<World>, steps: seq<Step>, i: nat, j: nat, key: Key, token: Token)
    requires IsRun(worlds, steps) && Valid(worlds[0]) && i <= j < |worlds|
    requires token in worlds[i].attempts && !Owns(worlds[i].tables, key, token)
    ensures token in worlds[j].attempts && worlds[j].attempts[token].key == worlds[i].attempts[token].key
    ensures !Owns(worlds[j].tables, key, token)
    decreases j
  {
    hide Valid, Owns, Enabled, Apply;
    if i < j {
      StaleStaysStale(worlds, steps, i, j - 1, key, token);
      RunKeepsValid(worlds, steps, j - 1);
      StepGrants(worlds[j - 1], steps[j - 1], key, token);
    }
  }

  // --- One way out of PENDING -----------------------------------------------------------------------------------

  predicate InLeasedLane(w: World, m: MessageId) {
    m in w.tables.messages && w.tables.messages[m].lane != SyncLane
  }

  /** The step finishes a claim of the message that still owns its row; the row is gone afterwards. */
  ghost predicate FinishedByOwner(w: World, step: Step, r: World, m: MessageId) {
    && (step.Settle? || step.GiveUp?) && step.token in w.attempts
    && var a := w.attempts[step.token];
       && IsLeased(a.key) && Owns(w.tables, a.key, step.token) && m in a.members
       && a.key !in r.tables.jobs && m !in r.tables.entries
  }

  lemma ClaimsLeaveRows(w: World, step: Step, m: MessageId)
    requires Enabled(w, step) && !step.Settle? && !step.GiveUp? && InLeasedLane(w, m)
    ensures InLeasedLane(Apply(w, step), m) && Apply(w, step).tables.messages[m] == w.tables.messages[m]
  {
    hide IsQueueHead, Before, IsRoster, Process, ReadyBatch, IsNextBatch, IsNextAttachment;
  }

  lemma CompletionMovesMembers(w: World, token: Token, outcome: Outcome, at: int, m: MessageId)
    requires Completes(w, token, outcome, at) && InLeasedLane(w, m)
    ensures InLeasedLane(Completed(w, token, outcome, at), m)
    ensures w.tables.messages[m].state != Pending ==> Completed(w, token, outcome, at).tables.messages[m] == w.tables.messages[m]
    ensures var r := Completed(w, token, outcome, at);
            w.tables.messages[m].state == Pending && r.tables.messages[m].state != Pending ==>
              && r.tables.messages[m].state in {Accepted, Failed, Indeterminate}
              && m in w.attempts[token].members && w.attempts[token].key !in r.tables.jobs && m !in r.tables.entries
  {
    if !outcome.Retry? {
      CompletedIs(w, token, outcome, at);
      hide EntriesOk, KeysOk, RostersOk, JobsOk, AttemptsOk, MailerOk, ResultsOk, LocksOk, Completed;
    } else {
      hide EntriesOk, KeysOk, RostersOk, JobsOk, AttemptsOk, MailerOk, ResultsOk, LocksOk;
    }
  }

  lemma SyncLeavesLeased(w: World, token: Token, seen: Seen, at: int, m: MessageId)
    requires Valid(w) && Enabled(w, Settle(token, seen, at)) && w.attempts[token].key.SyncKey? && InLeasedLane(w, m)
    ensures InLeasedLane(Apply(w, Settle(token, seen, at)), m) && Apply(w, Settle(token, seen, at)).tables.messages[m] == w.tables.messages[m]
  {
    hide EntriesOk, KeysOk, JobsOk, MailerOk, ResultsOk, LocksOk;
    SyncLaneOf(w, token);
  }

  /** A queued message leaves PENDING only in the transaction of the owner of its row, which
      removes that row, and then only for ACCEPTED, FAILED or INDETERMINATE; it never changes again. */
  lemma QueuedMessageFinishesOnce(w: World, step: Step, m: MessageId)
    requires Valid(w) && Enabled(w, step) && InLeasedLane(w, m)
    ensures InLeasedLane(Apply(w, step), m)
    ensures w.tables.messages[m].state != Pending ==> Apply(w, step).tables.messages[m] == w.tables.messages[m]
    ensures w.tables.messages[m].state == Pending && Apply(w, step).tables.messages[m].state != Pending ==>
              FinishedByOwner(w, step, Apply(w, step), m) && Apply(w, step).tables.messages[m].state in {Accepted, Failed, Indeterminate}
  {
    hide EntriesOk, KeysOk, RostersOk, JobsOk, AttemptsOk, MailerOk, ResultsOk, LocksOk;
    if step.Settle? && w.attempts[step.token].key.SyncKey? {
      SyncLeavesLeased(w, step.token, step.seen, step.at, m);
    } else if step.Settle? || step.GiveUp? {
      var a := w.attempts[step.token];
      if Owns(w.tables, a.key, step.token) {
        StepCompletes(w, step);
        CompletionMovesMembers(w, step.token, OutcomeOf(w, step), TimeOf(w, step), m);
      }
    } else {
      ClaimsLeaveRows(w, step, m);
    }
  }

  lemma OutcomeOfMember(w: World, token: Token, outcome: Outcome, at: int, m: MessageId)
    requires Completes(w, token, outcome, at) && InLeasedLane(w, m)
    ensures InLeasedLane(Completed(w, token, outcome, at), m)
    ensures w.tables.messages[m].state != Failed && Completed(w, token, outcome, at).tables.messages[m].state == Failed ==> outcome == Finish(Failed)
  {
    if !outcome.Retry? {
      CompletedIs(w, token, outcome, at);
      hide EntriesOk, KeysOk, RostersOk, JobsOk, AttemptsOk, MailerOk, ResultsOk, LocksOk, Completed;
    } else {
      hide EntriesOk, KeysOk, RostersOk, JobsOk, AttemptsOk, MailerOk, ResultsOk, LocksOk;
    }
  }

  /** A queued message becomes FAILED only when the provider refused its request for good: never on a lost
      or unusable answer, a server error, a rate limit, a request still in progress or a changed payload. */
  lemma FailedMeansRefused(w: World, step: Step, m: MessageId)
    requires Valid(w) && Enabled(w, step) && InLeasedLane(w, m) && w.tables.messages[m].state != Failed
    requires InLeasedLane(Apply(w, step), m) && Apply(w, step).tables.messages[m].state == Failed
    ensures step.Settle? && step.seen.ApiError? && step.seen.status < 500
    ensures step.seen.status == 429 ==> step.seen.code in {MonthlyQuotaExceeded, DailyQuotaExceeded}
    ensures step.seen.status == 409 ==> step.seen.code !in {ConcurrentIdempotentRequests, InvalidIdempotentRequest}
  {
    hide EntriesOk, KeysOk, RostersOk, JobsOk, AttemptsOk, MailerOk, ResultsOk, LocksOk;
    if step.Settle? && w.attempts[step.token].key.SyncKey? {
      SyncLeavesLeased(w, step.token, step.seen, step.at, m);
    } else if step.Settle? || step.GiveUp? {
      var a := w.attempts[step.token];
      if Owns(w.tables, a.key, step.token) {
        StepCompletes(w, step);
        OutcomeOfMember(w, step.token, OutcomeOf(w, step), TimeOf(w, step), m);
      }
    } else {
      ClaimsLeaveRows(w, step, m);
    }
  }

  /** What a queued message came to, it stays. */
  lemma {:induction false} OutcomeIsFinal(worlds: seq<World>, steps: seq<Step>, i: nat, j: nat, m: MessageId)
    requires IsRun(worlds, steps) && Valid(worlds[0]) && i <= j < |worlds|
    requires InLeasedLane(worlds[i], m) && worlds[i].tables.messages[m].state != Pending
    ensures InLeasedLane(worlds[j], m) && worlds[j].tables.messages[m] == worlds[i].tables.messages[m]
    decreases j
  {
    hide Valid, Enabled, Apply, FinishedByOwner;
    if i < j {
      OutcomeIsFinal(worlds, steps, i, j - 1, m);
      RunKeepsValid(worlds, steps, j - 1);
      QueuedMessageFinishesOnce(worlds[j - 1], steps[j - 1], m);
    }
  }

  /** A live claim finds all its messages PENDING, so no guard behind the lease check ever fails. */
  lemma LiveClaimIsPending(worlds: seq<World>, steps: seq<Step>, i: nat, token: Token)
    requires IsRun(worlds, steps) && Valid(worlds[0]) && i < |worlds|
    requires token in worlds[i].attempts && worlds[i].attempts[token].key in worlds[i].tables.jobs
    ensures AllPending(worlds[i].tables, worlds[i].attempts[token].members)
  {
    RunKeepsValid(worlds, steps, i);
    OwnedArePending(worlds[i], token);
  }

  // --- Bounded attempts -------------------------------------------------------------------------------------------

  const MAX_SUBMISSIONS := 691

  /** The requests that were ever submitted under the key. */
  function Submissions(w: World, key: Key): set<Token> {
    set t | t in w.attempts && w.attempts[t].key == key && w.attempts[t].submitted
  }

  lemma {:induction false} DistinctNumbers(tokens: set<Token>, number: map<Token, nat>, bound: nat)
    requires forall t | t in tokens :: t in number && 1 <= number[t] <= bound
    requires forall a, b | a in tokens && b in tokens && number[a] == number[b] :: a == b
    ensures |tokens| <= bound
    decreases bound
  {
    if bound == 0 {
      if t :| t in tokens {
        assert false;
      }
    } else if t :| t in tokens && number[t] == bound {
      DistinctNumbers(tokens - {t}, number, bound - 1);
    } else {
      DistinctNumbers(tokens, number, bound - 1);
    }
  }

  /** With claims at least 60 s and then 120 s apart and none submitted after 23 hours, at most
      691 requests are ever made under one key. */
  lemma SubmissionsAreBounded(worlds: seq<World>, steps: seq<Step>, i: nat, key: Key)
    requires IsRun(worlds, steps) && Valid(worlds[0]) && i < |worlds| && IsLeased(key)
    ensures |Submissions(worlds[i], key)| <= 691
  {
    RunKeepsValid(worlds, steps, i);
    var w := worlds[i];
    var number := map t | t in w.attempts :: w.attempts[t].attemptCount;
    forall t | t in Submissions(w, key) ensures 1 <= number[t] <= MAX_SUBMISSIONS {
      assert AttemptOk(w, t);
    }
    DistinctNumbers(Submissions(w, key), number, MAX_SUBMISSIONS);
  }

  /** A second or later claim made after the window can never send, only give up. */
  lemma LateClaimIsTerminal(w: World, token: Token)
    requires Valid(w) && token in w.attempts && IsLeased(w.attempts[token].key)
    requires w.attempts[token].attemptCount > 1 && w.attempts[token].claimedAt - w.attempts[token].firstAttemptAt >= WINDOW
    ensures !w.attempts[token].submitted && (forall at :: !Enabled(w, Submit(token, at))) && Enabled(w, GiveUp(token))
  {
    assert AttemptOk(w, token);
  }

  lemma FinishedMember(w: World, token: Token, state: SendState, at: int, m: MessageId)
    requires Completes(w, token, Finish(state), at) && m in w.attempts[token].members
    ensures var r := Completed(w, token, Finish(state), at);
            w.attempts[token].key !in r.tables.jobs && m in r.tables.messages && r.tables.messages[m].state == state
  {
    CompletedIs(w, token, Finish(state), at);
    hide EntriesOk, KeysOk, RostersOk, JobsOk, AttemptsOk, MailerOk, ResultsOk, LocksOk, Completed;
  }

  /** Giving up ends the claim: all its messages become INDETERMINATE and its row is gone. */
  lemma GivingUpEnds(w: World, token: Token, m: MessageId)
    requires Valid(w) && Enabled(w, GiveUp(token)) && Owns(w.tables, w.attempts[token].key, token) && m in w.attempts[token].members
    ensures var r := Apply(w, GiveUp(token));
            w.attempts[token].key !in r.tables.jobs && m in r.tables.messages && r.tables.messages[m].state == Indeterminate
  {
    hide EntriesOk, KeysOk, RostersOk, JobsOk, AttemptsOk, MailerOk, ResultsOk, LocksOk;
    StepCompletes(w, GiveUp(token));
    FinishedMember(w, token, Indeterminate, w.now, m);
  }

  // --- Spacing of claims -------------------------------------------------------------------------------------------

  /** The least time from the n-th claim of a job to any later one. */
  function Gap(n: nat): int {
    if n <= 1 then 60_000 else 120_000
  }

  function FreeAt(job: Job): int {
    if job.leaseUntil.Some? then job.leaseUntil.value else job.nextAttemptAt
  }

  ghost predicate Spaced(w: World) {
    && (forall a, b | a in w.attempts && b in w.attempts && w.attempts[a].key == w.attempts[b].key && IsLeased(w.attempts[a].key)
          && w.attempts[a].attemptCount < w.attempts[b].attemptCount ::
          w.attempts[b].claimedAt >= w.attempts[a].claimedAt + Gap(w.attempts[a].attemptCount))
    && (forall a | a in w.attempts && w.attempts[a].key in w.tables.jobs ::
          FreeAt(w.tables.jobs[w.attempts[a].key]) >= w.attempts[a].claimedAt + Gap(w.attempts[a].attemptCount))
  }

  /** Claiming a free job keeps the spacing, whether it is the first claim or a later one. */
  lemma ClaimKeepsSpaced(w: World, r: World, token: Token, at: int)
    requires Spaced(w) && token !in w.attempts && r.attempts.Keys == w.attempts.Keys + {token} && (forall t | t in w.attempts :: r.attempts[t] == w.attempts[t])
    requires var key := r.attempts[token].key;
             && key in r.tables.jobs && FreeAt(r.tables.jobs[key]) >= at + LEASE && r.attempts[token].claimedAt == at
             && (forall k | k in r.tables.jobs && k != key :: k in w.tables.jobs && r.tables.jobs[k] == w.tables.jobs[k])
             && (forall t | t in w.attempts && w.attempts[t].key == key ::
                   && key in w.tables.jobs && FreeAt(w.tables.jobs[key]) <= at
                   && w.attempts[t].attemptCount < r.attempts[token].attemptCount)
    ensures Spaced(r)
  {
  }

  lemma OpenKeepsSpaced(w: World, batch: nat, picked: seq<MessageId>, limit: nat, token: Token, at: int, stamped: int)
    requires Opens(w, batch, picked, limit, token, at, stamped) && Spaced(w)
    ensures Spaced(Opened(w, batch, picked, token, at, stamped))
  {
    forall t | t in w.attempts ensures w.attempts[t].key != BatchKey(batch) {
      assert AttemptOk(w, t);
    }
    hide EntriesOk, KeysOk, RostersOk, JobsOk, AttemptsOk, MailerOk, ResultsOk, LocksOk, AttemptOk, IsQueueHead, NoDuplicates, Spaced;
    ClaimKeepsSpaced(w, Opened(w, batch, picked, token, at, stamped), token, at);
  }

  lemma ReclaimKeepsSpaced(w: World, key: Key, members: seq<MessageId>, token: Token, at: int)
    requires Reclaims(w, key, members, token, at) && Spaced(w)
    ensures Spaced(Reclaimed(w, key, members, token, at))
  {
    forall t | t in w.attempts && w.attempts[t].key == key ensures w.attempts[t].attemptCount <= w.tables.jobs[key].attemptCount && FreeAt(w.tables.jobs[key]) <= at {
      assert AttemptOk(w, t) && JobOk(w, key);
      JobsAreLeased(w, key);
    }
    hide EntriesOk, KeysOk, RostersOk, JobsOk, AttemptsOk, MailerOk, ResultsOk, LocksOk, AttemptOk, IsRoster, Spaced;
    ClaimKeepsSpaced(w, Reclaimed(w, key, members, token, at), token, at);
  }

  lemma RescheduledKeepsSpaced(w: World, r: World, key: Key, n: nat, at: int)
    requires Spaced(w) && r.attempts == w.attempts && r.tables.jobs.Keys == w.tables.jobs.Keys && key in w.tables.jobs
    requires (forall k | k in w.tables.jobs && k != key :: r.tables.jobs[k] == w.tables.jobs[k]) && FreeAt(r.tables.jobs[key]) == at + RetryDelay(n)
    requires forall t | t in w.attempts && w.attempts[t].key == key :: w.attempts[t].claimedAt <= at && w.attempts[t].attemptCount <= n
    ensures Spaced(r)
  {
  }

  lemma FewerJobsKeepSpaced(w: World, r: World)
    requires Spaced(w) && r.attempts == w.attempts && forall k | k in r.tables.jobs :: k in w.tables.jobs && r.tables.jobs[k] == w.tables.jobs[k]
    ensures Spaced(r)
  {
  }

  lemma CompletionKeepsSpaced(w: World, token: Token, outcome: Outcome, at: int)
    requires Completes(w, token, outcome, at) && Spaced(w)
    ensures Spaced(Completed(w, token, outcome, at))
  {
    var a := w.attempts[token];
    if outcome.Retry? {
      forall t | t in w.attempts && w.attempts[t].key == a.key ensures w.attempts[t].claimedAt <= at && w.attempts[t].attemptCount <= a.attemptCount {
        assert AttemptOk(w, t) && JobOk(w, a.key);
        assert w.attempts[t].attemptCount == a.attemptCount ==> t == token;
      }
      hide EntriesOk, KeysOk, RostersOk, JobsOk, AttemptsOk, MailerOk, ResultsOk, LocksOk, AttemptOk, JobOk, Spaced, RetryDelay;
      RescheduledKeepsSpaced(w, Completed(w, token, outcome, at), a.key, a.attemptCount, at);
    } else {
      CompletedCloses(w, token, outcome, at);
      hide EntriesOk, KeysOk, RostersOk, JobsOk, AttemptsOk, MailerOk, ResultsOk, LocksOk, Completed, Spaced, IsPending;
      FewerJobsKeepSpaced(w, Completed(w, token, outcome, at));
    }
  }

  lemma SyncAttemptKeepsSpaced(w: World, r: World)
    requires Spaced(w) && (forall k | k in r.tables.jobs :: IsLeased(k)) && (forall t | t in w.attempts :: t in r.attempts)
    requires forall t | t in r.attempts && IsLeased(r.attempts[t].key) ::
               && t in w.attempts && r.attempts[t].key == w.attempts[t].key && r.attempts[t].claimedAt == w.attempts[t].claimedAt
               && r.attempts[t].attemptCount == w.attempts[t].attemptCount
    requires forall k | k in r.tables.jobs && (exists t | t in w.attempts :: w.attempts[t].key == k) :: k in w.tables.jobs && r.tables.jobs[k] == w.tables.jobs[k]
    ensures Spaced(r)
  {
  }

  lemma OtherStepKeepsSpaced(w: World, step: Step)
    requires Valid(w) && Enabled(w, step) && Spaced(w)
    requires step.Tick? || step.Queue? || step.Intend? || step.Recover? || step.Submit? || step.Arrive? || step.Abort? || (step.Settle? && w.attempts[step.token].key.SyncKey?)
    ensures Spaced(Apply(w, step))
  {
    hide JobsOk, MailerOk, ResultsOk, LocksOk, Process, RostersOk, AttemptsOk, EntriesOk, Spaced;
    var r := Apply(w, step);
    if step.Queue? {
      NewMessageIsNowhere(w, step.message);
      AttemptsHaveRosters(w);
    }
    forall k | k in w.tables.jobs ensures IsLeased(k) {
      JobsAreLeased(w, k);
    }
    hide KeysOk;
    SyncAttemptKeepsSpaced(w, r);
  }

  lemma AttemptsHaveRosters(w: World)
    requires AttemptsOk(w)
    ensures forall t | t in w.attempts :: w.attempts[t].key in w.rosters
  {
    forall t | t in w.attempts ensures w.attempts[t].key in w.rosters {
      assert AttemptOk(w, t);
    }
  }

  lemma StepKeepsSpaced(w: World, step: Step)
    requires Valid(w) && Enabled(w, step) && Spaced(w)
    ensures Spaced(Apply(w, step))
  {
    hide RostersOk, JobsOk, AttemptsOk, MailerOk, ResultsOk, LocksOk, Spaced, IsRoster, Process;
    PruningRemovesNothing(w);
    hide EntriesOk, KeysOk, PruneEntries, PruneAttachments;
    if step.Open? {
      HeadHasNoDuplicates(w.tables, step.limit, step.picked);
      OpenKeepsSpaced(w, step.batch, step.picked, step.limit, step.token, step.at, step.stamped);
    } else if step.Reclaim? {
      ReclaimKeepsSpaced(w, step.key, step.members, step.token, step.at);
    } else if (step.Settle? || step.GiveUp?) && IsLeased(w.attempts[step.token].key) {
      var a := w.attempts[step.token];
      if Owns(w.tables, a.key, step.token) {
        StepCompletes(w, step);
        CompletionKeepsSpaced(w, step.token, OutcomeOf(w, step), TimeOf(w, step));
      }
    } else {
      OtherStepKeepsSpaced(w, step);
    }
  }

  /** Any later claim of a job comes at least 60 s after its first and 120 s after any other claim,
      whichever ended that claim: the retry ladder or the lease. */
  lemma {:induction false} ClaimsAreSpaced(worlds: seq<World>, steps: seq<Step>, i: nat)
    requires IsRun(worlds, steps) && Valid(worlds[0]) && Spaced(worlds[0]) && i < |worlds|
    ensures Spaced(worlds[i])
    ensures forall a, b | a in worlds[i].attempts && b in worlds[i].attempts ::
              var first, later := worlds[i].attempts[a], worlds[i].attempts[b];
              first.key == later.key && IsLeased(first.key) && first.attemptCount < later.attemptCount ==>
                later.claimedAt >= first.claimedAt + if first.attemptCount <= 1 then 60_000 else 120_000
  {
    hide Valid, Enabled, Apply, Spaced;
    if i > 0 {
      ClaimsAreSpaced(worlds, steps, i - 1);
      RunKeepsValid(worlds, steps, i - 1);
      StepKeepsSpaced(worlds[i - 1], steps[i - 1]);
    }
    SpacedIs(worlds[i]);
  }

  lemma SpacedIs(w: World)
    requires Spaced(w)
    ensures forall a, b | a in w.attempts && b in w.attempts ::
              var first, later := w.attempts[a], w.attempts[b];
              first.key == later.key && IsLeased(first.key) && first.attemptCount < later.attemptCount ==>
                later.claimedAt >= first.claimedAt + if first.attemptCount <= 1 then 60_000 else 120_000
  {
  }

  // --- Frozen batches in queue order ---------------------------------------------------------------------------------

  lemma StepKeepsRoster(w: World, step: Step, key: Key)
    requires Enabled(w, step) && key in w.rosters
    requires step.Intend? ==> SyncKey(step.message) !in w.rosters
    ensures key in Apply(w, step).rosters && Apply(w, step).rosters[key] == w.rosters[key]
  {
    hide IsQueueHead, Before, IsRoster, Process, ReadyBatch, IsNextBatch, IsNextAttachment;
  }

  /** The members under a key, and their order, are the same on every attempt. */
  lemma {:induction false} RosterNeverChanges(worlds: seq<World>, steps: seq<Step>, i: nat, j: nat, key: Key)
    requires IsRun(worlds, steps) && Valid(worlds[0]) && i <= j < |worlds| && key in worlds[i].rosters
    ensures key in worlds[j].rosters && worlds[j].rosters[key] == worlds[i].rosters[key]
    decreases j
  {
    hide Valid, Enabled, Apply;
    if i < j {
      RosterNeverChanges(worlds, steps, i, j - 1, key);
      RunKeepsValid(worlds, steps, j - 1);
      if steps[j - 1].Intend? {
        IntentIsNew(worlds[j - 1], steps[j - 1]);
      }
      StepKeepsRoster(worlds[j - 1], steps[j - 1], key);
    }
  }

  lemma IntentIsNew(w: World, step: Step)
    requires Valid(w) && Enabled(w, step) && step.Intend?
    ensures SyncKey(step.message) !in w.rosters
  {
    NewMessageIsNowhere(w, step.message);
  }

  /** Every request ever made under a key carries those members, and a message is under one key only. */
  lemma MessageIsUnderOneKey(worlds: seq<World>, steps: seq<Step>, i: nat, a: Token, b: Token, m: MessageId)
    requires IsRun(worlds, steps) && Valid(worlds[0]) && i < |worlds|
    requires a in worlds[i].attempts && b in worlds[i].attempts && m in worlds[i].attempts[a].members && m in worlds[i].attempts[b].members
    ensures worlds[i].attempts[a].key == worlds[i].attempts[b].key && worlds[i].attempts[a].members == worlds[i].attempts[b].members
    ensures NoDuplicates(worlds[i].attempts[a].members)
  {
    RunKeepsValid(worlds, steps, i);
    var w := worlds[i];
    assert AttemptOk(w, a) && AttemptOk(w, b);
    assert RosterOk(w, w.attempts[a].key);
    hide AttemptOk, RosterOk;
  }

  /** First in, first out: no message waits while a later one, in the order `queued_at, message_id`, was already batched. */
  ghost predicate Fifo(w: World) {
    forall key, m, u | key in w.rosters && key.BatchKey? && m in w.rosters[key].members && Waits(w, u) :: Earlier(w.tables, m, u)
  }

  predicate Waits(w: World, u: MessageId) {
    u in w.tables.entries && w.tables.entries[u].slot.None?
  }

  /** The step makes a message visible that is earlier than one already batched: its transaction began before. */
  ghost predicate IsLate(w: World, step: Step) {
    && step.Queue? && step.lane == BatchLane
    && exists key, m | key in w.rosters && key.BatchKey? && m in w.rosters[key].members ::
         m in w.tables.messages && (step.stamped < w.tables.messages[m].createdAt || (step.stamped == w.tables.messages[m].createdAt && step.message < m))
  }

  /** What a batch picks comes before every message that it leaves waiting. */
  lemma PickedComeFirst(w: World, step: Step, m: MessageId, u: MessageId)
    requires Valid(w) && Enabled(w, step) && step.Open? && m in step.picked && Waits(Apply(w, step), u)
    ensures Waits(w, m) && Waits(w, u) && Earlier(w.tables, m, u)
  {
    hide RostersOk, JobsOk, AttemptsOk, MailerOk, ResultsOk, LocksOk, ReadyBatch;
    PruningRemovesNothing(w);
    hide PruneEntries, KeysOk;
    assert u !in step.picked && Waits(w, u);
    HeadComesFirst(w.tables, step.limit, step.picked, m, u);
  }

  lemma HeadComesFirst(t: Tables, limit: nat, picked: seq<MessageId>, m: MessageId, u: MessageId)
    requires EntriesOk(t) && IsQueueHead(t, limit, picked) && m in picked && u !in picked
    requires u in t.entries && t.entries[u].slot.None?
    ensures m in t.entries && t.entries[m].slot.None? && Earlier(t, m, u)
  {
    var i :| 0 <= i < |picked| && picked[i] == m;
    assert Queued(t, picked[i]) && Queued(t, u);
    assert Before(t, picked[i], u);
  }

  /** The rows keep their order, no new message waits and no batch was cut. */
  lemma QuietKeepsFifo(w: World, r: World)
    requires Fifo(w) && forall u | Waits(r, u) :: Waits(w, u)
    requires forall key | key in r.rosters && key.BatchKey? :: key in w.rosters && r.rosters[key] == w.rosters[key]
    requires forall m | m in w.tables.messages :: m in r.tables.messages && r.tables.messages[m].createdAt == w.tables.messages[m].createdAt
    ensures Fifo(r)
  {
    forall key, m, u | key in r.rosters && key.BatchKey? && m in r.rosters[key].members && Waits(r, u) ensures Earlier(r.tables, m, u) {
      assert Earlier(w.tables, m, u);
    }
  }

  lemma OpenKeepsFifo(w: World, step: Step)
    requires Valid(w) && Enabled(w, step) && step.Open? && Fifo(w)
    ensures Fifo(Apply(w, step))
  {
    var r := Apply(w, step);
    OpenedAre(w, step);
    hide Valid, Enabled, Apply, Fifo, Waits;
    forall key, m, u | key in r.rosters && key.BatchKey? && m in r.rosters[key].members && Waits(r, u) ensures Earlier(r.tables, m, u) {
      if key == BatchKey(step.batch) {
        PickedComeFirst(w, step, m, u);
      } else {
        FifoOf(w, key, m, u);
      }
    }
    FifoIs(r);
  }

  lemma FifoOf(w: World, key: Key, m: MessageId, u: MessageId)
    requires Fifo(w) && key in w.rosters && key.BatchKey? && m in w.rosters[key].members && Waits(w, u)
    ensures Earlier(w.tables, m, u)
  {
  }

  lemma FifoIs(w: World)
    requires forall key, m, u | key in w.rosters && key.BatchKey? && m in w.rosters[key].members && Waits(w, u) :: Earlier(w.tables, m, u)
    ensures Fifo(w)
  {
  }

  lemma OpenedAre(w: World, step: Step)
    requires Valid(w) && Enabled(w, step) && step.Open?
    ensures var r := Apply(w, step);
            && r.rosters == w.rosters[BatchKey(step.batch) := Roster(step.picked, step.at)] && r.tables.messages == w.tables.messages
            && forall u | Waits(r, u) :: Waits(w, u)
  {
    hide RostersOk, JobsOk, AttemptsOk, MailerOk, ResultsOk, LocksOk, ReadyBatch, IsQueueHead;
    PruningRemovesNothing(w);
  }

  lemma CompletionKeepsFifo(w: World, token: Token, outcome: Outcome, at: int)
    requires Completes(w, token, outcome, at) && Fifo(w)
    ensures Fifo(Completed(w, token, outcome, at))
  {
    if outcome.Retry? {
      hide EntriesOk, KeysOk, RostersOk, JobsOk, AttemptsOk, MailerOk, ResultsOk, LocksOk, Fifo;
      QuietKeepsFifo(w, Completed(w, token, outcome, at));
    } else {
      CompletedCloses(w, token, outcome, at);
      hide EntriesOk, KeysOk, RostersOk, JobsOk, AttemptsOk, MailerOk, ResultsOk, LocksOk, Completed, Fifo;
      QuietKeepsFifo(w, Completed(w, token, outcome, at));
    }
  }

  lemma SettleKeepsFifo(w: World, step: Step)
    requires Valid(w) && Enabled(w, step) && Fifo(w) && (step.Settle? || step.GiveUp?)
    ensures Fifo(Apply(w, step))
  {
    hide EntriesOk, KeysOk, RostersOk, JobsOk, AttemptsOk, MailerOk, ResultsOk, LocksOk, Fifo;
    var a := w.attempts[step.token];
    if a.key.SyncKey? {
      hide Complete;
      QuietKeepsFifo(w, Apply(w, step));
    } else if Owns(w.tables, a.key, step.token) {
      StepCompletes(w, step);
      CompletionKeepsFifo(w, step.token, OutcomeOf(w, step), TimeOf(w, step));
    }
  }

  lemma ReclaimKeepsFifo(w: World, step: Step)
    requires Valid(w) && Enabled(w, step) && Fifo(w) && step.Reclaim?
    ensures Fifo(Apply(w, step))
  {
    hide RostersOk, JobsOk, AttemptsOk, MailerOk, ResultsOk, LocksOk, IsRoster, Ready, IsPending, Fifo;
    PruningRemovesNothing(w);
    ReclaimedHasJob(w, step);
    hide EntriesOk, KeysOk, IsNextBatch, IsNextAttachment;
    assert Apply(w, step).tables.entries == w.tables.entries && Apply(w, step).tables.messages == w.tables.messages;
    assert step.key.BatchKey? ==> step.key in w.rosters;
    QuietKeepsFifo(w, Apply(w, step));
  }

  lemma ReclaimedHasJob(w: World, step: Step)
    requires EntriesOk(w.tables) && KeysOk(w) && Enabled(w, step) && step.Reclaim?
    ensures step.key in w.tables.jobs && (step.key.BatchKey? ==> step.key in w.rosters)
  {
    PruningRemovesNothing(w);
  }

  lemma OtherStepKeepsFifo(w: World, step: Step)
    requires Valid(w) && Enabled(w, step) && Fifo(w)
    requires step.Tick? || step.Recover? || step.Submit? || step.Arrive? || step.Abort? || step.Intend? || (step.Queue? && step.lane != BatchLane)
    ensures Fifo(Apply(w, step))
  {
    hide EntriesOk, KeysOk, RostersOk, JobsOk, AttemptsOk, MailerOk, ResultsOk, LocksOk, Process, Fifo;
    QuietKeepsFifo(w, Apply(w, step));
  }

  /** A new message of the batch lane keeps the order exactly when no later one is batched. */
  lemma QueueKeepsFifoIff(w: World, step: Step)
    requires Valid(w) && Enabled(w, step) && Fifo(w) && step.Queue? && step.lane == BatchLane
    ensures Fifo(Apply(w, step)) <==> !IsLate(w, step)
  {
    hide EntriesOk, KeysOk, JobsOk, AttemptsOk, MailerOk, ResultsOk, LocksOk;
    var r, x := Apply(w, step), step.message;
    BatchedAreStored(w);
    hide RostersOk;
    assert Waits(r, x);
    if IsLate(w, step) {
      var key, m :| key in w.rosters && key.BatchKey? && m in w.rosters[key].members && m in w.tables.messages
        && (step.stamped < w.tables.messages[m].createdAt || (step.stamped == w.tables.messages[m].createdAt && x < m));
      assert !Earlier(r.tables, m, x);
    } else {
      forall key, m, u | key in r.rosters && key.BatchKey? && m in r.rosters[key].members && Waits(r, u) ensures Earlier(r.tables, m, u) {
        if u != x {
          assert Waits(w, u) && Earlier(w.tables, m, u);
        }
      }
    }
  }

  /** Batched messages are stored. */
  lemma BatchedAreStored(w: World)
    requires RostersOk(w)
    ensures forall key, m | key in w.rosters && m in w.rosters[key].members :: m in w.tables.messages
  {
    forall key, m | key in w.rosters && m in w.rosters[key].members ensures m in w.tables.messages {
      assert RosterOk(w, key);
    }
  }

  /** Every step keeps the order, unless it is late. */
  lemma StepKeepsFifoIff(w: World, step: Step)
    requires Valid(w) && Enabled(w, step) && Fifo(w)
    ensures Fifo(Apply(w, step)) <==> !IsLate(w, step)
  {
    hide Valid, Enabled, Apply, Fifo;
    if step.Open? {
      OpenKeepsFifo(w, step);
    } else if step.Settle? || step.GiveUp? {
      SettleKeepsFifo(w, step);
    } else if step.Reclaim? {
      ReclaimKeepsFifo(w, step);
    } else if step.Queue? && step.lane == BatchLane {
      QueueKeepsFifoIff(w, step);
    } else {
      OtherStepKeepsFifo(w, step);
    }
  }

  /** Batches are first in, first out throughout a run if and only if no message became visible after a batch
      with a later one had been cut. */
  lemma {:induction false} BatchesAreFifoIff(worlds: seq<World>, steps: seq<Step>, n: nat)
    requires IsRun(worlds, steps) && Valid(worlds[0]) && Fifo(worlds[0]) && n < |worlds|
    ensures (forall i | 0 <= i <= n :: Fifo(worlds[i])) <==> forall j | 0 <= j < n :: !IsLate(worlds[j], steps[j])
  {
    hide Valid, Enabled, Apply, Fifo, IsLate;
    if n > 0 {
      BatchesAreFifoIff(worlds, steps, n - 1);
      RunKeepsValid(worlds, steps, n - 1);
      if Fifo(worlds[n - 1]) {
        StepKeepsFifoIff(worlds[n - 1], steps[n - 1]);
        assert Fifo(worlds[n]) <==> !IsLate(worlds[n - 1], steps[n - 1]);
      }
      if forall i | 0 <= i <= n :: Fifo(worlds[i]) {
        assert Fifo(worlds[n - 1]) && Fifo(worlds[n]);
        assert forall i | 0 <= i <= n - 1 :: Fifo(worlds[i]);
      }
    }
  }

  /** A transaction that began before another may commit after it, and after a batch was cut in between. */
  lemma MessageMayBePassed() returns (worlds: seq<World>, steps: seq<Step>)
    ensures IsRun(worlds, steps) && worlds[0] == Start(2) && Fifo(worlds[0]) && !Fifo(worlds[|steps|])
    ensures var w := worlds[|steps|];
            && Waits(w, 1) && w.tables.entries[1].queuedAt == 1
            && BatchKey(0) in w.rosters && w.rosters[BatchKey(0)].members == [0] && 0 in w.tables.messages && w.tables.messages[0].createdAt == 2
  {
    var first, cut, late := Queue(0, BatchLane, 2), Open(0, [0], 100, 0, 2, 2), Queue(1, BatchLane, 1);
    var w1 := Apply(Start(2), first);
    OneMessageIsHead(w1);
    var w2 := Apply(w1, cut);
    var w3 := Apply(w2, late);
    assert Waits(w3, 1) && !Earlier(w3.tables, 0, 1);
    worlds, steps := [Start(2), w1, w2, w3], [first, cut, late];
  }

  lemma OneMessageIsHead(w: World)
    requires w.tables == Tables(map[0 := Row(BatchLane, 2, Pending, None)], map[0 := Entry(2, None)], map[])
    ensures PruneEntries(w.tables) == w.tables && IsQueueHead(w.tables, 100, [0])
  {
    assert PruneEntries(w.tables).entries == w.tables.entries;
  }

  /** Whatever became visible late: each batch of a run comes before all that waited when it was cut. */
  lemma NoBatchPassesOver(worlds: seq<World>, steps: seq<Step>, i: nat, m: MessageId, u: MessageId)
    requires IsRun(worlds, steps) && Valid(worlds[0]) && i < |steps| && steps[i].Open?
    requires m in steps[i].picked && Waits(worlds[i + 1], u)
    ensures Waits(worlds[i], m) && Waits(worlds[i], u) && Earlier(worlds[i].tables, m, u)
  {
    hide Valid, Enabled, Apply, Waits;
    RunKeepsValid(worlds, steps, i);
    PickedComeFirst(worlds[i], steps[i], m, u);
  }

  /** A live batch occupies the positions 0, 1, ... without gaps, and all its messages are PENDING. */
  lemma PositionsAreDense(w: World, batch: nat)
    requires Valid(w) && BatchKey(batch) in w.tables.jobs
    ensures BatchKey(batch) in w.rosters && IsRoster(w.tables, BatchKey(batch), w.rosters[BatchKey(batch)].members)
    ensures w.rosters[BatchKey(batch)].members != [] && AllPending(w.tables, w.rosters[BatchKey(batch)].members)
  {
    hide JobsOk, AttemptsOk, MailerOk, ResultsOk, LocksOk;
    assert RosterOk(w, BatchKey(batch));
    var members := w.rosters[BatchKey(batch)].members;
    forall m | m in members ensures IsPending(w.tables, m) {
      var i :| 0 <= i < |members| && members[i] == m;
    }
  }

  /** In every run the positions of a live batch are 0, 1, ..., and the members of any batch, live or finished,
      stand in the order `queued_at, message_id`. */
  lemma PositionsFollowTheQueue(worlds: seq<World>, steps: seq<Step>, i: nat, batch: nat)
    requires IsRun(worlds, steps) && Valid(worlds[0]) && i < |worlds| && BatchKey(batch) in worlds[i].rosters
    ensures var w, members := worlds[i], worlds[i].rosters[BatchKey(batch)].members;
            && members != []
            && (forall j, k | 0 <= j < k < |members| :: Earlier(w.tables, members[j], members[k]))
            && (BatchKey(batch) in w.tables.jobs ==> IsRoster(w.tables, BatchKey(batch), members) && AllPending(w.tables, members))
  {
    RunKeepsValid(worlds, steps, i);
    hide IsRun, JobsOk, AttemptsOk, MailerOk, ResultsOk, LocksOk, IsRoster;
    assert RosterOk(worlds[i], BatchKey(batch));
    if BatchKey(batch) in worlds[i].tables.jobs {
      PositionsAreDense(worlds[i], batch);
    }
  }

  // --- The synchronous lane --------------------------------------------------------------------------------------------

  predicate InSyncLane(w: World, m: MessageId) {
    m in w.tables.messages && w.tables.messages[m].lane == SyncLane
  }

  /** A finished synchronous message that no delivery holds locked. */
  predicate AtRest(w: World, m: MessageId) {
    InSyncLane(w, m) && w.tables.messages[m].state != Pending && m !in w.locks
  }

  lemma StepLeavesAtRest(w: World, step: Step, m: MessageId)
    requires Valid(w) && Enabled(w, step) && AtRest(w, m)
    ensures AtRest(Apply(w, step), m) && Apply(w, step).tables.messages[m] == w.tables.messages[m]
  {
    hide EntriesOk, KeysOk, RostersOk, JobsOk, AttemptsOk, MailerOk, ResultsOk, LocksOk;
    if step.Settle? || step.GiveUp? {
      if IsLeased(w.attempts[step.token].key) {
        SyncRowsUntouched(w, step, m);
      } else {
        hide Complete;
      }
    } else if step.Open? || step.Reclaim? {
      ClaimsLeaveSync(w, step, m);
    } else {
      hide Process;
    }
  }

  lemma ClaimsLeaveSync(w: World, step: Step, m: MessageId)
    requires Enabled(w, step) && (step.Open? || step.Reclaim?) && AtRest(w, m)
    ensures AtRest(Apply(w, step), m) && Apply(w, step).tables.messages[m] == w.tables.messages[m]
  {
    hide IsQueueHead, Before, IsRoster, ReadyBatch, IsNextBatch, IsNextAttachment;
  }

  lemma CompletionLeavesOthers(t: Tables, key: Key, token: Token, members: seq<MessageId>, attemptCount: nat,
        outcome: Outcome, now: int, m: MessageId)
    requires (outcome.Accept? ==> |outcome.ids| == |members|) && m in t.messages && m !in members
    ensures var r := Complete(t, key, token, members, attemptCount, outcome, now); m in r.messages && r.messages[m] == t.messages[m]
  {
  }

  lemma SyncRowsUntouched(w: World, step: Step, m: MessageId)
    requires Valid(w) && Enabled(w, step) && AtRest(w, m) && (step.Settle? || step.GiveUp?) && IsLeased(w.attempts[step.token].key)
    ensures AtRest(Apply(w, step), m) && Apply(w, step).tables.messages[m] == w.tables.messages[m]
  {
    hide EntriesOk, KeysOk, RostersOk, JobsOk, AttemptsOk, MailerOk, ResultsOk, LocksOk, Complete;
    var a := w.attempts[step.token];
    SyncIsNoMember(w, step.token, m);
    CompletionLeavesOthers(w.tables, a.key, step.token, a.members, a.attemptCount, OutcomeOf(w, step), TimeOf(w, step), m);
  }

  /** The outcome of a synchronous message is final as soon as no delivery of it is in progress. */
  lemma {:induction false} SyncOutcomeIsFinal(worlds: seq<World>, steps: seq<Step>, i: nat, j: nat, m: MessageId)
    requires IsRun(worlds, steps) && Valid(worlds[0]) && i <= j < |worlds| && AtRest(worlds[i], m)
    ensures AtRest(worlds[j], m) && worlds[j].tables.messages[m] == worlds[i].tables.messages[m]
    decreases j
  {
    hide Valid, Enabled, Apply, AtRest;
    if i < j {
      SyncOutcomeIsFinal(worlds, steps, i, j - 1, m);
      RunKeepsValid(worlds, steps, j - 1);
      StepLeavesAtRest(worlds[j - 1], steps[j - 1], m);
    }
  }

  /** The row of the message never changes again, however the run goes on from `w`. */
  ghost predicate FinalIn(w: World, m: MessageId) {
    && m in w.tables.messages
    && forall worlds: seq<World>, steps: seq<Step>, j: nat | IsRun(worlds, steps) && worlds[0] == w && j < |worlds| ::
         m in worlds[j].tables.messages && worlds[j].tables.messages[m] == w.tables.messages[m]
  }

  /** A delivery that holds the lock can still record what it sees. */
  lemma LockedMayChange(w: World, m: MessageId) returns (step: Step)
    requires Valid(w) && m in w.locks
    ensures Enabled(w, step)
    ensures var r := Apply(w, step); m in w.tables.messages && m in r.tables.messages && r.tables.messages[m] != w.tables.messages[m]
  {
    hide EntriesOk, KeysOk, RostersOk, JobsOk, MailerOk, ResultsOk;
    ClaimIsPast(w, w.locks[m]);
    hide AttemptsOk;
    step := Settle(w.locks[m], ApiError(500, OtherCode), w.now);
  }

  /** The outcome of a synchronous message is final if and only if no delivery of it is in progress. */
  lemma SyncOutcomeIsFinalIff(w: World, m: MessageId)
    requires Valid(w) && InSyncLane(w, m) && w.tables.messages[m].state != Pending
    ensures FinalIn(w, m) <==> m !in w.locks
  {
    hide Valid, Enabled, Apply;
    if m in w.locks {
      var step := LockedMayChange(w, m);
      var worlds := [w, Apply(w, step)];
      assert IsRun(worlds, [step]);
      assert worlds[1].tables.messages[m] != w.tables.messages[m];
    } else {
      forall worlds: seq<World>, steps: seq<Step>, j: nat | IsRun(worlds, steps) && worlds[0] == w && j < |worlds|
        ensures m in worlds[j].tables.messages && worlds[j].tables.messages[m] == w.tables.messages[m]
      {
        SyncOutcomeIsFinal(worlds, steps, 0, j, m);
      }
    }
  }

  /** A delivery that begins just before the age limit. */
  lemma DeliveryBegins(id: string) returns (worlds: seq<World>)
    ensures IsRun(worlds, [Intend(0, 0, 0), Tick(WINDOW - 1), Recover(0, 1, WINDOW - 1)]) && worlds[0] == Start(0)
    ensures var w := worlds[3];
            && w.now == WINDOW - 1 && w.tables.messages == map[0 := Row(SyncLane, 0, Pending, None)] && w.locks == map[] && w.mailer == Mailer(map[], [])
            && w.attempts.Keys == {0, 1} && w.attempts[1] == Attempt(SyncKey(0), [0], 0, 1, WINDOW - 1, false, None)
  {
    var w0 := Start(0);
    var w1 := Apply(w0, Intend(0, 0, 0));
    var w2 := Apply(w1, Tick(WINDOW - 1));
    worlds := [w0, w1, w2, Apply(w2, Recover(0, 1, WINDOW - 1))];
    hide Enabled, Apply;
  }

  lemma RunExtends(worlds: seq<World>, steps: seq<Step>, step: Step)
    requires IsRun(worlds, steps) && Enabled(worlds[|steps|], step)
    ensures IsRun(worlds + [Apply(worlds[|steps|], step)], steps + [step])
  {
    hide Enabled, Apply;
  }

  /** Its request is answered, and it still holds the lock when the limit passes. */
  lemma DeliveryAtTheLimit(id: string) returns (worlds: seq<World>, steps: seq<Step>)
    requires |id| > 0
    ensures IsRun(worlds, steps) && worlds[0] == Start(0)
    ensures var w := worlds[|steps|];
            && w.now == WINDOW && w.tables.messages == map[0 := Row(SyncLane, 0, Pending, None)] && w.locks == map[0 := 1]
            && w.attempts.Keys == {0, 1} && w.attempts[1] == Attempt(SyncKey(0), [0], 0, 1, WINDOW - 1, true, Some(Answer([id])))
  {
    hide IsRun;
    worlds := DeliveryBegins(id);
    steps := [Intend(0, 0, 0), Tick(WINDOW - 1), Recover(0, 1, WINDOW - 1)];
    RunLength(worlds, steps);
    var w3 := worlds[3];
    RunExtends(worlds, steps, Submit(1, WINDOW - 1));
    var w4 := Apply(w3, Submit(1, WINDOW - 1));
    RunExtends(worlds + [w4], steps + [Submit(1, WINDOW - 1)], Arrive(1, [id]));
    var w5 := Apply(w4, Arrive(1, [id]));
    RunExtends(worlds + [w4] + [w5], steps + [Submit(1, WINDOW - 1)] + [Arrive(1, [id])], Tick(WINDOW));
    worlds, steps := worlds + [w4] + [w5] + [Apply(w5, Tick(WINDOW))], steps + [Submit(1, WINDOW - 1)] + [Arrive(1, [id])] + [Tick(WINDOW)];
  }

  lemma RunLength(worlds: seq<World>, steps: seq<Step>)
    requires IsRun(worlds, steps)
    ensures |worlds| == |steps| + 1
  {
  }

  /** While a delivery is in progress the age check may mark the message INDETERMINATE, and the
      delivery overwrites that: there INDETERMINATE is not final. */
  lemma GivenUpMayStillBeAccepted(id: string) returns (w: World)
    requires |id| > 0
    ensures exists worlds, steps :: IsRun(worlds, steps) && worlds[0] == Start(0) && worlds[|steps|] == w
    ensures Enabled(w, Recover(0, 2, WINDOW))
    ensures var given := Apply(w, Recover(0, 2, WINDOW));
            && 0 in given.tables.messages && given.tables.messages[0].state == Indeterminate
            && Enabled(given, Settle(1, Ids([id]), WINDOW))
            && var accepted := Apply(given, Settle(1, Ids([id]), WINDOW));
               0 in accepted.tables.messages && accepted.tables.messages[0] == Row(SyncLane, 0, Accepted, Some(id))
  {
    var worlds, steps := DeliveryAtTheLimit(id);
    RunLength(worlds, steps);
    hide IsRun;
    w := worlds[|steps|];
  }
}
