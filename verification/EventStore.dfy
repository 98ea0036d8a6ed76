/** The event tables as mutable state, statement by statement, and the drain loop of one
    runtime against a sink that may fail. Each transaction is the step of the feed of the same name. */
module EventStore {
  import opened Text
  import opened EventFeed

  /** A row that `claimDeliveries` returned. */
  datatype Claimed = Claimed(event: EventId, token: Token, attemptCount: nat)

  function Ids(rows: seq<EventId>): set<EventId> {
    set e | e in rows
  }

  /** The deliveries `ids` are leased, the others untouched. */
  predicate AreLeased(before: map<EventId, Delivery>, after: map<EventId, Delivery>, ids: set<EventId>, token: Token,
        at: int) {
    && after.Keys == before.Keys
    && forall e | e in after :: after[e] == if e in ids then LeasedDelivery(before[e], token, at) else before[e]
  }

  /** The claim lists the rows with their attempt numbers, and holds their leases. */
  predicate AreClaimed(claimed: seq<Claimed>, rows: seq<EventId>, deliveries: map<EventId, Delivery>, token: Token) {
    && |claimed| == |rows|
    && forall i | 0 <= i < |rows| ::
         && rows[i] in deliveries && deliveries[rows[i]].leaseToken == Some(token)
         && claimed[i] == Claimed(rows[i], token, deliveries[rows[i]].attemptCount)
  }

  class EventTables {
    var now: int
    var sequences: map<ConversationId, nat>
    var events: map<EventId, Event>
    var deliveries: map<EventId, Delivery>
    ghost var log: seq<EventId>
    ghost var claims: map<Token, Batch>
    ghost var published: set<(Token, EventId)>

    ghost function Snapshot(): Feed
      reads this
    {
      Feed(now, sequences, events, deliveries, log, claims, published)
    }

    constructor (now: int)
      ensures Snapshot() == Start(now) && Valid(Snapshot())
    {
      this.now := now;
      sequences, events, deliveries := map[], map[], map[];
      log, claims, published := [], map[], {};
      new;
      StartIsValid(now);
    }

    /** `appendConversationEvent`; without a configured sink nothing is recorded and no number is used up. */
    method AppendConversationEvent(c: ConversationId, e: EventId, at: int,
          sinksEnabled: bool) returns (sequence: Option<nat>)
      requires Valid(Snapshot()) && Enabled(Snapshot(), Append(c, e, at))
      modifies this
      ensures Valid(Snapshot())
      ensures !sinksEnabled ==> Snapshot() == old(Snapshot()) && sequence.None?
      ensures sinksEnabled ==> Snapshot() == Apply(old(Snapshot()), Append(c, e, at)) && sequence == Some(NextSequence(old(Snapshot()), c))
    {
      hide NumbersOk, ClaimsOk, WorkersOk, LogOk;
      StepKeepsValid(Snapshot(), Append(c, e, at));
      if !sinksEnabled {
        return None;
      }
      sequences := sequences[c := 1 + if c in sequences then sequences[c] else 0];
      events := events[e := Event(c, sequences[c])];
      deliveries := deliveries[e := Delivery(at, 0, None, None, None)];
      sequence := Some(sequences[c]);
    }

    method LeaseRows(token: Token, rows: seq<EventId>, at: int) returns (claimed: seq<Claimed>)
      requires NoDuplicates(rows) && forall e | e in rows :: e in deliveries
      modifies this`deliveries
      ensures AreLeased(old(deliveries), deliveries, Ids(rows), token, at) && AreClaimed(claimed, rows, deliveries, token)
    {
      claimed := [];
      var i := 0;
      while i < |rows|
        invariant 0 <= i <= |rows| && |claimed| == i
        invariant AreLeased(old(deliveries), deliveries, Ids(rows[..i]), token, at)
        invariant forall j | 0 <= j < i :: claimed[j] == Claimed(rows[j], token, old(deliveries)[rows[j]].attemptCount + 1)
      {
        var e := rows[i];
        assert Ids(rows[..i + 1]) == Ids(rows[..i]) + {rows[i]};
        claimed := claimed + [Claimed(e, token, deliveries[e].attemptCount + 1)];
        deliveries := deliveries[e := deliveries[e].(leaseToken := Some(token), leaseUntil := Some(at + LEASE), attemptCount := deliveries[e].attemptCount + 1)];
        i := i + 1;
      }
      assert rows[..i] == rows;
    }

    /** `claimDeliveries`: the queried rows are leased one by one. */
    method ClaimDeliveries(token: Token, rows: seq<EventId>, at: int) returns (claimed: seq<Claimed>)
      requires Valid(Snapshot()) && Enabled(Snapshot(), Claim(token, rows, at))
      modifies this
      ensures Valid(Snapshot()) && Snapshot() == Apply(old(Snapshot()), Claim(token, rows, at))
      ensures now == old(now) && log == old(log) && token in claims && claims[token] == Batch(rows, at) && NoDuplicates(rows)
      ensures AreLeased(old(deliveries), deliveries, Ids(rows), token, at) && AreClaimed(claimed, rows, deliveries, token)
    {
      hide Valid, Claimable;
      StepKeepsValid(Snapshot(), Claim(token, rows, at));
      ClaimableIsStored(Snapshot(), token, rows, at);
      claimed := LeaseRows(token, rows, at);
      claims := claims[token := Batch(rows, at)];
      assert deliveries == Apply(old(Snapshot()), Claim(token, rows, at)).deliveries;
    }

    /** What reaches the stream when the sink publishes. */
    ghost method Publish(token: Token, e: EventId)
      requires Valid(Snapshot()) && Enabled(Snapshot(), EventFeed.Publish(token, e))
      modifies this
      ensures Valid(Snapshot()) && Snapshot() == Apply(old(Snapshot()), EventFeed.Publish(token, e))
    {
      hide NumbersOk, ClaimsOk, WorkersOk, LogOk;
      StepKeepsValid(Snapshot(), EventFeed.Publish(token, e));
      log := log + [e];
      published := published + {(token, e)};
    }

    /** `acknowledgeDelivery`: the lease token guards the update. */
    method AcknowledgeDelivery(claim: Claimed, at: int)
      requires Valid(Snapshot()) && Enabled(Snapshot(), Acknowledge(claim.token, claim.event, at))
      modifies this
      ensures Valid(Snapshot()) && Snapshot() == Apply(old(Snapshot()), Acknowledge(claim.token, claim.event, at))
    {
      hide NumbersOk, ClaimsOk, WorkersOk, LogOk;
      StepKeepsValid(Snapshot(), Acknowledge(claim.token, claim.event, at));
      if claim.event in deliveries && deliveries[claim.event].leaseToken == Some(claim.token) {
        deliveries := deliveries[claim.event := deliveries[claim.event].(publishedAt := Some(at), leaseToken := None, leaseUntil := None)];
      }
    }

    /** `retryDelivery`. */
    method RetryDelivery(claim: Claimed, at: int)
      requires Valid(Snapshot()) && Enabled(Snapshot(), Retry(claim.token, claim.event, claim.attemptCount, at))
      modifies this
      ensures Valid(Snapshot()) && Snapshot() == Apply(old(Snapshot()), Retry(claim.token, claim.event, claim.attemptCount, at))
    {
      hide NumbersOk, ClaimsOk, WorkersOk, LogOk;
      StepKeepsValid(Snapshot(), Retry(claim.token, claim.event, claim.attemptCount, at));
      if claim.event in deliveries && deliveries[claim.event].leaseToken == Some(claim.token) {
        deliveries := deliveries[claim.event := deliveries[claim.event].(nextAttemptAt := at + RetryDelay(claim.attemptCount), leaseToken := None, leaseUntil := None)];
      }
    }
  }

  /** Whether a statement that throws took effect before is not known to the runtime. */
  datatype RetryFate = Rescheduled | RetryFailed(applied: bool)

  /** What becomes of one delivery: the sink may throw with or without having published, and so may the statements after it. */
  datatype Fate = Fine | PublishFailed(reached: bool, retry: RetryFate) | AcknowledgeFailed(acknowledged: bool, retry: RetryFate)

  datatype Turn = Turn(fate: Fate, at: int)

  datatype ClaimFate = ClaimDone | ClaimFailed(committed: bool)

  /** The turn ends the whole cycle: rescheduling threw. */
  predicate Throws(turn: Turn) {
    !turn.fate.Fine? && turn.fate.retry.RetryFailed?
  }

  predicate Reaches(turn: Turn) {
    turn.fate.PublishFailed? ==> turn.fate.reached
  }

  function Acknowledged(d: Delivery, at: int): Delivery {
    d.(publishedAt := Some(at), leaseToken := None, leaseUntil := None)
  }

  /** Rescheduling that took effect. */
  function AfterRetry(d: Delivery, retry: RetryFate, at: int): Delivery {
    if retry.Rescheduled? || retry.applied
    then d.(nextAttemptAt := at + RetryDelay(d.attemptCount), leaseToken := None, leaseUntil := None)
    else d
  }

  /** A leased delivery after its turn: published, due again after the delay of its attempt, or still leased. */
  function AfterTurn(d: Delivery, turn: Turn): Delivery {
    match turn.fate
    case Fine => Acknowledged(d, turn.at)
    case PublishFailed(_, retry) => AfterRetry(d, retry, turn.at)
    case AcknowledgeFailed(acknowledged, retry) => if acknowledged then Acknowledged(d, turn.at) else AfterRetry(d, retry, turn.at)
  }

  predicate HaveTurns(rows: seq<EventId>, turns: map<EventId, Turn>) {
    forall e | e in rows :: e in turns
  }

  /** How many of the rows have their turn before the cycle ends. */
  function Taken(rows: seq<EventId>, turns: map<EventId, Turn>): (n: nat)
    requires HaveTurns(rows, turns)
    ensures n <= |rows|
    ensures forall i | 0 <= i < n - 1 :: !Throws(turns[rows[i]])
    ensures n < |rows| ==> n > 0 && Throws(turns[rows[n - 1]])
  {
    if rows == [] then 0 else if Throws(turns[rows[0]]) then 1 else 1 + Taken(rows[1..], turns)
  }

  /** The events that reach the stream, in claim order. */
  function Reached(rows: seq<EventId>, turns: map<EventId, Turn>): seq<EventId>
    requires HaveTurns(rows, turns)
  {
    if rows == [] then []
    else Reached(rows[..|rows| - 1], turns) + if Reaches(turns[rows[|rows| - 1]]) then [rows[|rows| - 1]] else []
  }

  predicate AllFine(rows: seq<EventId>, turns: map<EventId, Turn>)
    requires HaveTurns(rows, turns)
  {
    forall e | e in rows :: turns[e].fate.Fine?
  }

  /** The deliveries `ids` had their turn, the others are untouched. */
  predicate HadTurns(before: map<EventId, Delivery>, after: map<EventId, Delivery>, ids: set<EventId>,
        turns: map<EventId, Turn>)
    requires ids <= turns.Keys
  {
    && after.Keys == before.Keys
    && forall e | e in after :: after[e] == if e in ids then AfterTurn(before[e], turns[e]) else before[e]
  }

  lemma NextTurn(before: map<EventId, Delivery>, mid: map<EventId, Delivery>, after: map<EventId, Delivery>, ids: set<EventId>,
        turns: map<EventId, Turn>, e: EventId)
    requires ids <= turns.Keys && e in turns && e !in ids && HadTurns(before, mid, ids, turns)
    ensures e in mid ==> e in before && mid[e] == before[e]
    ensures e in mid && after.Keys == mid.Keys && after[e] == AfterTurn(mid[e], turns[e]) && (forall o | o in after && o != e :: after[o] == mid[o])
            ==> HadTurns(before, after, ids + {e}, turns)
  {
    hide AfterTurn;
  }

  class ConversationEventRuntime {
    var stopped: bool
    var running: bool
    var healthy: bool
    const tables: EventTables

    constructor (tables: EventTables)
      ensures this.tables == tables && !stopped && !running && healthy
    {
      this.tables := tables;
      stopped, running, healthy := false, false, true;
    }

    method Stop()
      modifies this`stopped
      ensures stopped
    {
      stopped := true;
    }

    /** The body of the inner loop: publish and acknowledge; whatever of that throws leads to rescheduling. */
    method PublishOne(claim: Claimed, turn: Turn) returns (threw: bool)
      requires Valid(tables.Snapshot()) && Holds(tables.Snapshot(), claim.token, claim.event) && Owns(tables.Snapshot(), claim.token, claim.event)
      requires claim.attemptCount == tables.deliveries[claim.event].attemptCount
      requires tables.claims[claim.token].at <= turn.at <= tables.now
      modifies tables
      ensures Valid(tables.Snapshot()) && tables.now == old(tables.now) && tables.claims == old(tables.claims)
      ensures threw <==> Throws(turn)
      ensures tables.log == old(tables.log) + if Reaches(turn) then [claim.event] else []
      ensures tables.deliveries.Keys == old(tables.deliveries).Keys
      ensures tables.deliveries[claim.event] == AfterTurn(old(tables.deliveries)[claim.event], turn)
      ensures forall e | e in tables.deliveries && e != claim.event :: tables.deliveries[e] == old(tables.deliveries)[e]
    {
      hide NumbersOk, ClaimsOk, WorkersOk, LogOk, RetryDelay;
      if Reaches(turn) {
        tables.Publish(claim.token, claim.event);
      }
      if turn.fate.Fine? || (turn.fate.AcknowledgeFailed? && turn.fate.acknowledged) {
        tables.AcknowledgeDelivery(claim, turn.at);
      }
      if turn.fate.Fine? {
        return false;
      }
      if turn.fate.retry.Rescheduled? || turn.fate.retry.applied {
        tables.RetryDelivery(claim, turn.at);
      }
      threw := turn.fate.retry.RetryFailed?;
    }

    /** The inner loop over the claimed deliveries, up to the first turn that throws. */
    method PublishAll(token: Token, rows: seq<EventId>, claimed: seq<Claimed>, turns: map<EventId, Turn>)
      returns (cycleHealthy: bool, threw: bool)
      requires Valid(tables.Snapshot()) && token in tables.claims && tables.claims[token].rows == rows && NoDuplicates(rows)
      requires AreClaimed(claimed, rows, tables.deliveries, token) && |claimed| == |rows|
      requires HaveTurns(rows, turns) && forall e | e in rows :: tables.claims[token].at <= turns[e].at <= tables.now
      modifies tables
      ensures Valid(tables.Snapshot()) && tables.now == old(tables.now)
      ensures cycleHealthy <==> AllFine(rows, turns)
      ensures threw <==> exists e | e in rows :: Throws(turns[e])
      ensures tables.log == old(tables.log) + Reached(rows[..Taken(rows, turns)], turns)
      ensures Ids(rows) <= turns.Keys && Ids(rows[..Taken(rows, turns)]) <= Ids(rows)
      ensures HadTurns(old(tables.deliveries), tables.deliveries, Ids(rows[..Taken(rows, turns)]), turns)
    {
      hide Valid, RetryDelay, AfterTurn, Reached, Reaches, Ids, AllFine, Throws, Taken, NoDuplicates, HadTurns, AreClaimed;
      StartOf(old(tables.deliveries), rows, turns);
      cycleHealthy, threw := true, false;
      var i := 0;
      TurnOf(rows, turns, 0);
      TakenOf(rows, turns, 0);
      while i < |claimed| && !threw
        invariant 0 <= i <= |rows| && HaveTurns(rows[..i], turns) && Ids(rows[..i]) <= turns.Keys
        invariant i < |rows| && !threw ==> i < Taken(rows, turns)
        invariant i == |rows| || threw ==> i == Taken(rows, turns)
        invariant Valid(tables.Snapshot()) && tables.now == old(tables.now) && tables.claims == old(tables.claims)
        invariant cycleHealthy <==> AllFine(rows[..i], turns)
        invariant threw <==> i > 0 && Throws(turns[rows[i - 1]])
        invariant tables.log == old(tables.log) + Reached(rows[..i], turns)
        invariant HadTurns(old(tables.deliveries), tables.deliveries, Ids(rows[..i]), turns)
      {
        TurnOf(rows, turns, i);
        TakenOf(rows, turns, i);
        if !turns[rows[i]].fate.Fine? {
          cycleHealthy := false;
        }
        ghost var mid := tables.deliveries;
        StillClaimed(claimed, rows, old(tables.deliveries), mid, Ids(rows[..i]), turns, token, i);
        threw := PublishOne(claimed[i], turns[rows[i]]);
        NextTurn(old(tables.deliveries), mid, tables.deliveries, Ids(rows[..i]), turns, rows[i]);
        i := i + 1;
      }
      EndOf(rows, turns, i);
    }

    /** Claim, then publish, with no other runtime interfering. */
    method Cycle(token: Token, rows: seq<EventId>, at: int,
          turns: map<EventId, Turn>) returns (cycleHealthy: bool, threw: bool)
      requires Valid(tables.Snapshot()) && Enabled(tables.Snapshot(), Claim(token, rows, at))
      requires HaveTurns(rows, turns) && forall e | e in rows :: at <= turns[e].at <= tables.now
      modifies tables
      ensures Valid(tables.Snapshot())
      ensures cycleHealthy <==> AllFine(rows, turns)
      ensures threw <==> exists e | e in rows :: Throws(turns[e])
      ensures tables.log == old(tables.log) + Reached(rows[..Taken(rows, turns)], turns)
      ensures Ids(rows) <= turns.Keys && Ids(rows[..Taken(rows, turns)]) <= Ids(rows)
      ensures exists leased :: AreLeased(old(tables.deliveries), leased, Ids(rows), token, at)
                               && HadTurns(leased, tables.deliveries, Ids(rows[..Taken(rows, turns)]), turns)
    {
      hide Valid, Enabled, Apply, AfterTurn, LeasedDelivery, Reached, Ids, Owns, AllFine, Throws, Taken;
      var claimed := tables.ClaimDeliveries(token, rows, at);
      cycleHealthy, threw := PublishAll(token, rows, claimed, turns);
    }

    /** `drain`: a stopped or busy runtime does nothing; afterwards it is healthy if and only if neither the claim
        nor any publication, acknowledgement or rescheduling failed. */
    method Drain(token: Token, rows: seq<EventId>, at: int, claimFate: ClaimFate, turns: map<EventId, Turn>)
      requires Valid(tables.Snapshot()) && Enabled(tables.Snapshot(), Claim(token, rows, at))
      requires HaveTurns(rows, turns) && forall e | e in rows :: at <= turns[e].at <= tables.now
      modifies this, tables
      ensures Valid(tables.Snapshot()) && stopped == old(stopped)
      ensures old(stopped) || old(running) ==> tables.Snapshot() == old(tables.Snapshot()) && running == old(running) && healthy == old(healthy)
      ensures !old(stopped) && !old(running) ==> !running && (healthy <==> claimFate.ClaimDone? && AllFine(rows, turns))
      ensures !old(stopped) && !old(running) && claimFate.ClaimFailed? ==>
                tables.Snapshot() == if claimFate.committed then Apply(old(tables.Snapshot()), Claim(token, rows, at)) else old(tables.Snapshot())
      ensures !old(stopped) && !old(running) && claimFate.ClaimDone? ==>
                && tables.log == old(tables.log) + Reached(rows[..Taken(rows, turns)], turns)
                && Ids(rows) <= turns.Keys && Ids(rows[..Taken(rows, turns)]) <= Ids(rows)
                && exists leased :: AreLeased(old(tables.deliveries), leased, Ids(rows), token, at)
                                    && HadTurns(leased, tables.deliveries, Ids(rows[..Taken(rows, turns)]), turns)
    {
      hide Valid, Enabled, Apply, AfterTurn, LeasedDelivery, Reached, Ids, Taken, AreLeased, HadTurns;
      if stopped || running {
        return;
      }
      running := true;
      if claimFate.ClaimFailed? {
        if claimFate.committed {
          var lost := tables.ClaimDeliveries(token, rows, at);
        }
        healthy := false;
      } else {
        var cycleHealthy, threw := Cycle(token, rows, at, turns);
        healthy := cycleHealthy && !threw;
      }
      running := false;
    }
  }

  /** A delivery that waits for its turn is still leased. */
  lemma StillClaimed(claimed: seq<Claimed>, rows: seq<EventId>, before: map<EventId, Delivery>, mid: map<EventId, Delivery>,
        ids: set<EventId>, turns: map<EventId, Turn>, token: Token, i: nat)
    requires AreClaimed(claimed, rows, before, token) && ids <= turns.Keys && HadTurns(before, mid, ids, turns)
    requires i < |rows| && rows[i] !in ids
    ensures |claimed| == |rows| && rows[i] in mid && mid[rows[i]].leaseToken == Some(token)
    ensures claimed[i] == Claimed(rows[i], token, mid[rows[i]].attemptCount)
  {
    hide AfterTurn;
  }

  lemma StartOf(before: map<EventId, Delivery>, rows: seq<EventId>, turns: map<EventId, Turn>)
    requires HaveTurns(rows, turns)
    ensures HadTurns(before, before, {}, turns)
    ensures Ids(rows) <= turns.Keys && forall n | 0 <= n <= |rows| :: Ids(rows[..n]) <= Ids(rows)
  {
  }

  /** What the next turn adds. */
  lemma TurnOf(rows: seq<EventId>, turns: map<EventId, Turn>, i: nat)
    requires i <= |rows| && NoDuplicates(rows) && HaveTurns(rows, turns)
    ensures HaveTurns(rows[..i], turns) && Ids(rows[..i]) <= turns.Keys
    ensures i == 0 ==> Ids(rows[..i]) == {} && Reached(rows[..i], turns) == [] && AllFine(rows[..i], turns)
    ensures i < |rows| ==>
              && HaveTurns(rows[..i + 1], turns) && rows[i] in turns
              && Ids(rows[..i + 1]) == Ids(rows[..i]) + {rows[i]} && rows[i] !in Ids(rows[..i])
              && (AllFine(rows[..i + 1], turns) <==> AllFine(rows[..i], turns) && turns[rows[i]].fate.Fine?)
              && Reached(rows[..i + 1], turns) == Reached(rows[..i], turns) + (if Reaches(turns[rows[i]]) then [rows[i]] else [])
  {
    hide Throws, Reaches, Taken;
    if i < |rows| {
      assert rows[..i + 1][..i] == rows[..i];
      assert rows[..i + 1] == rows[..i] + [rows[i]];
    }
  }

  lemma TakenOf(rows: seq<EventId>, turns: map<EventId, Turn>, i: nat)
    requires i <= |rows| && HaveTurns(rows, turns)
    ensures i == 0 ==> if i == |rows| then i == Taken(rows, turns) else i < Taken(rows, turns)
    ensures i < Taken(rows, turns) ==> if Throws(turns[rows[i]]) || i + 1 == |rows| then i + 1 == Taken(rows, turns) else i + 1 < Taken(rows, turns)
  {
    hide Throws;
  }

  /** A cycle that ends early was not fine. */
  lemma EndOf(rows: seq<EventId>, turns: map<EventId, Turn>, i: nat)
    requires HaveTurns(rows, turns) && i == Taken(rows, turns)
    ensures HaveTurns(rows[..i], turns)
    ensures AllFine(rows[..i], turns) <==> AllFine(rows, turns)
    ensures (i > 0 && Throws(turns[rows[i - 1]])) <==> exists e | e in rows :: Throws(turns[e])
  {
    if i < |rows| {
      assert rows[i - 1] in rows[..i] && rows[i - 1] in rows;
    } else {
      assert rows[..i] == rows;
      if e :| e in rows && Throws(turns[e]) {
        var j :| 0 <= j < |rows| && rows[j] == e;
      }
    }
  }

  lemma ClaimableIsStored(f: Feed, token: Token, rows: seq<EventId>, at: int)
    requires Enabled(f, Claim(token, rows, at))
    ensures forall e | e in rows :: e in f.deliveries && f.deliveries[e].publishedAt.None?
  {
    assert forall e | e in rows :: Claimable(f, e, at);
  }
}
