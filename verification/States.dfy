/** Conversation states and the rule that combines them when conversations
    merge (src/lib/email/conversation-state.ts). */
module States {
  import opened Text

  datatype State = AwaitingUs | AwaitingParticipant | Concluded | Terminated

  /** The pair of columns `state` and `state_changed_at`. */
  datatype Clock = Clock(state: State, since: int)

  /** An automatic transition: no effect on the state already held, none on TERMINATED. */
  function ApplyAutomaticState(c: Clock, state: State, changedAt: int): Clock {
    if c.state != state && c.state != Terminated then Clock(state, changedAt) else c
  }

  function MarkTerminated(c: Clock, changedAt: int): Clock {
    if c.state != Terminated then Clock(Terminated, changedAt) else c
  }

  const MERGE_PRECEDENCE: seq<State> := [Terminated, AwaitingUs, AwaitingParticipant, Concluded]

  /** `precedence.find(candidate => rows.some(row => row.state === candidate))`. */
  function FindWinner(precedence: seq<State>, rows: seq<Clock>): Option<State> {
    if precedence == [] then None
    else if exists i | 0 <= i < |rows| :: rows[i].state == precedence[0] then Some(precedence[0])
    else FindWinner(precedence[1..], rows)
  }

  /** The reduction over the rows that hold the winning state; ties keep the earlier row's value. */
  function EarliestOf(rows: seq<Clock>, state: State): Option<int> {
    if rows == [] then None
    else
      var earliest := EarliestOf(rows[..|rows| - 1], state);
      var row := rows[|rows| - 1];
      if row.state != state then earliest
      else if earliest.Some? && earliest.value <= row.since then earliest
      else Some(row.since)
  }

  function MergeConversationState(rows: seq<Clock>): Option<Clock> {
    var winner := FindWinner(MERGE_PRECEDENCE, rows);
    if winner.None? then None
    else
      var changedAt := EarliestOf(rows, winner.value);
      if changedAt.Some? then Some(Clock(winner.value, changedAt.value)) else None
  }

  // --- The order behind the merge --------------------------------------------

  function Rank(s: State): nat {
    match s
    case Terminated => 0
    case AwaitingUs => 1
    case AwaitingParticipant => 2
    case Concluded => 3
  }

  /** Higher precedence first, then the earlier change. */
  predicate Precedes(a: Clock, b: Clock) {
    Rank(a.state) < Rank(b.state) || (a.state == b.state && a.since <= b.since)
  }

  ghost predicate IsFirst(c: Clock, rows: seq<Clock>) {
    c in rows && forall row | row in rows :: Precedes(c, row)
  }

  lemma {:induction false} EarliestIsMinimum(rows: seq<Clock>, state: State)
    ensures EarliestOf(rows, state).None? <==> forall row | row in rows :: row.state != state
    ensures var e := EarliestOf(rows, state);
            e.Some? ==> Clock(state, e.value) in rows && forall row | row in rows && row.state == state :: e.value <= row.since
  {
    if rows != [] {
      EarliestIsMinimum(rows[..|rows| - 1], state);
      assert rows == rows[..|rows| - 1] + [rows[|rows| - 1]];
    }
  }

  /** The find-filter-reduce of the source picks the first row in a total order. */
  lemma MergePicksFirst(rows: seq<Clock>)
    ensures MergeConversationState(rows).Some? <==> rows != []
    ensures rows != [] ==> IsFirst(MergeConversationState(rows).value, rows)
  {
    var p := MERGE_PRECEDENCE;
    assert p[1..][1..] == p[2..] && p[2..][1..] == p[3..] && p[3..][1..] == p[4..];
    assert FindWinner(p, rows) == if exists i | 0 <= i < |rows| :: rows[i].state == p[0] then Some(p[0]) else FindWinner(p[1..], rows);
    assert FindWinner(p[1..], rows) == if exists i | 0 <= i < |rows| :: rows[i].state == p[1] then Some(p[1]) else FindWinner(p[2..], rows);
    assert FindWinner(p[2..], rows) == if exists i | 0 <= i < |rows| :: rows[i].state == p[2] then Some(p[2]) else FindWinner(p[3..], rows);
    assert FindWinner(p[3..], rows) == if exists i | 0 <= i < |rows| :: rows[i].state == p[3] then Some(p[3]) else None;
    var winner := FindWinner(p, rows);
    if winner.Some? {
      EarliestIsMinimum(rows, winner.value);
    }
    if rows != [] {
      assert rows[0].state in p;
    }
  }

  lemma FirstIsUnique(a: Clock, b: Clock, rows: seq<Clock>)
    requires IsFirst(a, rows) && IsFirst(b, rows)
    ensures a == b
  {
    assert Precedes(a, b) && Precedes(b, a);
  }

  // --- Semilattice -------------------------------------------------------------

  /** Order and repetition of the rows do not matter: the result depends on the set of rows alone. */
  lemma MergeDependsOnSet(rows: seq<Clock>, others: seq<Clock>)
    requires forall row :: row in rows <==> row in others
    ensures MergeConversationState(rows) == MergeConversationState(others)
  {
    MergePicksFirst(rows);
    MergePicksFirst(others);
    assert rows != [] ==> rows[0] in others;
    assert others != [] ==> others[0] in rows;
    if rows != [] {
      FirstIsUnique(MergeConversationState(rows).value, MergeConversationState(others).value, rows);
    }
  }

  /** A history of merges: at each node the rows below it were merged into one row. */
  datatype MergeTree = Row(row: Clock) | Merged(parts: seq<MergeTree>)

  function Leaves(t: MergeTree): seq<Clock>
    decreases t, 0
  {
    match t
    case Row(c) => [c]
    case Merged(parts) => AllLeaves(parts)
  }

  function AllLeaves(parts: seq<MergeTree>): seq<Clock>
    decreases parts, 1
  {
    if parts == [] then [] else Leaves(parts[0]) + AllLeaves(parts[1..])
  }

  /** The rows that are left when every merge in the tree has been carried out step by step. */
  function Stepwise(t: MergeTree): Option<Clock>
    decreases t, 0
  {
    match t
    case Row(c) => Some(c)
    case Merged(parts) => MergeConversationState(StepwiseRows(parts))
  }

  function StepwiseRows(parts: seq<MergeTree>): seq<Clock>
    decreases parts, 1
  {
    if parts == [] then []
    else
      var first := Stepwise(parts[0]);
      (if first.Some? then [first.value] else []) + StepwiseRows(parts[1..])
  }

  lemma PrecedesIsTransitive(a: Clock, b: Clock, c: Clock)
    requires Precedes(a, b) && Precedes(b, c)
    ensures Precedes(a, c)
  {
  }

  lemma MergeOfFirsts(t: MergeTree, parts: seq<MergeTree>)
    requires t == Merged(parts)
    requires AllLeaves(parts) == [] <==> StepwiseRows(parts) == []
    requires forall row | row in StepwiseRows(parts) :: row in AllLeaves(parts)
    requires forall leaf | leaf in AllLeaves(parts) :: exists row | row in StepwiseRows(parts) :: Precedes(row, leaf)
    ensures Stepwise(t) == MergeConversationState(AllLeaves(parts))
  {
    var leaves, rows := AllLeaves(parts), StepwiseRows(parts);
    MergePicksFirst(leaves);
    MergePicksFirst(rows);
    if leaves != [] {
      var first := MergeConversationState(rows).value;
      forall leaf | leaf in leaves ensures Precedes(first, leaf) {
        var row :| row in rows && Precedes(row, leaf);
        PrecedesIsTransitive(first, row, leaf);
      }
      FirstIsUnique(first, MergeConversationState(leaves).value, leaves);
    }
  }

  lemma {:induction false} StepwiseRowsCover(parts: seq<MergeTree>)
    ensures AllLeaves(parts) == [] <==> StepwiseRows(parts) == []
    ensures forall row | row in StepwiseRows(parts) :: row in AllLeaves(parts)
    ensures forall leaf | leaf in AllLeaves(parts) :: exists row | row in StepwiseRows(parts) :: Precedes(row, leaf)
    decreases parts, 1
  {
    if parts != [] {
      var first := Stepwise(parts[0]);
      NestedMergeIsFlat(parts[0]);
      MergePicksFirst(Leaves(parts[0]));
      StepwiseRowsCover(parts[1..]);
      forall leaf | leaf in AllLeaves(parts) ensures exists row | row in StepwiseRows(parts) :: Precedes(row, leaf) {
        if leaf in Leaves(parts[0]) {
          assert first.value in StepwiseRows(parts);
        } else {
          var row :| row in StepwiseRows(parts[1..]) && Precedes(row, leaf);
          assert row in StepwiseRows(parts);
        }
      }
    }
  }

  /** Merging in any nesting of steps gives the state and the timestamp of one flat merge. */
  lemma {:induction false} NestedMergeIsFlat(t: MergeTree)
    ensures Stepwise(t) == MergeConversationState(Leaves(t))
    decreases t, 0
  {
    match t
    case Row(c) =>
      MergePicksFirst([c]);
      assert MergeConversationState([c]).value in [c];
    case Merged(parts) =>
      StepwiseRowsCover(parts);
      MergeOfFirsts(t, parts);
  }

  // --- What a merge and an automatic transition do to one row ------------------

  /** The wait clock of a row: it may only move back while the state stays, and TERMINATED stays. */
  predicate ClockKept(before: Clock, after: Clock) {
    && (before.state == after.state ==> after.since <= before.since)
    && (before.state == Terminated ==> after.state == Terminated)
  }

  lemma MergePrecedes(rows: seq<Clock>, row: Clock)
    requires row in rows
    ensures MergeConversationState(rows).Some? && Precedes(MergeConversationState(rows).value, row)
  {
    MergePicksFirst(rows);
  }

  ghost predicate IsLeast(t: int, rows: seq<Clock>, state: State) {
    Clock(state, t) in rows && forall row | row in rows && row.state == state :: t <= row.since
  }

  /** The turn after mail reached the conversation that is left of these rows: TERMINATED if one of them was, since
      the earliest of those; otherwise AWAITING_US, since the earliest row that waited for us, or else since the mail. */
  lemma TurnAfterMail(rows: seq<Clock>, changedAt: int)
    requires rows != []
    ensures MergeConversationState(rows).Some?
    ensures var turn := ApplyAutomaticState(MergeConversationState(rows).value, AwaitingUs, changedAt);
            if exists row | row in rows :: row.state == Terminated then turn.state == Terminated && IsLeast(turn.since, rows, Terminated)
            else
              && turn.state == AwaitingUs
              && if exists row | row in rows :: row.state == AwaitingUs then IsLeast(turn.since, rows, AwaitingUs) else turn.since == changedAt
  {
    MergePicksFirst(rows);
  }

  /** Taking part in a merge and then receiving mail keeps the wait clock. */
  lemma InboundKeepsClock(before: Clock, merged: Clock, changedAt: int)
    requires Precedes(merged, before)
    ensures ClockKept(before, ApplyAutomaticState(merged, AwaitingUs, changedAt))
  {
  }

  lemma AutomaticKeepsClock(c: Clock, state: State, changedAt: int)
    ensures ClockKept(c, ApplyAutomaticState(c, state, changedAt))
    ensures ClockKept(c, MarkTerminated(c, changedAt))
  {
  }
}
