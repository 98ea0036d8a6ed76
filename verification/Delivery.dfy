/** The delivery view of outbound mail: a fold over the sorted webhook ledger
    that is kept materialized on the message row (src/lib/email/delivery.ts). */
module Delivery {
  import opened Text
  import opened States

  type EmailId = string
  type MessageId = nat
  type ConversationId = nat

  datatype DeliveryState = Unknown | Delivered | DeliveryDelayed | Bounced | Complained | Suppressed | Failed

  /** The email event types; OtherEvent stands for those that say nothing about delivery. */
  datatype EventType =
    | EmailDelivered | EmailDeliveryDelayed | EmailBounced | EmailComplained | EmailSuppressed | EmailFailed
    | OtherEvent

  /** What a webhook says. Its arrival adds the receipt time and the row id. */
  datatype Webhook = Webhook(svixId: string, emailId: EmailId, eventType: EventType, createdAt: int, detail: Option<string>)

  datatype LedgerRow = LedgerRow(webhook: Webhook, receivedAt: int, id: nat)

  function StateByEventType(eventType: EventType): Option<DeliveryState> {
    match eventType
    case EmailDelivered => Some(Delivered)
    case EmailDeliveryDelayed => Some(DeliveryDelayed)
    case EmailBounced => Some(Bounced)
    case EmailComplained => Some(Complained)
    case EmailSuppressed => Some(Suppressed)
    case EmailFailed => Some(Failed)
    case OtherEvent => None
  }

  predicate IsDeliveryEventType(eventType: EventType) {
    StateByEventType(eventType).Some?
  }

  predicate IsUnreachable(s: DeliveryState) {
    s == Bounced || s == Complained || s == Suppressed
  }

  datatype Current = Current(state: DeliveryState, detail: Option<string>, eventCreatedAt: int)

  datatype Reduction = Reduction(current: Option<Current>, deliveredAt: Option<int>)

  function EarlierDate(left: Option<int>, right: int): int {
    if left.Some? && left.value <= right then left.value else right
  }

  function CurrentOf(w: Webhook): Current
    requires IsDeliveryEventType(w.eventType)
  {
    Current(StateByEventType(w.eventType).value, w.detail, w.createdAt)
  }

  function ReduceStep(r: Reduction, w: Webhook): Reduction {
    if !IsDeliveryEventType(w.eventType) then r
    else
      var state := StateByEventType(w.eventType).value;
      var deliveredAt := if state == Delivered then Some(EarlierDate(r.deliveredAt, w.createdAt)) else r.deliveredAt;
      if state == DeliveryDelayed && r.current.Some? && r.current.value.state != DeliveryDelayed then
        Reduction(r.current, deliveredAt)
      else
        Reduction(Some(CurrentOf(w)), deliveredAt)
  }

  function Reduce(events: seq<LedgerRow>): Reduction {
    if events == [] then Reduction(None, None)
    else ReduceStep(Reduce(events[..|events| - 1]), events[|events| - 1].webhook)
  }

  method ReduceDeliveryEvents(events: seq<LedgerRow>) returns (r: Reduction)
    ensures r == Reduce(events)
  {
    var deliveredAt: Option<int> := None;
    var current: Option<Current> := None;
    for i := 0 to |events|
      invariant Reduction(current, deliveredAt) == Reduce(events[..i])
    {
      assert events[..i + 1][..i] == events[..i];
      var event := events[i].webhook;
      if !IsDeliveryEventType(event.eventType) {
        continue;
      }
      var state := StateByEventType(event.eventType).value;
      if state == Delivered {
        deliveredAt := Some(EarlierDate(deliveredAt, event.createdAt));
      }
      if state == DeliveryDelayed && current.Some? && current.value.state != DeliveryDelayed {
        continue;
      }
      current := Some(Current(state, event.detail, event.createdAt));
    }
    assert events[..|events|] == events;
    r := Reduction(current, deliveredAt);
  }

  // --- The ledger and its order -----------------------------------------------

  /** ORDER BY event_created_at, webhook_received_at, id. */
  predicate SortsBefore(a: LedgerRow, b: LedgerRow) {
    || a.webhook.createdAt < b.webhook.createdAt
    || (a.webhook.createdAt == b.webhook.createdAt && a.receivedAt < b.receivedAt)
    || (a.webhook.createdAt == b.webhook.createdAt && a.receivedAt == b.receivedAt && a.id <= b.id)
  }

  predicate Selected(row: LedgerRow, emailId: EmailId) {
    row.webhook.emailId == emailId && IsDeliveryEventType(row.webhook.eventType)
  }

  function Insert(row: LedgerRow, sorted: seq<LedgerRow>): seq<LedgerRow> {
    if sorted == [] || SortsBefore(row, sorted[0]) then [row] + sorted
    else [sorted[0]] + Insert(row, sorted[1..])
  }

  /** The rows of one email in the order of the query. */
  function SortedLedger(ledger: seq<LedgerRow>, emailId: EmailId): seq<LedgerRow> {
    if ledger == [] then []
    else
      var rest := SortedLedger(ledger[..|ledger| - 1], emailId);
      var row := ledger[|ledger| - 1];
      if Selected(row, emailId) then Insert(row, rest) else rest
  }

  ghost predicate IsSorted(rows: seq<LedgerRow>) {
    forall i, j | 0 <= i < j < |rows| :: SortsBefore(rows[i], rows[j])
  }

  lemma {:induction false} InsertSorts(row: LedgerRow, sorted: seq<LedgerRow>)
    requires IsSorted(sorted)
    ensures IsSorted(Insert(row, sorted))
    ensures multiset(Insert(row, sorted)) == multiset(sorted) + multiset{row}
  {
    if sorted == [] || SortsBefore(row, sorted[0]) {
    } else {
      var rest := Insert(row, sorted[1..]);
      InsertSorts(row, sorted[1..]);
      assert sorted == [sorted[0]] + sorted[1..];
      forall j | 0 <= j < |rest| ensures SortsBefore(sorted[0], rest[j]) {
        assert rest[j] in multiset(rest);
        assert rest[j] in sorted[1..] || rest[j] == row;
      }
    }
  }

  /** The order of the query, column by column. */
  lemma SortedByColumns(events: seq<LedgerRow>, i: nat, j: nat)
    requires IsSorted(events) && i < j < |events|
    ensures var a, b := events[i], events[j];
            && a.webhook.createdAt <= b.webhook.createdAt
            && (a.webhook.createdAt == b.webhook.createdAt ==> a.receivedAt <= b.receivedAt)
            && (a.webhook.createdAt == b.webhook.createdAt && a.receivedAt == b.receivedAt ==> a.id <= b.id)
  {
    assert SortsBefore(events[i], events[j]);
  }

  /** The query returns exactly the delivery events of the email, sorted. */
  lemma {:induction false} SortedLedgerIsQuery(ledger: seq<LedgerRow>, emailId: EmailId)
    ensures IsSorted(SortedLedger(ledger, emailId))
    ensures forall row :: row in SortedLedger(ledger, emailId)
              <==> row in ledger && row.webhook.emailId == emailId && row.webhook.eventType != OtherEvent
  {
    hide Insert, SortsBefore;
    if ledger != [] {
      var init, last := ledger[..|ledger| - 1], ledger[|ledger| - 1];
      SortedLedgerIsQuery(init, emailId);
      assert ledger == init + [last];
      if Selected(last, emailId) {
        var rest := SortedLedger(init, emailId);
        InsertSorts(last, rest);
        InsertHas(last, rest);
      }
    }
  }

  lemma {:induction false} InsertHas(row: LedgerRow, sorted: seq<LedgerRow>)
    ensures forall r :: r in Insert(row, sorted) <==> r in sorted || r == row
  {
    if sorted == [] || SortsBefore(row, sorted[0]) {
    } else {
      InsertHas(row, sorted[1..]);
      assert sorted == [sorted[0]] + sorted[1..];
    }
  }

  // --- Closed form of the fold -------------------------------------------------

  predicate IsDelivered(row: LedgerRow) {
    row.webhook.eventType == EmailDelivered
  }

  predicate IsDelayed(row: LedgerRow) {
    row.webhook.eventType == EmailDeliveryDelayed
  }

  predicate IsConclusive(row: LedgerRow) {
    row.webhook.eventType in {EmailDelivered, EmailBounced, EmailComplained, EmailSuppressed, EmailFailed}
  }

  /** Event `i` decides the view: the last conclusive event, or the last delayed one if none is conclusive. */
  ghost predicate Decides(events: seq<LedgerRow>, i: int) {
    && 0 <= i < |events|
    && (IsConclusive(events[i]) || IsDelayed(events[i]))
    && (forall j | i < j < |events| :: !IsConclusive(events[j]))
    && (IsDelayed(events[i]) ==> forall j | 0 <= j < |events| :: !IsConclusive(events[j]) && (i < j ==> !IsDelayed(events[j])))
  }

  ghost predicate IsFirstDelivery(events: seq<LedgerRow>, at: Option<int>) {
    && (at.None? ==> forall j | 0 <= j < |events| :: !IsDelivered(events[j]))
    && (at.Some? ==>
          && (exists j | 0 <= j < |events| :: IsDelivered(events[j]) && events[j].webhook.createdAt == at.value)
          && forall j | 0 <= j < |events| && IsDelivered(events[j]) :: at.value <= events[j].webhook.createdAt)
  }

  ghost predicate IsCurrent(events: seq<LedgerRow>, current: Option<Current>) {
    && (current.None? ==> forall j | 0 <= j < |events| :: !IsConclusive(events[j]) && !IsDelayed(events[j]))
    && (current.Some? ==> exists i :: Decides(events, i) && current.value == CurrentOf(events[i].webhook))
  }

  /** The last conclusive event if there is one, else the last delayed one; and the earliest delivery time. */
  lemma {:induction false} ReduceClosedForm(events: seq<LedgerRow>)
    ensures IsFirstDelivery(events, Reduce(events).deliveredAt)
    ensures IsCurrent(events, Reduce(events).current)
  {
    if events != [] {
      var init, last := events[..|events| - 1], events[|events| - 1];
      ReduceClosedForm(init);
      assert events == init + [last];
      FirstDeliveryStep(init, last, Reduce(init));
      CurrentStep(init, last, Reduce(init));
    }
  }

  lemma FirstDeliveryStep(init: seq<LedgerRow>, last: LedgerRow, before: Reduction)
    requires IsFirstDelivery(init, before.deliveredAt)
    ensures IsFirstDelivery(init + [last], ReduceStep(before, last.webhook).deliveredAt)
  {
    var events := init + [last];
    if before.deliveredAt.Some? {
      var j :| 0 <= j < |init| && IsDelivered(init[j]) && init[j].webhook.createdAt == before.deliveredAt.value;
      assert events[j] == init[j];
    }
    assert events[|init|] == last;
  }

  lemma CurrentStep(init: seq<LedgerRow>, last: LedgerRow, before: Reduction)
    requires IsCurrent(init, before.current)
    ensures IsCurrent(init + [last], ReduceStep(before, last.webhook).current)
  {
    var events := init + [last];
    assert events[|init|] == last;
    if before.current.None? {
      assert IsConclusive(last) || IsDelayed(last) ==> Decides(events, |init|);
    } else {
      var i :| Decides(init, i) && before.current.value == CurrentOf(init[i].webhook);
      assert events[i] == init[i];
      if IsConclusive(last) || (IsDelayed(last) && IsDelayed(init[i])) {
        assert Decides(events, |init|);
      } else {
        assert Decides(events, i);
      }
    }
  }

  // --- Arrival order ------------------------------------------------------------

  /** The webhooks of a ledger, without the receipt times and row ids that arrival gave them. */
  ghost function Webhooks(ledger: seq<LedgerRow>): set<Webhook> {
    set row | row in ledger :: row.webhook
  }

  ghost predicate Conclusive(w: Webhook, emailId: EmailId) {
    w.emailId == emailId && w.eventType in {EmailDelivered, EmailBounced, EmailComplained, EmailSuppressed, EmailFailed}
  }

  ghost predicate Delayed(w: Webhook, emailId: EmailId) {
    w.emailId == emailId && w.eventType == EmailDeliveryDelayed
  }

  /** `w` is among the latest of the webhooks that can decide the view of `emailId`. */
  ghost predicate IsTop(ws: set<Webhook>, emailId: EmailId, w: Webhook) {
    && w in ws
    && (Conclusive(w, emailId) || (Delayed(w, emailId) && forall o | o in ws :: !Conclusive(o, emailId)))
    && (Conclusive(w, emailId) ==> forall o | o in ws && Conclusive(o, emailId) :: o.createdAt <= w.createdAt)
    && (Delayed(w, emailId) ==> forall o | o in ws && Delayed(o, emailId) :: o.createdAt <= w.createdAt)
  }

  lemma TopIsDelivery(ws: set<Webhook>, emailId: EmailId, w: Webhook)
    requires IsTop(ws, emailId, w)
    ensures IsDeliveryEventType(w.eventType)
  {
  }

  lemma RowOf(ledger: seq<LedgerRow>, emailId: EmailId, w: Webhook) returns (j: int)
    requires w in Webhooks(ledger) && w.emailId == emailId && IsDeliveryEventType(w.eventType)
    ensures 0 <= j < |SortedLedger(ledger, emailId)| && SortedLedger(ledger, emailId)[j].webhook == w
  {
    SortedLedgerIsQuery(ledger, emailId);
    var row :| row in ledger && row.webhook == w;
    assert row in SortedLedger(ledger, emailId);
    j :| 0 <= j < |SortedLedger(ledger, emailId)| && SortedLedger(ledger, emailId)[j] == row;
  }

  lemma DecidingIsTop(ledger: seq<LedgerRow>, emailId: EmailId, i: int)
    requires Decides(SortedLedger(ledger, emailId), i)
    ensures IsTop(Webhooks(ledger), emailId, SortedLedger(ledger, emailId)[i].webhook)
  {
    var events := SortedLedger(ledger, emailId);
    SortedLedgerIsQuery(ledger, emailId);
    assert events[i] in events;
    var w := events[i].webhook;
    forall o | o in Webhooks(ledger) && (Conclusive(o, emailId) || Delayed(o, emailId))
      ensures Delayed(w, emailId) ==> !Conclusive(o, emailId)
      ensures (Conclusive(o, emailId) <==> Conclusive(w, emailId)) ==> o.createdAt <= w.createdAt
    {
      var j := RowOf(ledger, emailId, o);
      assert IsConclusive(events[j]) <==> Conclusive(o, emailId);
      if Conclusive(o, emailId) <==> Conclusive(w, emailId) {
        assert j <= i;
      }
    }
  }

  /** The view shows one of the latest deciding webhooks. */
  lemma CurrentIsTop(ledger: seq<LedgerRow>, emailId: EmailId) returns (i: int)
    requires Reduce(SortedLedger(ledger, emailId)).current.Some?
    ensures var events := SortedLedger(ledger, emailId);
            && Decides(events, i)
            && IsTop(Webhooks(ledger), emailId, events[i].webhook)
            && Reduce(events).current.value == CurrentOf(events[i].webhook)
  {
    var events := SortedLedger(ledger, emailId);
    ReduceClosedForm(events);
    i :| Decides(events, i) && Reduce(events).current.value == CurrentOf(events[i].webhook);
    DecidingIsTop(ledger, emailId, i);
  }

  lemma NoViewWithoutEvents(ledger: seq<LedgerRow>, emailId: EmailId)
    ensures Reduce(SortedLedger(ledger, emailId)).current.None?
       <==> forall w | w in Webhooks(ledger) :: !Conclusive(w, emailId) && !Delayed(w, emailId)
  {
    var events := SortedLedger(ledger, emailId);
    ReduceClosedForm(events);
    SortedLedgerIsQuery(ledger, emailId);
    if Reduce(events).current.Some? {
      var i := CurrentIsTop(ledger, emailId);
    } else {
      forall w | w in Webhooks(ledger) ensures !Conclusive(w, emailId) && !Delayed(w, emailId) {
        var row :| row in ledger && row.webhook == w;
        assert Selected(row, emailId) ==> row in events;
      }
    }
  }

  /** Every arrival order of the same webhooks gives the same delivery time. */
  lemma DeliveredAtIndependent(ledger: seq<LedgerRow>, other: seq<LedgerRow>, emailId: EmailId)
    requires Webhooks(ledger) == Webhooks(other)
    ensures Reduce(SortedLedger(ledger, emailId)).deliveredAt == Reduce(SortedLedger(other, emailId)).deliveredAt
  {
    DeliveredAtBound(ledger, other, emailId);
    DeliveredAtBound(other, ledger, emailId);
  }

  lemma DeliveredAtBound(ledger: seq<LedgerRow>, other: seq<LedgerRow>, emailId: EmailId)
    requires Webhooks(ledger) == Webhooks(other)
    ensures var a, b := Reduce(SortedLedger(ledger, emailId)).deliveredAt, Reduce(SortedLedger(other, emailId)).deliveredAt;
            a.Some? ==> b.Some? && b.value <= a.value
  {
    hide Reduce, SortedLedger, Insert, SortsBefore, IsCurrent, IsSorted;
    var events, others := SortedLedger(ledger, emailId), SortedLedger(other, emailId);
    ReduceClosedForm(events);
    ReduceClosedForm(others);
    SortedLedgerIsQuery(ledger, emailId);
    SortedLedgerIsQuery(other, emailId);
    var at := Reduce(events).deliveredAt;
    if at.Some? {
      var j :| 0 <= j < |events| && IsDelivered(events[j]) && events[j].webhook.createdAt == at.value;
      assert events[j] in events;
      assert events[j].webhook in Webhooks(ledger);
      var row :| row in other && row.webhook == events[j].webhook;
      assert row in others;
    }
  }

  /** The latest deciding webhooks all say the same. */
  ghost predicate TopsAgree(ws: set<Webhook>, emailId: EmailId) {
    forall a, b | IsTop(ws, emailId, a) && IsTop(ws, emailId, b) :: a.eventType == b.eventType && a.detail == b.detail
  }

  lemma TopsShareTime(ws: set<Webhook>, emailId: EmailId, a: Webhook, b: Webhook)
    requires IsTop(ws, emailId, a) && IsTop(ws, emailId, b)
    ensures a.createdAt == b.createdAt
  {
  }

  lemma AgreementIsEnough(ledger: seq<LedgerRow>, other: seq<LedgerRow>, emailId: EmailId)
    requires Webhooks(ledger) == Webhooks(other) && TopsAgree(Webhooks(ledger), emailId)
    ensures Reduce(SortedLedger(ledger, emailId)) == Reduce(SortedLedger(other, emailId))
  {
    DeliveredAtIndependent(ledger, other, emailId);
    NoViewWithoutEvents(ledger, emailId);
    NoViewWithoutEvents(other, emailId);
    if Reduce(SortedLedger(ledger, emailId)).current.Some? {
      var i := CurrentIsTop(ledger, emailId);
      var j := CurrentIsTop(other, emailId);
      TopsShareTime(Webhooks(ledger), emailId,
                    SortedLedger(ledger, emailId)[i].webhook, SortedLedger(other, emailId)[j].webhook);
    }
  }

  /** The ledger of webhooks that arrive one after the other. */
  ghost function Arrivals(ws: seq<Webhook>): (ledger: seq<LedgerRow>)
    ensures |ledger| == |ws|
    ensures forall k | 0 <= k < |ws| :: ledger[k] == LedgerRow(ws[k], k, k)
  {
    seq(|ws|, k requires 0 <= k < |ws| => LedgerRow(ws[k], k, k))
  }

  ghost function SetOf(ws: seq<Webhook>): set<Webhook> {
    set w | w in ws
  }

  lemma ArrivalsWebhooks(ws: seq<Webhook>)
    ensures Webhooks(Arrivals(ws)) == SetOf(ws)
  {
    forall w | w in ws ensures w in Webhooks(Arrivals(ws)) {
      var k :| 0 <= k < |ws| && ws[k] == w;
      assert Arrivals(ws)[k] in Arrivals(ws);
    }
  }

  /** A latest deciding webhook that arrives last is the one the view shows. */
  lemma LastTopWins(ws: seq<Webhook>, emailId: EmailId)
    requires ws != [] && IsTop(SetOf(ws), emailId, ws[|ws| - 1])
    ensures Reduce(SortedLedger(Arrivals(ws), emailId)).current == Some(CurrentOf(ws[|ws| - 1]))
  {
    var ledger, last := Arrivals(ws), |ws| - 1;
    var events := SortedLedger(ledger, emailId);
    ArrivalsWebhooks(ws);
    SortedLedgerIsQuery(ledger, emailId);
    NoViewWithoutEvents(ledger, emailId);
    var i := CurrentIsTop(ledger, emailId);
    TopsShareTime(SetOf(ws), emailId, events[i].webhook, ws[last]);
    assert ledger[last] in ledger;
    var j :| 0 <= j < |events| && events[j] == ledger[last];
    if j != i {
      assert events[i] in ledger;
      assert j < i ==> SortsBefore(events[j], events[i]);
    }
  }

  ghost function MoveToEnd(ws: seq<Webhook>, k: nat): seq<Webhook>
    requires k < |ws|
  {
    ws[..k] + ws[k + 1..] + [ws[k]]
  }

  lemma MoveToEndKeeps(ws: seq<Webhook>, k: nat)
    requires k < |ws|
    ensures SetOf(MoveToEnd(ws, k)) == SetOf(ws)
  {
    assert ws == ws[..k] + [ws[k]] + ws[k + 1..];
  }

  /** Any of the latest deciding webhooks can be the one that is shown: let it arrive last. */
  lemma TopCanBeShown(ws: seq<Webhook>, emailId: EmailId, top: Webhook) returns (ledger: seq<LedgerRow>)
    requires IsTop(SetOf(ws), emailId, top)
    ensures Webhooks(ledger) == SetOf(ws)
    ensures Reduce(SortedLedger(ledger, emailId)).current == Some(CurrentOf(top))
  {
    var i :| 0 <= i < |ws| && ws[i] == top;
    MoveToEndKeeps(ws, i);
    ArrivalsWebhooks(MoveToEnd(ws, i));
    LastTopWins(MoveToEnd(ws, i), emailId);
    ledger := Arrivals(MoveToEnd(ws, i));
  }

  lemma DisagreementShows(ws: seq<Webhook>, emailId: EmailId) returns (ledger: seq<LedgerRow>, other: seq<LedgerRow>)
    requires !TopsAgree(SetOf(ws), emailId)
    ensures Webhooks(ledger) == Webhooks(other) == SetOf(ws)
    ensures Reduce(SortedLedger(ledger, emailId)) != Reduce(SortedLedger(other, emailId))
  {
    hide Reduce, SortedLedger, IsTop, SetOf, Webhooks;
    var a, b :| IsTop(SetOf(ws), emailId, a) && IsTop(SetOf(ws), emailId, b) && !(a.eventType == b.eventType && a.detail == b.detail);
    TopIsDelivery(SetOf(ws), emailId, a);
    TopIsDelivery(SetOf(ws), emailId, b);
    ledger := TopCanBeShown(ws, emailId, a);
    other := TopCanBeShown(ws, emailId, b);
    assert CurrentOf(a) != CurrentOf(b);
  }

  /** Exactly when the view is independent of the order of arrival: when the
      latest deciding webhooks agree on the state and its detail. */
  lemma ViewIndependentOfArrivalIff(ws: seq<Webhook>, emailId: EmailId)
    ensures TopsAgree(SetOf(ws), emailId)
       <==> forall ledger, other | Webhooks(ledger) == SetOf(ws) && Webhooks(other) == SetOf(ws) ::
              Reduce(SortedLedger(ledger, emailId)) == Reduce(SortedLedger(other, emailId))
  {
    if TopsAgree(SetOf(ws), emailId) {
      forall ledger, other | Webhooks(ledger) == SetOf(ws) && Webhooks(other) == SetOf(ws)
        ensures Reduce(SortedLedger(ledger, emailId)) == Reduce(SortedLedger(other, emailId))
      {
        AgreementIsEnough(ledger, other, emailId);
      }
    } else {
      var ledger, other := DisagreementShows(ws, emailId);
    }
  }

  /** In particular when no two events of the email bear the same time. */
  lemma DistinctTimesAgree(ws: seq<Webhook>, emailId: EmailId)
    requires forall a, b | a in ws && b in ws && a.emailId == b.emailId == emailId && a.createdAt == b.createdAt :: a == b
    ensures TopsAgree(SetOf(ws), emailId)
  {
    forall a, b | IsTop(SetOf(ws), emailId, a) && IsTop(SetOf(ws), emailId, b) ensures a == b {
      TopsShareTime(SetOf(ws), emailId, a, b);
    }
  }

  /** Two webhooks of one instant that disagree: the one that arrives last is shown. */
  lemma SameInstantDependsOnArrival()
    ensures var delivered := Webhook("a", "r", EmailDelivered, 7, None);
            var bounced := Webhook("b", "r", EmailBounced, 7, None);
            && Reduce(SortedLedger(Arrivals([delivered, bounced]), "r")).current == Some(CurrentOf(bounced))
            && Reduce(SortedLedger(Arrivals([bounced, delivered]), "r")).current == Some(CurrentOf(delivered))
  {
    LastTopWins([Webhook("a", "r", EmailDelivered, 7, None), Webhook("b", "r", EmailBounced, 7, None)], "r");
    LastTopWins([Webhook("b", "r", EmailBounced, 7, None), Webhook("a", "r", EmailDelivered, 7, None)], "r");
  }

  // --- The stored view -----------------------------------------------------------

  datatype View = View(state: DeliveryState, detail: Option<string>, updatedAt: Option<int>, deliveredAt: Option<int>)

  const NO_VIEW := View(Unknown, None, None, None)

  /** An outbound message: its conversation (none for direct email), the provider's id once accepted, the view. */
  datatype Message = Message(conversationId: Option<ConversationId>, resendEmailId: Option<EmailId>, view: View)

  datatype Db = Db(
    ledger: seq<LedgerRow>,
    messages: map<MessageId, Message>,
    conversations: map<ConversationId, Clock>)

  function ViewOf(r: Reduction): View {
    if r.current.None? then NO_VIEW
    else View(r.current.value.state, r.current.value.detail, Some(r.current.value.eventCreatedAt), r.deliveredAt)
  }

  function FoldView(ledger: seq<LedgerRow>, emailId: EmailId): View {
    ViewOf(Reduce(SortedLedger(ledger, emailId)))
  }

  predicate HasEmail(m: Message, emailId: EmailId) {
    m.resendEmailId == Some(emailId)
  }

  /** The conversations of the messages that `emailId` names. */
  function ConversationsOf(db: Db, emailId: EmailId): set<ConversationId> {
    set m | m in db.messages && HasEmail(db.messages[m], emailId) && db.messages[m].conversationId.Some? ::
      db.messages[m].conversationId.value
  }

  /** One projection: rewrite the view from the ledger, terminate on an unreachable participant. */
  function Project(db: Db, emailId: EmailId): Db {
    var r := Reduce(SortedLedger(db.ledger, emailId));
    if r.current.None? then db
    else
      var messages := map m | m in db.messages ::
        if HasEmail(db.messages[m], emailId) then db.messages[m].(view := ViewOf(r)) else db.messages[m];
      var hit := ConversationsOf(db, emailId);
      var conversations := map c | c in db.conversations ::
        if c in hit && IsUnreachable(r.current.value.state)
        then MarkTerminated(db.conversations[c], r.current.value.eventCreatedAt) else db.conversations[c];
      Db(db.ledger, messages, conversations)
  }

  /** What the mail client shows of a delivery event. */
  ghost predicate Shows(view: View, w: Webhook) {
    && view.detail == w.detail && view.updatedAt == Some(w.createdAt)
    && match w.eventType
       case EmailDelivered => view.state == Delivered
       case EmailDeliveryDelayed => view.state == DeliveryDelayed
       case EmailBounced => view.state == Bounced
       case EmailComplained => view.state == Complained
       case EmailSuppressed => view.state == Suppressed
       case EmailFailed => view.state == Failed
       case OtherEvent => false
  }

  /** The conversation row after an event about a message in it: an event that proves the participant
      unreachable ends the conversation at the event's time unless it has ended already. */
  ghost predicate EndsOrKeeps(before: Clock, after: Clock, w: Webhook) {
    if w.eventType in {EmailBounced, EmailComplained, EmailSuppressed} && before.state != Terminated
    then after == Clock(Terminated, w.createdAt)
    else after == before
  }

  /** The reduction of a ledger with a delivery event shows one of the latest deciding webhooks. */
  lemma ReductionShows(ledger: seq<LedgerRow>, emailId: EmailId) returns (w: Webhook)
    requires exists o | o in Webhooks(ledger) :: o.emailId == emailId && o.eventType != OtherEvent
    ensures IsTop(Webhooks(ledger), emailId, w)
    ensures var r := Reduce(SortedLedger(ledger, emailId));
            && r.current.Some? && Shows(ViewOf(r), w) && IsFirstDelivery(SortedLedger(ledger, emailId), ViewOf(r).deliveredAt)
            && r.current.value.eventCreatedAt == w.createdAt
            && (IsUnreachable(r.current.value.state) <==> w.eventType in {EmailBounced, EmailComplained, EmailSuppressed})
  {
    var events := SortedLedger(ledger, emailId);
    NoViewWithoutEvents(ledger, emailId);
    ReduceClosedForm(events);
    var i := CurrentIsTop(ledger, emailId);
    w := events[i].webhook;
  }

  /** The effect of a projection: one of the latest deciding webhooks is shown on the message, with the earliest
      delivery time, and decides whether its conversation ends; all other rows are as before. */
  lemma ProjectionShows(db: Db, emailId: EmailId) returns (w: Webhook)
    requires exists o | o in Webhooks(db.ledger) :: o.emailId == emailId && o.eventType != OtherEvent
    ensures IsTop(Webhooks(db.ledger), emailId, w)
    ensures var r := Project(db, emailId);
            && r.ledger == db.ledger && r.messages.Keys == db.messages.Keys && r.conversations.Keys == db.conversations.Keys
            && (forall m | m in db.messages && db.messages[m].resendEmailId == Some(emailId) ::
                  && Shows(r.messages[m].view, w) && IsFirstDelivery(SortedLedger(db.ledger, emailId), r.messages[m].view.deliveredAt)
                  && r.messages[m] == db.messages[m].(view := r.messages[m].view))
            && (forall m | m in db.messages && db.messages[m].resendEmailId != Some(emailId) :: r.messages[m] == db.messages[m])
            && (forall c | c in db.conversations ::
                  if HoldsEmail(db, emailId, c) then EndsOrKeeps(db.conversations[c], r.conversations[c], w)
                  else r.conversations[c] == db.conversations[c])
  {
    hide Reduce, SortedLedger, ViewOf, IsUnreachable, IsTop, Webhooks, IsFirstDelivery, Shows;
    w := ReductionShows(db.ledger, emailId);
    forall c | c in db.conversations ensures c in ConversationsOf(db, emailId) <==> HoldsEmail(db, emailId, c) {
    }
  }

  /** Without a delivery event of the email nothing changes. */
  lemma NothingToProject(db: Db, emailId: EmailId)
    requires !exists o | o in Webhooks(db.ledger) :: o.emailId == emailId && o.eventType != OtherEvent
    ensures Project(db, emailId) == db
  {
    NoViewWithoutEvents(db.ledger, emailId);
  }

  ghost predicate HoldsEmail(db: Db, emailId: EmailId, c: ConversationId) {
    exists m | m in db.messages :: db.messages[m].resendEmailId == Some(emailId) && db.messages[m].conversationId == Some(c)
  }

  /** The email of the stored event with this Svix id, if the webhook was recorded before. */
  function RecordedEmail(ledger: seq<LedgerRow>, svixId: string): Option<EmailId> {
    if ledger == [] then None
    else if ledger[0].webhook.svixId == svixId then Some(ledger[0].webhook.emailId)
    else RecordedEmail(ledger[1..], svixId)
  }

  datatype Step =
    | Intended(message: MessageId, conversation: Option<ConversationId>)
    | Received(webhook: Webhook, at: int, id: nat)
    | Accepted(message: MessageId, emailId: EmailId)

  /** Intended: outbound intent is stored. Received: a webhook, perhaps a repeated one, is recorded and projected.
      Accepted: the provider took the message; a provider id that is already stored violates its unique key. */
  function Apply(db: Db, step: Step): Db {
    match step
    case Intended(m, c) =>
      if m in db.messages || (c.Some? && c.value !in db.conversations) then db
      else db.(messages := db.messages[m := Message(c, None, NO_VIEW)])
    case Received(w, at, id) =>
      var recorded := RecordedEmail(db.ledger, w.svixId);
      if recorded.Some? then Project(db, recorded.value)
      else Project(db.(ledger := db.ledger + [LedgerRow(w, at, id)]), w.emailId)
    case Accepted(m, e) =>
      if m !in db.messages || db.messages[m].resendEmailId.Some? || (exists o | o in db.messages :: HasEmail(db.messages[o], e))
      then db
      else Project(db.(messages := db.messages[m := db.messages[m].(resendEmailId := Some(e), view := db.messages[m].view.(state := Unknown))]), e)
  }

  function Run(db: Db, steps: seq<Step>): Db {
    if steps == [] then db else Apply(Run(db, steps[..|steps| - 1]), steps[|steps| - 1])
  }

  /** Every stored view is the fold of the ledger, and an unreachable participant has ended the conversation. */
  ghost predicate Consistent(db: Db) {
    && (forall m | m in db.messages ::
          db.messages[m].view == if db.messages[m].resendEmailId.Some? then FoldView(db.ledger, db.messages[m].resendEmailId.value) else NO_VIEW)
    && (forall m | m in db.messages && db.messages[m].conversationId.Some? ::
          && db.messages[m].conversationId.value in db.conversations
          && (IsUnreachable(db.messages[m].view.state) ==> db.conversations[db.messages[m].conversationId.value].state == Terminated))
    && (forall m, o | m in db.messages && o in db.messages && db.messages[m].resendEmailId.Some?
          && db.messages[m].resendEmailId == db.messages[o].resendEmailId :: m == o)
  }

  lemma FoldIgnoresOthers(ledger: seq<LedgerRow>, row: LedgerRow, emailId: EmailId)
    requires row.webhook.emailId != emailId
    ensures FoldView(ledger + [row], emailId) == FoldView(ledger, emailId)
  {
    assert (ledger + [row])[..|ledger|] == ledger;
  }

  /** A projection repairs the view of the one message whose fold may have changed. */
  lemma ProjectRepairs(db: Db, before: Db, emailId: EmailId)
    requires Consistent(before)
    requires db.conversations == before.conversations && db.messages.Keys == before.messages.Keys
    requires forall m | m in db.messages :: db.messages[m].conversationId == before.messages[m].conversationId
    requires forall m | m in db.messages && !HasEmail(db.messages[m], emailId) ::
               db.messages[m] == before.messages[m]
               && (db.messages[m].resendEmailId.Some? ==>
                     FoldView(db.ledger, db.messages[m].resendEmailId.value) == FoldView(before.ledger, db.messages[m].resendEmailId.value))
    requires forall m | m in db.messages && HasEmail(db.messages[m], emailId) ::
               FoldView(db.ledger, emailId) == NO_VIEW ==> db.messages[m].view == NO_VIEW
    requires forall m, o | m in db.messages && o in db.messages && HasEmail(db.messages[m], emailId) && HasEmail(db.messages[o], emailId) :: m == o
    ensures Consistent(Project(db, emailId))
  {
    var after := Project(db, emailId);
    var r := Reduce(SortedLedger(db.ledger, emailId));
    assert r.current.None? ==> FoldView(db.ledger, emailId) == NO_VIEW;
    forall m | m in after.messages
      ensures after.messages[m].view == if after.messages[m].resendEmailId.Some? then FoldView(after.ledger, after.messages[m].resendEmailId.value) else NO_VIEW
    {
    }
    forall m | m in after.messages && after.messages[m].conversationId.Some?
      ensures after.messages[m].conversationId.value in after.conversations
      ensures IsUnreachable(after.messages[m].view.state) ==> after.conversations[after.messages[m].conversationId.value].state == Terminated
    {
      var c := after.messages[m].conversationId.value;
      if HasEmail(after.messages[m], emailId) {
        assert c in ConversationsOf(db, emailId);
      }
    }
  }

  lemma StepKeepsViews(db: Db, step: Step)
    requires Consistent(db)
    ensures Consistent(Apply(db, step))
  {
    match step
    case Intended(m, c) =>
    case Received(w, at, id) =>
      var recorded := RecordedEmail(db.ledger, w.svixId);
      if recorded.Some? {
        ProjectRepairs(db, db, recorded.value);
      } else {
        var row := LedgerRow(w, at, id);
        var received := db.(ledger := db.ledger + [row]);
        forall m | m in db.messages && db.messages[m].resendEmailId.Some? && !HasEmail(db.messages[m], w.emailId)
          ensures FoldView(received.ledger, db.messages[m].resendEmailId.value) == FoldView(db.ledger, db.messages[m].resendEmailId.value)
        {
          FoldIgnoresOthers(db.ledger, row, db.messages[m].resendEmailId.value);
        }
        ViewStaysOnceSet(db.ledger, row, w.emailId);
        ProjectRepairs(received, db, w.emailId);
      }
    case Accepted(m, e) =>
      var after := Apply(db, step);
      if m in db.messages && db.messages[m].resendEmailId.None? && !(exists o | o in db.messages :: HasEmail(db.messages[o], e)) {
        var accepted := db.(messages := db.messages[m := db.messages[m].(resendEmailId := Some(e), view := db.messages[m].view.(state := Unknown))]);
        ProjectRepairs(accepted, db, e);
      }
  }

  lemma {:induction false} RecordedIs(ledger: seq<LedgerRow>, svixId: string)
    ensures RecordedEmail(ledger, svixId).None? <==> forall row | row in ledger :: row.webhook.svixId != svixId
    ensures RecordedEmail(ledger, svixId).Some? ==>
              exists row | row in ledger :: row.webhook.svixId == svixId && row.webhook.emailId == RecordedEmail(ledger, svixId).value
  {
    if ledger != [] {
      RecordedIs(ledger[1..], svixId);
      assert ledger == [ledger[0]] + ledger[1..];
    }
  }

  /** A webhook that was recorded before changes nothing; a new one is recorded as it came. */
  lemma WebhookIsRecordedOnce(db: Db, w: Webhook, at: int, id: nat)
    requires Consistent(db)
    ensures var r, known := Apply(db, Received(w, at, id)), exists row | row in db.ledger :: row.webhook.svixId == w.svixId;
            && (known ==> r == db)
            && (!known ==> r.ledger == db.ledger + [LedgerRow(w, at, id)])
  {
    hide Reduce, SortedLedger, ViewOf, Consistent, ConversationsOf, HasEmail, MarkTerminated;
    RecordedIs(db.ledger, w.svixId);
    var recorded := RecordedEmail(db.ledger, w.svixId);
    if recorded.Some? {
      ProjectingAgainChangesNothing(db, recorded.value);
    }
  }

  lemma ProjectingAgainChangesNothing(db: Db, emailId: EmailId)
    requires Consistent(db)
    ensures Project(db, emailId) == db
  {
    var r := Project(db, emailId);
    assert r.messages == db.messages;
    forall c | c in db.conversations ensures r.conversations[c] == db.conversations[c] {
    }
    assert r.conversations == db.conversations;
  }

  /** A later event never takes the view away. */
  lemma ViewStaysOnceSet(ledger: seq<LedgerRow>, row: LedgerRow, emailId: EmailId)
    ensures FoldView(ledger + [row], emailId) == NO_VIEW ==> FoldView(ledger, emailId) == NO_VIEW
  {
    NoViewWithoutEvents(ledger, emailId);
    NoViewWithoutEvents(ledger + [row], emailId);
    assert forall r | r in ledger :: r in ledger + [row];
    assert Webhooks(ledger) <= Webhooks(ledger + [row]);
  }

  /** After any sequence of intents, webhooks (duplicates, any order, before or
      after acceptance) and acceptances, every stored view equals its fold. */
  lemma {:induction false} ViewEqualsFoldAlways(db: Db, steps: seq<Step>)
    requires Consistent(db)
    ensures Consistent(Run(db, steps))
  {
    if steps != [] {
      ViewEqualsFoldAlways(db, steps[..|steps| - 1]);
      StepKeepsViews(Run(db, steps[..|steps| - 1]), steps[|steps| - 1]);
    }
  }

  /** The tables as the service updates them. */
  class DeliveryStore {
    var ledger: seq<LedgerRow>
    var messages: map<MessageId, Message>
    var conversations: map<ConversationId, Clock>

    ghost function Snapshot(): Db
      reads this
    {
      Db(ledger, messages, conversations)
    }

    constructor (conversations: map<ConversationId, Clock>)
      ensures Snapshot() == Db([], map[], conversations)
      ensures Consistent(Snapshot())
    {
      this.ledger, this.messages, this.conversations := [], map[], conversations;
    }

    method ProjectOutboundDeliveryState(emailId: EmailId)
      modifies this
      ensures Snapshot() == Project(old(Snapshot()), emailId)
    {
      var projected := ReduceDeliveryEvents(SortedLedger(ledger, emailId));
      if projected.current.None? {
        return;
      }
      var current := projected.current.value;
      var hit := ConversationsOf(Db(ledger, messages, conversations), emailId);
      messages := map m | m in messages ::
        if HasEmail(messages[m], emailId)
        then messages[m].(view := View(current.state, current.detail, Some(current.eventCreatedAt), projected.deliveredAt))
        else messages[m];
      if !IsUnreachable(current.state) {
        assert conversations == map c | c in conversations :: conversations[c];
        return;
      }
      conversations := map c | c in conversations ::
        if c in hit then MarkTerminated(conversations[c], current.eventCreatedAt) else conversations[c];
    }

    /** The webhook transaction. */
    method ReceiveWebhook(w: Webhook, at: int, id: nat)
      modifies this
      ensures Snapshot() == Apply(old(Snapshot()), Received(w, at, id))
      ensures old(Consistent(Snapshot())) ==> Consistent(Snapshot())
    {
      ghost var before := Snapshot();
      var recorded := RecordedEmail(ledger, w.svixId);
      if recorded.Some? {
        ProjectOutboundDeliveryState(recorded.value);
      } else {
        ledger := ledger + [LedgerRow(w, at, id)];
        ProjectOutboundDeliveryState(w.emailId);
      }
      if Consistent(before) {
        StepKeepsViews(before, Received(w, at, id));
      }
    }

    /** The delivery part of the transaction that records the provider's acceptance. */
    method AcceptMessage(m: MessageId, emailId: EmailId)
      requires m in messages && messages[m].resendEmailId.None?
      modifies this
      ensures Snapshot() == Apply(old(Snapshot()), Accepted(m, emailId))
      ensures old(Consistent(Snapshot())) ==> Consistent(Snapshot())
    {
      ghost var before := Snapshot();
      if !(exists o | o in messages :: HasEmail(messages[o], emailId)) {
        messages := messages[m := messages[m].(resendEmailId := Some(emailId), view := messages[m].view.(state := Unknown))];
        ProjectOutboundDeliveryState(emailId);
      }
      if Consistent(before) {
        StepKeepsViews(before, Accepted(m, emailId));
      }
    }
  }
}
