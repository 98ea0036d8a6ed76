/** The email provider behind its idempotency keys, as tests/fake-resend-server.ts
    answers a batch: the same key with the same body yields the same ids, a
    changed body is a conflict. A key is forgotten after the retention period. */
module Provider {
  import opened Text

  type MessageId = nat

  datatype Key = BatchKey(batch: nat) | AttachmentKey(message: MessageId) | SyncKey(sync: MessageId)

  /** How long the provider remembers a key, in milliseconds. */
  const RETENTION := 24 * 60 * 60 * 1000

  /** The payload of a message is a function of columns that never change, so a body is the list of its messages. */
  type Body = seq<MessageId>

  datatype Record = Record(body: Body, ids: seq<string>, at: int)

  datatype Sent = Sent(message: MessageId, id: string)

  /** `log` lists the emails that left the provider. */
  datatype Mailer = Mailer(records: map<Key, Record>, log: seq<Sent>)

  datatype Reply = Answer(ids: seq<string>) | Conflict

  predicate Remembers(p: Mailer, key: Key, now: int) {
    key in p.records && now < p.records[key].at + RETENTION
  }

  function SendAll(body: Body, ids: seq<string>): (sent: seq<Sent>)
    requires |ids| == |body|
    ensures |sent| == |body| && forall i | 0 <= i < |body| :: sent[i] == Sent(body[i], ids[i])
  {
    seq(|body|, i requires 0 <= i < |body| => Sent(body[i], ids[i]))
  }

  /** `POST /emails/batch`, and `POST /emails` for a body of one; `drawn` are the ids that the provider would draw. */
  function Process(p: Mailer, key: Key, body: Body, now: int, drawn: seq<string>): (Mailer, Reply)
    requires |drawn| == |body|
  {
    if Remembers(p, key, now) then
      (p, if p.records[key].body == body then Answer(p.records[key].ids) else Conflict)
    else
      (Mailer(p.records[key := Record(body, drawn, now)], p.log + SendAll(body, drawn)), Answer(drawn))
  }

  /** Ids that were never given out. */
  predicate AreNewIds(p: Mailer, drawn: seq<string>) {
    && NoDuplicates(drawn)
    && (forall i | 0 <= i < |drawn| :: |drawn[i]| > 0)
    && (forall i, j | 0 <= i < |drawn| && 0 <= j < |p.log| :: p.log[j].id != drawn[i])
  }

  /** No message and no id occurs twice in the log. */
  ghost predicate SentOnce(p: Mailer) {
    && (forall i, j | 0 <= i < j < |p.log| :: p.log[i].message != p.log[j].message)
    && (forall i, j | 0 <= i < j < |p.log| :: p.log[i].id != p.log[j].id)
  }

  /** The record of `key` holds this message and id at position `i`. */
  predicate At(p: Mailer, key: Key, i: nat, sent: Sent) {
    && key in p.records && i < |p.records[key].body| && i < |p.records[key].ids|
    && p.records[key].body[i] == sent.message && p.records[key].ids[i] == sent.id
  }

  ghost predicate Backed(p: Mailer, sent: Sent) {
    exists key: Key, i: nat :: At(p, key, i, sent)
  }

  /** The log is what the records say, message by message. */
  ghost predicate LogOk(p: Mailer) {
    && (forall key | key in p.records :: |p.records[key].ids| == |p.records[key].body|)
    && (forall i | 0 <= i < |p.log| :: Backed(p, p.log[i]))
    && (forall key, i, sent | At(p, key, i, sent) :: sent in p.log)
  }

  /** What the service owes the provider for one submission: an earlier record of the key is
      not forgotten and does not differ, and a new key has a body of messages that no other key had. */
  ghost predicate Honest(p: Mailer, key: Key, body: Body, now: int) {
    && (key in p.records ==> Remembers(p, key, now) && p.records[key].body == body)
    && (key !in p.records ==> NoDuplicates(body) && forall other, m | other in p.records && m in body :: m !in p.records[other].body)
  }

  /** An honest submission keeps the log free of repetitions, is never a conflict, and is
      answered with the ids on record. */
  lemma ProcessKeepsSentOnce(p: Mailer, key: Key, body: Body, now: int, drawn: seq<string>)
    requires SentOnce(p) && LogOk(p) && Honest(p, key, body, now) && |drawn| == |body| && AreNewIds(p, drawn)
    ensures var (q, reply) := Process(p, key, body, now, drawn);
            && SentOnce(q) && LogOk(q)
            && key in q.records && q.records[key].body == body && reply == Answer(q.records[key].ids)
            && (forall other | other in p.records :: other in q.records && q.records[other] == p.records[other])
            && (forall other | other in q.records && other != key :: other in p.records)
            && p.log <= q.log
  {
    var q := Process(p, key, body, now, drawn).0;
    if key !in p.records {
      NewMessagesAreNew(p, body);
      LogGrows(p, q, key, body, now, drawn);
      NewSentOnce(p, q, body, drawn);
      hide LogOk, SentOnce, AreNewIds;
    }
  }

  lemma NewMessagesAreNew(p: Mailer, body: Body)
    requires LogOk(p)
    requires forall other, m | other in p.records && m in body :: m !in p.records[other].body
    ensures forall i | 0 <= i < |p.log| :: p.log[i].message !in body
  {
    forall i | 0 <= i < |p.log| ensures p.log[i].message !in body {
      assert Backed(p, p.log[i]);
      var key: Key, j: nat :| At(p, key, j, p.log[i]);
      assert p.records[key].body[j] in p.records[key].body;
    }
  }

  lemma NewSentOnce(p: Mailer, q: Mailer, body: Body, drawn: seq<string>)
    requires SentOnce(p) && AreNewIds(p, drawn) && NoDuplicates(body) && |drawn| == |body|
    requires forall i | 0 <= i < |p.log| :: p.log[i].message !in body
    requires q.log == p.log + SendAll(body, drawn)
    ensures SentOnce(q)
  {
    forall i, j | 0 <= i < j < |q.log| ensures q.log[i].message != q.log[j].message && q.log[i].id != q.log[j].id {
      if |p.log| <= j {
        assert q.log[j] == Sent(body[j - |p.log|], drawn[j - |p.log|]);
        assert body[j - |p.log|] in body;
        if |p.log| <= i {
          assert q.log[i] == Sent(body[i - |p.log|], drawn[i - |p.log|]);
        }
      }
    }
  }

  lemma LogGrows(p: Mailer, q: Mailer, key: Key, body: Body, now: int, drawn: seq<string>)
    requires LogOk(p) && key !in p.records && |drawn| == |body|
    requires q == Mailer(p.records[key := Record(body, drawn, now)], p.log + SendAll(body, drawn))
    ensures LogOk(q)
  {
    forall i | 0 <= i < |q.log| ensures Backed(q, q.log[i]) {
      if i < |p.log| {
        assert Backed(p, p.log[i]);
        var k: Key, j: nat :| At(p, k, j, p.log[i]);
        assert At(q, k, j, q.log[i]);
      } else {
        assert At(q, key, i - |p.log|, q.log[i]);
      }
    }
    forall k, i, sent | At(q, k, i, sent) ensures sent in q.log {
      if k == key {
        assert q.log[|p.log| + i] == sent;
      } else {
        assert At(p, k, i, sent);
      }
    }
  }

  /** The 24 hours are sharp: resubmitting a recorded body sends it again exactly when the key is forgotten. */
  lemma ResubmissionIsSafeIff(p: Mailer, key: Key, now: int, drawn: seq<string>)
    requires SentOnce(p) && LogOk(p) && key in p.records && |p.records[key].body| > 0
    requires |drawn| == |p.records[key].body| && AreNewIds(p, drawn)
    ensures SentOnce(Process(p, key, p.records[key].body, now, drawn).0) <==> now < p.records[key].at + 86_400_000
  {
    var body := p.records[key].body;
    var q := Process(p, key, body, now, drawn).0;
    if !Remembers(p, key, now) {
      var sent := Sent(body[0], p.records[key].ids[0]);
      assert At(p, key, 0, sent);
      var i :| 0 <= i < |p.log| && p.log[i] == sent;
      assert q.log[i].message == body[0] && q.log[|p.log|].message == body[0];
    }
  }
}
