/** The durable inbox ledger: one row per message, a stored cursor, two independent retry budgets. */
module Ledger {
  import opened Text

  /** A row id. The id of a failure notice is a fixed prefix and a SHA-256 of the failing id, taken
      here as a constructor: it is injective and no provider message carries it. */
  datatype Key = Message(id: string) | TurnFailure(of: Key)

  datatype Status = Queued | Processing | Outbox | Failed | Done | Uncertain

  datatype Row = Row(status: Status, updated: real, payload: Option<string>,
                     attempts: nat, turnAttempts: nat, error: Option<string>, retryAt: real)

  /** What the poller remembers of the server: nothing, a partial listing, or a query state. */
  datatype Cursor = Fresh | Paging(state: nat, position: nat) | Complete(state: nat)

  type Rows = map<Key, Row>

  datatype Mail = Mail(id: string, text: string)

  const EXHAUSTED := "email_model_attempts_exhausted"

  function Pow2(n: nat): (p: nat)
    ensures p >= 1
  {
    if n == 0 then 1 else 2 * Pow2(n - 1)
  }

  /** min(3600, 30 * 2**attempts) seconds. */
  function Backoff(attempts: nat): (delay: real)
    ensures 0.0 < delay <= 3600.0
  {
    if 30 * Pow2(attempts) < 3600 then (30 * Pow2(attempts)) as real else 3600.0
  }

  /** The delay starts at half a minute and doubles up to the hour. */
  lemma BackoffDoubles(attempts: nat)
    ensures Backoff(0) == 30.0
    ensures Backoff(attempts + 1) == if Backoff(attempts) < 1800.0 then 2.0 * Backoff(attempts) else 3600.0
  {
  }

  function Later(a: real, b: real): real {
    if a < b then b else a
  }

  function NewRow(status: Status, now: real, payload: Option<string>): Row {
    Row(status, now, payload, 0, 0, None, 0.0)
  }

  // ---------------------------------------------------------------- one transaction each

  function AfterPut(rows: Rows, key: Key, status: Status, payload: Option<string>, now: real): Rows {
    if key in rows then rows[key := rows[key].(status := status, updated := now, payload := payload)]
    else rows[key := NewRow(status, now, payload)]
  }

  function InsertOrIgnore(rows: Rows, key: Key, row: Row): Rows {
    if key in rows then rows else rows[key := row]
  }

  function TurnAttempts(rows: Rows, key: Key): nat {
    if key in rows then rows[key].turnAttempts else 0
  }

  function SendAttempts(rows: Rows, key: Key): nat {
    if key in rows then rows[key].attempts else 0
  }

  /** A turn may start from no row, a queued row or an interrupted one. */
  predicate Startable(rows: Rows, key: Key) {
    key in rows ==> rows[key].status in {Queued, Processing}
  }

  predicate TurnStarts(rows: Rows, key: Key, limit: int) {
    Startable(rows, key) && TurnAttempts(rows, key) < limit
  }

  function AfterStartTurn(rows: Rows, key: Key, payload: string, limit: int, notice: string, now: real): Rows {
    if !Startable(rows, key) then rows
    else if TurnAttempts(rows, key) >= limit then
      var failed := if key in rows
                    then rows[key := rows[key].(status := Failed, error := Some(EXHAUSTED), updated := now)]
                    else rows;
      InsertOrIgnore(failed, TurnFailure(key), NewRow(Outbox, now, Some(notice)))
    else
      var base := if key in rows then rows[key] else NewRow(Processing, now, None);
      rows[key := base.(status := Processing, updated := now, payload := Some(payload),
                        turnAttempts := base.turnAttempts + 1)]
  }

  /** Reading the attempts of a missing row raises before anything is written. */
  function AfterHandoffFailed(rows: Rows, key: Key, reason: string, limit: int, now: real): Rows {
    if key !in rows then rows
    else
      var attempts := rows[key].turnAttempts + 1;
      rows[key := rows[key].(turnAttempts := attempts, error := Some(reason),
                             status := if attempts >= limit then Failed else Queued,
                             updated := now, retryAt := now + Backoff(attempts))]
  }

  function AfterDeferHandoff(rows: Rows, key: Key, now: real): Rows {
    if key in rows && rows[key].status == Queued
    then rows[key := rows[key].(retryAt := now + 60.0, updated := now)] else rows
  }

  function AfterDeferLookup(rows: Rows, key: Key, now: real): Rows {
    if key in rows then rows[key := rows[key].(retryAt := now + 3600.0)] else rows
  }

  function AfterIngest(rows: Rows, mail: seq<Mail>, now: real): Rows {
    if mail == [] then rows
    else
      var last := mail[|mail| - 1];
      InsertOrIgnore(AfterIngest(rows, mail[..|mail| - 1], now), Message(last.id), NewRow(Queued, now, Some(last.text)))
  }

  function AfterDelivery(rows: Rows, key: Key, error: Option<string>, delay: real, limit: int,
                    terminal: bool, now: real): Rows {
    if key !in rows then rows
    else
      var attempts := rows[key].attempts + 1;
      rows[key := rows[key].(attempts := attempts, error := error,
                             status := if terminal || attempts >= limit then Failed else Outbox,
                             retryAt := now + Later(delay, Backoff(attempts)), updated := now)]
  }

  /** Rows that were there are as they were; every message has a row; and a new row is queued with the text of the
      first message that has its id. */
  ghost predicate Ingested(rows: Rows, mail: seq<Mail>, now: real, after: Rows) {
    && (forall key | key in rows :: key in after && after[key] == rows[key])
    && (forall m | m in mail :: Message(m.id) in after)
    && (forall key | key in after && key !in rows ::
          exists k :: IsFirst(mail, key, k) && IsQueued(after[key], now, mail[k].text))
  }

  predicate IsFirst(mail: seq<Mail>, key: Key, k: int) {
    0 <= k < |mail| && Message(mail[k].id) == key && forall j | 0 <= j < k :: Message(mail[j].id) != key
  }

  predicate IsQueued(row: Row, now: real, text: string) {
    row == Row(Queued, now, Some(text), 0, 0, None, 0.0)
  }

  lemma {:induction false} IngestMeans(rows: Rows, mail: seq<Mail>, now: real)
    ensures Ingested(rows, mail, now, AfterIngest(rows, mail, now))
  {
    if mail != [] {
      var init, last := mail[..|mail| - 1], mail[|mail| - 1];
      var before, after := AfterIngest(rows, init, now), AfterIngest(rows, mail, now);
      IngestMeans(rows, init, now);
      assert mail == init + [last];
      forall key | key in after && key !in rows
        ensures exists k :: IsFirst(mail, key, k) && IsQueued(after[key], now, mail[k].text)
      {
        if key in before {
          var k :| IsFirst(init, key, k) && IsQueued(before[key], now, init[k].text);
          assert IsFirst(mail, key, k);
        } else {
          assert IsFirst(mail, key, |mail| - 1) by {
            forall j | 0 <= j < |init| ensures Message(mail[j].id) != key {
              assert init[j] in init;
            }
          }
        }
      }
    }
  }

  lemma NoticeApart(key: Key)
    ensures key != TurnFailure(key)
  {
    if key.TurnFailure? {
      NoticeApart(key.of);
    }
  }

  /** No row differs but those of the given keys. */
  predicate Elsewhere(before: Rows, after: Rows, keys: set<Key>) {
    && (forall k | k in before && k !in keys :: k in after && after[k] == before[k])
    && (forall k | k in after && k !in keys :: k in before)
  }

  // ---------------------------------------------------------------- the database object

  class InboxState {
    var rows: Rows
    var cursor: Cursor

    constructor ()
      ensures rows == map[] && cursor == Fresh
    {
      rows, cursor := map[], Fresh;
    }

    method Put(key: Key, status: Status, payload: Option<string>, now: real)
      modifies this`rows
      ensures rows == old(AfterPut(rows, key, status, payload, now))
      ensures key in rows
              && rows[key] == if old(key in rows)
                              then old(rows[key]).(status := status, updated := now, payload := payload)
                              else Row(status, now, payload, 0, 0, None, 0.0)
      ensures TurnAttempts(rows, key) == old(TurnAttempts(rows, key))
      ensures SendAttempts(rows, key) == old(SendAttempts(rows, key))
      ensures Elsewhere(old(rows), rows, {key})
    {
      var row := if key in rows then rows[key] else NewRow(status, now, payload);
      rows := rows[key := row.(status := status, updated := now, payload := payload)];
    }

    method StartTurn(key: Key, payload: string, limit: int, notice: string, now: real) returns (started: bool)
      modifies this`rows
      ensures started == old(TurnStarts(rows, key, limit))
      ensures rows == old(AfterStartTurn(rows, key, payload, limit, notice, now))
      ensures started ==>
                && key in rows && rows[key].turnAttempts == old(TurnAttempts(rows, key)) + 1 <= limit
                && rows[key] == if old(key in rows)
                                then old(rows[key]).(status := Processing, updated := now, payload := Some(payload),
                                                     turnAttempts := old(rows[key]).turnAttempts + 1)
                                else Row(Processing, now, Some(payload), 0, 1, None, 0.0)
      ensures !started && old(Startable(rows, key)) ==>
                && TurnFailure(key) in rows
                && rows[TurnFailure(key)] == (if old(TurnFailure(key) in rows) then old(rows[TurnFailure(key)])
                                              else Row(Outbox, now, Some(notice), 0, 0, None, 0.0))
                && (old(key in rows) <==> key in rows)
                && (old(key in rows) ==>
                      rows[key] == old(rows[key]).(status := Failed, error := Some(EXHAUSTED), updated := now))
      ensures !old(Startable(rows, key)) ==> rows == old(rows)
      ensures SendAttempts(rows, key) == old(SendAttempts(rows, key))
      ensures Elsewhere(old(rows), rows, {key, TurnFailure(key)})
    {
      NoticeApart(key);
      if key in rows && rows[key].status !in {Queued, Processing} {
        return false;
      }
      var attempts := if key in rows then rows[key].turnAttempts else 0;
      if attempts >= limit {
        if key in rows {
          rows := rows[key := rows[key].(status := Failed, error := Some(EXHAUSTED), updated := now)];
        }
        if TurnFailure(key) !in rows {
          rows := rows[TurnFailure(key) := NewRow(Outbox, now, Some(notice))];
        }
        return false;
      }
      if key in rows {
        rows := rows[key := rows[key].(status := Processing, updated := now, payload := Some(payload),
                                       turnAttempts := attempts + 1)];
      } else {
        rows := rows[key := NewRow(Processing, now, Some(payload)).(turnAttempts := attempts + 1)];
      }
      return true;
    }

    /** None when there is no such row: the read of its attempts raises. */
    method NativeHandoffFailed(key: Key, reason: string, limit: int, now: real) returns (failed: Option<bool>)
      modifies this`rows
      ensures failed == old(if key in rows then Some(rows[key].turnAttempts + 1 >= limit) else None)
      ensures rows == old(AfterHandoffFailed(rows, key, reason, limit, now))
      ensures failed.Some? ==>
                && key in rows && rows[key].retryAt > now
                && rows[key] == old(rows[key]).(status := if failed.value then Failed else Queued,
                                                turnAttempts := old(rows[key]).turnAttempts + 1,
                                                error := Some(reason), updated := now,
                                                retryAt := now + Backoff(old(rows[key]).turnAttempts + 1))
      ensures failed.None? ==> rows == old(rows)
      ensures Elsewhere(old(rows), rows, {key})
    {
      if key !in rows {
        return None;
      }
      var attempts := rows[key].turnAttempts + 1;
      rows := rows[key := rows[key].(turnAttempts := attempts, error := Some(reason),
                                     status := if attempts >= limit then Failed else Queued,
                                     updated := now, retryAt := now + Backoff(attempts))];
      return Some(attempts >= limit);
    }

    method DeferNativeHandoff(key: Key, now: real)
      modifies this`rows
      ensures rows == old(AfterDeferHandoff(rows, key, now))
      ensures if old(key in rows && rows[key].status == Queued)
              then key in rows && rows[key] == old(rows[key]).(retryAt := now + 60.0, updated := now)
              else rows == old(rows)
      ensures TurnAttempts(rows, key) == old(TurnAttempts(rows, key))
      ensures SendAttempts(rows, key) == old(SendAttempts(rows, key))
      ensures Elsewhere(old(rows), rows, {key})
    {
      if key in rows && rows[key].status == Queued {
        rows := rows[key := rows[key].(retryAt := now + 60.0, updated := now)];
      }
    }

    method DeferLookup(key: Key, now: real)
      modifies this`rows
      ensures rows == old(AfterDeferLookup(rows, key, now))
      ensures if old(key in rows) then key in rows && rows[key] == old(rows[key]).(retryAt := now + 3600.0)
              else rows == old(rows)
      ensures Elsewhere(old(rows), rows, {key})
    {
      if key in rows {
        rows := rows[key := rows[key].(retryAt := now + 3600.0)];
      }
    }

    /** Messages and cursor change together. */
    method Ingest(mail: seq<Mail>, next: Cursor, now: real)
      modifies this
      ensures rows == old(AfterIngest(rows, mail, now)) && cursor == next
      ensures Ingested(old(rows), mail, now, rows)
    {
      IngestMeans(rows, mail, now);
      for k := 0 to |mail|
        invariant rows == old(AfterIngest(rows, mail[..k], now))
        invariant cursor == old(cursor)
      {
        assert mail[..k + 1][..k] == mail[..k];
        if Message(mail[k].id) !in rows {
          rows := rows[Message(mail[k].id) := NewRow(Queued, now, Some(mail[k].text))];
        }
      }
      assert mail[..|mail|] == mail;
      cursor := next;
    }

    method DeliveryAttempt(key: Key, error: Option<string>, delay: real, limit: int, terminal: bool, now: real)
      returns (failed: Option<bool>)
      modifies this`rows
      ensures failed == old(if key in rows then Some(terminal || rows[key].attempts + 1 >= limit) else None)
      ensures rows == old(AfterDelivery(rows, key, error, delay, limit, terminal, now))
      ensures failed.Some? ==>
                && key in rows && rows[key].retryAt >= now + delay && rows[key].retryAt > now
                && rows[key] == old(rows[key]).(status := if failed.value then Failed else Outbox,
                                                attempts := old(rows[key]).attempts + 1, error := error,
                                                retryAt := rows[key].retryAt, updated := now)
                && (rows[key].retryAt == now + delay || rows[key].retryAt == now + Backoff(rows[key].attempts))
                && rows[key].retryAt >= now + Backoff(rows[key].attempts)
      ensures failed.None? ==> rows == old(rows)
      ensures Elsewhere(old(rows), rows, {key})
    {
      if key !in rows {
        return None;
      }
      var attempts := rows[key].attempts + 1;
      var exhausted := terminal || attempts >= limit;
      rows := rows[key := rows[key].(attempts := attempts, error := error,
                                     status := if exhausted then Failed else Outbox,
                                     retryAt := now + Later(delay, Backoff(attempts)), updated := now)];
      return Some(exhausted);
    }
  }

  // ---------------------------------------------------------------- whole runs

  /** One committed transaction, or a restart, which changes nothing that is stored. */
  datatype Event =
    | PutEvent(key: Key, status: Status, payload: Option<string>, now: real)
    | StartTurnEvent(key: Key, text: string, limit: int, notice: string, now: real)
    | HandoffFailedEvent(key: Key, reason: string, limit: int, now: real)
    | DeferHandoffEvent(key: Key, now: real)
    | DeferLookupEvent(key: Key, now: real)
    | IngestEvent(mail: seq<Mail>, now: real)
    | DeliveryEvent(key: Key, error: Option<string>, delay: real, limit: int, terminal: bool, now: real)
    | Restart

  function Apply(rows: Rows, e: Event): Rows {
    match e
    case PutEvent(key, status, payload, now) => AfterPut(rows, key, status, payload, now)
    case StartTurnEvent(key, text, limit, notice, now) => AfterStartTurn(rows, key, text, limit, notice, now)
    case HandoffFailedEvent(key, reason, limit, now) => AfterHandoffFailed(rows, key, reason, limit, now)
    case DeferHandoffEvent(key, now) => AfterDeferHandoff(rows, key, now)
    case DeferLookupEvent(key, now) => AfterDeferLookup(rows, key, now)
    case IngestEvent(mail, now) => AfterIngest(rows, mail, now)
    case DeliveryEvent(key, error, delay, limit, terminal, now) =>
      AfterDelivery(rows, key, error, delay, limit, terminal, now)
    case Restart => rows
  }

  function Run(rows: Rows, events: seq<Event>): Rows
    decreases events
  {
    if events == [] then rows else Run(Apply(rows, events[0]), events[1..])
  }

  /** How often start_turn returned true for the key. */
  function Starts(rows: Rows, events: seq<Event>, key: Key): nat
    decreases events
  {
    if events == [] then 0
    else
      (if events[0].StartTurnEvent? && events[0].key == key && TurnStarts(rows, key, events[0].limit) then 1 else 0)
      + Starts(Apply(rows, events[0]), events[1..], key)
  }

  /** How often the owner's notice about the key was put in the outbox. */
  function Notices(rows: Rows, events: seq<Event>, key: Key): nat
    decreases events
  {
    if events == [] then 0
    else
      (if TurnFailure(key) !in rows && TurnFailure(key) in Apply(rows, events[0]) then 1 else 0)
      + Notices(Apply(rows, events[0]), events[1..], key)
  }

  lemma {:induction false} IngestKeeps(rows: Rows, mail: seq<Mail>, now: real, key: Key)
    ensures key in rows ==> key in AfterIngest(rows, mail, now) && AfterIngest(rows, mail, now)[key] == rows[key]
    ensures key in AfterIngest(rows, mail, now) && key !in rows ==>
              && (exists m | m in mail :: Message(m.id) == key)
              && TurnAttempts(AfterIngest(rows, mail, now), key) == 0 == SendAttempts(AfterIngest(rows, mail, now), key)
    ensures (exists m | m in mail :: Message(m.id) == key) ==> key in AfterIngest(rows, mail, now)
  {
    if mail != [] {
      var init, last := mail[..|mail| - 1], mail[|mail| - 1];
      IngestKeeps(rows, init, now, key);
      assert mail == init + [last];
    }
  }

  /** One event: no row is lost, no counter goes down, and each event touches one budget only. */
  lemma ApplyKeeps(rows: Rows, e: Event, key: Key)
    ensures key in rows ==> key in Apply(rows, e)
    ensures TurnAttempts(rows, key) <= TurnAttempts(Apply(rows, e), key)
    ensures SendAttempts(rows, key) <= SendAttempts(Apply(rows, e), key)
    ensures !e.DeliveryEvent? ==> SendAttempts(rows, key) == SendAttempts(Apply(rows, e), key)
    ensures !e.StartTurnEvent? && !e.HandoffFailedEvent? ==>
              TurnAttempts(rows, key) == TurnAttempts(Apply(rows, e), key)
    ensures e.StartTurnEvent? && e.key == key && TurnStarts(rows, key, e.limit) ==>
              TurnAttempts(Apply(rows, e), key) == TurnAttempts(rows, key) + 1
  {
    if e.IngestEvent? {
      IngestKeeps(rows, e.mail, e.now, key);
    }
  }

  /** Over any interleaving of ledger operations and restarts, start_turn succeeds at most limit
      times for a message, counting what an earlier run already used. */
  lemma {:induction false} RetryBudget(rows: Rows, events: seq<Event>, key: Key, limit: nat)
    requires forall e | e in events :: e.StartTurnEvent? && e.key == key ==> e.limit <= limit
    ensures TurnAttempts(rows, key) + Starts(rows, events, key) <= TurnAttempts(Run(rows, events), key)
    ensures Starts(rows, events, key) == 0 || TurnAttempts(rows, key) + Starts(rows, events, key) <= limit
    decreases events
  {
    if events != [] {
      assert events[0] in events;
      assert forall e | e in events[1..] :: e in events;
      ApplyKeeps(rows, events[0], key);
      RetryBudget(Apply(rows, events[0]), events[1..], key, limit);
    }
  }

  /** The two budgets never affect each other, over whole runs. */
  lemma {:induction false} BudgetsIndependent(rows: Rows, events: seq<Event>, key: Key)
    ensures (forall e | e in events :: !e.DeliveryEvent?) ==>
              SendAttempts(Run(rows, events), key) == SendAttempts(rows, key)
    ensures (forall e | e in events :: !e.StartTurnEvent? && !e.HandoffFailedEvent?) ==>
              TurnAttempts(Run(rows, events), key) == TurnAttempts(rows, key)
    ensures SendAttempts(rows, key) <= SendAttempts(Run(rows, events), key)
    decreases events
  {
    if events != [] {
      assert events[0] in events && forall e | e in events[1..] :: e in events;
      ApplyKeeps(rows, events[0], key);
      BudgetsIndependent(Apply(rows, events[0]), events[1..], key);
    }
  }

  predicate Quarantines(rows: Rows, e: Event, key: Key) {
    e.StartTurnEvent? && e.key == key && Startable(rows, key) && TurnAttempts(rows, key) >= e.limit
  }

  /** Quarantine and its notice are one transaction: the row fails and the notice is there after it,
      queued with the given text unless an earlier quarantine had already put it there. */
  lemma QuarantineWithNotice(rows: Rows, e: Event, key: Key)
    requires Quarantines(rows, e, key)
    ensures var after := Apply(rows, e);
            && !TurnStarts(rows, key, e.limit)
            && (key in rows ==> after[key].status == Failed && after[key].error == Some(EXHAUSTED))
            && TurnFailure(key) in after
            && (TurnFailure(key) !in rows ==> after[TurnFailure(key)] == NewRow(Outbox, e.now, Some(e.notice)))
            && (TurnFailure(key) in rows ==> after[TurnFailure(key)] == rows[TurnFailure(key)])
  {
    assert key != TurnFailure(key);
  }

  /** Whether the event names the notice row of the key directly, as later mail delivery does. */
  predicate Addresses(e: Event, notice: Key) {
    (e.PutEvent? || e.StartTurnEvent?) && e.key == notice
  }

  /** In any run the notice row appears at most once, and once there it stays. */
  lemma {:induction false} AtMostOneNotice(rows: Rows, events: seq<Event>, key: Key)
    ensures TurnFailure(key) in rows ==> Notices(rows, events, key) == 0 && TurnFailure(key) in Run(rows, events)
    ensures Notices(rows, events, key) <= 1
    ensures Notices(rows, events, key) == 1 <==> TurnFailure(key) !in rows && TurnFailure(key) in Run(rows, events)
    decreases events
  {
    if events != [] {
      ApplyKeeps(rows, events[0], TurnFailure(key));
      AtMostOneNotice(Apply(rows, events[0]), events[1..], key);
    }
  }

  function Quarantined(rows: Rows, events: seq<Event>, key: Key): nat
    decreases events
  {
    if events == [] then 0
    else (if Quarantines(rows, events[0], key) then 1 else 0)
         + Quarantined(Apply(rows, events[0]), events[1..], key)
  }

  /** A notice that nothing else addresses appears exactly when the message was quarantined. */
  lemma {:induction false} NoticeIffQuarantined(rows: Rows, events: seq<Event>, key: Key)
    requires TurnFailure(key) !in rows
    requires forall e | e in events :: !Addresses(e, TurnFailure(key))
    ensures TurnFailure(key) in Run(rows, events) <==> Quarantined(rows, events, key) > 0
    decreases events
  {
    if events != [] {
      var e, rest := events[0], events[1..];
      assert e in events && forall x | x in rest :: x in events;
      var after := Apply(rows, e);
      if e.IngestEvent? {
        IngestKeeps(rows, e.mail, e.now, TurnFailure(key));
      }
      assert TurnFailure(key) in after <==> Quarantines(rows, e, key);
      if TurnFailure(key) in after {
        AtMostOneNotice(after, rest, key);
      } else {
        NoticeIffQuarantined(after, rest, key);
      }
    }
  }
}
