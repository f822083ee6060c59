/** The outbox table shared by the order, payment and warehouse services, and the worker that polls
    it: publish, then mark, with every call allowed to fail. */
module OutboxWorker {
  import opened Domain
  import opened Text

  datatype Row = Row(aggregateId: Id, eventType: EventType, payload: string, createdAt: int,
                     publishedAt: Option<int>, attempts: nat, lastError: Option<string>)

  /** Topic, key and value of a Kafka record. */
  datatype Message = Message(topic: EventType, key: Id, value: string)

  function MessageOf(r: Row): Message { Message(r.eventType, r.aggregateId, r.payload) }

  predicate IsPending(rows: map<Id, Row>, id: Id) { id in rows && rows[id].publishedAt.None? }

  function PendingIds(rows: map<Id, Row>): set<Id> { set id | id in rows && rows[id].publishedAt.None? }

  /** ORDER BY created_at, id. */
  predicate Before(rows: map<Id, Row>, a: Id, b: Id)
    requires a in rows && b in rows
  {
    rows[a].createdAt < rows[b].createdAt || (rows[a].createdAt == rows[b].createdAt && a < b)
  }

  /** The first rows to publish: pending, in order, as many as there are up to the limit, and
      before every pending row left out. */
  ghost predicate IsFirst(rows: map<Id, Row>, batch: seq<Id>, limit: nat) {
    && (forall i :: 0 <= i < |batch| ==> IsPending(rows, batch[i]))
    && (forall i, j :: 0 <= i < j < |batch| ==> Before(rows, batch[i], batch[j]))
    && |batch| == (if |PendingIds(rows)| < limit then |PendingIds(rows)| else limit)
    && (forall i, id :: 0 <= i < |batch| && IsPending(rows, id) && id !in batch ==> Before(rows, batch[i], id))
  }

  /** Older rows come first, and of rows of one age those with the smaller identifier. */
  lemma {:induction false} FirstMeans(rows: map<Id, Row>, batch: seq<Id>, limit: nat)
    requires IsFirst(rows, batch, limit)
    ensures forall i :: 0 <= i < |batch| ==> batch[i] in rows && rows[batch[i]].publishedAt.None?
    ensures forall i, j :: 0 <= i < j < |batch| ==>
              rows[batch[i]].createdAt <= rows[batch[j]].createdAt
              && (rows[batch[i]].createdAt == rows[batch[j]].createdAt ==> batch[i] < batch[j])
    ensures forall id :: id in rows && rows[id].publishedAt.None? && id !in batch ==>
              |batch| == limit
              && forall i :: 0 <= i < |batch| ==>
                   rows[batch[i]].createdAt <= rows[id].createdAt
                   && (rows[batch[i]].createdAt == rows[id].createdAt ==> batch[i] < id)
  {
    forall id | id in rows && rows[id].publishedAt.None? && id !in batch ensures |batch| == limit {
      assert IsPending(rows, id) && id in PendingIds(rows);
      if |batch| == |PendingIds(rows)| { AllTaken(batch, PendingIds(rows), id); }
    }
    forall i, id | 0 <= i < |batch| && id in rows && rows[id].publishedAt.None? && id !in batch
      ensures rows[batch[i]].createdAt <= rows[id].createdAt
              && (rows[batch[i]].createdAt == rows[id].createdAt ==> batch[i] < id)
    {
      assert IsPending(rows, id);
    }
  }

  /** As many different members as a set has leave none of it out. */
  lemma {:induction false} AllTaken(batch: seq<Id>, ids: set<Id>, id: Id)
    requires forall i :: 0 <= i < |batch| ==> batch[i] in ids
    requires forall i, j :: 0 <= i < j < |batch| ==> batch[i] != batch[j]
    requires |batch| == |ids| && id in ids
    ensures id in batch
  {
    var n := |batch| - 1;
    if id != batch[n] { AllTaken(batch[..n], ids - {batch[n]}, id); }
  }

  /** The batch is determined by the table. */
  lemma {:induction false} FirstIsUnique(rows: map<Id, Row>, a: seq<Id>, b: seq<Id>, limit: nat)
    requires IsFirst(rows, a, limit) && IsFirst(rows, b, limit)
    ensures a == b
  {
    forall k | 0 <= k < |a| ensures a[k] == b[k] { FirstAgree(rows, a, b, limit, k); }
  }

  lemma {:induction false} FirstAgree(rows: map<Id, Row>, a: seq<Id>, b: seq<Id>, limit: nat, k: nat)
    requires IsFirst(rows, a, limit) && IsFirst(rows, b, limit) && k < |a|
    ensures a[k] == b[k]
    decreases k
  {
    forall i | 0 <= i < k ensures a[i] == b[i] { FirstAgree(rows, a, b, limit, i); }
    NotBefore(rows, a, b, limit, k);
    NotBefore(rows, b, a, limit, k);
  }

  /** Where two batches still agree, neither continues with an earlier row than the other. */
  lemma {:induction false} NotBefore(rows: map<Id, Row>, a: seq<Id>, b: seq<Id>, limit: nat, k: nat)
    requires IsFirst(rows, a, limit) && IsFirst(rows, b, limit) && k < |a|
    requires forall i :: 0 <= i < k ==> a[i] == b[i]
    ensures !Before(rows, b[k], a[k])
  {
  }

  function Published(rows: map<Id, Row>, id: Id, at: int): map<Id, Row> {
    if IsPending(rows, id)
    then rows[id := rows[id].(publishedAt := Some(at), attempts := rows[id].attempts + 1, lastError := None)]
    else rows
  }

  function Noted(rows: map<Id, Row>, id: Id, message: string): map<Id, Row> {
    if IsPending(rows, id)
    then rows[id := rows[id].(attempts := rows[id].attempts + 1, lastError := Some(message))]
    else rows
  }

  class OutboxTable {
    var rows: map<Id, Row>

    constructor (rows: map<Id, Row>)
      ensures this.rows == rows
    {
      this.rows := rows;
    }

    /** The insert a service makes in its own transaction; the primary key refuses a known ID. */
    method Insert(id: Id, row: Row)
      modifies this
      ensures rows == if id in old(rows) then old(rows) else old(rows)[id := row.(publishedAt := None)]
    {
      if id !in rows {
        rows := rows[id := row.(publishedAt := None)];
      }
    }

    method FetchUnpublished(limit: nat) returns (batch: seq<Id>)
      ensures IsFirst(rows, batch, limit)
      ensures |batch| <= limit
      ensures forall i :: 0 <= i < |batch| ==> batch[i] in rows && rows[batch[i]].publishedAt.None?
      ensures forall i, j :: 0 <= i < j < |batch| ==>
                rows[batch[i]].createdAt <= rows[batch[j]].createdAt
                && (rows[batch[i]].createdAt == rows[batch[j]].createdAt ==> batch[i] < batch[j])
      ensures forall id :: id in rows && rows[id].publishedAt.None? && id !in batch ==>
                |batch| == limit
                && forall i :: 0 <= i < |batch| ==>
                     rows[batch[i]].createdAt <= rows[id].createdAt
                     && (rows[batch[i]].createdAt == rows[id].createdAt ==> batch[i] < id)
    {
      batch := [];
      var remaining := PendingIds(rows);
      while |batch| < limit && remaining != {}
        invariant remaining <= PendingIds(rows) && |batch| <= limit
        invariant forall i :: 0 <= i < |batch| ==> IsPending(rows, batch[i]) && batch[i] !in remaining
        invariant forall id :: IsPending(rows, id) ==> id in remaining || id in batch
        invariant |batch| + |remaining| == |PendingIds(rows)|
        invariant forall i, j :: 0 <= i < j < |batch| ==> Before(rows, batch[i], batch[j])
        invariant forall i, id :: 0 <= i < |batch| && id in remaining ==> Before(rows, batch[i], id)
        decreases limit - |batch|
      {
        var first := Earliest(remaining);
        batch := batch + [first];
        remaining := remaining - {first};
      }
      assert IsFirst(rows, batch, limit);
      hide IsFirst;
      FirstMeans(rows, batch, limit);
    }

    method Earliest(ids: set<Id>) returns (first: Id)
      requires ids != {} && forall id :: id in ids ==> id in rows
      ensures first in ids && forall id :: id in ids && id != first ==> Before(rows, first, id)
    {
      first :| first in ids;
      var rest := ids - {first};
      while rest != {}
        invariant rest < ids && first in ids && first !in rest
        invariant forall id :: id in ids && id !in rest && id != first ==> Before(rows, first, id)
        decreases rest
      {
        var next :| next in rest;
        if Before(rows, next, first) { first := next; }
        rest := rest - {next};
      }
    }

    method MarkPublished(id: Id, at: int, fails: bool) returns (ok: bool)
      modifies this
      ensures ok == !fails && rows == if fails then old(rows) else Published(old(rows), id, at)
    {
      if fails { return false; }
      if id in rows && rows[id].publishedAt.None? {
        rows := rows[id := rows[id].(publishedAt := Some(at), attempts := rows[id].attempts + 1, lastError := None)];
      }
      return true;
    }

    method MarkFailed(id: Id, message: string, fails: bool) returns (ok: bool)
      modifies this
      ensures ok == !fails && rows == if fails then old(rows) else Noted(old(rows), id, message)
    {
      if fails { return false; }
      if id in rows && rows[id].publishedAt.None? {
        rows := rows[id := rows[id].(attempts := rows[id].attempts + 1, lastError := Some(message))];
      }
      return true;
    }
  }

  /** A send goes through, never reaches the log, or reaches it while its acknowledgement is lost. */
  datatype Send = Acked | NotSent | AckLost

  class Broker {
    var log: seq<Message>

    constructor ()
      ensures log == []
    {
      log := [];
    }

    method Publish(m: Message, send: Send) returns (ok: bool)
      modifies this
      ensures ok == send.Acked?
      ensures log == if send.NotSent? then old(log) else old(log) + [m]
    {
      if !send.NotSent? { log := log + [m]; }
      return send.Acked?;
    }
  }

  /** What goes wrong during one poll: the fetch, the sends and the marks by position, and the
      positions at which the context is found cancelled after a failed send. */
  datatype Faults = Faults(fetch: bool, sends: map<nat, Send>, marks: set<nat>, cancelled: set<nat>)

  const NO_FAULTS: Faults := Faults(false, map[], {}, {})

  function SendAt(f: Faults, k: nat): Send {
    if k in f.sends then f.sends[k] else Acked
  }

  /** A published row's record is in the log. */
  ghost predicate Faithful(rows: map<Id, Row>, log: seq<Message>) {
    forall id :: id in rows && rows[id].publishedAt.Some? ==> MessageOf(rows[id]) in log
  }

  /** Every record in the log comes from a row. */
  ghost predicate Sourced(rows: map<Id, Row>, log: seq<Message>) {
    forall m :: m in log ==> exists id :: id in rows && MessageOf(rows[id]) == m
  }

  /** A row keeps its content, and a published row is frozen. */
  ghost predicate Settles(a: map<Id, Row>, b: map<Id, Row>) {
    && a.Keys <= b.Keys
    && forall id :: id in a ==> MessageOf(b[id]) == MessageOf(a[id]) && b[id].createdAt == a[id].createdAt
                                && (a[id].publishedAt.Some? ==> b[id] == a[id])
  }

  function Messages(rows: map<Id, Row>, batch: seq<Id>): seq<Message>
    requires forall i :: 0 <= i < |batch| ==> batch[i] in rows
  {
    seq(|batch|, i requires 0 <= i < |batch| => MessageOf(rows[batch[i]]))
  }

  ghost predicate FromBatch(rows: map<Id, Row>, batch: seq<Id>, m: Message) {
    exists i :: 0 <= i < |batch| && batch[i] in rows && m == MessageOf(rows[batch[i]])
  }

  const BATCH: nat := 20

  /** Table and log after some turns, and whether the poll ended early. */
  datatype Turned = Turned(rows: map<Id, Row>, log: seq<Message>, stopped: bool)

  /** One row's turn: publish, then mark; after a failed send note the failure, or end the poll when
      the context is cancelled. */
  function TurnOf(rows: map<Id, Row>, log: seq<Message>, id: Id, m: Message, send: Send, markFails: bool,
                  cancelled: bool, now: int): Turned {
    var log' := if send.NotSent? then log else log + [m];
    if send.Acked? then Turned(if markFails then rows else Published(rows, id, now), log', false)
    else if cancelled then Turned(rows, log', true)
    else Turned(if markFails then rows else Noted(rows, id, "publish failed"), log', false)
  }

  predicate Known(rows: map<Id, Row>, batch: seq<Id>) {
    forall i :: 0 <= i < |batch| ==> batch[i] in rows
  }

  /** The first n turns of a poll over the fetched batch. */
  function Turns(rows: map<Id, Row>, log: seq<Message>, batch: seq<Id>, n: nat, f: Faults, now: int): Turned
    requires Known(rows, batch) && n <= |batch|
  {
    if n == 0 then Turned(rows, log, false)
    else
      var s := Turns(rows, log, batch, n - 1, f, now);
      if s.stopped then s
      else TurnOf(s.rows, s.log, batch[n - 1], MessageOf(rows[batch[n - 1]]), SendAt(f, n - 1), n - 1 in f.marks,
        n - 1 in f.cancelled, now)
  }

  /** One turn of the loop in memory; stop says the context ended. */
  method PublishRow(store: OutboxTable, broker: Broker, id: Id, m: Message, send: Send, markFails: bool,
                    cancelled: bool, now: int)
    returns (stop: bool)
    modifies store, broker
    ensures Turned(store.rows, broker.log, stop)
            == TurnOf(old(store.rows), old(broker.log), id, m, send, markFails, cancelled, now)
  {
    var acked := broker.Publish(m, send);
    if !acked {
      if cancelled { return true; }
      var noted := store.MarkFailed(id, "publish failed", markFails);
      return false;
    }
    var marked := store.MarkPublished(id, now, markFails);
    return false;
  }

  /** One poll: the first twenty pending rows in order, one turn each, until the batch or the
      context ends. */
  method Poll(store: OutboxTable, broker: Broker, faults: Faults, now: int) returns (ghost batch: seq<Id>)
    modifies store, broker
    ensures IsFirst(old(store.rows), batch, 20) && Known(old(store.rows), batch)
    ensures var r := Turns(old(store.rows), old(broker.log), batch, if faults.fetch then 0 else |batch|, faults, now);
            store.rows == r.rows && broker.log == r.log
  {
    hide TurnOf;
    ghost var rows, log := store.rows, broker.log;
    var events := store.FetchUnpublished(BATCH);
    batch := events;
    if faults.fetch { return; }
    var messages := Messages(store.rows, events);
    for k := 0 to |events|
      invariant Turned(store.rows, broker.log, false) == Turns(rows, log, events, k, faults, now)
    {
      var stop := PublishRow(store, broker, events[k], messages[k], SendAt(faults, k), k in faults.marks,
        k in faults.cancelled, now);
      if stop {
        StoppedStays(rows, log, events, k + 1, |events|, faults, now);
        return;
      }
    }
  }

  lemma {:induction false} StoppedStays(rows: map<Id, Row>, log: seq<Message>, batch: seq<Id>, n: nat, m: nat,
                                        f: Faults, now: int)
    requires Known(rows, batch) && n <= m <= |batch| && Turns(rows, log, batch, n, f, now).stopped
    ensures Turns(rows, log, batch, m, f, now) == Turns(rows, log, batch, n, f, now)
    decreases m
  {
    if n == m {
    } else {
      StoppedStays(rows, log, batch, n, m - 1, f, now);
    }
  }

  // ------------------------------------------------------------------ what a poll guarantees

  predicate Stops(f: Faults, k: nat) { !SendAt(f, k).Acked? && k in f.cancelled }

  predicate StoppedBefore(f: Faults, n: nat) { exists j :: 0 <= j < n && Stops(f, j) }

  /** What a poll makes of the row at position k: published when its send and its mark go through, a note
      when the send fails and the note goes through, and nothing when the context had ended by then. */
  function AfterTurn(row: Row, f: Faults, k: nat, now: int): Row {
    if StoppedBefore(f, k + 1) || k in f.marks then row
    else if SendAt(f, k).Acked? then row.(publishedAt := Some(now), attempts := row.attempts + 1, lastError := None)
    else row.(attempts := row.attempts + 1, lastError := Some("publish failed"))
  }

  /** After n turns: stopped exactly if some turn stopped, and each row is as its turn left it. */
  ghost predicate MarkedSoFar(rows: map<Id, Row>, r: Turned, batch: seq<Id>, n: nat, f: Faults, now: int)
    requires Known(rows, batch)
  {
    && (r.stopped <==> StoppedBefore(f, n))
    && Known(r.rows, batch)
    && (forall i :: 0 <= i < |batch| && i < n ==> r.rows[batch[i]] == AfterTurn(rows[batch[i]], f, i, now))
    && (forall i :: n <= i < |batch| ==> r.rows[batch[i]] == rows[batch[i]])
  }

  /** A fetched row ends up marked exactly when its own send and mark go through and no cancellation
      came before, and with a note of the failure when it was its send that failed: no other row's failure
      stands in its way. */
  lemma {:induction false} MarkedExactlyWhen(rows: map<Id, Row>, log: seq<Message>, batch: seq<Id>, n: nat, f: Faults,
                                             now: int)
    requires IsFirst(rows, batch, BATCH) && n <= |batch|
    ensures Known(rows, batch)
    ensures var r := Turns(rows, log, batch, n, f, now);
            && Known(r.rows, batch)
            && (forall i :: 0 <= i < n ==> r.rows[batch[i]] == AfterTurn(rows[batch[i]], f, i, now))
            && (forall i :: n <= i < |batch| ==> r.rows[batch[i]] == rows[batch[i]])
  {
    TurnsSoFar(rows, log, batch, n, f, now);
  }

  lemma {:induction false} TurnsSoFar(rows: map<Id, Row>, log: seq<Message>, batch: seq<Id>, n: nat, f: Faults,
                                      now: int)
    requires IsFirst(rows, batch, BATCH) && n <= |batch|
    ensures Known(rows, batch) && MarkedSoFar(rows, Turns(rows, log, batch, n, f, now), batch, n, f, now)
  {
    hide IsFirst, Turns, TurnOf, MarkedSoFar, AllDifferent, MessageOf, SendAt;
    Distinct(rows, batch);
    if n == 0 {
      NothingMarked(rows, log, batch, f, now);
    } else {
      TurnsSoFar(rows, log, batch, n - 1, f, now);
      NextTurn(rows, log, batch, n, f, now);
      MarkedOneMore(rows, Turns(rows, log, batch, n - 1, f, now), batch, n - 1, f, now);
    }
  }

  lemma {:induction false} NextTurn(rows: map<Id, Row>, log: seq<Message>, batch: seq<Id>, n: nat, f: Faults, now: int)
    requires Known(rows, batch) && 0 < n <= |batch|
    ensures var s := Turns(rows, log, batch, n - 1, f, now);
            Turns(rows, log, batch, n, f, now)
            == if s.stopped then s
               else TurnOf(s.rows, s.log, batch[n - 1], MessageOf(rows[batch[n - 1]]), SendAt(f, n - 1),
                           n - 1 in f.marks, n - 1 in f.cancelled, now)
  {
    hide TurnOf, MessageOf, SendAt;
  }

  lemma {:induction false} NothingMarked(rows: map<Id, Row>, log: seq<Message>, batch: seq<Id>, f: Faults, now: int)
    requires Known(rows, batch)
    ensures MarkedSoFar(rows, Turns(rows, log, batch, 0, f, now), batch, 0, f, now)
  {
  }

  lemma {:induction false} MarkedOneMore(rows: map<Id, Row>, s: Turned, batch: seq<Id>, k: nat, f: Faults, now: int)
    requires Known(rows, batch) && k < |batch| && rows[batch[k]].publishedAt.None?
    requires AllDifferent(batch) && MarkedSoFar(rows, s, batch, k, f, now)
    ensures var r := if s.stopped then s
                     else TurnOf(s.rows, s.log, batch[k], MessageOf(rows[batch[k]]), SendAt(f, k), k in f.marks,
                                 k in f.cancelled, now);
            MarkedSoFar(rows, r, batch, k + 1, f, now)
  {
    StoppedStep(f, k);
    hide TurnOf, StoppedBefore;
    if !s.stopped {
      TurnMarks(s.rows, s.log, batch[k], MessageOf(rows[batch[k]]), SendAt(f, k), k in f.marks, k in f.cancelled, now);
    }
  }

  lemma {:induction false} StoppedStep(f: Faults, n: nat)
    ensures StoppedBefore(f, n + 1) <==> Stops(f, n) || StoppedBefore(f, n)
  {
    hide Stops;
  }

  /** What a turn does to the marks. */
  lemma {:induction false} TurnMarks(rows: map<Id, Row>, log: seq<Message>, id: Id, m: Message, send: Send,
                                     markFails: bool, cancelled: bool, now: int)
    requires IsPending(rows, id)
    ensures var r := TurnOf(rows, log, id, m, send, markFails, cancelled, now);
            && r.rows.Keys == rows.Keys && (forall x :: x in rows && x != id ==> r.rows[x] == rows[x])
            && r.rows[id] == (if markFails || (!send.Acked? && cancelled) then rows[id]
                              else if send.Acked?
                              then rows[id].(publishedAt := Some(now), attempts := rows[id].attempts + 1,
                                             lastError := None)
                              else rows[id].(attempts := rows[id].attempts + 1, lastError := Some("publish failed")))
            && (r.stopped <==> !send.Acked? && cancelled)
  {
  }

  predicate AllDifferent(batch: seq<Id>) {
    forall i, j :: 0 <= i < j < |batch| ==> batch[i] != batch[j]
  }

  lemma {:induction false} Distinct(rows: map<Id, Row>, batch: seq<Id>)
    requires IsFirst(rows, batch, BATCH)
    ensures Known(rows, batch) && forall i :: 0 <= i < |batch| ==> rows[batch[i]].publishedAt.None?
    ensures AllDifferent(batch)
  {
  }

  /** The records of the first n turns: one for every turn that takes place and whose send is not lost. */
  function Sent(rows: map<Id, Row>, batch: seq<Id>, n: nat, f: Faults): seq<Message>
    requires Known(rows, batch) && n <= |batch|
  {
    if n == 0 then []
    else
      Sent(rows, batch, n - 1, f)
      + if StoppedBefore(f, n - 1) || SendAt(f, n - 1).NotSent? then []
        else var row := rows[batch[n - 1]]; [Message(row.eventType, row.aggregateId, row.payload)]
  }

  lemma {:induction false} LogGains(rows: map<Id, Row>, log: seq<Message>, batch: seq<Id>, n: nat, f: Faults, now: int)
    requires IsFirst(rows, batch, BATCH) && n <= |batch|
    ensures Known(rows, batch) && Turns(rows, log, batch, n, f, now).log == log + Sent(rows, batch, n, f)
  {
    hide IsFirst, Turns, TurnOf, MarkedSoFar, StoppedBefore, AllDifferent, MessageOf, SendAt;
    Distinct(rows, batch);
    if n == 0 {
      NothingLogged(rows, log, batch, f, now);
    } else {
      var s := Turns(rows, log, batch, n - 1, f, now);
      LogGains(rows, log, batch, n - 1, f, now);
      TurnsSoFar(rows, log, batch, n - 1, f, now);
      StoppedIs(rows, s, batch, n - 1, f, now);
      NextTurn(rows, log, batch, n, f, now);
      TurnLogs(s, batch[n - 1], MessageOf(rows[batch[n - 1]]), SendAt(f, n - 1), n - 1 in f.marks, n - 1 in f.cancelled,
        now);
      OneMoreSent(rows, batch, n, f);
      hide Sent;
    }
  }

  lemma {:induction false} NothingLogged(rows: map<Id, Row>, log: seq<Message>, batch: seq<Id>, f: Faults, now: int)
    requires Known(rows, batch)
    ensures Turns(rows, log, batch, 0, f, now).log == log + Sent(rows, batch, 0, f)
  {
  }

  lemma {:induction false} TurnLogs(s: Turned, id: Id, m: Message, send: Send, markFails: bool, cancelled: bool,
                                    now: int)
    ensures TurnOf(s.rows, s.log, id, m, send, markFails, cancelled, now).log
         == s.log + if send.NotSent? then [] else [m]
  {
    hide Published, Noted;
  }

  lemma {:induction false} OneMoreSent(rows: map<Id, Row>, batch: seq<Id>, n: nat, f: Faults)
    requires Known(rows, batch) && 0 < n <= |batch|
    ensures Sent(rows, batch, n, f)
         == Sent(rows, batch, n - 1, f)
            + if StoppedBefore(f, n - 1) || SendAt(f, n - 1).NotSent? then [] else [MessageOf(rows[batch[n - 1]])]
  {
    hide StoppedBefore, SendAt;
  }

  lemma {:induction false} StoppedIs(rows: map<Id, Row>, r: Turned, batch: seq<Id>, n: nat, f: Faults, now: int)
    requires Known(rows, batch) && MarkedSoFar(rows, r, batch, n, f, now)
    ensures r.stopped <==> StoppedBefore(f, n)
  {
  }

  /** Without faults every row of the batch is marked, and the log gains their records, older rows
      before younger ones. */
  lemma {:induction false} CleanPoll(rows: map<Id, Row>, log: seq<Message>, batch: seq<Id>, now: int)
    requires IsFirst(rows, batch, BATCH)
    ensures Known(rows, batch)
    ensures var r := Turns(rows, log, batch, |batch|, NO_FAULTS, now);
            && log <= r.log && |r.log| == |log| + |batch| && Known(r.rows, batch)
            && (forall k :: 0 <= k < |batch| ==>
                  var row := rows[batch[k]];
                  r.log[|log| + k] == Message(row.eventType, row.aggregateId, row.payload)
                    && r.rows[batch[k]]
                       == row.(publishedAt := Some(now), attempts := row.attempts + 1, lastError := None))
            && (forall j, k :: 0 <= j < k < |batch| ==> rows[batch[j]].createdAt <= rows[batch[k]].createdAt)
  {
    FirstMeans(rows, batch, BATCH);
    LogGains(rows, log, batch, |batch|, NO_FAULTS, now);
    MarkedExactlyWhen(rows, log, batch, |batch|, NO_FAULTS, now);
    hide IsFirst, Turns;
    AllSent(rows, batch, |batch|);
  }

  lemma {:induction false} AllSent(rows: map<Id, Row>, batch: seq<Id>, n: nat)
    requires Known(rows, batch) && n <= |batch|
    ensures var sent := Sent(rows, batch, n, NO_FAULTS);
            |sent| == n && forall k :: 0 <= k < n ==> sent[k] == MessageOf(rows[batch[k]])
  {
    if n == 0 {
    } else {
      AllSent(rows, batch, n - 1);
    }
  }

  /** What any turns keep: marks imply records, records come from rows, a row's content and its mark
      never change, the log only grows, and only by rows of the batch. */
  ghost predicate Kept(rows: map<Id, Row>, log: seq<Message>, batch: seq<Id>, r: Turned) {
    && Faithful(r.rows, r.log) && Sourced(r.rows, r.log) && Settles(rows, r.rows) && r.rows.Keys == rows.Keys
    && log <= r.log
    && (forall x :: |log| <= x < |r.log| ==> FromBatch(rows, batch, r.log[x]))
    && (forall id :: id in rows && id !in batch ==> r.rows[id] == rows[id])
  }

  lemma {:induction false} PollKeeps(rows: map<Id, Row>, log: seq<Message>, batch: seq<Id>, n: nat, f: Faults, now: int)
    requires Faithful(rows, log) && Sourced(rows, log) && Known(rows, batch) && n <= |batch|
    ensures Kept(rows, log, batch, Turns(rows, log, batch, n, f, now))
  {
    hide Kept, TurnOf, Faithful, Sourced;
    if n == 0 {
      NothingTurned(rows, log, batch);
    } else {
      PollKeeps(rows, log, batch, n - 1, f, now);
      var s := Turns(rows, log, batch, n - 1, f, now);
      if !s.stopped {
        TurnKeeps(rows, log, batch, s, n - 1, SendAt(f, n - 1), n - 1 in f.marks, n - 1 in f.cancelled, now);
      }
    }
  }

  lemma {:induction false} NothingTurned(rows: map<Id, Row>, log: seq<Message>, batch: seq<Id>)
    requires Faithful(rows, log) && Sourced(rows, log)
    ensures Kept(rows, log, batch, Turned(rows, log, false))
  {
  }

  lemma {:induction false} TurnKeeps(rows: map<Id, Row>, log: seq<Message>, batch: seq<Id>, s: Turned, k: nat,
                                     send: Send, markFails: bool, cancelled: bool, now: int)
    requires Known(rows, batch) && k < |batch| && Kept(rows, log, batch, s)
    ensures Kept(rows, log, batch,
              TurnOf(s.rows, s.log, batch[k], MessageOf(rows[batch[k]]), send, markFails, cancelled, now))
  {
    hide Faithful, Sourced, TurnOf, FromBatch;
    var id, m := batch[k], MessageOf(rows[batch[k]]);
    var r := TurnOf(s.rows, s.log, id, m, send, markFails, cancelled, now);
    TurnShape(s.rows, s.log, id, m, send, markFails, cancelled, now);
    RowsKeepContent(s.rows, r.rows, id, m, s.log, r.log);
    ComesFromBatch(rows, batch, k);
  }

  lemma {:induction false} ComesFromBatch(rows: map<Id, Row>, batch: seq<Id>, k: nat)
    requires Known(rows, batch) && k < |batch|
    ensures FromBatch(rows, batch, MessageOf(rows[batch[k]]))
  {
  }

  lemma {:induction false} TurnShape(rows: map<Id, Row>, log: seq<Message>, id: Id, m: Message, send: Send,
                                     markFails: bool, cancelled: bool, now: int)
    requires id in rows
    ensures var r := TurnOf(rows, log, id, m, send, markFails, cancelled, now);
            && r.rows.Keys == rows.Keys && Settles(rows, r.rows)
            && (forall x :: x in rows && x != id ==> r.rows[x] == rows[x])
            && (r.log == log || r.log == log + [m])
            && (r.rows[id].publishedAt.Some? ==> rows[id].publishedAt.Some? || r.log == log + [m])
  {
  }

  /** A step that changes at most the note or the mark of one row, and adds at most its record. */
  lemma {:induction false} RowsKeepContent(a: map<Id, Row>, b: map<Id, Row>, id: Id, m: Message, la: seq<Message>,
                                           lb: seq<Message>)
    requires Faithful(a, la) && Sourced(a, la) && Settles(a, b) && b.Keys == a.Keys && id in a && MessageOf(a[id]) == m
    requires lb == la || lb == la + [m]
    requires forall x :: x in a && x != id ==> b[x] == a[x]
    requires b[id].publishedAt.Some? ==> a[id].publishedAt.Some? || lb == la + [m]
    ensures Faithful(b, lb) && Sourced(b, lb)
  {
    forall x | x in lb ensures exists i :: i in b && MessageOf(b[i]) == x {
      if x in la {
        var i :| i in a && MessageOf(a[i]) == x;
        assert i in b && MessageOf(b[i]) == x;
      } else {
        assert id in b && MessageOf(b[id]) == x;
      }
    }
    forall x | x in b && b[x].publishedAt.Some? ensures MessageOf(b[x]) in lb {
      assert lb[|lb| - 1] == m || lb == la;
    }
  }

  /** One tick of the worker: the rows that arrived since the last one, and what goes wrong. */
  datatype Tick = Tick(arrivals: seq<(Id, Row)>, faults: Faults)

  /** The table and the log between two ticks. */
  datatype Moment = Moment(rows: map<Id, Row>, log: seq<Message>)

  /** New rows are stored unpublished, under identifiers that are not taken. */
  function WithArrivals(rows: map<Id, Row>, arrivals: seq<(Id, Row)>): map<Id, Row> {
    if arrivals == [] then rows
    else
      var before, (id, row) := WithArrivals(rows, arrivals[..|arrivals| - 1]), arrivals[|arrivals| - 1];
      if id in before then before else before[id := row.(publishedAt := None)]
  }

  /** A tick stores the arrivals and turns through the first twenty pending rows, or through none if they
      cannot be fetched. */
  ghost predicate Ticked(a: Moment, tick: Tick, b: Moment, now: int) {
    exists batch :: TurnedThrough(a, tick, batch, b, now)
  }

  ghost predicate TurnedThrough(a: Moment, tick: Tick, batch: seq<Id>, b: Moment, now: int) {
    var rows := WithArrivals(a.rows, tick.arrivals);
    && IsFirst(rows, batch, 20) && Known(rows, batch)
    && var r := Turns(rows, a.log, batch, if tick.faults.fetch then 0 else |batch|, tick.faults, now);
       b == Moment(r.rows, r.log)
  }

  lemma {:induction false} SettledFacts(rows: map<Id, Row>, log: seq<Message>, rows': map<Id, Row>, log': seq<Message>)
    requires Settled(rows, log, rows', log')
    ensures Faithful(rows', log') && Sourced(rows', log')
  {
    hide Faithful, Sourced;
  }

  /** Rows arrive in the table, one insert each. */
  method Arrive(store: OutboxTable, arrivals: seq<(Id, Row)>)
    modifies store
    ensures store.rows == WithArrivals(old(store.rows), arrivals)
  {
    ghost var rows := store.rows;
    for j := 0 to |arrivals|
      invariant store.rows == WithArrivals(rows, arrivals[..j])
    {
      OneMoreArrival(rows, arrivals, j);
      store.Insert(arrivals[j].0, arrivals[j].1);
    }
    assert arrivals[..|arrivals|] == arrivals;
  }

  lemma {:induction false} ArrivalsSettle(rows: map<Id, Row>, log: seq<Message>, a: map<Id, Row>, la: seq<Message>,
                                          arrivals: seq<(Id, Row)>)
    requires Settled(rows, log, a, la)
    ensures Settled(rows, log, WithArrivals(a, arrivals), la)
  {
    hide Settled;
    if arrivals == [] {
    } else {
      var init, last := arrivals[..|arrivals| - 1], arrivals[|arrivals| - 1];
      ArrivalsSettle(rows, log, a, la, init);
      InsertSettles(rows, log, WithArrivals(a, init), la, last.0, last.1);
    }
  }

  lemma {:induction false} OneMoreArrival(rows: map<Id, Row>, arrivals: seq<(Id, Row)>, j: nat)
    requires j < |arrivals|
    ensures var before := WithArrivals(rows, arrivals[..j]);
            WithArrivals(rows, arrivals[..j + 1])
            == if arrivals[j].0 in before then before
               else before[arrivals[j].0 := arrivals[j].1.(publishedAt := None)]
  {
    assert arrivals[..j + 1][..j] == arrivals[..j];
  }

  lemma {:induction false} TickedBy(a: Moment, tick: Tick, batch: seq<Id>, now: int)
    requires var rows := WithArrivals(a.rows, tick.arrivals); IsFirst(rows, batch, 20) && Known(rows, batch)
    ensures var r := Turns(WithArrivals(a.rows, tick.arrivals), a.log, batch,
                       if tick.faults.fetch then 0 else |batch|, tick.faults, now);
            Ticked(a, tick, Moment(r.rows, r.log), now)
  {
    hide IsFirst, Turns;
    var r := Turns(WithArrivals(a.rows, tick.arrivals), a.log, batch, if tick.faults.fetch then 0 else |batch|,
      tick.faults, now);
    assert TurnedThrough(a, tick, batch, Moment(r.rows, r.log), now);
  }

  /** What holds over any number of polls and inserts, compared with the start. */
  ghost predicate Settled(rows: map<Id, Row>, log: seq<Message>, rows': map<Id, Row>, log': seq<Message>) {
    Faithful(rows', log') && Sourced(rows', log') && Settles(rows, rows') && log <= log'
  }

  lemma {:induction false} InsertSettles(rows: map<Id, Row>, log: seq<Message>, a: map<Id, Row>, la: seq<Message>,
                                         id: Id, row: Row)
    requires Settled(rows, log, a, la)
    ensures Settled(rows, log, if id in a then a else a[id := row.(publishedAt := None)], la)
  {
    var b := if id in a then a else a[id := row.(publishedAt := None)];
    forall m | m in la ensures exists x :: x in b && MessageOf(b[x]) == m {
      var x :| x in a && MessageOf(a[x]) == m;
      assert x in b && MessageOf(b[x]) == m;
    }
  }

  lemma {:induction false} PollSettles(rows: map<Id, Row>, log: seq<Message>, a: map<Id, Row>, la: seq<Message>,
                                       batch: seq<Id>, r: Turned)
    requires Settled(rows, log, a, la) && Kept(a, la, batch, r)
    ensures Settled(rows, log, r.rows, r.log)
  {
    hide Faithful, Sourced;
  }

  /** The worker's ticks, one poll each, with rows arriving in between: over any number of polls with
      any faults, marks imply records, records come from rows, marks stay and the log only grows. */
  method Run(store: OutboxTable, broker: Broker, ticks: seq<Tick>, now: int) returns (ghost trace: seq<Moment>)
    requires Faithful(store.rows, broker.log) && Sourced(store.rows, broker.log)
    modifies store, broker
    ensures Settled(old(store.rows), old(broker.log), store.rows, broker.log)
    ensures |trace| == |ticks| + 1 && trace[0] == Moment(old(store.rows), old(broker.log))
    ensures trace[|ticks|] == Moment(store.rows, broker.log)
    ensures forall i :: 0 <= i < |ticks| ==> Ticked(trace[i], ticks[i], trace[i + 1], now)
  {
    assert Settled(store.rows, broker.log, store.rows, broker.log);
    ghost var start, began := store.rows, broker.log;
    trace := [Moment(start, began)];
    for i := 0 to |ticks|
      invariant Settled(start, began, store.rows, broker.log)
      invariant |trace| == i + 1 && trace[0] == Moment(start, began) && trace[i] == Moment(store.rows, broker.log)
      invariant forall j :: 0 <= j < i ==> Ticked(trace[j], ticks[j], trace[j + 1], now)
    {
      hide Settled, Ticked;
      OneTick(store, broker, ticks[i], now);
      TickSettles(start, began, trace[i], ticks[i], Moment(store.rows, broker.log), now);
      trace := trace + [Moment(store.rows, broker.log)];
    }
  }

  method OneTick(store: OutboxTable, broker: Broker, tick: Tick, now: int)
    modifies store, broker
    ensures Ticked(old(Moment(store.rows, broker.log)), tick, Moment(store.rows, broker.log), now)
  {
    hide Turns, IsFirst, Ticked, WithArrivals;
    ghost var before := Moment(store.rows, broker.log);
    Arrive(store, tick.arrivals);
    ghost var batch := Poll(store, broker, tick.faults, now);
    TickedBy(before, tick, batch, now);
  }

  lemma {:induction false} TickSettles(rows: map<Id, Row>, log: seq<Message>, a: Moment, tick: Tick, b: Moment,
                                       now: int)
    requires Settled(rows, log, a.rows, a.log) && Ticked(a, tick, b, now)
    ensures Settled(rows, log, b.rows, b.log)
  {
    hide Settled, Faithful, Sourced, Settles, Turns, IsFirst, Kept, WithArrivals;
    var batch :| TurnedThrough(a, tick, batch, b, now);
    var arrived := WithArrivals(a.rows, tick.arrivals);
    var n := if tick.faults.fetch then 0 else |batch|;
    ArrivalsSettle(rows, log, a.rows, a.log, tick.arrivals);
    SettledFacts(rows, log, arrived, a.log);
    PollKeeps(arrived, a.log, batch, n, tick.faults, now);
    PollSettles(rows, log, arrived, a.log, batch, Turns(arrived, a.log, batch, n, tick.faults, now));
  }
}
