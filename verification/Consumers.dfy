/** The order service's two Kafka consumers as they run: poll one record, handle it until it is
    behind them, then commit its offset. */
module Consumers {
  import opened Domain
  import opened Text
  import opened OrderStore
  import opened Protocol
  import opened Invariant
  import opened Preservation
  import opened Guarantees

  /** The consumer group client: the logs it reads, its positions and the committed offsets. */
  class GroupClient {
    var bus: Bus
    const worker: nat

    constructor (bus: Bus, worker: nat)
      ensures this.bus == bus && this.worker == worker
    {
      this.bus := bus;
      this.worker := worker;
    }

    function At(p: Partition): Cursor { Cursor(worker, p) }

    /** PollRecords(ctx, 1) delivering from p: the record at the position, which then moves on. */
    method Poll(p: Partition) returns (r: Option<Record>)
      modifies this
      ensures r == Current(old(bus), At(p))
      ensures bus == if r.Some? then Advance(old(bus), At(p)) else old(bus)
    {
      r := Current(bus, At(p));
      if r.Some? { bus := Advance(bus, At(p)); }
    }

    /** CommitRecords: the offset after the record just handled. */
    method Commit(p: Partition, fails: bool)
      modifies this
      ensures bus == if fails then old(bus)
              else old(bus).(committed := old(bus).committed[p := PositionOf(old(bus), At(p))])
    {
      if !fails { bus := bus.(committed := bus.committed[p := PositionOf(bus, At(p))]); }
    }
  }

  /** One call of the handler: what breaks in its transaction, and the identifier it draws. */
  datatype Attempt = Attempt(fault: Fault, rowId: Id, now: int)

  predicate UnusedIds(db: OrderDb, attempts: seq<Attempt>) {
    forall i :: 0 <= i < |attempts| ==> !HasId(db.outbox, attempts[i].rowId)
  }

  /** The tables are as before, or one transaction of this command was applied to them. */
  ghost predicate AppliedOnceOrNot(db: OrderDb, db': OrderDb, cmd: StatusCommand) {
    db' == db || exists row :: ApplyLocked(db, cmd, row) == (db', Applied) && cmd.eventId !in db.processed
  }

  predicate HasCleanAttempt(attempts: seq<Attempt>) {
    exists i :: 0 <= i < |attempts| && attempts[i].fault == NoFault
  }

  /** What handling a record may leave behind, whichever consumer does it. */
  ghost predicate Handled(db: OrderDb, db': OrderDb, topic: EventType, r: Record, attempts: seq<Attempt>, ok: bool) {
    && (ok ==> Done(db'.processed, topic, r))
    && db.processed.Keys <= db'.processed.Keys
    && (match Decode(topic, r) case Run(cmd) => AppliedOnceOrNot(db, db', cmd) case _ => db' == db)
    && (Ready(db, topic, r) && UnusedIds(db, attempts) && HasCleanAttempt(attempts) ==> ok)
  }

  class Consumer {
    const client: GroupClient
    const repository: OrderRepository

    constructor (client: GroupClient, repository: OrderRepository)
      ensures this.client == client && this.repository == repository
    {
      this.client := client;
      this.repository := repository;
    }

    /** processUntilSuccess of the payment consumer. */
    method ProcessUntilSuccess(topic: EventType, record: Record, attempts: seq<Attempt>) returns (ok: bool)
      requires topic == DepositSucceededV1 || topic == RemainingBalanceSucceededV1
      modifies repository
      ensures Handled(old(repository.Db()), repository.Db(), topic, record, attempts, ok)
      ensures record.Malformed? || record.envelope.eventType !in {DepositSucceededV1, RemainingBalanceSucceededV1} ==>
                repository.Db() == old(repository.Db()) && (attempts != [] ==> ok)
      ensures record.Message?
              && ((record.envelope.eventType == DepositSucceededV1 && HandleDepositSucceeded(record.envelope).None?)
                  || (record.envelope.eventType == RemainingBalanceSucceededV1
                      && HandleRemainingBalanceSucceeded(record.envelope).None?)) ==>
                repository.Db() == old(repository.Db()) && !ok
    {
      hide ApplyLocked;
      ghost var before := repository.Db();
      var handling := Decode(topic, record);
      for i := 0 to |attempts|
        invariant before.processed.Keys <= repository.Db().processed.Keys
        invariant match handling
                  case Run(cmd) => AppliedOnceOrNot(before, repository.Db(), cmd)
                  case _ => repository.Db() == before
        invariant handling.Skip? ==> i == 0
        invariant forall j :: 0 <= j < i && attempts[j].fault == NoFault && UnusedIds(before, attempts) ==>
                    !Ready(before, topic, record)
      {
        match record {
          case Malformed => return true;
          case Message(e) =>
            var cmd: Option<StatusCommand>;
            if e.eventType == DepositSucceededV1 {
              cmd := HandleDepositSucceeded(e);
            } else if e.eventType == RemainingBalanceSucceededV1 {
              cmd := HandleRemainingBalanceSucceeded(e);
            } else {
              return true;
            }
            if cmd.Some? {
              ghost var db := repository.Db();
              var row := StatusRow(cmd.value, attempts[i].rowId, attempts[i].now);
              var outcome := repository.ProcessStatusEvent(cmd.value, row, attempts[i].fault);
              AttemptFacts(before, db, repository.Db(), cmd.value, row, outcome, attempts[i].fault);
              if !outcome.Failed? { return true; }
            }
        }
      }
      return false;
    }

    /** process of the warehouse consumer: decode once, skip an invalid contract, retry the rest. */
    method ProcessPackage(record: Record, attempts: seq<Attempt>) returns (ok: bool)
      modifies repository
      ensures Handled(old(repository.Db()), repository.Db(), PackageReceivedV1, record, attempts, ok)
      ensures record.Malformed? || HandlePackageReceived(record.envelope).None? ==>
                repository.Db() == old(repository.Db()) && (attempts != [] ==> ok)
    {
      hide ApplyLocked;
      ghost var before := repository.Db();
      if record.Malformed? { return true; }
      var e := record.envelope;
      for i := 0 to |attempts|
        invariant before.processed.Keys <= repository.Db().processed.Keys
        invariant match Decode(PackageReceivedV1, record)
                  case Run(cmd) => AppliedOnceOrNot(before, repository.Db(), cmd)
                  case _ => i == 0 && repository.Db() == before
        invariant forall j :: 0 <= j < i && attempts[j].fault == NoFault && UnusedIds(before, attempts) ==>
                    !Ready(before, PackageReceivedV1, record)
      {
        var cmd := HandlePackageReceived(e);
        if cmd.None? { return true; }
        ghost var db := repository.Db();
        var row := StatusRow(cmd.value, attempts[i].rowId, attempts[i].now);
        var outcome := repository.ProcessStatusEvent(cmd.value, row, attempts[i].fault);
        AttemptFacts(before, db, repository.Db(), cmd.value, row, outcome, attempts[i].fault);
        PackageNeverInvalid(db, cmd.value, row);
        if !outcome.Failed? || outcome.error == InvalidInput { return true; }
      }
      return false;
    }

    /** Run of the payment consumer. However polls, handlers and commits fail, every record below a
        committed offset is done, also when the context ends in the middle of a record. */
    method Run(rounds: seq<Round>) returns (ghost done: nat)
      requires OffsetsOk(repository.processed, client.bus)
      requires forall i :: 0 <= i < |rounds| && rounds[i].Delivered? ==>
                 rounds[i].p.topic == DepositSucceededV1 || rounds[i].p.topic == RemainingBalanceSucceededV1
      modifies client, repository
      ensures CommittedOk(repository.processed, client.bus) && client.bus.logs == old(client.bus.logs)
      ensures old(repository.processed.Keys) <= repository.processed.Keys
      ensures Went(old(client.bus), client.bus, client.worker, rounds, done)
      ensures done == |rounds| ==> OffsetsOk(repository.processed, client.bus)
    {
      hide Handled, OffsetsOk, CommittedOk, Done, Decode, AfterRound;
      done := |rounds|;
      OffsetsAreCommitted(repository.processed, client.bus);
      for i := 0 to |rounds|
        invariant OffsetsOk(repository.processed, client.bus) && CommittedOk(repository.processed, client.bus)
        invariant client.bus.logs == old(client.bus.logs) && old(repository.processed.Keys) <= repository.processed.Keys
        invariant client.bus == AfterRounds(old(client.bus), client.worker, rounds[..i]) && done == |rounds|
      {
        OneMoreRound(old(client.bus), client.worker, rounds, i);
        RoundMeans(client.bus, client.worker, rounds[i]);
        if rounds[i].PollFailed? { continue; }
        ghost var bus, before := client.bus, repository.Db();
        var p := rounds[i].p;
        var record := client.Poll(p);
        if record.None? { continue; }
        var ok := ProcessUntilSuccess(p.topic, record.value, rounds[i].attempts);
        HandledFacts(before, repository.Db(), p.topic, record.value, rounds[i].attempts, ok);
        RoundOk(before.processed, repository.processed, bus, client.At(p), ok);
        if !ok {
          done := i;
          return;
        }
        client.Commit(p, rounds[i].commitFails);
      }
      assert rounds[..|rounds|] == rounds;
    }

    /** Run of the warehouse consumer. */
    method RunWarehouse(rounds: seq<Round>) returns (ghost done: nat)
      requires OffsetsOk(repository.processed, client.bus)
      requires forall i :: 0 <= i < |rounds| && rounds[i].Delivered? ==> rounds[i].p.topic == PackageReceivedV1
      modifies client, repository
      ensures CommittedOk(repository.processed, client.bus) && client.bus.logs == old(client.bus.logs)
      ensures old(repository.processed.Keys) <= repository.processed.Keys
      ensures Went(old(client.bus), client.bus, client.worker, rounds, done)
      ensures done == |rounds| ==> OffsetsOk(repository.processed, client.bus)
    {
      hide Handled, OffsetsOk, CommittedOk, Done, Decode, AfterRound;
      done := |rounds|;
      OffsetsAreCommitted(repository.processed, client.bus);
      for i := 0 to |rounds|
        invariant OffsetsOk(repository.processed, client.bus) && CommittedOk(repository.processed, client.bus)
        invariant client.bus.logs == old(client.bus.logs) && old(repository.processed.Keys) <= repository.processed.Keys
        invariant client.bus == AfterRounds(old(client.bus), client.worker, rounds[..i]) && done == |rounds|
      {
        OneMoreRound(old(client.bus), client.worker, rounds, i);
        RoundMeans(client.bus, client.worker, rounds[i]);
        if rounds[i].PollFailed? { continue; }
        ghost var bus, before := client.bus, repository.Db();
        var p := rounds[i].p;
        var record := client.Poll(p);
        if record.None? { continue; }
        var ok := ProcessPackage(record.value, rounds[i].attempts);
        HandledFacts(before, repository.Db(), p.topic, record.value, rounds[i].attempts, ok);
        RoundOk(before.processed, repository.processed, bus, client.At(p), ok);
        if !ok {
          done := i;
          return;
        }
        client.Commit(p, rounds[i].commitFails);
      }
      assert rounds[..|rounds|] == rounds;
    }
  }

  /** One turn of Run's loop: a failed poll, or a record with the handler's attempts and the fate of
      the offset commit. */
  datatype Round = PollFailed | Delivered(p: Partition, attempts: seq<Attempt>, commitFails: bool)

  /** One round of a consumer whose handler ends well: the next record of the partition, if there is one,
      is behind it, and its offset committed unless that fails. */
  function AfterRound(bus: Bus, worker: nat, round: Round): Bus {
    match round
    case PollFailed => bus
    case Delivered(p, _, commitFails) =>
      var c := Cursor(worker, p);
      if PositionOf(bus, c) >= |Log(bus, p)| then bus
      else
        var next := PositionOf(bus, c) + 1;
        Bus(bus.logs, if commitFails then bus.committed else bus.committed[p := next], bus.cursors[c := next])
  }

  function AfterRounds(bus: Bus, worker: nat, rounds: seq<Round>): Bus {
    if rounds == [] then bus
    else AfterRound(AfterRounds(bus, worker, rounds[..|rounds| - 1]), worker, rounds[|rounds| - 1])
  }

  /** All rounds went through, or the handler gave up in this one: then the record is polled and its offset
      is not committed. */
  ghost predicate Went(bus: Bus, bus': Bus, worker: nat, rounds: seq<Round>, done: nat) {
    && done <= |rounds|
    && var before := AfterRounds(bus, worker, rounds[..done]);
       if done == |rounds| then bus' == before
       else rounds[done].Delivered? && var c := Cursor(worker, rounds[done].p);
            PositionOf(before, c) < |Log(before, c.partition)|
            && bus' == before.(cursors := before.cursors[c := PositionOf(before, c) + 1])
  }

  lemma {:induction false} OneMoreRound(bus: Bus, worker: nat, rounds: seq<Round>, i: nat)
    requires i < |rounds|
    ensures AfterRounds(bus, worker, rounds[..i + 1])
         == AfterRound(AfterRounds(bus, worker, rounds[..i]), worker, rounds[i])
  {
    assert rounds[..i + 1][..i] == rounds[..i];
  }

  lemma {:induction false} RoundMeans(bus: Bus, worker: nat, round: Round)
    ensures round.PollFailed? ==> AfterRound(bus, worker, round) == bus
    ensures round.Delivered? ==>
              var c := Cursor(worker, round.p);
              if Current(bus, c).None? then AfterRound(bus, worker, round) == bus
              else
                var polled := Advance(bus, c);
                AfterRound(bus, worker, round)
                == if round.commitFails then polled
                   else polled.(committed := polled.committed[round.p := PositionOf(polled, c)])
  {
  }

  ghost predicate CommittedOk(processed: map<Id, EventType>, bus: Bus) {
    forall p :: p in bus.committed && Consumed(p.topic) ==> DoneBelow(processed, p, Log(bus, p), bus.committed[p])
  }

  lemma {:induction false} OffsetsAreCommitted(processed: map<Id, EventType>, bus: Bus)
    requires OffsetsOk(processed, bus)
    ensures CommittedOk(processed, bus)
  {
  }

  lemma {:induction false} HandledFacts(db: OrderDb, db': OrderDb, topic: EventType, r: Record, attempts: seq<Attempt>,
                                        ok: bool)
    requires Handled(db, db', topic, r, attempts, ok)
    ensures db.processed.Keys <= db'.processed.Keys && (ok ==> Done(db'.processed, topic, r))
  {
  }

  /** After a record is polled and handled: if handling ended well both the position and a commit of
      it are sound; if not, the committed offsets still are. */
  lemma {:induction false} RoundOk(processed: map<Id, EventType>, processed': map<Id, EventType>, bus: Bus, c: Cursor,
                                   ok: bool)
    requires OffsetsOk(processed, bus) && processed.Keys <= processed'.Keys && Consumed(c.partition.topic)
    requires Current(bus, c).Some? && (ok ==> Done(processed', c.partition.topic, Current(bus, c).value))
    ensures var polled := Advance(bus, c);
            CommittedOk(processed', polled)
            && (ok ==> OffsetsOk(processed', polled)
                       && var done := polled.(committed := polled.committed[c.partition := PositionOf(polled, c)]);
                          OffsetsOk(processed', done) && CommittedOk(processed', done))
  {
    hide Done;
    OffsetsGrow(processed, processed', bus, bus);
    CommittedAdvance(processed', bus, c);
    if ok {
      AdvanceOk(processed', bus, c);
      RestartOk(processed', Advance(bus, c), c);
    }
  }

  lemma {:induction false} CommittedAdvance(processed: map<Id, EventType>, bus: Bus, c: Cursor)
    requires OffsetsOk(processed, bus)
    ensures CommittedOk(processed, Advance(bus, c))
  {
  }

  /** What one call of the repository establishes for the loop around it. */
  lemma {:induction false} AttemptFacts(before: OrderDb, db: OrderDb, db': OrderDb, cmd: StatusCommand, row: Envelope,
                                        outcome: Outcome, fault: Fault)
    requires AppliedOnceOrNot(before, db, cmd) && before.processed.Keys <= db.processed.Keys
    requires db' == db || db' == ProcessEvent(db, cmd, row).0
    requires !outcome.Failed? ==> (db', outcome) == ProcessEvent(db, cmd, row)
    requires fault == NoFault ==> (db', outcome) == ProcessEvent(db, cmd, row)
    ensures AppliedOnceOrNot(before, db', cmd) && before.processed.Keys <= db'.processed.Keys
    ensures !outcome.Failed? ==> cmd.eventId in db'.processed
    ensures fault == NoFault && outcome.Failed? && !HasId(before.outbox, row.eventId) ==>
              cmd.eventId !in before.processed && Refusal(before, cmd).Some?
  {
  }

  /** The repository never calls a package's input invalid: only payments carry an amount. */
  lemma {:induction false} PackageNeverInvalid(db: OrderDb, cmd: StatusCommand, row: Envelope)
    requires cmd.amount == 0
    ensures ProcessEvent(db, cmd, row).1 != Failed(InvalidInput)
  {
  }
}
