/** The warehouse writer: raw rows and dead letters become durable before offsets advance. */
module Warehouse {
  import opened Wrappers
  import opened ConsumerProtocol
  import opened ConsumerClient
  import opened SourceMessages
  import opened DeadLetters
  import opened PoisonTrace
  import opened RawEvents

  /** Besides the consumer, backfills insert pages of records into the same table. */
  type Page = seq<BackfillRecord>

  function AfterEntry(raw: RawTable, logs: Logs, e: Entry<Page>): RawTable
    requires InLogs(logs, e)
  {
    match e
    case External(page) => InsertAll(raw, page)
    case Record(p, o) =>
      match logs[p][o].envelope
      case Some(envelope) => InsertOrIgnore(raw, WebhookKey(envelope), WebhookRow(envelope, p, o))
      case None => raw
  }

  /** The raw table after the effects of a trace. */
  function RawOf(initial: RawTable, logs: Logs, trace: seq<Entry<Page>>): RawTable
    requires forall e | e in trace :: InLogs(logs, e)
  {
    if trace == [] then initial
    else AfterEntry(RawOf(initial, logs, trace[..|trace| - 1]), logs, trace[|trace| - 1])
  }

  /** A record is poison when it is a tombstone or its envelope is invalid. */
  function Poisoned(m: Message): Option<FailureReason> {
    if m.envelope.None? then Some(InvalidGithubEventEnvelope) else None
  }

  // ---------------------------------------------------------------- the worker

  /** The fault of the protocol step that a delivery amounts to: invalid records need their acknowledgement. */
  ghost function FaultAt(logs: Logs, s: State<Page>, d: Delivery): Fault {
    if CanPoll(Lengths(logs), s, d.partition) && logs[d.partition][s.position[d.partition]].envelope.None?
    then PublishFault(d.fault, d.broker)
    else d.fault
  }

  /** One poll: the record that it delivers is processed, and if it delivers none nothing happens. */
  ghost function PollStep(logs: Logs, s: State<Page>, poll: Option<Delivery>): seq<Action<Page>> {
    if poll.Some? && CanPoll(Lengths(logs), s, poll.value.partition)
    then [ConsumerProtocol.Process(poll.value.partition, FaultAt(logs, s, poll.value))]
    else []
  }

  /** What the worker does with these polls: one step each, up to the first that fails. */
  ghost function WorkerActions(logs: Logs, s: State<Page>, polls: seq<Option<Delivery>>): seq<Action<Page>> {
    if polls == [] then []
    else
      var n := |polls| - 1;
      var earlier := WorkerActions(logs, s, polls[..n]);
      if Stopped(earlier) then earlier else earlier + PollStep(logs, RunActions(Lengths(logs), s, earlier), polls[n])
  }

  lemma OnePollMore(logs: Logs, s: State<Page>, polls: seq<Option<Delivery>>, i: nat)
    requires i < |polls| && !Stopped(WorkerActions(logs, s, polls[..i]))
    ensures var earlier := WorkerActions(logs, s, polls[..i]);
            WorkerActions(logs, s, polls[..i + 1]) == earlier + PollStep(logs, RunActions(Lengths(logs), s, earlier), polls[i])
  {
    assert polls[..i + 1][..i] == polls[..i];
  }

  /** After a failure no further poll matters. */
  lemma {:induction false} StoppedForGood(logs: Logs, s: State<Page>, polls: seq<Option<Delivery>>, i: nat)
    requires i <= |polls| && Stopped(WorkerActions(logs, s, polls[..i]))
    ensures WorkerActions(logs, s, polls) == WorkerActions(logs, s, polls[..i])
  {
    hide PollStep, RunActions, Lengths, FaultAt, CanPoll;
    if i == |polls| {
      assert polls[..i] == polls;
    } else {
      var n := |polls| - 1;
      assert polls[..n][..i] == polls[..i];
      StoppedForGood(logs, s, polls[..n], i);
    }
  }

  /** The poll delivers a record whose processing meets a fault. */
  ghost predicate PollFails(logs: Logs, s: State<Page>, poll: Option<Delivery>) {
    poll.Some? && CanPoll(Lengths(logs), s, poll.value.partition) && !FaultAt(logs, s, poll.value).NoFault?
  }

  lemma PollFailsLast(logs: Logs, s: State<Page>, earlier: seq<Action<Page>>, poll: Option<Delivery>)
    requires OnlyLastFails(earlier) && !Stopped(earlier)
    ensures OnlyLastFails(earlier + PollStep(logs, s, poll))
    ensures Stopped(earlier + PollStep(logs, s, poll)) <==> PollFails(logs, s, poll)
  {
    hide FaultAt, CanPoll, Lengths;
  }

  /** Poll i is the first that fails. */
  ghost predicate FailsAt(logs: Logs, s: State<Page>, polls: seq<Option<Delivery>>, i: int) {
    && 0 <= i < |polls|
    && var earlier := WorkerActions(logs, s, polls[..i]);
       !Stopped(earlier) && PollFails(logs, RunActions(Lengths(logs), s, earlier), polls[i])
  }

  /** The worker stops at the first poll that fails, and nothing else stops it. */
  lemma {:induction false} StopsAtFirstFailure(logs: Logs, s: State<Page>, polls: seq<Option<Delivery>>)
    ensures OnlyLastFails(WorkerActions(logs, s, polls))
    ensures Stopped(WorkerActions(logs, s, polls)) <==> exists i :: FailsAt(logs, s, polls, i)
  {
    hide RunActions, Lengths, PollFails, PollStep;
    if polls != [] {
      var n := |polls| - 1;
      var earlier := WorkerActions(logs, s, polls[..n]);
      StopsAtFirstFailure(logs, s, polls[..n]);
      forall i | 0 <= i < n ensures FailsAt(logs, s, polls, i) <==> FailsAt(logs, s, polls[..n], i) {
        assert polls[..n][..i] == polls[..i] && polls[..n][i] == polls[i];
      }
      if Stopped(earlier) {
        var i :| FailsAt(logs, s, polls[..n], i);
        assert FailsAt(logs, s, polls, i);
      } else {
        PollFailsLast(logs, RunActions(Lengths(logs), s, earlier), earlier, polls[n]);
        if Stopped(WorkerActions(logs, s, polls)) {
          assert FailsAt(logs, s, polls, n);
        }
      }
    }
  }

  /**
   * What one record does to the table and the topic, and what is reported, from the record's own
   * fields: the first delivery of an id adds its row, and an invalid record becomes a dead letter
   * if the broker appends it.
   */
  ghost predicate EffectOf(m: Message, p: nat, offset: nat, broker: Broker, before: RawTable, letters: seq<DeadLetterRecord>,
                           after: RawTable, topic: seq<DeadLetterRecord>, r: Result<ProcessingOutcome, WorkerError>)
  {
    match m.envelope
    case None =>
      && after == before
      && r == (if broker.Acknowledges() then Success(DeadLettered) else Failure(DlqPublishFailed))
      && if broker.appended
         then |topic| == |letters| + 1 && topic[..|letters|] == letters
              && LetterFor(topic[|letters|], m, p, offset, InvalidGithubEventEnvelope)
         else topic == letters
    case Some(e) =>
      var key := RawKey(Webhook, DeliveryKey(e.deliveryId));
      && topic == letters
      && if key in before then after == before && r == Success(DuplicateRow)
         else && r == Success(InsertedRow) && key in after && RowFrom(after[key], e, p, offset)
              && after.Keys == before.Keys + {key} && forall k | k in before :: after[k] == before[k]
  }

  datatype ProcessingOutcome = InsertedRow | DuplicateRow | DeadLettered

  class WarehouseWriter {
    const logs: Logs
    const consumer: Consumer
    const storage: PostgresRawEventStorage
    const dlqPublisher: KafkaDlqPublisher
    ghost const initial: RawTable
    ghost var trace: seq<Entry<Page>>

    constructor (logs: Logs, initial: RawTable)
      ensures Valid() && Offsets() == Initial(Lengths(logs))
      ensures this.logs == logs && this.initial == initial
      ensures fresh(consumer) && fresh(storage) && fresh(dlqPublisher)
    {
      this.logs, this.initial := logs, initial;
      consumer := new Consumer(|logs|);
      storage := new PostgresRawEventStorage(initial);
      dlqPublisher := new KafkaDlqPublisher();
      trace := [];
    }

    ghost function Offsets(): State<Page>
      reads this, consumer
    {
      State(consumer.committed, consumer.position, trace)
    }

    /** The durable stores hold exactly the effects of the trace. */
    ghost predicate Durable()
      reads this, storage, dlqPublisher
    {
      && (forall e | e in trace :: InLogs(logs, e))
      && storage.raw == RawOf(initial, logs, trace)
      && dlqPublisher.topic == DlqOf(logs, Poisoned, trace)
    }

    ghost predicate Valid()
      reads this, consumer, storage, dlqPublisher
    {
      Safe(Lengths(logs), Offsets()) && Durable()
    }

    ghost function FaultOf(d: Delivery): Fault
      reads this, consumer
    {
      FaultAt(logs, Offsets(), d)
    }

    /** Insert the raw row of a valid record, or publish a dead letter for an invalid one. */
    method ApplyEffect(p: nat, offset: nat, broker: Broker) returns (r: Result<ProcessingOutcome, WorkerError>)
      requires Durable() && broker.Sound() && p < |logs| && offset < |logs[p]|
      modifies this, storage, dlqPublisher
      ensures Durable()
      ensures r.Success? <==> logs[p][offset].envelope.Some? || broker.Acknowledges()
      ensures trace == if logs[p][offset].envelope.Some? || broker.appended
                       then old(trace) + [Record(p, offset)] else old(trace)
      ensures r.Success? ==>
                r.value == match logs[p][offset].envelope
                           case None => DeadLettered
                           case Some(envelope) => if WebhookKey(envelope) in old(storage.raw) then DuplicateRow else InsertedRow
      ensures EffectOf(logs[p][offset], p, offset, broker, old(storage.raw), old(dlqPublisher.topic),
                       storage.raw, dlqPublisher.topic, r)
    {
      var m := logs[p][offset];
      ghost var e: Entry<Page> := Record(p, offset);
      assert (trace + [e])[..|trace|] == trace;
      match m.envelope {
        case None =>
          var published := dlqPublisher.Publish(FromMessage(m, p, offset, InvalidGithubEventEnvelope), broker);
          if broker.appended {
            trace := trace + [e];
          }
          return if published.Success? then Success(DeadLettered) else Failure(DlqPublishFailed);
        case Some(envelope) =>
          var inserted := storage.Insert(envelope, p, offset);
          trace := trace + [e];
          return Success(if inserted == Inserted then InsertedRow else DuplicateRow);
      }
    }

    /** Poll one record, make one effect durable, then commit its offset; any failure restarts the worker. */
    method Process(d: Delivery) returns (r: Result<ProcessingOutcome, WorkerError>)
      requires Durable() && d.broker.Sound() && CanPoll(Lengths(logs), Offsets(), d.partition)
      modifies this, consumer, storage, dlqPublisher
      ensures Durable()
      ensures Offsets() == Transition(Lengths(logs), old(Offsets()), ConsumerProtocol.Process(d.partition, old(FaultOf(d))))
      ensures r.Success? <==> old(FaultOf(d)).NoFault?
      ensures r.Success? ==>
                var envelope := logs[d.partition][old(consumer.position)[d.partition]].envelope;
                r.value == if envelope.None? then DeadLettered
                           else if WebhookKey(envelope.value) in old(storage.raw) then DuplicateRow
                           else InsertedRow
      ensures r.Success? ==>
                var offset := old(consumer.position)[d.partition];
                EffectOf(logs[d.partition][offset], d.partition, offset, d.broker, old(storage.raw), old(dlqPublisher.topic),
                         storage.raw, dlqPublisher.topic, r)
    {
      hide Safe, RawOf, DlqOf, EffectOf;
      var offset := consumer.Poll(d.partition);
      if d.fault == BeforeEffect {
        consumer.Restart();
        return Failure(Crashed);
      }
      r := ApplyEffect(d.partition, offset, d.broker);
      if r.Failure? {
        consumer.Restart();
        return;
      }
      var committed := consumer.CommitAfterEffect(d.partition, offset, d.fault);
      if committed.Failure? {
        return Failure(committed.error);
      }
    }

    /** A run of the protocol up to the first poll that fails; without one, every poll moved its partition on. */
    method RunForever(polls: seq<Option<Delivery>>) returns (stopped: bool, ghost actions: seq<Action<Page>>)
      requires Valid() && forall d | d in polls && d.Some? :: d.value.broker.Sound()
      modifies this, consumer, storage, dlqPublisher
      ensures Valid()
      ensures Offsets() == RunActions(Lengths(logs), old(Offsets()), actions)
      ensures actions == WorkerActions(logs, old(Offsets()), polls)
      ensures forall a | a in actions :: a.Process?
      ensures stopped <==> Stopped(actions)
      ensures !stopped ==> KeptUp(Lengths(logs), old(consumer.position), Offsets(), polls)
    {
      hide Safe, RawOf, DlqOf, Transition, KeptUp, RunActions, CanPoll, Durable, WorkerActions, FaultAt;
      RunNoActions(Lengths(logs), Offsets());
      NoPolls(logs, Offsets());
      actions := [];
      KeptUpStart(Lengths(logs), Offsets());
      for i := 0 to |polls|
        invariant Valid()
        invariant Offsets() == RunActions(Lengths(logs), old(Offsets()), actions)
        invariant actions == WorkerActions(logs, old(Offsets()), polls[..i]) && !Stopped(actions)
        invariant forall a | a in actions :: a.Process?
        invariant KeptUp(Lengths(logs), old(consumer.position), Offsets(), polls[..i])
      {
        assert polls[..i + 1] == polls[..i] + [polls[i]];
        SafeShape(Lengths(logs), Offsets());
        KeptUpPoll(Lengths(logs), old(consumer.position), Offsets(), polls[..i], polls[i]);
        OnePollMore(logs, old(Offsets()), polls, i);
        if polls[i] == None {
          continue;
        }
        var d := polls[i].value;
        PollableIff(Lengths(logs), Offsets(), d.partition);
        if d.partition >= |logs| || consumer.position[d.partition] >= |logs[d.partition]| {
          NothingToPoll(Lengths(logs), Offsets(), d.partition);
          continue;
        }
        ghost var a: Action<Page> := ConsumerProtocol.Process(d.partition, FaultOf(d));
        RunOneMore(Lengths(logs), old(Offsets()), actions, a);
        actions := actions + [a];
        TransitionIsSafe(Lengths(logs), Offsets(), a);
        var r := Process(d);
        if r.Failure? {
          StoppedForGood(logs, old(Offsets()), polls, i + 1);
          return true, actions;
        }
      }
      assert polls[..|polls|] == polls;
      return false, actions;
    }
  }

  lemma NoPolls(logs: Logs, s: State<Page>)
    ensures WorkerActions(logs, s, []) == []
  {
  }

  // ---------------------------------------------------------------- what any run guarantees

  /** Entry i is the first one of the trace that carries the delivery id. */
  ghost predicate FirstDelivery(logs: Logs, trace: seq<Entry<Page>>, id: string, i: int) {
    && 0 <= i < |trace| && Delivers(logs, trace[i], id)
    && forall j | 0 <= j < i :: !Delivers(logs, trace[j], id)
  }

  predicate Delivers(logs: Logs, e: Entry<Page>, id: string) {
    && e.Record? && InLogs(logs, e)
    && logs[e.partition][e.offset].envelope.Some?
    && logs[e.partition][e.offset].envelope.value.deliveryId == id
  }

  function RowOfEntry(logs: Logs, e: Entry<Page>): RawRow
    requires e.Record? && InLogs(logs, e) && logs[e.partition][e.offset].envelope.Some?
  {
    WebhookRow(logs[e.partition][e.offset].envelope.value, e.partition, e.offset)
  }

  function FirstIndex(logs: Logs, trace: seq<Entry<Page>>, id: string): Option<nat> {
    if trace == [] then None
    else
      match FirstIndex(logs, trace[..|trace| - 1], id)
      case Some(i) => Some(i)
      case None => if Delivers(logs, trace[|trace| - 1], id) then Some(|trace| - 1) else None
  }

  lemma {:induction false} FirstIndexIsFirst(logs: Logs, trace: seq<Entry<Page>>, id: string)
    ensures match FirstIndex(logs, trace, id)
            case Some(i) => FirstDelivery(logs, trace, id, i)
            case None => forall e | e in trace :: !Delivers(logs, e, id)
  {
    if trace != [] {
      var rest := trace[..|trace| - 1];
      FirstIndexIsFirst(logs, rest, id);
      assert trace == rest + [trace[|trace| - 1]];
    }
  }

  lemma {:induction false} RowOfFirstIndex(initial: RawTable, logs: Logs, trace: seq<Entry<Page>>, id: string)
    requires forall e | e in trace :: InLogs(logs, e)
    requires forall k | k in initial :: k.source.Backfill?
    ensures var key, raw := RawKey(Webhook, DeliveryKey(id)), RawOf(initial, logs, trace);
            match FirstIndex(logs, trace, id)
            case Some(i) => i < |trace| && Delivers(logs, trace[i], id)
                            && key in raw && raw[key] == RowOfEntry(logs, trace[i])
            case None => key !in raw
  {
    if trace != [] {
      var rest, last := trace[..|trace| - 1], trace[|trace| - 1];
      RowOfFirstIndex(initial, logs, rest, id);
      assert last in trace;
      if last.External? {
        InsertAllKeys(RawOf(initial, logs, rest), last.write);
      }
    }
  }

  /**
   * In a table that starts without webhook rows, a delivery id has a row exactly when some effect
   * delivered it, and the row is the one of the first such effect, whatever came afterwards.
   */
  lemma FirstDeliveryWins(initial: RawTable, logs: Logs, trace: seq<Entry<Page>>, id: string)
    requires forall e | e in trace :: InLogs(logs, e)
    requires forall k | k in initial :: k.source.Backfill?
    ensures var key, raw := RawKey(Webhook, DeliveryKey(id)), RawOf(initial, logs, trace);
            && (key in raw <==> exists e | e in trace :: Delivers(logs, e, id))
            && (forall i | FirstDelivery(logs, trace, id, i) :: key in raw && Writes(logs, trace[i], key, raw[key]))
  {
    FirstIndexIsFirst(logs, trace, id);
    RowOfFirstIndex(initial, logs, trace, id);
    forall i, j | FirstDelivery(logs, trace, id, i) && FirstDelivery(logs, trace, id, j)
      ensures i == j
    {
    }
  }

  /** The effect that a source record must have had before its offset may be committed. */
  ghost predicate HasEffect(logs: Logs, raw: RawTable, dlq: seq<DeadLetterRecord>, p: nat, o: nat)
    requires p < |logs| && o < |logs[p]|
  {
    match logs[p][o].envelope
    case Some(envelope) =>
      var key := RawKey(Webhook, DeliveryKey(envelope.deliveryId));
      key in raw && raw[key].deliveryId == Some(envelope.deliveryId)
    case None => exists letter | letter in dlq :: LetterFor(letter, logs[p][o], p, o, InvalidGithubEventEnvelope)
  }

  /**
   * Whatever polls, crashes, failed commits, restarts, rewinds and backfill pages happen, every
   * offset below a committed one has had its effect, every webhook row and every dead letter
   * traces back to a record of the log, and without rewinds at most one effect per partition is
   * ahead of its commit.
   */
  lemma OffsetsNeverPassEffects(initial: RawTable, logs: Logs, actions: seq<Action<Page>>)
    requires forall k | k in initial :: k.source.Backfill?
    ensures var s := RunActions(Lengths(logs), Initial(Lengths(logs)), actions);
            && |s.committed| == |logs|
            && (forall e | e in s.trace :: InLogs(logs, e))
            && (forall p: nat, o: nat | p < |logs| && o < s.committed[p] ::
                  o < |logs[p]| && HasEffect(logs, RawOf(initial, logs, s.trace), DlqOf(logs, Poisoned, s.trace), p, o))
            && (forall key | key in RawOf(initial, logs, s.trace) && key.source.Webhook? ::
                  exists e | e in s.trace :: Writes(logs, e, key, RawOf(initial, logs, s.trace)[key]))
            && (forall letter | letter in DlqOf(logs, Poisoned, s.trace) ::
                  exists e | e in s.trace :: Sends(logs, e, letter))
            && ((forall a | a in actions :: !a.Rewind?) ==>
                  forall p: nat | p < |logs| :: s.committed[p] <= Hi(s.trace, p) <= s.committed[p] + 1)
  {
    var s := RunActions(Lengths(logs), Initial(Lengths(logs)), actions);
    TraceInLogs(logs, actions);
    forall p: nat, o: nat | p < |logs| && o < s.committed[p]
      ensures o < |logs[p]| && HasEffect(logs, RawOf(initial, logs, s.trace), DlqOf(logs, Poisoned, s.trace), p, o)
    {
      BelowHiHappened(s.trace, p, o);
      RecordHasEffect(initial, logs, s.trace, p, o);
    }
    forall key | key in RawOf(initial, logs, s.trace) && key.source.Webhook?
      ensures exists e | e in s.trace :: Writes(logs, e, key, RawOf(initial, logs, s.trace)[key])
    {
      WebhookRowIsTraced(initial, logs, s.trace, key);
    }
    forall letter | letter in DlqOf(logs, Poisoned, s.trace)
      ensures exists e | e in s.trace :: Sends(logs, e, letter)
    {
      DlqIffPoisoned(logs, Poisoned, s.trace, letter);
      var e :| e in s.trace && letter in LetterOf(logs, Poisoned, e);
      assert Sends(logs, e, letter);
    }
    if forall a | a in actions :: !a.Rewind? {
      WithoutRewindsTight<Page>(Lengths(logs), actions);
    }
  }

  /** The entry is an invalid record of which this is the dead letter. */
  ghost predicate Sends(logs: Logs, e: Entry<Page>, letter: DeadLetterRecord) {
    && e.Record? && InLogs(logs, e) && logs[e.partition][e.offset].envelope == None
    && LetterFor(letter, logs[e.partition][e.offset], e.partition, e.offset, InvalidGithubEventEnvelope)
  }

  lemma RecordHasEffect(initial: RawTable, logs: Logs, trace: seq<Entry<Page>>, p: nat, o: nat)
    requires forall e | e in trace :: InLogs(logs, e)
    requires forall k | k in initial :: k.source.Backfill?
    requires p < |logs| && o < |logs[p]| && Record(p, o) in trace
    ensures HasEffect(logs, RawOf(initial, logs, trace), DlqOf(logs, Poisoned, trace), p, o)
  {
    var e: Entry<Page> := Record(p, o);
    match logs[p][o].envelope
    case None =>
      assert FromMessage(logs[p][o], p, o, InvalidGithubEventEnvelope) in LetterOf(logs, Poisoned, e);
      DlqIffPoisoned(logs, Poisoned, trace, FromMessage(logs[p][o], p, o, InvalidGithubEventEnvelope));
      assert LetterFor(FromMessage(logs[p][o], p, o, InvalidGithubEventEnvelope), logs[p][o], p, o, InvalidGithubEventEnvelope);
    case Some(envelope) =>
      FirstDeliveryWins(initial, logs, trace, envelope.deliveryId);
      assert Delivers(logs, e, envelope.deliveryId);
      FirstIndexIsFirst(logs, trace, envelope.deliveryId);
      RowOfFirstIndex(initial, logs, trace, envelope.deliveryId);
  }

  /** The entry is a record whose envelope has this key and gives every column of this row. */
  ghost predicate Writes(logs: Logs, e: Entry<Page>, key: RawKey, row: RawRow) {
    && e.Record? && InLogs(logs, e) && logs[e.partition][e.offset].envelope.Some?
    && var envelope := logs[e.partition][e.offset].envelope.value;
       key == RawKey(Webhook, DeliveryKey(envelope.deliveryId)) && RowFrom(row, envelope, e.partition, e.offset)
  }

  lemma {:induction false} WebhookRowIsTraced(initial: RawTable, logs: Logs, trace: seq<Entry<Page>>, key: RawKey)
    requires forall e | e in trace :: InLogs(logs, e)
    requires forall k | k in initial :: k.source.Backfill?
    requires key in RawOf(initial, logs, trace) && key.source.Webhook?
    ensures exists e | e in trace :: Writes(logs, e, key, RawOf(initial, logs, trace)[key])
  {
    var rest, last := trace[..|trace| - 1], trace[|trace| - 1];
    assert last in trace && forall e | e in rest :: e in trace;
    if last.External? {
      InsertAllKeys(RawOf(initial, logs, rest), last.write);
    }
    if key in RawOf(initial, logs, rest) {
      WebhookRowIsTraced(initial, logs, rest, key);
    } else {
      assert Writes(logs, last, key, RawOf(initial, logs, trace)[key]);
    }
  }
}
