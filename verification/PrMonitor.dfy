/** The pull-request monitor: projection, dead letters and stale sweeps before offset commits. */
module PrMonitor {
  import opened Wrappers
  import opened PullRequestTables
  import opened PullRequestStorage
  import opened PullRequestProjection
  import opened ConsumerProtocol
  import opened ConsumerClient
  import opened SourceMessages
  import opened DeadLetters
  import opened PoisonTrace

  /** A sweep is the only write to the tables that does not come from a source record. */
  datatype SweepCall = SweepCall(cutoff: int, createdAt: int)

  datatype Decoded = Poison(reason: FailureReason) | Skip | Act(event: Event)

  function Decode(m: Message): Decoded {
    match m.envelope
    case None => Poison(InvalidGithubEventEnvelope)
    case Some(envelope) =>
      match ProjectionCommand(envelope)
      case InvalidMonitorEvent => Poison(InvalidPrMonitorEvent)
      case Ignore => Skip
      case Project(event) => Act(event)
  }

  function Poisoned(m: Message): Option<FailureReason> {
    match Decode(m) case Poison(reason) => Some(reason) case _ => None
  }

  function OpsOfMessage(m: Message): seq<Op> {
    match Decode(m) case Act(event) => [Deliver(event)] case _ => []
  }

  function OpsOfEntry(logs: Logs, e: Entry<SweepCall>): seq<Op>
    requires InLogs(logs, e)
  {
    match e
    case Record(p, o) => OpsOfMessage(logs[p][o])
    case External(sweep) => [Sweep(sweep.cutoff, sweep.createdAt)]
  }

  /** The operations on the tables that a trace stands for. */
  function OpsOf(logs: Logs, trace: seq<Entry<SweepCall>>): seq<Op>
    requires forall e | e in trace :: InLogs(logs, e)
  {
    if trace == [] then []
    else OpsOf(logs, trace[..|trace| - 1]) + OpsOfEntry(logs, trace[|trace| - 1])
  }

  /** The plain left fold over a log: each of its commands once, in log order, and no sweeps. */
  function PlainOps(log: seq<Message>): seq<Op> {
    if log == [] then [] else PlainOps(log[..|log| - 1]) + OpsOfMessage(log[|log| - 1])
  }

  lemma OpsAppend(logs: Logs, trace: seq<Entry<SweepCall>>, e: Entry<SweepCall>)
    requires InLogs(logs, e) && forall f | f in trace :: InLogs(logs, f)
    ensures OpsOf(logs, trace + [e]) == OpsOf(logs, trace) + OpsOfEntry(logs, e)
    ensures OpsOfEntry(logs, e) == [] ==> OpsOf(logs, trace + [e]) == OpsOf(logs, trace)
  {
    assert (trace + [e])[..|trace|] == trace;
  }

  lemma RunAppend(h: seq<Op>, op: Op)
    ensures Run(h + [op]) == Step(Run(h), op)
  {
    assert (h + [op])[..|h|] == h;
  }

  // ---------------------------------------------------------------- the worker

  datatype MonitorOutcome =
    | Projected | StaleSnapshot | ReviewRecorded | ReviewIneligible | ReviewUnchanged | Ignored | DeadLettered

  function OutcomeOf(outcome: Outcome): MonitorOutcome {
    match outcome
    case Applied => Projected
    case Stale => StaleSnapshot
    case Recorded => ReviewRecorded
    case Ineligible => ReviewIneligible
    case Unchanged => ReviewUnchanged
  }

  /** One turn of the loop: the clock, how a sweep would fare, and the record that the poll returns, if any. */
  datatype Tick = Tick(now: int, sweep: Fault, polled: Option<Delivery>)

  /** A sweep that raises before it commits leaves no trace; one that raises later has had its effect. */
  function SweepActions(sweep: SweepCall, fault: Fault): seq<Action<SweepCall>> {
    (if fault.BeforeEffect? then [] else [Action.Other(sweep)]) + if fault.NoFault? then [] else [Action.Restart]
  }

  // ---------------------------------------------------------------- routing, from the fields of the record

  /** A pull-request event carries the snapshot of its payload. */
  ghost predicate SnapshotFrom(s: Snapshot, e: Envelope, pr: PullRequestPart) {
    && s.deliveryId == e.deliveryId
    && s.repositoryId == e.repositoryId
    && s.repositoryFullName == e.repositoryFullName
    && s.pullRequestId == pr.id
    && s.pullRequestNumber == pr.number
    && s.state == pr.state
    && s.title == pr.title
    && s.authorId == pr.userId
    && s.authorLogin == pr.userLogin
    && s.isDraft == pr.draft
    && s.openedAt == pr.createdAt
    && s.updatedAt == pr.updatedAt
  }

  /** Only pull-request events and submitted reviews concern the monitor. */
  ghost predicate Concerns(e: Envelope) {
    || e.eventName == PullRequestName
    || (e.eventName == PullRequestReviewName && e.action == "submitted")
  }

  /** The payload has the parts that the event needs. */
  ghost predicate HasParts(e: Envelope) {
    e.payload.pullRequest.Some? && (e.eventName == PullRequestReviewName ==> e.payload.review.Some?)
  }

  /** The event that a record of concern stands for. */
  ghost predicate StandsFor(event: Event, e: Envelope)
    requires HasParts(e)
  {
    && SnapshotFrom(event.snapshot, e, e.payload.pullRequest.value)
    && (event.ReviewEvent? <==> e.eventName == PullRequestReviewName)
    && (event.ReviewEvent? ==> event.review == e.payload.review.value)
  }

  /** A record without a valid envelope, or of concern without its parts, is poison; another one is ignored. */
  lemma Routing(m: Message)
    ensures Decode(m) == Poison(InvalidGithubEventEnvelope) <==> m.envelope == None
    ensures Decode(m) == Poison(InvalidPrMonitorEvent) <==>
            m.envelope.Some? && Concerns(m.envelope.value) && !HasParts(m.envelope.value)
    ensures Decode(m) == Skip <==> m.envelope.Some? && !Concerns(m.envelope.value)
    ensures Decode(m).Act? <==> m.envelope.Some? && Concerns(m.envelope.value) && HasParts(m.envelope.value)
    ensures Decode(m).Act? ==> StandsFor(Decode(m).event, m.envelope.value)
  {
  }

  lemma RefusedIffConflicts(t: Tables, m: Message)
    ensures Decode(m).Act? ==> (Apply(t, Decode(m).event).Failure? <==> Conflicts(t, Decode(m).event.snapshot))
    ensures Decode(m).Act? ==> forall event | StandsFor(event, m.envelope.value) :: event == Decode(m).event
  {
  }

  /**
   * What one record does to the tables and the topic, and what is reported, from the record's own
   * fields: an event that does not concern the monitor is ignored, an invalid record or one that
   * lacks a part becomes a dead letter if the broker appends it, and any other is applied.
   */
  ghost predicate EffectOf(m: Message, p: nat, offset: nat, broker: Broker, before: Tables, letters: seq<DeadLetterRecord>,
                           after: Tables, topic: seq<DeadLetterRecord>, r: Result<MonitorOutcome, WorkerError>)
  {
    if m.envelope.Some? && !Concerns(m.envelope.value) then
      after == before && topic == letters && r == Success(Ignored)
    else if m.envelope == None || !HasParts(m.envelope.value) then
      && after == before
      && r == (if broker.Acknowledges() then Success(DeadLettered) else Failure(DlqPublishFailed))
      && if broker.appended
         then && |topic| == |letters| + 1 && topic[..|letters|] == letters
              && LetterFor(topic[|letters|], m, p, offset,
                           if m.envelope == None then InvalidGithubEventEnvelope else InvalidPrMonitorEvent)
         else topic == letters
    else
      && topic == letters
      && forall event | StandsFor(event, m.envelope.value) ::
           match Apply(before, event)
           case Success(applied) =>
             && after == applied.0
             && r == Success(match applied.1
                             case Applied => Projected
                             case Stale => StaleSnapshot
                             case Recorded => ReviewRecorded
                             case Ineligible => ReviewIneligible
                             case Unchanged => ReviewUnchanged)
           case Failure(_) => r == Failure(DatabaseFailed) && after == before
  }

  /** When the next sweep is due after these ones. */
  function NextSweep(startedAt: int, interval: int, sweeps: seq<int>): int {
    if sweeps == [] then startedAt else sweeps[|sweeps| - 1] + interval
  }

  /** Every sweep happened no earlier than it was due. */
  predicate Spaced(startedAt: int, interval: int, sweeps: seq<int>) {
    sweeps == [] ||
    (var earlier, last := sweeps[..|sweeps| - 1], sweeps[|sweeps| - 1];
     Spaced(startedAt, interval, earlier) && last >= NextSweep(startedAt, interval, earlier))
  }

  /** Spaced means: the first sweep not before the start, and each at least the interval after the one before it. */
  lemma {:induction false} SpacedIffApart(startedAt: int, interval: int, sweeps: seq<int>, now: int)
    ensures Spaced(startedAt, interval, sweeps) <==>
            && (sweeps != [] ==> startedAt <= sweeps[0])
            && forall i | 0 < i < |sweeps| :: interval <= sweeps[i] - sweeps[i - 1]
    ensures now < NextSweep(startedAt, interval, sweeps) <==>
            if sweeps == [] then now < startedAt else now - sweeps[|sweeps| - 1] < interval
  {
    if sweeps != [] {
      var n := |sweeps| - 1;
      SpacedIffApart(startedAt, interval, sweeps[..n], now);
      assert forall i | 0 <= i < n :: sweeps[..n][i] == sweeps[i];
    }
  }

  function Polls(ticks: seq<Tick>): seq<Option<Delivery>> {
    seq(|ticks|, i requires 0 <= i < |ticks| => ticks[i].polled)
  }

  /** When the sweeps among these actions happened. */
  function SweepTimes(actions: seq<Action<SweepCall>>): seq<int> {
    if actions == [] then []
    else
      var last := actions[|actions| - 1];
      SweepTimes(actions[..|actions| - 1]) + if last.Other? then [last.write.createdAt] else []
  }

  lemma NoSweeps(startedAt: int, interval: int)
    ensures Spaced(startedAt, interval, SweepTimes([])) && NextSweep(startedAt, interval, SweepTimes([])) == startedAt
  {
  }

  lemma OneMoreSweep(startedAt: int, interval: int, actions: seq<Action<SweepCall>>, a: Action<SweepCall>)
    requires Spaced(startedAt, interval, SweepTimes(actions))
    requires a.Other? ==> a.write.createdAt >= NextSweep(startedAt, interval, SweepTimes(actions))
    ensures Spaced(startedAt, interval, SweepTimes(actions + [a]))
    ensures NextSweep(startedAt, interval, SweepTimes(actions + [a])) ==
            if a.Other? then a.write.createdAt + interval else NextSweep(startedAt, interval, SweepTimes(actions))
  {
    var before, after := SweepTimes(actions), SweepTimes(actions + [a]);
    assert (actions + [a])[..|actions|] == actions;
    if a.Other? {
      assert after[..|after| - 1] == before;
    } else {
      assert after == before;
    }
  }

  /** The unique constraint refuses the command after the effects of this trace. */
  ghost predicate Refused(logs: Logs, trace: seq<Entry<SweepCall>>, e: Event) {
    (forall x | x in trace :: InLogs(logs, x)) && Conflicts(Run(OpsOf(logs, trace)), e.snapshot)
  }

  /** The fault of the protocol step that a delivery amounts to. */
  ghost function FaultAt(logs: Logs, s: State<SweepCall>, d: Delivery): Fault {
    if !CanPoll(Lengths(logs), s, d.partition) then d.fault
    else
      match Decode(logs[d.partition][s.position[d.partition]])
      case Poison(_) => PublishFault(d.fault, d.broker)
      case Skip => d.fault
      case Act(event) => if Refused(logs, s.trace, event) then BeforeEffect else d.fault
  }

  /** One poll: the record that it delivers is processed, and if it delivers none nothing happens. */
  ghost function PollStep(logs: Logs, s: State<SweepCall>, poll: Option<Delivery>): seq<Action<SweepCall>> {
    if poll.Some? && CanPoll(Lengths(logs), s, poll.value.partition)
    then [ConsumerProtocol.Process(poll.value.partition, FaultAt(logs, s, poll.value))]
    else []
  }

  /** When the loop started and how its sweeps are timed. */
  datatype Timing = Timing(startedAt: int, staleAfter: int, interval: int)

  function DueSweep(timing: Timing, earlier: seq<Action<SweepCall>>, tick: Tick): seq<Action<SweepCall>> {
    if tick.now < NextSweep(timing.startedAt, timing.interval, SweepTimes(earlier)) then []
    else SweepActions(SweepCall(tick.now - timing.staleAfter, tick.now), tick.sweep)
  }

  /** One turn of the loop: the sweep if it is due, and the poll unless the sweep raised. */
  ghost function TurnActions(logs: Logs, s: State<SweepCall>, timing: Timing, earlier: seq<Action<SweepCall>>, tick: Tick)
    : seq<Action<SweepCall>>
  {
    var swept := earlier + DueSweep(timing, earlier, tick);
    if Stopped(swept) then swept else swept + PollStep(logs, RunActions(Lengths(logs), s, swept), tick.polled)
  }

  /** What the worker does in these turns, up to the first that fails. */
  ghost function MonitorActions(logs: Logs, s: State<SweepCall>, timing: Timing, ticks: seq<Tick>): seq<Action<SweepCall>> {
    if ticks == [] then []
    else
      var n := |ticks| - 1;
      var earlier := MonitorActions(logs, s, timing, ticks[..n]);
      if Stopped(earlier) then earlier else TurnActions(logs, s, timing, earlier, ticks[n])
  }

  lemma NoTurns(logs: Logs, s: State<SweepCall>, timing: Timing)
    ensures MonitorActions(logs, s, timing, []) == []
  {
  }

  lemma OneTurnMore(logs: Logs, s: State<SweepCall>, timing: Timing, ticks: seq<Tick>, i: nat)
    requires i < |ticks| && !Stopped(MonitorActions(logs, s, timing, ticks[..i]))
    ensures MonitorActions(logs, s, timing, ticks[..i + 1]) ==
            TurnActions(logs, s, timing, MonitorActions(logs, s, timing, ticks[..i]), ticks[i])
  {
    assert ticks[..i + 1][..i] == ticks[..i];
  }

  /** After a failure no further turn matters. */
  lemma {:induction false} StoppedForGood(logs: Logs, s: State<SweepCall>, timing: Timing, ticks: seq<Tick>, i: nat)
    requires i <= |ticks| && Stopped(MonitorActions(logs, s, timing, ticks[..i]))
    ensures MonitorActions(logs, s, timing, ticks) == MonitorActions(logs, s, timing, ticks[..i])
  {
    hide TurnActions, RunActions, Lengths;
    if i == |ticks| {
      assert ticks[..i] == ticks;
    } else {
      var n := |ticks| - 1;
      assert ticks[..n][..i] == ticks[..i];
      StoppedForGood(logs, s, timing, ticks[..n], i);
    }
  }

  lemma TurnFailsLast(logs: Logs, s: State<SweepCall>, timing: Timing, earlier: seq<Action<SweepCall>>, tick: Tick)
    requires OnlyLastFails(earlier) && !Stopped(earlier)
    ensures OnlyLastFails(TurnActions(logs, s, timing, earlier, tick))
    ensures Stopped(TurnActions(logs, s, timing, earlier, tick)) <==> TurnFails(logs, s, timing, earlier, tick)
  {
    hide RunActions, FaultAt, CanPoll, Lengths, NextSweep, SweepTimes;
  }

  /** A turn fails by a due sweep that raises, or by a delivered record whose processing meets a fault. */
  ghost predicate TurnFails(logs: Logs, s: State<SweepCall>, timing: Timing, earlier: seq<Action<SweepCall>>, tick: Tick) {
    var sweep := DueSweep(timing, earlier, tick);
    var t := RunActions(Lengths(logs), s, earlier + sweep);
    || (sweep != [] && !tick.sweep.NoFault?)
    || (tick.polled.Some? && CanPoll(Lengths(logs), t, tick.polled.value.partition) && !FaultAt(logs, t, tick.polled.value).NoFault?)
  }

  /** Turn i is the first that fails. */
  ghost predicate FailsAt(logs: Logs, s: State<SweepCall>, timing: Timing, ticks: seq<Tick>, i: int) {
    && 0 <= i < |ticks|
    && var earlier := MonitorActions(logs, s, timing, ticks[..i]);
       !Stopped(earlier) && TurnFails(logs, s, timing, earlier, ticks[i])
  }

  /** The worker stops at the first turn that fails, and nothing else stops it. */
  lemma {:induction false} StopsAtFirstFailure(logs: Logs, s: State<SweepCall>, timing: Timing, ticks: seq<Tick>)
    ensures OnlyLastFails(MonitorActions(logs, s, timing, ticks))
    ensures Stopped(MonitorActions(logs, s, timing, ticks)) <==> exists i :: FailsAt(logs, s, timing, ticks, i)
  {
    hide TurnActions, TurnFails;
    if ticks != [] {
      var n := |ticks| - 1;
      var earlier := MonitorActions(logs, s, timing, ticks[..n]);
      StopsAtFirstFailure(logs, s, timing, ticks[..n]);
      forall i | 0 <= i < n ensures FailsAt(logs, s, timing, ticks, i) <==> FailsAt(logs, s, timing, ticks[..n], i) {
        assert ticks[..n][..i] == ticks[..i] && ticks[..n][i] == ticks[i];
      }
      if Stopped(earlier) {
        var i :| FailsAt(logs, s, timing, ticks[..n], i);
        assert FailsAt(logs, s, timing, ticks, i);
      } else {
        TurnFailsLast(logs, s, timing, earlier, ticks[n]);
        if Stopped(MonitorActions(logs, s, timing, ticks)) {
          assert FailsAt(logs, s, timing, ticks, n);
        }
      }
    }
  }

  /** One sweep or none, at this time; and its failure, if any, comes last. */
  lemma SweepsOnce(startedAt: int, interval: int, actions: seq<Action<SweepCall>>, sweep: SweepCall, fault: Fault)
    requires Spaced(startedAt, interval, SweepTimes(actions)) && !Stopped(actions) && interval > 0
    requires sweep.createdAt >= NextSweep(startedAt, interval, SweepTimes(actions))
    ensures var after := actions + SweepActions(sweep, fault);
            && Spaced(startedAt, interval, SweepTimes(after))
            && NextSweep(startedAt, interval, SweepTimes(after)) >= NextSweep(startedAt, interval, SweepTimes(actions))
            && (fault.NoFault? ==> NextSweep(startedAt, interval, SweepTimes(after)) == sweep.createdAt + interval)
            && (Stopped(after) <==> !fault.NoFault?)
  {
    hide Spaced, NextSweep, SweepTimes;
    var swept := actions + [Action.Other(sweep)];
    OneMoreSweep(startedAt, interval, actions, Action.Other(sweep));
    if fault.BeforeEffect? {
      OneMoreSweep(startedAt, interval, actions, Action.Restart);
      assert actions + SweepActions(sweep, fault) == actions + [Action.Restart];
    } else if fault.NoFault? {
      assert actions + SweepActions(sweep, fault) == swept;
    } else {
      OneMoreSweep(startedAt, interval, swept, Action.Restart);
      assert actions + SweepActions(sweep, fault) == swept + [Action.Restart];
    }
  }

  lemma SweepRuns(lengths: seq<nat>, s: State<SweepCall>, sweep: SweepCall, fault: Fault)
    ensures RunActions(lengths, s, SweepActions(sweep, fault)) ==
            if fault.BeforeEffect? then Restarted(s)
            else
              var swept := Transition(lengths, s, Action.Other(sweep));
              if fault.NoFault? then swept else Restarted(swept)
  {
    var swept: seq<Action<SweepCall>> := [Action.Other(sweep)];
    RunOneMore(lengths, s, [], Action.Other(sweep));
    RunOneMore(lengths, s, [], Action.Restart);
    RunOneMore(lengths, s, swept, Action.Restart);
    assert [] + [Action.Other(sweep)] == swept;
    if fault.BeforeEffect? {
      assert SweepActions(sweep, fault) == [] + [Action.Restart];
    } else if fault.NoFault? {
      assert SweepActions(sweep, fault) == swept;
    } else {
      assert SweepActions(sweep, fault) == swept + [Action.Restart];
    }
  }

  lemma SweepShape(sweep: SweepCall, fault: Fault)
    ensures forall a | a in SweepActions(sweep, fault) :: a.Restart? || a == Action.Other(sweep)
  {
  }

  lemma SweepIsSafe(lengths: seq<nat>, s: State<SweepCall>, sweep: SweepCall, fault: Fault)
    requires Safe(lengths, s)
    ensures var t := RunActions(lengths, s, SweepActions(sweep, fault));
            Safe(lengths, t) && (fault.NoFault? ==> t.position == s.position)
  {
    hide Safe;
    RunIsSafe(lengths, s, SweepActions(sweep, fault));
    SweepRuns(lengths, s, sweep, fault);
  }

  class Monitor {
    const logs: Logs
    const staleAfter: int
    const sweepInterval: int
    const consumer: Consumer
    const storage: PostgresPullRequestStorage
    const dlqPublisher: KafkaDlqPublisher
    ghost var trace: seq<Entry<SweepCall>>

    constructor (logs: Logs, staleAfter: int, sweepInterval: int)
      ensures Valid() && Offsets() == Initial(Lengths(logs))
      ensures this.logs == logs && this.staleAfter == staleAfter && this.sweepInterval == sweepInterval
      ensures fresh(consumer) && fresh(storage) && fresh(dlqPublisher)
    {
      this.logs, this.staleAfter, this.sweepInterval := logs, staleAfter, sweepInterval;
      consumer := new Consumer(|logs|);
      storage := new PostgresPullRequestStorage();
      dlqPublisher := new KafkaDlqPublisher();
      trace := [];
    }

    ghost function Offsets(): State<SweepCall>
      reads this, consumer
    {
      State(consumer.committed, consumer.position, trace)
    }

    /** The durable stores hold exactly the effects of the trace. */
    ghost predicate Durable()
      reads this, storage, dlqPublisher
    {
      && (forall e | e in trace :: InLogs(logs, e))
      && storage.View() == Run(OpsOf(logs, trace))
      && dlqPublisher.topic == DlqOf(logs, Poisoned, trace)
    }

    ghost predicate Valid()
      reads this, consumer, storage, dlqPublisher
    {
      Safe(Lengths(logs), Offsets()) && Durable()
    }

    /** A poison record needs its acknowledgement, and a violated constraint rolls its command back. */
    ghost predicate EffectFails(m: Message, broker: Broker)
      reads storage
    {
      match Decode(m)
      case Poison(_) => !broker.Acknowledges()
      case Skip => false
      case Act(event) => Conflicts(storage.View(), event.snapshot)
    }

    ghost function FaultOf(d: Delivery): Fault
      reads this, consumer
    {
      FaultAt(logs, Offsets(), d)
    }

    /** Project a command, publish a dead letter, or do nothing for an ignored record. */
    method ApplyEffect(p: nat, offset: nat, broker: Broker) returns (r: Result<MonitorOutcome, WorkerError>)
      requires Durable() && broker.Sound() && p < |logs| && offset < |logs[p]|
      modifies this, storage, dlqPublisher
      ensures Durable()
      ensures r.Success? <==> !old(EffectFails(logs[p][offset], broker))
      ensures trace == if r.Success? || (Decode(logs[p][offset]).Poison? && broker.appended)
                       then old(trace) + [Record(p, offset)] else old(trace)
      ensures Decode(logs[p][offset]).Act? && r.Success? ==>
                var applied := Apply(old(storage.View()), Decode(logs[p][offset]).event);
                applied.Success? && r == Success(OutcomeOf(applied.value.1))
      ensures Decode(logs[p][offset]).Skip? ==> r == Success(Ignored)
      ensures Decode(logs[p][offset]).Poison? && r.Success? ==> r == Success(DeadLettered)
      ensures EffectOf(logs[p][offset], p, offset, broker, old(storage.View()), old(dlqPublisher.topic),
                       storage.View(), dlqPublisher.topic, r)
    {
      hide Run, OpsOf, DlqOf, Apply, Decode, Conflicts, Concerns, HasParts;
      var m := logs[p][offset];
      ghost var e: Entry<SweepCall> := Record(p, offset);
      Routing(m);
      RefusedIffConflicts(storage.View(), m);
      OpsAppend(logs, trace, e);
      DlqAppend(logs, Poisoned, trace, e);
      match Decode(m) {
        case Poison(reason) =>
          var published := dlqPublisher.Publish(FromMessage(m, p, offset, reason), broker);
          if broker.appended {
            trace := trace + [e];
          }
          return if published.Success? then Success(DeadLettered) else Failure(DlqPublishFailed);
        case Skip =>
          trace := trace + [e];
          return Success(Ignored);
        case Act(event) =>
          RunAppend(OpsOf(logs, trace), Deliver(event));
          var outcome: Result<Outcome, StorageError>;
          match event {
            case PullRequestEvent(snapshot) => outcome := storage.ApplyPullRequest(snapshot);
            case ReviewEvent(snapshot, review) => outcome := storage.ApplyReview(snapshot, review);
          }
          if outcome.Failure? {
            return Failure(DatabaseFailed);
          }
          trace := trace + [e];
          return Success(OutcomeOf(outcome.value));
      }
    }

    /** Poll one record, make its effect durable, then commit its offset; any failure restarts the worker. */
    method Process(d: Delivery) returns (r: Result<MonitorOutcome, WorkerError>)
      requires Durable() && d.broker.Sound() && CanPoll(Lengths(logs), Offsets(), d.partition)
      modifies this, consumer, storage, dlqPublisher
      ensures Durable()
      ensures Offsets() == Transition(Lengths(logs), old(Offsets()), ConsumerProtocol.Process(d.partition, old(FaultOf(d))))
      ensures r.Success? <==> old(FaultOf(d)).NoFault?
      ensures r.Success? ==>
                var m := logs[d.partition][old(consumer.position)[d.partition]];
                r.value == match Decode(m)
                           case Poison(_) => DeadLettered
                           case Skip => Ignored
                           case Act(event) => OutcomeOf(Apply(old(storage.View()), event).value.1)
      ensures r.Success? ==>
                var offset := old(consumer.position)[d.partition];
                EffectOf(logs[d.partition][offset], d.partition, offset, d.broker, old(storage.View()), old(dlqPublisher.topic),
                         storage.View(), dlqPublisher.topic, r)
    {
      hide Run, OpsOf, DlqOf, Apply, EffectOf;
      var offset := consumer.Poll(d.partition);
      if d.fault == BeforeEffect {
        consumer.Restart();
        return Failure(Crashed);
      }
      r := ApplyEffect(d.partition, offset, d.broker);
      if r.Failure? {
        consumer.Restart();
        return;
      }
      var committed := consumer.CommitAfterEffect(d.partition, offset, d.fault);
      if committed.Failure? {
        return Failure(committed.error);
      }
    }

    /** Sweep for stale pull requests.  A raising sweep stops the worker, with or without new outbox rows. */
    method SweepStale(now: int, fault: Fault) returns (r: Result<nat, WorkerError>)
      requires Durable()
      modifies this, consumer, storage
      ensures Durable()
      ensures r.Success? <==> fault.NoFault?
      ensures Offsets() == RunActions(Lengths(logs), old(Offsets()), SweepActions(SweepCall(now - staleAfter, now), fault))
      ensures r.Success? ==> |storage.alerts| == |old(storage.alerts)| + r.value
      ensures r.Success? ==> forall k :: k in storage.alerts <==>
                k in old(storage.alerts)
                || (k in storage.openRows && storage.openRows[k].openedAt <= now - staleAfter
                    && storage.openRows[k].firstReview == None && !storage.openRows[k].isDraft)
      ensures r.Success? ==> forall k | k in storage.alerts && k !in old(storage.alerts) ::
                storage.alerts[k].createdAt == now && storage.alerts[k].staleCutoff == now - staleAfter
    {
      hide Run, OpsOf, DlqOf, PullRequestTables.Step, SweepActions, RunActions;
      ghost var e: Entry<SweepCall> := External(SweepCall(now - staleAfter, now));
      SweepRuns(Lengths(logs), Offsets(), SweepCall(now - staleAfter, now), fault);
      if fault == BeforeEffect {
        consumer.Restart();
        return Failure(DatabaseFailed);
      }
      OpsAppend(logs, trace, e);
      DlqAppend(logs, Poisoned, trace, e);
      RunAppend(OpsOf(logs, trace), Sweep(now - staleAfter, now));
      var inserted := storage.CreateStaleAlerts(now - staleAfter, now);
      trace := trace + [e];
      if fault != NoFault {
        consumer.Restart();
        return Failure(DatabaseFailed);
      }
      return Success(inserted);
    }

    /** Process what one poll returned; a poll may also return nothing. */
    method HandlePoll(poll: Option<Delivery>, ghost before: seq<nat>, ghost polls: seq<Option<Delivery>>)
      returns (stopped: bool, ghost step: seq<Action<SweepCall>>)
      requires Valid() && (poll.Some? ==> poll.value.broker.Sound())
      requires KeptUp(Lengths(logs), before, Offsets(), polls)
      modifies this, consumer, storage, dlqPublisher
      ensures Valid()
      ensures step == PollStep(logs, old(Offsets()), poll)
      ensures if step == [] then Offsets() == old(Offsets())
              else |step| == 1 && step[0].Process? && Offsets() == Transition(Lengths(logs), old(Offsets()), step[0])
      ensures stopped <==> Stopped(step)
      ensures !stopped ==> KeptUp(Lengths(logs), before, Offsets(), polls + [poll])
    {
      hide Safe, Run, OpsOf, DlqOf, Transition, KeptUp, Durable, CanPoll, FaultAt;
      SafeShape(Lengths(logs), Offsets());
      KeptUpPoll(Lengths(logs), before, Offsets(), polls, poll);
      if poll == None {
        return false, [];
      }
      var d := poll.value;
      PollableIff(Lengths(logs), Offsets(), d.partition);
      if d.partition >= |logs| || consumer.position[d.partition] >= |logs[d.partition]| {
        NothingToPoll(Lengths(logs), Offsets(), d.partition);
        return false, [];
      }
      step := [ConsumerProtocol.Process(d.partition, FaultOf(d))];
      TransitionIsSafe(Lengths(logs), Offsets(), step[0]);
      var r := Process(d);
      return r.Failure?, step;
    }

    /** The sweep of one turn, if it is due. */
    method SweepWhenDue(tick: Tick, nextSweepAt: int, ghost startedAt: int, ghost actions: seq<Action<SweepCall>>,
                        ghost before: seq<nat>, ghost polls: seq<Option<Delivery>>)
      returns (stopped: bool, next: int, ghost step: seq<Action<SweepCall>>)
      requires Valid() && sweepInterval > 0 && !Stopped(actions)
      requires KeptUp(Lengths(logs), before, Offsets(), polls)
      requires Spaced(startedAt, sweepInterval, SweepTimes(actions))
      requires nextSweepAt == NextSweep(startedAt, sweepInterval, SweepTimes(actions))
      modifies this, consumer, storage
      ensures Valid()
      ensures step == if tick.now < nextSweepAt then []
                      else SweepActions(SweepCall(tick.now - staleAfter, tick.now), tick.sweep)
      ensures Offsets() == RunActions(Lengths(logs), old(Offsets()), step)
      ensures stopped <==> tick.now >= nextSweepAt && !tick.sweep.NoFault?
      ensures stopped <==> Stopped(actions + step)
      ensures Spaced(startedAt, sweepInterval, SweepTimes(actions + step))
      ensures nextSweepAt <= NextSweep(startedAt, sweepInterval, SweepTimes(actions + step))
      ensures !stopped ==>
                && KeptUp(Lengths(logs), before, Offsets(), polls)
                && next == NextSweep(startedAt, sweepInterval, SweepTimes(actions + step)) && tick.now < next
    {
      hide Safe, Run, OpsOf, DlqOf, KeptUp, NextSweep, Spaced, SweepTimes, Durable, CanPoll;
      next, step := nextSweepAt, [];
      RunNoActions(Lengths(logs), Offsets());
      assert actions + [] == actions;
      if tick.now < nextSweepAt {
        return false, next, step;
      }
      ghost var entry, sweep := Offsets(), SweepCall(tick.now - staleAfter, tick.now);
      SweepIsSafe(Lengths(logs), entry, sweep, tick.sweep);
      SweepsOnce(startedAt, sweepInterval, actions, sweep, tick.sweep);
      var r := SweepStale(tick.now, tick.sweep);
      step := SweepActions(sweep, tick.sweep);
      if r.Success? {
        KeptUpIsPositions(Lengths(logs), before, entry, Offsets(), polls);
      }
      return r.Failure?, tick.now + sweepInterval, step;
    }

    /**
     * The loop: exactly the actions that the turns call for, up to the first turn that fails.
     * Sweeps are at least one interval apart, no turn before that leaves one overdue, and without
     * a failure every poll moved its partition on.
     */
    method RunForever(startedAt: int, ticks: seq<Tick>)
      returns (stopped: bool, ghost actions: seq<Action<SweepCall>>, ghost handled: nat)
      requires Valid() && sweepInterval > 0
      requires forall t | t in ticks && t.polled.Some? :: t.polled.value.broker.Sound()
      modifies this, consumer, storage, dlqPublisher
      ensures Valid()
      ensures Offsets() == RunActions(Lengths(logs), old(Offsets()), actions)
      ensures actions == MonitorActions(logs, old(Offsets()), Timing(startedAt, staleAfter, sweepInterval), ticks)
      ensures forall a | a in actions :: !a.Rewind? && (a.Other? ==> a.write.cutoff == a.write.createdAt - staleAfter)
      ensures stopped <==> Stopped(actions)
      ensures if stopped then FailsAt(logs, old(Offsets()), Timing(startedAt, staleAfter, sweepInterval), ticks, handled)
              else handled == |ticks| && KeptUp(Lengths(logs), old(consumer.position), Offsets(), Polls(ticks))
      ensures Spaced(startedAt, sweepInterval, SweepTimes(actions))
      ensures forall i | 0 <= i < handled :: ticks[i].now < NextSweep(startedAt, sweepInterval, SweepTimes(actions))
    {
      hide Safe, Run, OpsOf, DlqOf, Transition, KeptUp, RunActions, NextSweep, Spaced, SweepTimes, Durable, CanPoll, SweepActions,
        MonitorActions, PollStep, TurnFails, Stopped;
      ghost var timing := Timing(startedAt, staleAfter, sweepInterval);
      actions, handled := [], 0;
      KeptUpStart(Lengths(logs), Offsets());
      RunNoActions(Lengths(logs), Offsets());
      NoTurns(logs, Offsets(), timing);
      NoSweeps(startedAt, sweepInterval);
      NotStopped();
      var nextSweepAt := startedAt;
      for i := 0 to |ticks|
        invariant Valid()
        invariant Offsets() == RunActions(Lengths(logs), old(Offsets()), actions)
        invariant actions == MonitorActions(logs, old(Offsets()), timing, ticks[..i])
        invariant forall a | a in actions :: !a.Rewind? && (a.Other? ==> a.write.cutoff == a.write.createdAt - staleAfter)
        invariant handled == i && !Stopped(actions) && OnlyLastFails(actions)
        invariant KeptUp(Lengths(logs), old(consumer.position), Offsets(), Polls(ticks)[..i])
        invariant Spaced(startedAt, sweepInterval, SweepTimes(actions))
        invariant nextSweepAt == NextSweep(startedAt, sweepInterval, SweepTimes(actions))
        invariant forall j | 0 <= j < i :: ticks[j].now < nextSweepAt
      {
        OneTurnMore(logs, old(Offsets()), timing, ticks, i);
        TurnFailsLast(logs, old(Offsets()), timing, actions, ticks[i]);
        ghost var sweep, earlier := [], actions;
        var failed, next;
        failed, next, sweep := SweepWhenDue(ticks[i], nextSweepAt, startedAt, actions, old(consumer.position), Polls(ticks)[..i]);
        RunMore(Lengths(logs), old(Offsets()), actions, sweep);
        SweepShape(SweepCall(ticks[i].now - staleAfter, ticks[i].now), ticks[i].sweep);
        assert sweep == DueSweep(timing, earlier, ticks[i]);
        actions := actions + sweep;
        if failed {
          StoppedForGood(logs, old(Offsets()), timing, ticks, i + 1);
          return true, actions, i;
        }
        nextSweepAt := next;
        assert Polls(ticks)[..i + 1] == Polls(ticks)[..i] + [ticks[i].polled];
        ghost var step, swept := [], actions;
        stopped, step := HandlePoll(ticks[i].polled, old(consumer.position), Polls(ticks)[..i]);
        if step != [] {
          assert step == [step[0]];
          RunOneMore(Lengths(logs), old(Offsets()), actions, step[0]);
          OneMoreSweep(startedAt, sweepInterval, actions, step[0]);
        } else {
          assert swept + step == swept;
        }
        StepDecides(swept, step);
        actions := actions + step;
        if stopped {
          StoppedForGood(logs, old(Offsets()), timing, ticks, i + 1);
          return stopped, actions, i;
        }
        handled := i + 1;
      }
      assert Polls(ticks)[..|ticks|] == Polls(ticks) && ticks[..|ticks|] == ticks;
      return false, actions, handled;
    }
  }

  lemma NotStopped()
    ensures !Stopped<SweepCall>([])
  {
  }

  lemma StepDecides(actions: seq<Action<SweepCall>>, step: seq<Action<SweepCall>>)
    requires !Stopped(actions)
    ensures Stopped(actions + step) <==> Stopped(step)
  {
  }

  // ---------------------------------------------------------------- refinement of the plain fold

  ghost function AllEvents(logs: Logs): set<Event> {
    set p, o | 0 <= p < |logs| && 0 <= o < |logs[p]| && Decode(logs[p][o]).Act? :: Decode(logs[p][o]).event
  }

  /** Every command for k arrives on partition p, as Kafka keying by repository arranges. */
  ghost predicate Home(logs: Logs, k: PrKey, p: nat) {
    && p < |logs|
    && forall q, o | 0 <= q < |logs| && 0 <= o < |logs[q]| && Decode(logs[q][o]).Act?
                     && Decode(logs[q][o]).event.Key() == k :: q == p
  }

  lemma ExtremesAppend(h: seq<Op>, op: Op, k: PrKey)
    ensures Latest(h + [op], k) == NextLatest(Latest(h, k), op, k)
    ensures Earliest(h + [op], k) == NextEarliest(Earliest(h, k), op, k)
  {
    assert (h + [op])[..|h|] == h;
  }

  /** An operation that already happened cannot move an extreme. */
  lemma ExtremesDominate(h: seq<Op>, op: Op, k: PrKey)
    requires op in h
    ensures NextLatest(Latest(h, k), op, k) == Latest(h, k)
    ensures NextEarliest(Earliest(h, k), op, k) == Earliest(h, k)
  {
    if Latest(h, k).Some? {
      var i := LatestAt(h, k);
    } else {
      LatestNoneMeansUnseen(h, k);
    }
    if Earliest(h, k).Some? {
      var i := EarliestAt(h, k);
    } else {
      EarliestNoneMeansUnseen(h, k);
    }
  }

  lemma {:induction false} PlainOpsContain(log: seq<Message>, o: nat)
    requires o < |log| && Decode(log[o]).Act?
    ensures Deliver(Decode(log[o]).event) in PlainOps(log)
  {
    if o < |log| - 1 {
      PlainOpsContain(log[..|log| - 1], o);
    }
  }

  lemma {:induction false} OpsComeFromLogs(logs: Logs, trace: seq<Entry<SweepCall>>)
    requires forall e | e in trace :: InLogs(logs, e)
    ensures EventsOf(OpsOf(logs, trace)) <= AllEvents(logs)
  {
    if trace != [] {
      var rest, last := trace[..|trace| - 1], trace[|trace| - 1];
      assert last in trace;
      OpsComeFromLogs(logs, rest);
      assert EventsOf(OpsOf(logs, trace)) == EventsOf(OpsOf(logs, rest)) + EventsOf(OpsOfEntry(logs, last));
      if last.Record? && Decode(logs[last.partition][last.offset]).Act? {
        assert Decode(logs[last.partition][last.offset]).event in AllEvents(logs);
      }
    }
  }

  lemma {:induction false} PlainOpsComeFromLogs(logs: Logs, p: nat, n: nat)
    requires p < |logs| && n <= |logs[p]|
    ensures EventsOf(PlainOps(logs[p][..n])) <= AllEvents(logs)
  {
    if n > 0 {
      assert logs[p][..n][..n - 1] == logs[p][..n - 1];
      PlainOpsComeFromLogs(logs, p, n - 1);
    }
  }

  lemma MessageExtremes(h: seq<Op>, m: Message, k: PrKey)
    ensures var g := h + OpsOfMessage(m);
            if Decode(m).Act?
            then && Latest(g, k) == NextLatest(Latest(h, k), Deliver(Decode(m).event), k)
                 && Earliest(g, k) == NextEarliest(Earliest(h, k), Deliver(Decode(m).event), k)
            else g == h
  {
    if Decode(m).Act? {
      ExtremesAppend(h, Deliver(Decode(m).event), k);
    }
  }

  lemma PlainOpsExtend(log: seq<Message>, n: nat)
    requires n < |log|
    ensures PlainOps(log[..n + 1]) == PlainOps(log[..n]) + OpsOfMessage(log[n])
  {
    assert log[..n + 1][..n] == log[..n];
  }

  /** The extremes of the trace are those of the log prefix below the mark. */
  ghost predicate ExtremesMatch(logs: Logs, trace: seq<Entry<SweepCall>>, k: PrKey, p: nat)
    requires p < |logs| && forall e | e in trace :: InLogs(logs, e)
  {
    && Hi(trace, p) <= |logs[p]|
    && Latest(OpsOf(logs, trace), k) == Latest(PlainOps(logs[p][..Hi(trace, p)]), k)
    && Earliest(OpsOf(logs, trace), k) == Earliest(PlainOps(logs[p][..Hi(trace, p)]), k)
  }

  /** One more effect moves the extremes of the trace exactly as it moves those of the log prefix. */
  lemma EffectKeepsMatch(logs: Logs, rest: seq<Entry<SweepCall>>, last: Entry<SweepCall>, k: PrKey, p: nat)
    requires Home(logs, k, p) && (forall e | e in rest :: InLogs(logs, e)) && InLogs(logs, last)
    requires last.Record? ==> last.offset <= Hi(rest, last.partition)
    requires ExtremesMatch(logs, rest, k, p)
    ensures ExtremesMatch(logs, rest + [last], k, p)
  {
    hide Latest, Earliest, PlainOps, OpsOf, Hi;
    OpsAppend(logs, rest, last);
    HiAppend(rest, last, p);
    var before, ops := Hi(rest, p), OpsOf(logs, rest);
    match last
    case External(sweep) =>
      ExtremesAppend(ops, Sweep(sweep.cutoff, sweep.createdAt), k);
    case Record(q, o) =>
      var m := logs[q][o];
      MessageExtremes(ops, m, k);
      if q == p && o == before {
        PlainOpsExtend(logs[p], before);
        MessageExtremes(PlainOps(logs[p][..before]), m, k);
      } else if q == p && Decode(m).Act? {
        PlainOpsContain(logs[p][..before], o);
        ExtremesDominate(PlainOps(logs[p][..before]), Deliver(Decode(m).event), k);
      }
  }

  lemma {:induction false} TraceExtremes(logs: Logs, trace: seq<Entry<SweepCall>>, k: PrKey, p: nat)
    requires (forall e | e in trace :: InLogs(logs, e)) && GapFree(trace) && Home(logs, k, p)
    ensures ExtremesMatch(logs, trace, k, p)
  {
    if trace != [] {
      var rest, last := trace[..|trace| - 1], trace[|trace| - 1];
      assert trace == rest + [last] && last in trace;
      TraceExtremes(logs, rest, k, p);
      EffectKeepsMatch(logs, rest, last, k, p);
    }
  }

  /** With identified numbers no command is ever rolled back, so no record can stop the worker for good. */
  lemma NeverRejected(logs: Logs, trace: seq<Entry<SweepCall>>, p: nat, o: nat)
    requires (forall e | e in trace :: InLogs(logs, e)) && NumbersIdentify(AllEvents(logs))
    requires p < |logs| && o < |logs[p]| && Decode(logs[p][o]).Act?
    ensures !Conflicts(Run(OpsOf(logs, trace)), Decode(logs[p][o]).event.snapshot)
  {
    var h, e := OpsOf(logs, trace), Decode(logs[p][o]).event;
    OpsComeFromLogs(logs, trace);
    assert e in AllEvents(logs);
    forall k ensures Projects(Run(h), Latest(h, k), Earliest(h, k), k) {
      RunProjects(h, k);
    }
    NoConflict(Run(h), h, e);
  }

  /**
   * After any run of polls, effects, crashes, failed commits, restarts, rewinds and sweeps, the
   * three serving tables hold for k what a plain left fold over the log gives, taken up to one
   * past the highest offset that was ever applied.
   */
  lemma MonitorRefinesFold(logs: Logs, actions: seq<Action<SweepCall>>, k: PrKey, p: nat)
    requires NumbersIdentify(AllEvents(logs)) && Home(logs, k, p)
    ensures var s := RunActions(Lengths(logs), Initial<SweepCall>(Lengths(logs)), actions);
            && (forall e | e in s.trace :: InLogs(logs, e))
            && |s.committed| == |logs| && s.committed[p] <= Hi(s.trace, p) <= |logs[p]|
            && (var t, plain := Run(OpsOf(logs, s.trace)), Run(PlainOps(logs[p][..Hi(s.trace, p)]));
                && Lookup(t.watermarks, k) == Lookup(plain.watermarks, k)
                && Lookup(t.openRows, k) == Lookup(plain.openRows, k)
                && Lookup(t.firstReviews, k) == Lookup(plain.firstReviews, k))
  {
    TraceInLogs<SweepCall>(logs, actions);
    var s := RunActions(Lengths(logs), Initial<SweepCall>(Lengths(logs)), actions);
    TraceExtremes(logs, s.trace, k, p);
    OpsComeFromLogs(logs, s.trace);
    PlainOpsComeFromLogs(logs, p, Hi(s.trace, p));
    RunProjects(OpsOf(logs, s.trace), k);
    RunProjects(PlainOps(logs[p][..Hi(s.trace, p)]), k);
  }

  /** On a single partition the three serving tables are those of the plain fold. */
  lemma SinglePartitionRefinesFold(logs: Logs, actions: seq<Action<SweepCall>>)
    requires NumbersIdentify(AllEvents(logs)) && |logs| == 1
    ensures var s := RunActions(Lengths(logs), Initial<SweepCall>(Lengths(logs)), actions);
            && (forall e | e in s.trace :: InLogs(logs, e))
            && Hi(s.trace, 0) <= |logs[0]|
            && (var t, plain := Run(OpsOf(logs, s.trace)), Run(PlainOps(logs[0][..Hi(s.trace, 0)]));
                t.watermarks == plain.watermarks && t.openRows == plain.openRows && t.firstReviews == plain.firstReviews)
  {
    TraceInLogs<SweepCall>(logs, actions);
    var s := RunActions(Lengths(logs), Initial<SweepCall>(Lengths(logs)), actions);
    var t, plain := Run(OpsOf(logs, s.trace)), Run(PlainOps(logs[0][..Hi(s.trace, 0)]));
    forall k
      ensures Lookup(t.watermarks, k) == Lookup(plain.watermarks, k)
      ensures Lookup(t.openRows, k) == Lookup(plain.openRows, k)
      ensures Lookup(t.firstReviews, k) == Lookup(plain.firstReviews, k)
    {
      MonitorRefinesFold(logs, actions, k, 0);
    }
    SameLookups(t.watermarks, plain.watermarks);
    SameLookups(t.openRows, plain.openRows);
    SameLookups(t.firstReviews, plain.firstReviews);
  }

  lemma {:induction false} TraceDelivers(logs: Logs, trace: seq<Entry<SweepCall>>, p: nat, o: nat)
    requires forall e | e in trace :: InLogs(logs, e)
    requires Record(p, o) in trace && p < |logs| && o < |logs[p]| && Decode(logs[p][o]).Act?
    ensures Deliver(Decode(logs[p][o]).event) in OpsOf(logs, trace)
  {
    var rest, last := trace[..|trace| - 1], trace[|trace| - 1];
    assert trace == rest + [last];
    if Record(p, o) in rest {
      TraceDelivers(logs, rest, p, o);
    }
  }

  /**
   * Below the committed offset every record of concern is absorbed by the tables, whatever came
   * after it, and every invalid one has its dead letter.
   */
  lemma CommittedHasEffect(logs: Logs, actions: seq<Action<SweepCall>>, p: nat, o: nat)
    requires NumbersIdentify(AllEvents(logs)) && p < |logs|
    ensures var s := RunActions(Lengths(logs), Initial<SweepCall>(Lengths(logs)), actions);
            && |s.committed| == |logs|
            && (forall e | e in s.trace :: InLogs(logs, e))
            && (o < s.committed[p] ==>
                  && o < |logs[p]|
                  && var envelope := logs[p][o].envelope;
                     if envelope == None then
                       exists letter | letter in DlqOf(logs, Poisoned, s.trace) ::
                         LetterFor(letter, logs[p][o], p, o, InvalidGithubEventEnvelope)
                     else if Concerns(envelope.value) && !HasParts(envelope.value) then
                       exists letter | letter in DlqOf(logs, Poisoned, s.trace) ::
                         LetterFor(letter, logs[p][o], p, o, InvalidPrMonitorEvent)
                     else Concerns(envelope.value) ==>
                       forall event | StandsFor(event, envelope.value) :: Absorbed(Run(OpsOf(logs, s.trace)), event))
  {
    TraceInLogs<SweepCall>(logs, actions);
    var s := RunActions(Lengths(logs), Initial<SweepCall>(Lengths(logs)), actions);
    if o < s.committed[p] {
      BelowHiHappened(s.trace, p, o);
      Routing(logs[p][o]);
      RefusedIffConflicts(Run(OpsOf(logs, s.trace)), logs[p][o]);
      match Decode(logs[p][o])
      case Act(event) =>
        TraceDelivers(logs, s.trace, p, o);
        OpsComeFromLogs(logs, s.trace);
        RunProjects(OpsOf(logs, s.trace), event.Key());
        ExtremesDominate(OpsOf(logs, s.trace), Deliver(event), event.Key());
      case Poison(reason) =>
        var e: Entry<SweepCall> := Record(p, o);
        assert FromMessage(logs[p][o], p, o, reason) in LetterOf(logs, Poisoned, e);
        DlqIffPoisoned(logs, Poisoned, s.trace, FromMessage(logs[p][o], p, o, reason));
        assert LetterFor(FromMessage(logs[p][o], p, o, reason), logs[p][o], p, o, reason);
      case Skip =>
    }
  }
}
