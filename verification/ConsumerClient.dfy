/** The Kafka consumer group as the workers use it: positions, synchronous commits, restarts. */
module ConsumerClient {
  import opened Wrappers
  import opened ConsumerProtocol
  import opened SourceMessages
  import opened DeadLetters

  /** How a call of process ends when it does not return. */
  datatype WorkerError = Crashed | DlqPublishFailed | CommitFailed | DatabaseFailed

  class Consumer {
    var committed: seq<nat>
    var position: seq<nat>

    constructor (partitions: nat)
      ensures committed == position == Zeros(partitions)
    {
      committed, position := Zeros(partitions), Zeros(partitions);
    }

    method Poll(p: nat) returns (offset: nat)
      requires p < |position|
      modifies this`position
      ensures offset == old(position[p]) && position == old(position)[p := offset + 1]
    {
      offset := position[p];
      position := position[p := offset + 1];
    }

    /** Commit one past the offset; false means that an error was raised, with or without effect. */
    method Commit(p: nat, offset: nat, fault: Fault) returns (ok: bool)
      requires p < |committed|
      modifies this`committed
      ensures ok == !fault.CommitRaised?
      ensures committed == if fault == CommitRaised(false) then old(committed) else old(committed)[p := offset + 1]
    {
      if fault != CommitRaised(false) {
        committed := committed[p := offset + 1];
      }
      return !fault.CommitRaised?;
    }

    /** The process may die here, with the effect made and the offset not; otherwise the offset is committed. */
    method CommitAfterEffect(p: nat, offset: nat, fault: Fault) returns (r: Result<(), WorkerError>)
      requires p < |committed| && !fault.BeforeEffect?
      modifies this
      ensures r.Success? <==> fault.NoFault?
      ensures committed == if fault.NoFault? || fault == CommitRaised(true) then old(committed)[p := offset + 1] else old(committed)
      ensures position == if fault.NoFault? then old(position) else committed
    {
      if fault == AfterEffect {
        Restart();
        return Failure(Crashed);
      }
      var ok := Commit(p, offset, fault);
      if !ok {
        Restart();
        return Failure(CommitFailed);
      }
      return Success(());
    }

    /** A stopped worker is started again and reads from the committed offsets. */
    method Restart()
      modifies this`position
      ensures position == committed
    {
      position := committed;
    }
  }

  /** One thing the environment does next: which partition delivers, what fails, how the broker behaves. */
  datatype Delivery = Delivery(partition: nat, fault: Fault, broker: Broker)

  /** How many of these polls returned a record of the partition. */
  function PollsOf(polls: seq<Option<Delivery>>, p: nat): nat {
    if polls == [] then 0
    else
      var last := polls[|polls| - 1];
      PollsOf(polls[..|polls| - 1], p) + if last.Some? && last.value.partition == p then 1 else 0
  }

  /** Every poll moved its partition one record forward, up to the end of the log. */
  ghost predicate KeptUp<X>(lengths: seq<nat>, before: seq<nat>, s: State<X>, polls: seq<Option<Delivery>>) {
    && |s.position| == |before| == |lengths|
    && forall p: nat | p < |lengths| ::
         s.position[p] == var reached := before[p] + PollsOf(polls, p); if reached <= lengths[p] then reached else lengths[p]
  }

  lemma KeptUpStart<X>(lengths: seq<nat>, s: State<X>)
    requires Safe(lengths, s)
    ensures KeptUp(lengths, s.position, s, [])
  {
  }

  /** A poll without a fault keeps up; one that finds nothing to read changes nothing. */
  lemma KeptUpPoll<X>(lengths: seq<nat>, before: seq<nat>, s: State<X>, polls: seq<Option<Delivery>>, poll: Option<Delivery>)
    requires KeptUp(lengths, before, s, polls) && |s.committed| == |lengths|
    ensures KeptUp(lengths, before,
                   if poll.Some? then Transition(lengths, s, Process(poll.value.partition, NoFault)) else s,
                   polls + [poll])
  {
    assert (polls + [poll])[..|polls|] == polls;
  }

  lemma KeptUpIsPositions<X>(lengths: seq<nat>, before: seq<nat>, s: State<X>, t: State<X>, polls: seq<Option<Delivery>>)
    requires KeptUp(lengths, before, s, polls) && s.position == t.position
    ensures KeptUp(lengths, before, t, polls)
  {
  }

  /** An action after which the worker is gone; a restart follows its own failed write. */
  predicate Fails<X>(a: Action<X>) { a.Restart? || (a.Process? && !a.fault.NoFault?) }

  ghost predicate Stopped<X>(actions: seq<Action<X>>) { actions != [] && Fails(actions[|actions| - 1]) }

  /** Nothing follows a failure. */
  ghost predicate OnlyLastFails<X>(actions: seq<Action<X>>) {
    forall j | 0 <= j < |actions| - 1 :: !Fails(actions[j])
  }

  /** The protocol fault that a failed dead-letter publish amounts to. */
  ghost function PublishFault(fault: Fault, broker: Broker): Fault {
    if fault.BeforeEffect? || broker.Acknowledges() then fault
    else if broker.appended then AfterEffect
    else BeforeEffect
  }
}
