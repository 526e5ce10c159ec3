/** The dead-letter topic, and what a publisher may conclude from callbacks and deadlines. */
module DeadLetters {
  import opened Wrappers
  import opened SourceMessages

  datatype FailureReason = InvalidGithubEventEnvelope | InvalidPrMonitorEvent

  /** Lineage and bytes of the poison record; the failure time and the fixed topic name are left out. */
  datatype DeadLetterRecord = DeadLetterRecord(
    failureReason: FailureReason, sourcePartition: nat, sourceOffset: nat, deliveryId: Option<string>,
    sourceKey: Option<string>, sourceValue: Option<string>)

  function FromMessage(m: Message, partition: nat, offset: nat, reason: FailureReason): DeadLetterRecord {
    DeadLetterRecord(reason, partition, offset, m.recoverableDeliveryId, m.key, m.value)
  }

  /** The letter has the position and the bytes of the record, and the reason. */
  ghost predicate LetterFor(letter: DeadLetterRecord, m: Message, p: nat, offset: nat, reason: FailureReason) {
    && letter.failureReason == reason
    && letter.sourcePartition == p
    && letter.sourceOffset == offset
    && letter.deliveryId == m.recoverableDeliveryId
    && letter.sourceKey == m.key
    && letter.sourceValue == m.value
  }

  datatype PollResult = Quiet | Delivered(rejected: bool) | PollRaised

  /** One iteration of the wait: the clock reading and what serving callbacks did. */
  datatype WaitStep = WaitStep(now: int, result: PollResult)

  /** How the producer and broker behave for one record; the deadline has passed once the steps run out. */
  datatype Broker = Broker(queued: bool, appended: bool, deadline: int, steps: seq<WaitStep>)
  {
    /** An error-free delivery callback is only given for a record that was queued and appended. */
    ghost predicate Sound() {
      && (appended ==> queued)
      && ((exists i :: 0 <= i < |steps| && steps[i].result == Delivered(false)) && queued ==> appended)
    }

    /** An error-free acknowledgement arrives before the deadline and before any failure. */
    ghost predicate Acknowledges() {
      queued && exists i :: 0 <= i < |steps| && AcknowledgedAt(i)
    }

    ghost predicate AcknowledgedAt(i: int)
      requires 0 <= i < |steps|
    {
      && steps[i].result == Delivered(false)
      && (forall j | 0 <= j <= i :: steps[j].now < deadline)
      && (forall j | 0 <= j < i :: steps[j].result.Quiet?)
    }
  }

  datatype PublishError = NotQueued | TimedOut | WaitFailed | Rejected

  class KafkaDlqPublisher {
    var topic: seq<DeadLetterRecord>

    constructor ()
      ensures topic == []
    {
      topic := [];
    }

    /**
     * Queue the record and serve callbacks until one concerns it.  Returning normally means an
     * error-free acknowledgement; raising says nothing about whether the record was appended.
     */
    method Publish(record: DeadLetterRecord, broker: Broker) returns (r: Result<(), PublishError>)
      requires broker.Sound()
      modifies this
      ensures r.Success? <==> broker.Acknowledges()
      ensures topic == if broker.appended then old(topic) + [record] else old(topic)
      ensures r.Success? ==> topic == old(topic) + [record]
    {
      if !broker.queued {
        return Failure(NotQueued);
      }
      if broker.appended {
        topic := topic + [record];
      }
      var completed, rejected, i := false, false, 0;
      while !completed
        invariant 0 <= i <= |broker.steps|
        invariant forall j | 0 <= j < i :: broker.steps[j].now < broker.deadline
        invariant !completed ==> forall j | 0 <= j < i :: broker.steps[j].result.Quiet?
        invariant completed ==> i > 0 && broker.steps[i - 1].result == Delivered(rejected)
                                && forall j | 0 <= j < i - 1 :: broker.steps[j].result.Quiet?
        decreases !completed, |broker.steps| - i
      {
        if i == |broker.steps| || broker.steps[i].now >= broker.deadline {
          return Failure(TimedOut);
        }
        match broker.steps[i].result {
          case Quiet =>
          case Delivered(error) => completed, rejected := true, error;
          case PollRaised => return Failure(WaitFailed);
        }
        i := i + 1;
      }
      if rejected {
        return Failure(Rejected);
      }
      assert broker.AcknowledgedAt(i - 1);
      return Success(());
    }
  }
}
