/** Which dead letters a trace of effects leaves, for either consumer's notion of a poison record. */
module PoisonTrace {
  import opened Wrappers
  import opened ConsumerProtocol
  import opened SourceMessages
  import opened DeadLetters

  type Poison = Message -> Option<FailureReason>

  predicate InLogs<X>(logs: Logs, e: Entry<X>) {
    e.Record? ==> e.partition < |logs| && e.offset < |logs[e.partition]|
  }

  function LetterOf<X>(logs: Logs, poison: Poison, e: Entry<X>): seq<DeadLetterRecord>
    requires InLogs(logs, e)
  {
    if e.External? then []
    else
      var m := logs[e.partition][e.offset];
      match poison(m)
      case Some(reason) => [FromMessage(m, e.partition, e.offset, reason)]
      case None => []
  }

  /** The dead-letter topic after the effects of a trace. */
  function DlqOf<X>(logs: Logs, poison: Poison, trace: seq<Entry<X>>): seq<DeadLetterRecord>
    requires forall e | e in trace :: InLogs(logs, e)
  {
    if trace == [] then []
    else DlqOf(logs, poison, trace[..|trace| - 1]) + LetterOf(logs, poison, trace[|trace| - 1])
  }

  lemma DlqAppend<X>(logs: Logs, poison: Poison, trace: seq<Entry<X>>, e: Entry<X>)
    requires InLogs(logs, e) && forall f | f in trace :: InLogs(logs, f)
    ensures DlqOf(logs, poison, trace + [e]) == DlqOf(logs, poison, trace) + LetterOf(logs, poison, e)
  {
    assert (trace + [e])[..|trace|] == trace;
  }

  /** A letter is on the topic exactly when some effect put it there. */
  lemma {:induction false} DlqIffPoisoned<X>(logs: Logs, poison: Poison, trace: seq<Entry<X>>, letter: DeadLetterRecord)
    requires forall e | e in trace :: InLogs(logs, e)
    ensures letter in DlqOf(logs, poison, trace) <==> exists e | e in trace :: letter in LetterOf(logs, poison, e)
  {
    if trace != [] {
      var rest, last := trace[..|trace| - 1], trace[|trace| - 1];
      assert trace == rest + [last];
      DlqIffPoisoned(logs, poison, rest, letter);
    }
  }

  /** In every reachable state the trace stays within the logs. */
  lemma TraceInLogs<X>(logs: Logs, actions: seq<Action<X>>)
    ensures var s := RunActions(Lengths(logs), Initial<X>(Lengths(logs)), actions);
            && Safe(Lengths(logs), s)
            && forall e | e in s.trace :: InLogs(logs, e)
  {
    var s := RunActions(Lengths(logs), Initial<X>(Lengths(logs)), actions);
    InitialIsSafe<X>(Lengths(logs));
    RunIsSafe(Lengths(logs), Initial<X>(Lengths(logs)), actions);
    forall e | e in s.trace && e.Record? ensures InLogs(logs, e) {
      HappenedBelowHi(s.trace, e.partition, e.offset);
    }
  }
}
