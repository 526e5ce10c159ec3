/**
 * The effect-then-commit protocol shared by both Kafka consumers: poll a record, make its
 * effect durable, then commit its offset.  Any exception stops the worker, which starts again
 * from the committed offsets; an operator may also rewind a partition.  The trace lists the
 * durable effects in the order in which they happened, interleaved with other writers.
 */
module ConsumerProtocol {
  /** Where one call of process fails.  A commit may take effect and still report an error. */
  datatype Fault = NoFault | BeforeEffect | AfterEffect | CommitRaised(tookEffect: bool)

  datatype Entry<+X> = Record(partition: nat, offset: nat) | External(write: X)

  datatype State<+X> = State(committed: seq<nat>, position: seq<nat>, trace: seq<Entry<X>>)

  datatype Action<+X> =
    | Process(partition: nat, fault: Fault)
    | Restart
    | Rewind(partition: nat, offset: nat)
    | Other(write: X)

  function Zeros(n: nat): seq<nat> { seq(n, _ => 0) }

  /** Without a committed offset a group starts at the earliest record. */
  function Initial<X>(lengths: seq<nat>): State<X> {
    State(Zeros(|lengths|), Zeros(|lengths|), [])
  }

  predicate CanPoll<X>(lengths: seq<nat>, s: State<X>, p: nat) {
    p < |lengths| && p < |s.position| && p < |s.committed| && s.position[p] < lengths[p]
  }

  function Restarted<X>(s: State<X>): State<X> { s.(position := s.committed) }

  /** The polled record of the partition has its durable effect. */
  function Effected<X>(s: State<X>, p: nat): State<X>
    requires p < |s.position|
  {
    s.(trace := s.trace + [Record(p, s.position[p])])
  }

  function Transition<X>(lengths: seq<nat>, s: State<X>, a: Action<X>): State<X> {
    match a
    case Process(p, fault) =>
      if !CanPoll(lengths, s, p) then s
      else
        var o := s.position[p];
        var effected := Effected(s, p);
        (match fault
         case NoFault => effected.(committed := s.committed[p := o + 1], position := s.position[p := o + 1])
         case BeforeEffect => Restarted(s)
         case AfterEffect => Restarted(effected)
         case CommitRaised(tookEffect) =>
           Restarted(if tookEffect then effected.(committed := s.committed[p := o + 1]) else effected))
    case Restart => Restarted(s)
    case Rewind(p, o) =>
      if p < |s.committed| && o <= s.committed[p]
      then Restarted(s.(committed := s.committed[p := o]))
      else s
    case Other(write) => s.(trace := s.trace + [External(write)])
  }

  function RunActions<X>(lengths: seq<nat>, s: State<X>, actions: seq<Action<X>>): State<X> {
    if actions == [] then s
    else Transition(lengths, RunActions(lengths, s, actions[..|actions| - 1]), actions[|actions| - 1])
  }

  lemma RunNoActions<X>(lengths: seq<nat>, s: State<X>)
    ensures RunActions(lengths, s, []) == s
  {
  }

  lemma RunOneMore<X>(lengths: seq<nat>, s: State<X>, actions: seq<Action<X>>, a: Action<X>)
    ensures RunActions(lengths, s, actions + [a]) == Transition(lengths, RunActions(lengths, s, actions), a)
  {
    assert (actions + [a])[..|actions|] == actions;
  }

  lemma {:induction false} RunMore<X>(lengths: seq<nat>, s: State<X>, actions: seq<Action<X>>, more: seq<Action<X>>)
    ensures RunActions(lengths, s, actions + more) == RunActions(lengths, RunActions(lengths, s, actions), more)
  {
    if more == [] {
      assert actions + more == actions;
    } else {
      var rest, last := more[..|more| - 1], more[|more| - 1];
      assert more == rest + [last] && actions + more == actions + rest + [last];
      RunMore(lengths, s, actions, rest);
      RunOneMore(lengths, s, actions + rest, last);
    }
  }

  /** One past the highest offset of the partition whose effect ever happened. */
  function Hi<X>(trace: seq<Entry<X>>, p: nat): nat {
    if trace == [] then 0
    else
      var rest, last := Hi(trace[..|trace| - 1], p), trace[|trace| - 1];
      if last.Record? && last.partition == p && last.offset >= rest then last.offset + 1 else rest
  }

  /** No effect ever skips a record: each offset is at most one past those seen before. */
  ghost predicate GapFree<X>(trace: seq<Entry<X>>) {
    trace == [] ||
    (var rest, last := trace[..|trace| - 1], trace[|trace| - 1];
     GapFree(rest) && (last.Record? ==> last.offset <= Hi(rest, last.partition)))
  }

  /** Offsets, committed or about to be polled, never pass the durable effects. */
  ghost predicate Safe<X>(lengths: seq<nat>, s: State<X>) {
    && |s.committed| == |s.position| == |lengths|
    && (forall p: nat | p < |lengths| ::
          && s.committed[p] <= Hi(s.trace, p) <= lengths[p]
          && s.position[p] <= Hi(s.trace, p))
    && (forall p: nat | p >= |lengths| :: Hi(s.trace, p) == 0)
    && GapFree(s.trace)
  }

  lemma SafeShape<X>(lengths: seq<nat>, s: State<X>)
    requires Safe(lengths, s)
    ensures |s.committed| == |s.position| == |lengths|
  {
  }

  lemma PollableIff<X>(lengths: seq<nat>, s: State<X>, p: nat)
    requires |s.committed| == |s.position| == |lengths|
    ensures CanPoll(lengths, s, p) <==> p < |lengths| && s.position[p] < lengths[p]
  {
  }

  lemma NothingToPoll<X>(lengths: seq<nat>, s: State<X>, p: nat)
    requires !CanPoll(lengths, s, p)
    ensures forall fault :: Transition(lengths, s, Process(p, fault)) == s
  {
  }

  lemma HiAppend<X>(trace: seq<Entry<X>>, e: Entry<X>, p: nat)
    ensures Hi(trace + [e], p) ==
            if e.Record? && e.partition == p && e.offset >= Hi(trace, p) then e.offset + 1 else Hi(trace, p)
    ensures GapFree(trace + [e]) <==> GapFree(trace) && (e.Record? ==> e.offset <= Hi(trace, e.partition))
  {
    assert (trace + [e])[..|trace|] == trace;
  }

  lemma EffectIsSafe<X>(lengths: seq<nat>, s: State<X>, p: nat)
    requires Safe(lengths, s) && CanPoll(lengths, s, p)
    ensures Safe(lengths, Effected(s, p))
    ensures s.position[p] < Hi(Effected(s, p).trace, p)
    ensures forall q :: q != p ==> Hi(Effected(s, p).trace, q) == Hi(s.trace, q)
    ensures Hi(Effected(s, p).trace, p) == if s.position[p] == Hi(s.trace, p) then s.position[p] + 1 else Hi(s.trace, p)
  {
    forall q { HiAppend(s.trace, Record(p, s.position[p]), q); }
  }

  lemma ExternalIsSafe<X>(lengths: seq<nat>, s: State<X>, write: X)
    requires Safe(lengths, s)
    ensures Safe(lengths, s.(trace := s.trace + [External(write)]))
    ensures forall q :: Hi(s.trace + [External(write)], q) == Hi(s.trace, q)
  {
    forall q { HiAppend(s.trace, External(write), q); }
  }

  lemma TransitionIsSafe<X>(lengths: seq<nat>, s: State<X>, a: Action<X>)
    requires Safe(lengths, s)
    ensures Safe(lengths, Transition(lengths, s, a))
  {
    match a
    case Process(p, fault) =>
      if CanPoll(lengths, s, p) {
        EffectIsSafe(lengths, s, p);
      }
    case Restart =>
    case Rewind(p, o) =>
    case Other(write) => ExternalIsSafe(lengths, s, write);
  }

  /** Every run of polls, effects, crashes, failed commits, restarts and rewinds is safe. */
  lemma {:induction false} RunIsSafe<X>(lengths: seq<nat>, s: State<X>, actions: seq<Action<X>>)
    requires Safe(lengths, s)
    ensures Safe(lengths, RunActions(lengths, s, actions))
  {
    if actions != [] {
      RunIsSafe(lengths, s, actions[..|actions| - 1]);
      TransitionIsSafe(lengths, RunActions(lengths, s, actions[..|actions| - 1]), actions[|actions| - 1]);
    }
  }

  lemma InitialIsSafe<X>(lengths: seq<nat>)
    ensures Safe(lengths, Initial<X>(lengths))
  {
  }

  /** Every offset below the mark has had its effect. */
  lemma {:induction false} BelowHiHappened<X>(trace: seq<Entry<X>>, p: nat, o: nat)
    requires GapFree(trace) && o < Hi(trace, p)
    ensures Record(p, o) in trace
  {
    var rest, last := trace[..|trace| - 1], trace[|trace| - 1];
    if o < Hi(rest, p) {
      BelowHiHappened(rest, p, o);
      assert Record(p, o) in rest;
    }
  }

  /** Every effect that happened is below the mark of its partition. */
  lemma {:induction false} HappenedBelowHi<X>(trace: seq<Entry<X>>, p: nat, o: nat)
    requires Record(p, o) in trace
    ensures o < Hi(trace, p)
  {
    var rest, last := trace[..|trace| - 1], trace[|trace| - 1];
    assert trace == rest + [last];
    if Record(p, o) in rest {
      HappenedBelowHi(rest, p, o);
    }
  }

  /** Without rewinds at most one record per partition is ever ahead of the committed offset. */
  ghost predicate Tight<X>(lengths: seq<nat>, s: State<X>) {
    && Safe(lengths, s)
    && forall p: nat | p < |lengths| ::
         && s.position[p] == s.committed[p]
         && Hi(s.trace, p) <= s.committed[p] + 1
  }

  lemma TransitionIsTight<X>(lengths: seq<nat>, s: State<X>, a: Action<X>)
    requires Tight(lengths, s) && !a.Rewind?
    ensures Tight(lengths, Transition(lengths, s, a))
  {
    TransitionIsSafe(lengths, s, a);
    match a
    case Process(p, fault) =>
      if CanPoll(lengths, s, p) {
        EffectIsSafe(lengths, s, p);
      }
    case Restart =>
    case Other(write) => ExternalIsSafe(lengths, s, write);
  }

  lemma {:induction false} WithoutRewindsTight<X>(lengths: seq<nat>, actions: seq<Action<X>>)
    requires forall a | a in actions :: !a.Rewind?
    ensures Tight(lengths, RunActions(lengths, Initial<X>(lengths), actions))
  {
    if actions == [] {
      InitialIsSafe<X>(lengths);
    } else {
      WithoutRewindsTight(lengths, actions[..|actions| - 1]);
      TransitionIsTight(lengths, RunActions(lengths, Initial<X>(lengths), actions[..|actions| - 1]), actions[|actions| - 1]);
    }
  }
}
