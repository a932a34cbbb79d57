/** What becomes of a delivery: why it is dead-lettered, when it is retried, and how long the retry waits. */
module NotificationFates {
  import opened Basics
  import opened NotificationProtocol
  import opened NotificationSafety

  // ---- Dead letters ----

  /** The handler has failed on the message with this id, and its retry could not be published. */
  function RefusedAt(s: State, l: Label): set<nat> {
    if l == Handle(Failure(false)) && s.unacked.Some? then {s.unacked.value.msg.id} else {}
  }

  ghost function RefusedIn(c: Config, s: State, labels: seq<Label>): set<nat>
    requires IsRun(c, s, labels)
    decreases |labels|
  {
    if labels == [] then {} else RefusedAt(s, labels[0]) + RefusedIn(c, Step(c, s, labels[0]), labels[1..])
  }

  /** All its retries have been used up, each after a run of the handler. */
  predicate Exhausted(c: Config, m: Msg) {
    RetryCountOf(m) == c.maxRetries && m.handled >= c.maxRetries + 1
  }

  /** Every dead letter, and every one about to be, has a cause. */
  ghost predicate CausesOk(c: Config, s: State, refused: set<nat>) {
    && (forall i :: 0 <= i < |s.dlq| ==>
          if s.dlq[i].sendFailed then s.dlq[i].msg.id in refused else Exhausted(c, s.dlq[i].msg))
    && (s.unacked.Some? && s.frames == [Nack(true)] ==> s.unacked.value.msg.id in refused)
    && (s.unacked.Some? && s.frames == [Nack(false)] ==> Exhausted(c, s.unacked.value.msg))
  }

  lemma CausesStep(c: Config, s: State, l: Label, refused: set<nat>)
    requires Inv(c, s) && Enabled(c, s, l) && CausesOk(c, s, refused)
    ensures CausesOk(c, Step(c, s, l), refused + RefusedAt(s, l))
  {
    if l.Handle? {
      HandleCause(c, s, l.outcome);
    } else if l.Process? {
      ProcessCause(c, s, refused);
    }
  }

  lemma HandleCause(c: Config, s: State, outcome: Outcome)
    requires Inv(c, s) && Enabled(c, s, Handle(outcome))
    ensures var s' := Step(c, s, Handle(outcome));
            && s'.dlq == s.dlq
            && (s'.frames == [Nack(true)] ==> s'.unacked.value.msg.id in RefusedAt(s, Handle(outcome)))
            && (s'.frames == [Nack(false)] ==> Exhausted(c, s'.unacked.value.msg))
  {
    var s' := Step(c, s, Handle(outcome));
    assert s'.frames == Emit(c, s'.unacked.value.msg, outcome);
    assert MsgOk(c, s, s.unacked.value.msg, InMain);
    if s'.frames == [Nack(true)] || s'.frames == [Nack(false)] {
      assert s'.frames[0] == Emit(c, s'.unacked.value.msg, outcome)[0];
    }
  }

  lemma ProcessCause(c: Config, s: State, refused: set<nat>)
    requires Inv(c, s) && Enabled(c, s, Process) && CausesOk(c, s, refused)
    ensures CausesOk(c, Step(c, s, Process), refused)
  {
    if s.frames[0].Nack? {
      BumpCounts(s.unacked.value.msg.deaths, MainQueue, Rejected);
      assert s.frames == [s.frames[0]];
    } else if s.frames[0].ToRetry? {
      assert Step(c, s, Process).frames == [Ack];
      assert Step(c, s, Process).frames[0] == Ack;
    }
  }

  lemma {:induction false} CausesRun(c: Config, s: State, labels: seq<Label>, refused: set<nat>)
    requires Inv(c, s) && IsRun(c, s, labels) && CausesOk(c, s, refused)
    ensures CausesOk(c, End(c, s, labels), refused + RefusedIn(c, s, labels))
    decreases |labels|
  {
    if labels == [] {
      assert refused + {} == refused;
    } else {
      StepInv(c, s, labels[0]);
      CausesStep(c, s, labels[0], refused);
      CausesRun(c, Step(c, s, labels[0]), labels[1..], refused + RefusedAt(s, labels[0]));
      assert refused + RefusedAt(s, labels[0]) + RefusedIn(c, Step(c, s, labels[0]), labels[1..])
          == refused + RefusedIn(c, s, labels);
    }
  }

  /** In every run a dead letter has used up its retries and been handled at least maxRetries + 1 times, or
      the run holds a failure of that message whose retry could not be published; which of the two, the
      letter's flag tells. */
  lemma DeadLettersHaveCause(c: Config, labels: seq<Label>, i: nat)
    requires IsRun(c, INIT, labels) && i < |End(c, INIT, labels).dlq|
    ensures var d := End(c, INIT, labels).dlq[i];
            if d.sendFailed then d.msg.id in RefusedIn(c, INIT, labels)
            else RetryCountOf(d.msg) == c.maxRetries && d.msg.handled >= c.maxRetries + 1
  {
    CausesRun(c, INIT, labels, {});
  }

  lemma {:induction false} NothingRefused(c: Config, s: State, labels: seq<Label>)
    requires IsRun(c, s, labels) && Handle(Failure(false)) !in labels
    ensures RefusedIn(c, s, labels) == {}
    decreases |labels|
  {
    if labels != [] {
      NothingRefused(c, Step(c, s, labels[0]), labels[1..]);
    }
  }

  /** So while publishing works, no message is given up before its last retry. */
  lemma GivenUpOnlyAfterLastRetry(c: Config, labels: seq<Label>, i: nat)
    requires IsRun(c, INIT, labels) && Handle(Failure(false)) !in labels && i < |End(c, INIT, labels).dlq|
    ensures var m := End(c, INIT, labels).dlq[i].msg;
            RetryCountOf(m) == c.maxRetries && m.handled >= c.maxRetries + 1
  {
    NothingRefused(c, INIT, labels);
    DeadLettersHaveCause(c, labels, i);
  }

  // ---- What the broker makes of an outcome ----

  /** The channel is read to the end, and the delivery is settled. */
  predicate Settled(s: State) {
    s.frames == [] && s.unacked.None?
  }

  lemma ThenProcess(c: Config, s: State, l: Label)
    requires Enabled(c, s, l) && Enabled(c, Step(c, s, l), Process)
    ensures IsRun(c, s, [l, Process]) && End(c, s, [l, Process]) == Step(c, Step(c, s, l), Process)
  {
    assert [l, Process][1..] == [Process] && [Process][1..] == [];
    assert End(c, s, [l, Process]) == End(c, Step(c, s, l), [Process]);
  }

  /** A handler that succeeds leaves nothing behind in the retry queue or among the dead letters. */
  lemma SuccessIsAcknowledged(c: Config, s: State)
    requires Inv(c, s) && Enabled(c, s, Handle(Success))
    ensures var labels := [Handle(Success), Process];
            && IsRun(c, s, labels)
            && var s' := End(c, s, labels);
            && Settled(s') && s'.retry == s.retry && s'.dlq == s.dlq && s'.main == s.main
            && s.unacked.value.msg.id in s'.succeeded
  {
    ThenProcess(c, s, Handle(Success));
  }

  /** A handler that fails with retries left is tried again: a copy waits for the time to live, and there is
      no dead letter. */
  lemma FailureIsRetried(c: Config, s: State)
    requires Inv(c, s) && Enabled(c, s, Handle(Failure(true)))
    requires RetryCountOf(s.unacked.value.msg) < c.maxRetries
    ensures var labels := [Handle(Failure(true)), Process] + [Process];
            && IsRun(c, s, labels)
            && var s', m := End(c, s, labels), s.unacked.value.msg;
            && Settled(s') && s'.retry == s.retry + [Parked(m.(handled := m.handled + 1), s.now + c.ttl)]
            && s'.dlq == s.dlq && s'.main == s.main && s'.succeeded == s.succeeded
  {
    var s1 := Step(c, s, Handle(Failure(true)));
    assert s1.frames == [ToRetry(s1.unacked.value.msg), Ack];
    RetryIsParked(c, s1);
    ThenProcess(c, s, Handle(Failure(true)));
    RunExtends(c, s, [Handle(Failure(true)), Process], Process);
  }

  lemma RetryIsParked(c: Config, s: State)
    requires s.unacked.Some? && s.frames == [ToRetry(s.unacked.value.msg), Ack]
    ensures Enabled(c, s, Process) && Enabled(c, Step(c, s, Process), Process)
    ensures Step(c, Step(c, s, Process), Process)
         == s.(frames := [], unacked := None, retry := s.retry + [Parked(s.unacked.value.msg, s.now + c.ttl)])
  {
    assert Step(c, s, Process).frames == [Ack];
  }

  /** One that fails with none left, or whose retry cannot be published, becomes a dead letter, and nothing
      waits. */
  lemma FailureIsGivenUp(c: Config, s: State, sendOk: bool)
    requires Inv(c, s) && Enabled(c, s, Handle(Failure(sendOk)))
    requires !sendOk || RetryCountOf(s.unacked.value.msg) >= c.maxRetries
    ensures var labels := [Handle(Failure(sendOk)), Process];
            && IsRun(c, s, labels)
            && var s', m := End(c, s, labels), s.unacked.value.msg;
            && Settled(s') && s'.retry == s.retry && s'.main == s.main && s'.succeeded == s.succeeded
            && |s'.dlq| == |s.dlq| + 1 && s'.dlq[..|s.dlq|] == s.dlq
            && s'.dlq[|s.dlq|].msg.id == m.id && s'.dlq[|s.dlq|].msg.handled == m.handled + 1
            && (s'.dlq[|s.dlq|].sendFailed <==> RetryCountOf(m) < c.maxRetries)
  {
    ThenProcess(c, s, Handle(Failure(sendOk)));
  }

  /** No more than what was there before has been parked or dead-lettered. */
  predicate NothingNew(s: State, s': State) {
    && s'.dlq == s.dlq
    && (forall p :: p in s'.retry ==> p in s.retry)
    && (s'.frames == [Ack] || s'.frames == [])
    && (s'.unacked.Some? ==> !s'.unacked.value.handling)
  }

  lemma {:induction false} NothingNewAlong(c: Config, s: State, s': State, labels: seq<Label>)
    requires IsRun(c, s', labels) && NothingNew(s, s')
    requires Deliver !in labels
    ensures NothingNew(s, End(c, s', labels))
    decreases |labels|
  {
    if labels != [] {
      assert labels[0] in labels;
      NothingNewAlong(c, s, Step(c, s', labels[0]), labels[1..]);
    }
  }

  /** Whatever happens after a success, a cut included, until the next delivery: this one leaves no dead
      letter and no parked copy. */
  lemma SuccessLeavesNothing(c: Config, s: State, labels: seq<Label>)
    requires Inv(c, s) && Enabled(c, s, Handle(Success))
    requires IsRun(c, Step(c, s, Handle(Success)), labels) && Deliver !in labels
    ensures var s' := End(c, Step(c, s, Handle(Success)), labels);
            s'.dlq == s.dlq && forall p :: p in s'.retry ==> p in s.retry
  {
    NothingNewAlong(c, s, Step(c, s, Handle(Success)), labels);
  }

  /** A cut loses the frames that the broker has not read, and brings the delivery back first of all. */
  lemma CutRedelivers(c: Config, s: State)
    requires Inv(c, s) && s.unacked.Some?
    ensures IsRun(c, s, [Cut, Deliver])
    ensures var s', m := End(c, s, [Cut, Deliver]), s.unacked.value.msg;
            && s'.frames == [] && s'.unacked.Some? && s'.unacked.value.handling
            && s'.unacked.value.msg.id == m.id && s'.unacked.value.msg.deaths == m.deaths
            && s'.main == s.main && s'.retry == s.retry && s'.dlq == s.dlq
  {
    assert [Cut, Deliver][1..] == [Deliver] && [Deliver][1..] == [];
    assert End(c, s, [Cut, Deliver]) == End(c, Step(c, s, Cut), [Deliver]);
  }

  // ---- How long a retry waits ----

  lemma TimePasses(c: Config, s: State, l: Label)
    requires Enabled(c, s, l)
    ensures s.now <= Step(c, s, l).now
  {
  }

  lemma {:induction false} TimePassesAlong(c: Config, s: State, labels: seq<Label>)
    requires IsRun(c, s, labels)
    ensures s.now <= End(c, s, labels).now
    decreases |labels|
  {
    if labels != [] {
      TimePassesAlong(c, Step(c, s, labels[0]), labels[1..]);
    }
  }

  lemma ParkedStays(c: Config, s: State, l: Label, p: Parked)
    requires Enabled(c, s, l) && p in s.retry && s.now < p.expiry
    ensures p in Step(c, s, l).retry
  {
    var i :| 0 <= i < |s.retry| && s.retry[i] == p;
    if l.Expire? {
      assert Step(c, s, l).retry[i - 1] == p;
    } else {
      assert Step(c, s, l).retry[i] == p;
    }
  }

  /** A parked copy waits until its expiry, whatever else happens. */
  lemma {:induction false} RetryWaits(c: Config, s: State, labels: seq<Label>, p: Parked)
    requires IsRun(c, s, labels) && p in s.retry && End(c, s, labels).now < p.expiry
    ensures p in End(c, s, labels).retry
    decreases |labels|
  {
    if labels != [] {
      TimePassesAlong(c, s, labels);
      ParkedStays(c, s, labels[0], p);
      RetryWaits(c, Step(c, s, labels[0]), labels[1..], p);
    }
  }
}
