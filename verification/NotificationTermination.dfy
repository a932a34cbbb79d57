/** Every notification comes to an end, and the handler sees each a bounded number of times. */
module NotificationTermination {
  import opened NotificationProtocol
  import opened NotificationSafety

  /** Two potentials: the steps left in the system, and the handler runs left for one message. */
  datatype Measure = Work | Runs(id: nat)

  function Left(c: Config, m: Msg): nat {
    if m.trips <= c.maxRetries then c.maxRetries - m.trips else 0
  }

  function Weigh(c: Config, k: Measure, place: Place, m: Msg): nat {
    match k
    case Work =>
      (match place
       case InMain => 6 * Left(c, m) + 5
       case Handled => 6 * Left(c, m) + 3
       case InRetry => 6 * Left(c, m) + 1
       case InDlq => 0)
    case Runs(id) =>
      if m.id != id then 0
      else (match place
            case InMain => Left(c, m) + 1
            case Handled => Left(c, m)
            case InRetry => Left(c, m)
            case InDlq => 0)
  }

  function MainWeight(c: Config, k: Measure, main: seq<Msg>): nat {
    if main == [] then 0 else Weigh(c, k, InMain, main[0]) + MainWeight(c, k, main[1..])
  }

  function RetryWeight(c: Config, k: Measure, retry: seq<Parked>): nat {
    if retry == [] then 0 else Weigh(c, k, InRetry, retry[0].msg) + RetryWeight(c, k, retry[1..])
  }

  /** The delivery in hand: to be handled, to be parked again, or only to be settled. */
  function HandWeight(c: Config, k: Measure, s: State): nat {
    match s.unacked
    case None => 0
    case Some(d) =>
      if d.handling then (if k.Work? then Weigh(c, k, InMain, d.msg) - 1 else Weigh(c, k, InMain, d.msg))
      else if |s.frames| >= 2 then Weigh(c, k, Handled, d.msg)
      else if k.Work? then 1 else 0
  }

  function Total(c: Config, k: Measure, s: State): nat {
    MainWeight(c, k, s.main) + RetryWeight(c, k, s.retry) + HandWeight(c, k, s)
  }

  /** What a new or redelivered copy adds at most. */
  function Fresh(c: Config, k: Measure): nat {
    if k.Work? then 6 * c.maxRetries + 5 else c.maxRetries + 1
  }

  lemma {:induction false} MainAppend(c: Config, k: Measure, main: seq<Msg>, m: Msg)
    ensures MainWeight(c, k, main + [m]) == MainWeight(c, k, main) + Weigh(c, k, InMain, m)
  {
    if main != [] {
      MainAppend(c, k, main[1..], m);
      assert (main + [m])[1..] == main[1..] + [m];
    } else {
      assert main + [m] == [m];
    }
  }

  lemma {:induction false} RetryAppend(c: Config, k: Measure, retry: seq<Parked>, p: Parked)
    ensures RetryWeight(c, k, retry + [p]) == RetryWeight(c, k, retry) + Weigh(c, k, InRetry, p.msg)
  {
    if retry != [] {
      RetryAppend(c, k, retry[1..], p);
      assert (retry + [p])[1..] == retry[1..] + [p];
    } else {
      assert retry + [p] == [p];
    }
  }

  /** A step of a message through the queues, as opposed to a new message, a cut or the clock. */
  predicate Moves(l: Label) {
    l.Deliver? || l.Handle? || l.Process? || l.Expire?
  }

  /** Every such step uses up work, and a handler run is paid for from the message's remaining runs. */
  lemma MovePays(c: Config, k: Measure, s: State, l: Label)
    requires Inv(c, s) && Enabled(c, s, l) && Moves(l)
    ensures k.Work? ==> Total(c, k, Step(c, s, l)) < Total(c, k, s)
    ensures k.Runs? ==> SeenOf(Step(c, s, l), k.id) + Total(c, k, Step(c, s, l)) <= SeenOf(s, k.id) + Total(c, k, s)
  {
    match l {
      case Deliver =>
      case Handle(outcome) => HandlePays(c, k, s, outcome);
      case Process => ProcessPays(c, k, s);
      case Expire => MainAppend(c, k, s.main, AfterExpiry(s.retry[0].msg));
      case _ =>
    }
  }

  lemma ProcessPays(c: Config, k: Measure, s: State)
    requires Inv(c, s) && Enabled(c, s, Process)
    ensures k.Work? ==> Total(c, k, Step(c, s, Process)) < Total(c, k, s)
    ensures k.Runs? ==> Step(c, s, Process).seen == s.seen && Total(c, k, Step(c, s, Process)) <= Total(c, k, s)
  {
    if s.frames[0].ToRetry? {
      ParkPays(c, k, s);
    }
  }

  /** A copy parked for a retry has been paid for by the delivery in hand. */
  lemma ParkPays(c: Config, k: Measure, s: State)
    requires Inv(c, s) && Enabled(c, s, Process) && s.frames[0].ToRetry?
    ensures k.Work? ==> Total(c, k, Step(c, s, Process)) < Total(c, k, s)
    ensures k.Runs? ==> Total(c, k, Step(c, s, Process)) <= Total(c, k, s)
  {
    RetryAppend(c, k, s.retry, Parked(s.frames[0].msg, s.now + c.ttl));
  }

  lemma HandlePays(c: Config, k: Measure, s: State, outcome: Outcome)
    requires Inv(c, s) && Enabled(c, s, Handle(outcome))
    ensures var s' := Step(c, s, Handle(outcome));
            && (k.Work? ==> Total(c, k, s') < Total(c, k, s))
            && (k.Runs? ==> SeenOf(s', k.id) + Total(c, k, s') <= SeenOf(s, k.id) + Total(c, k, s))
  {
    var s' := Step(c, s, Handle(outcome));
    assert s'.frames == Emit(c, s'.unacked.value.msg, outcome);
    assert s'.main == s.main && s'.retry == s.retry;
  }

  /** A new message or a cut adds at most one fresh copy. */
  lemma RestartAdds(c: Config, k: Measure, s: State, l: Label)
    requires Inv(c, s) && Enabled(c, s, l) && !Moves(l)
    ensures Step(c, s, l).seen == s.seen
    ensures Total(c, k, Step(c, s, l)) <= Total(c, k, s) + if Restarts(k, l) then Fresh(c, k) else 0
  {
    match l {
      case Publish(id) => MainAppend(c, k, s.main, Msg(id, [], 0, 0, 0));
      case Cut =>
        if s.unacked.Some? {
          assert Step(c, s, l).main[1..] == s.main;
        }
      case _ =>
    }
  }

  predicate Restarts(k: Measure, l: Label) {
    l.Cut? || (l.Publish? && (k.Work? || k.id == l.id))
  }

  function CountMoves(labels: seq<Label>): nat {
    if labels == [] then 0 else (if Moves(labels[0]) then 1 else 0) + CountMoves(labels[1..])
  }

  function CountRestarts(k: Measure, labels: seq<Label>): nat {
    if labels == [] then 0 else (if Restarts(k, labels[0]) then 1 else 0) + CountRestarts(k, labels[1..])
  }

  /** What the restarts of a run add in all. */
  function Added(c: Config, k: Measure, labels: seq<Label>): nat {
    if labels == [] then 0 else (if Restarts(k, labels[0]) then Fresh(c, k) else 0) + Added(c, k, labels[1..])
  }

  lemma {:induction false} AddedIs(c: Config, k: Measure, labels: seq<Label>)
    ensures Added(c, k, labels) == CountRestarts(k, labels) * Fresh(c, k)
  {
    if labels != [] {
      AddedIs(c, k, labels[1..]);
      Distribute(if Restarts(k, labels[0]) then 1 else 0, CountRestarts(k, labels[1..]), Fresh(c, k));
    }
  }

  lemma Distribute(a: nat, b: nat, f: nat)
    ensures (a + b) * f == a * f + b * f
  {
  }

  function CountCuts(labels: seq<Label>): nat {
    if labels == [] then 0 else (if labels[0].Cut? then 1 else 0) + CountCuts(labels[1..])
  }

  lemma {:induction false} Paid(c: Config, k: Measure, s: State, labels: seq<Label>)
    requires Inv(c, s) && IsRun(c, s, labels)
    ensures k.Work? ==> CountMoves(labels) + Total(c, k, End(c, s, labels)) <= Total(c, k, s) + Added(c, k, labels)
    ensures k.Runs? ==> SeenOf(End(c, s, labels), k.id) + Total(c, k, End(c, s, labels))
                        <= SeenOf(s, k.id) + Total(c, k, s) + Added(c, k, labels)
    decreases |labels|
  {
    if labels != [] {
      var l := labels[0];
      StepInv(c, s, l);
      if Moves(l) {
        MovePays(c, k, s, l);
      } else {
        RestartAdds(c, k, s, l);
      }
      Paid(c, k, Step(c, s, l), labels[1..]);
    }
  }

  /** Termination: with finitely many messages and cuts there are finitely many steps, at most 6 R + 5 for
      each message and each cut, where R is maxRetries. */
  lemma StepsAreBounded(c: Config, labels: seq<Label>)
    requires IsRun(c, INIT, labels)
    ensures CountMoves(labels) <= CountRestarts(Work, labels) * (6 * c.maxRetries + 5)
  {
    Paid(c, Work, INIT, labels);
    AddedIs(c, Work, labels);
  }

  /** A message is published once, so its restarts are that and the cuts. */
  lemma {:induction false} PublishedOnce(c: Config, s: State, labels: seq<Label>, id: nat)
    requires IsRun(c, s, labels)
    ensures CountRestarts(Runs(id), labels) <= CountCuts(labels) + if id in s.published then 0 else 1
    decreases |labels|
  {
    if labels != [] {
      PublishedOnce(c, Step(c, s, labels[0]), labels[1..], id);
    }
  }

  /** The handler sees a message at most maxRetries + 1 times, and as many times again for each cut. */
  lemma HandlerRunsPerMessage(c: Config, labels: seq<Label>, id: nat)
    requires IsRun(c, INIT, labels)
    ensures SeenOf(End(c, INIT, labels), id) <= (1 + CountCuts(labels)) * (c.maxRetries + 1)
  {
    Paid(c, Runs(id), INIT, labels);
    AddedIs(c, Runs(id), labels);
    PublishedOnce(c, INIT, labels, id);
    MoreTimes(CountRestarts(Runs(id), labels), 1 + CountCuts(labels), c.maxRetries + 1);
  }

  lemma MoreTimes(a: nat, b: nat, f: nat)
    requires a <= b
    ensures a * f <= b * f
  {
  }

  /** No message is on its way any more: each has been handled successfully or is in the dead-letter queue. */
  predicate AllEnded(s: State) {
    && s.main == [] && s.unacked.None? && s.retry == []
    && forall id :: id in s.published ==> id in s.succeeded || exists i :: 0 <= i < |s.dlq| && s.dlq[i].msg.id == id
  }

  /** The next step when nothing new arrives: settle the delivery in hand, else deliver, else release the
      retry queue, for which the clock may have to advance. */
  function Next(s: State, policy: Msg -> Outcome): Label
    requires s.unacked.Some? || s.main != [] || s.retry != []
  {
    if s.frames != [] then Process
    else if s.unacked.Some? then Handle(policy(s.unacked.value.msg))
    else if s.main != [] then Deliver
    else if s.retry[0].expiry <= s.now then Expire
    else Tick
  }

  /** Whatever the handler does, from every reachable state the messages on their way all come to an end. */
  lemma EveryMessageEnds(c: Config, s: State, policy: Msg -> Outcome) returns (labels: seq<Label>)
    requires Inv(c, s)
    ensures IsRun(c, s, labels) && forall i :: 0 <= i < |labels| ==> Moves(labels[i]) || labels[i].Tick?
    ensures AllEnded(End(c, s, labels))
    decreases Total(c, Work, s), if s.retry != [] && s.retry[0].expiry > s.now then s.retry[0].expiry - s.now else 0
  {
    if s.unacked.Some? || s.main != [] || s.retry != [] {
      var l := Next(s, policy);
      StepInv(c, s, l);
      if Moves(l) {
        MovePays(c, Work, s, l);
      } else {
        RestartAdds(c, Work, s, l);
      }
      var rest := EveryMessageEnds(c, Step(c, s, l), policy);
      labels := [l] + rest;
      assert labels[1..] == rest;
    } else {
      labels := [];
    }
  }
}
