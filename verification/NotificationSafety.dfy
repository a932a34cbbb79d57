/** What the notification queues keep: no message is lost, the retry count is true, expiries are in order,
    and every message comes to an end. */
module NotificationSafety {
  import opened NotificationProtocol

  // ---- The invariant ----

  /** Where a copy is. The handler has run on a copy's current round in all places but the first. */
  datatype Place = InMain | Handled | InRetry | InDlq

  /** The x-death header tells the number of retry rounds of this copy, whatever else has happened to it. */
  ghost predicate MsgOk(c: Config, s: State, m: Msg, place: Place) {
    && m.id in s.published
    && Unique(m.deaths)
    && RetryCountOf(m) == m.trips <= c.maxRetries
    && m.handled == m.trips + m.repeats + (if place.InMain? then 0 else 1)
    && (place.InRetry? ==> m.trips < c.maxRetries)
  }

  ghost predicate DeadOk(c: Config, d: Dead) {
    d.sendFailed || RetryCountOf(d.msg) >= c.maxRetries
  }

  /** The frames the broker has not read are the end of what handleMessage wrote for the one delivery. */
  ghost predicate FramesOk(c: Config, s: State) {
    match s.unacked
    case None => s.frames == []
    case Some(d) =>
      && MsgOk(c, s, d.msg, if d.handling then InMain else Handled)
      && if d.handling then s.frames == []
         else
           || s.frames == [Ack]
           || (s.frames == [ToRetry(d.msg), Ack] && d.msg.trips < c.maxRetries)
           || (s.frames == [Nack(false)] && d.msg.trips >= c.maxRetries)
           || s.frames == [Nack(true)]
  }

  ghost predicate QueuesOk(c: Config, s: State) {
    && (forall i :: 0 <= i < |s.main| ==> MsgOk(c, s, s.main[i], InMain))
    && (forall i :: 0 <= i < |s.retry| ==> MsgOk(c, s, s.retry[i].msg, InRetry))
    && (forall i :: 0 <= i < |s.dlq| ==> MsgOk(c, s, s.dlq[i].msg, InDlq) && DeadOk(c, s.dlq[i]))
  }

  /** Expiry times never decrease along the retry queue. */
  ghost predicate Sorted(c: Config, s: State) {
    && (forall i, j :: 0 <= i < j < |s.retry| ==> s.retry[i].expiry <= s.retry[j].expiry)
    && (forall i :: 0 <= i < |s.retry| ==> s.retry[i].expiry <= s.now + c.ttl)
  }

  predicate Queued(s: State, id: nat) {
    || (exists i :: 0 <= i < |s.main| && s.main[i].id == id)
    || (exists i :: 0 <= i < |s.retry| && s.retry[i].msg.id == id)
    || (exists i :: 0 <= i < |s.dlq| && s.dlq[i].msg.id == id)
  }

  /** Some queue, or the broker's memory of the delivery, has a copy. */
  predicate HasCopy(s: State, id: nat) {
    Queued(s, id) || (s.unacked.Some? && s.unacked.value.msg.id == id)
  }

  /** No loss: a message not yet handled successfully has a copy, and one about to be acknowledged without
      success has another. */
  ghost predicate Covered(s: State) {
    && (forall id :: id in s.published && id !in s.succeeded ==> HasCopy(s, id))
    && (s.frames == [Ack] && s.unacked.Some? ==>
          s.unacked.value.msg.id in s.succeeded || Queued(s, s.unacked.value.msg.id))
  }

  ghost predicate Inv(c: Config, s: State) {
    FramesOk(c, s) && QueuesOk(c, s) && Sorted(c, s) && Covered(s)
  }

  lemma FramesKept(c: Config, s: State, l: Label)
    requires Inv(c, s) && Enabled(c, s, l)
    ensures FramesOk(c, Step(c, s, l))
  {
  }

  lemma MainKept(c: Config, s: State, l: Label)
    requires FramesOk(c, s) && QueuesOk(c, s) && Enabled(c, s, l)
    ensures var s' := Step(c, s, l); forall i :: 0 <= i < |s'.main| ==> MsgOk(c, s', s'.main[i], InMain)
  {
    if l.Expire? {
      BumpCounts(s.retry[0].msg.deaths, RetryQueue, Expired);
    }
  }

  lemma RetryKept(c: Config, s: State, l: Label)
    requires FramesOk(c, s) && QueuesOk(c, s) && Enabled(c, s, l)
    ensures var s' := Step(c, s, l); forall i :: 0 <= i < |s'.retry| ==> MsgOk(c, s', s'.retry[i].msg, InRetry)
  {
  }

  lemma DlqKept(c: Config, s: State, l: Label)
    requires FramesOk(c, s) && QueuesOk(c, s) && Enabled(c, s, l)
    ensures var s' := Step(c, s, l);
            forall i :: 0 <= i < |s'.dlq| ==> MsgOk(c, s', s'.dlq[i].msg, InDlq) && DeadOk(c, s'.dlq[i])
  {
    if l.Process? && s.frames[0].Nack? {
      BumpCounts(s.unacked.value.msg.deaths, MainQueue, Rejected);
    }
  }

  lemma QueuesKept(c: Config, s: State, l: Label)
    requires FramesOk(c, s) && QueuesOk(c, s) && Enabled(c, s, l)
    ensures QueuesOk(c, Step(c, s, l))
  {
    MainKept(c, s, l);
    RetryKept(c, s, l);
    DlqKept(c, s, l);
  }

  lemma SortedKept(c: Config, s: State, l: Label)
    requires Inv(c, s) && Enabled(c, s, l)
    ensures Sorted(c, Step(c, s, l))
  {
  }

  /** A queued copy stays queued, or the broker delivers it. */
  lemma QueuedKept(c: Config, s: State, l: Label, id: nat)
    requires Enabled(c, s, l) && Queued(s, id)
    ensures Queued(Step(c, s, l), id) || (l.Deliver? && s.main[0].id == id)
  {
    var s' := Step(c, s, l);
    if i :| 0 <= i < |s.main| && s.main[i].id == id {
      if l.Deliver? {
        assert i > 0 ==> s'.main[i - 1] == s.main[i];
      } else if l.Cut? && s.unacked.Some? {
        assert s'.main[i + 1] == s.main[i];
      } else {
        assert s'.main[i] == s.main[i];
      }
    } else if i :| 0 <= i < |s.retry| && s.retry[i].msg.id == id {
      if l.Expire? {
        if i == 0 {
          assert s'.main[|s.main|] == AfterExpiry(s.retry[0].msg);
        } else {
          assert s'.retry[i - 1] == s.retry[i];
        }
      } else {
        assert s'.retry[i] == s.retry[i];
      }
    } else {
      var i :| 0 <= i < |s.dlq| && s.dlq[i].msg.id == id;
      assert s'.dlq[i] == s.dlq[i];
    }
  }

  /** The delivery outlives every step but the one that settles it. */
  lemma DeliveryKept(c: Config, s: State, l: Label)
    requires Inv(c, s) && Enabled(c, s, l) && s.unacked.Some?
    requires s.unacked.value.msg.id !in Step(c, s, l).succeeded
    ensures HasCopy(Step(c, s, l), s.unacked.value.msg.id)
  {
    var s' := Step(c, s, l);
    var id := s.unacked.value.msg.id;
    if l.Cut? {
      assert s'.main[0].id == id;
    } else if l.Process? {
      if s.frames[0].Ack? {
        assert s.frames == [Ack];
        QueuedKept(c, s, l, id);
      } else if s.frames[0].Nack? {
        assert s'.dlq[|s.dlq|].msg.id == id;
      }
    }
  }

  /** An acknowledgement that does not follow a success follows a published retry. */
  lemma AckIsCovered(c: Config, s: State, l: Label)
    requires Inv(c, s) && Enabled(c, s, l)
    ensures var s' := Step(c, s, l);
            s'.frames == [Ack] && s'.unacked.Some? ==>
              s'.unacked.value.msg.id in s'.succeeded || Queued(s', s'.unacked.value.msg.id)
  {
    var s' := Step(c, s, l);
    if s'.frames == [Ack] && s'.unacked.Some? {
      var id := s'.unacked.value.msg.id;
      if l.Process? {
        assert s.frames[0] == ToRetry(s.unacked.value.msg);
        assert s'.retry[|s.retry|].msg.id == id;
      } else if l.Handle? {
        assert s'.frames == Emit(c, s'.unacked.value.msg, l.outcome) && |s'.frames| == 1;
      } else {
        assert s.frames == [Ack] && s.unacked == s'.unacked;
        if Queued(s, id) {
          QueuedKept(c, s, l, id);
        }
      }
    }
  }

  lemma CoveredKept(c: Config, s: State, l: Label)
    requires Inv(c, s) && Enabled(c, s, l)
    ensures Covered(Step(c, s, l))
  {
    var s' := Step(c, s, l);
    AckIsCovered(c, s, l);
    forall id | id in s'.published && id !in s'.succeeded
      ensures HasCopy(s', id)
    {
      if id !in s.published {
        assert s'.main[|s.main|].id == id;
      } else if Queued(s, id) {
        QueuedKept(c, s, l, id);
      } else {
        DeliveryKept(c, s, l);
      }
    }
  }

  lemma StepInv(c: Config, s: State, l: Label)
    requires Inv(c, s) && Enabled(c, s, l)
    ensures Inv(c, Step(c, s, l))
  {
    FramesKept(c, s, l);
    QueuesKept(c, s, l);
    SortedKept(c, s, l);
    CoveredKept(c, s, l);
  }

  // ---- Runs ----

  ghost predicate IsRun(c: Config, s: State, labels: seq<Label>)
    decreases |labels|
  {
    labels == [] || (Enabled(c, s, labels[0]) && IsRun(c, Step(c, s, labels[0]), labels[1..]))
  }

  ghost function End(c: Config, s: State, labels: seq<Label>): State
    requires IsRun(c, s, labels)
    decreases |labels|
  {
    if labels == [] then s else End(c, Step(c, s, labels[0]), labels[1..])
  }

  lemma {:induction false} RunInv(c: Config, s: State, labels: seq<Label>)
    requires Inv(c, s) && IsRun(c, s, labels)
    ensures Inv(c, End(c, s, labels))
    decreases |labels|
  {
    if labels != [] {
      StepInv(c, s, labels[0]);
      RunInv(c, Step(c, s, labels[0]), labels[1..]);
    }
  }

  lemma {:induction false} RunExtends(c: Config, s: State, labels: seq<Label>, l: Label)
    requires IsRun(c, s, labels) && Enabled(c, End(c, s, labels), l)
    ensures IsRun(c, s, labels + [l]) && End(c, s, labels + [l]) == Step(c, End(c, s, labels), l)
    decreases |labels|
  {
    if labels == [] {
      assert ([l])[1..] == [];
    } else {
      RunExtends(c, Step(c, s, labels[0]), labels[1..], l);
      assert (labels + [l])[1..] == labels[1..] + [l];
    }
  }

  /** No loss: in every reachable state, whatever has been cut, a published message that has not been handled
      successfully is in the main queue, unacknowledged, in the retry queue or in the dead-letter queue. */
  lemma NoMessageIsLost(c: Config, labels: seq<Label>, id: nat)
    requires IsRun(c, INIT, labels)
    requires id in End(c, INIT, labels).published && id !in End(c, INIT, labels).succeeded
    ensures HasCopy(End(c, INIT, labels), id)
  {
    RunInv(c, INIT, labels);
  }

  /** The stateless counter agrees with history: on every copy anywhere, retryCountOf is the number of times
      that copy has expired in the retry queue, and x-death has one entry per queue and reason. */
  lemma RetryCountIsHistory(c: Config, labels: seq<Label>, m: Msg)
    requires IsRun(c, INIT, labels)
    requires var s := End(c, INIT, labels);
             || m in s.main
             || (exists i :: 0 <= i < |s.retry| && s.retry[i].msg == m)
             || (exists i :: 0 <= i < |s.dlq| && s.dlq[i].msg == m)
             || (s.unacked.Some? && s.unacked.value.msg == m)
    ensures RetryCountOf(m) == m.trips <= c.maxRetries && Unique(m.deaths)
    ensures m.handled <= c.maxRetries + 1 + m.repeats
  {
    RunInv(c, INIT, labels);
  }

  /** A fixed TTL does not block: behind an entry that has not expired there is none that has. */
  lemma ExpiredIsPrefix(c: Config, labels: seq<Label>, i: nat, j: nat)
    requires IsRun(c, INIT, labels) && i < j < |End(c, INIT, labels).retry|
    ensures var s := End(c, INIT, labels);
            s.retry[j].expiry <= s.now ==> s.retry[i].expiry <= s.now
  {
    RunInv(c, INIT, labels);
  }

  /** So releasing at the head releases every expired entry. */
  lemma {:induction false} AllExpiredAreReleased(c: Config, s: State) returns (labels: seq<Label>)
    requires Inv(c, s)
    ensures IsRun(c, s, labels) && forall i :: 0 <= i < |labels| ==> labels[i] == Label.Expire
    ensures forall i :: 0 <= i < |End(c, s, labels).retry| ==> End(c, s, labels).retry[i].expiry > s.now
    decreases |s.retry|
  {
    if s.retry != [] && s.retry[0].expiry <= s.now {
      StepInv(c, s, Label.Expire);
      var rest := AllExpiredAreReleased(c, Step(c, s, Label.Expire));
      labels := [Label.Expire] + rest;
      assert labels[1..] == rest;
    } else {
      labels := [];
    }
  }
}
