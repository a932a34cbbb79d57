/** The notification queues: the main queue, the retry queue with a fixed TTL, the dead-letter queue, and the
    consumer's channel, an ordered stream of frames that may be cut at any point. */
module NotificationProtocol {
  import opened Basics

  datatype Queue = MainQueue | RetryQueue

  datatype Reason = Expired | Rejected

  /** One entry of the x-death header. */
  datatype Death = Death(queue: Queue, reason: Reason, count: nat)

  /** A copy of a notification. The last three fields are history that the code never reads: how often this
      copy has expired in the retry queue, how often the handler has run on it, and how often a cut channel
      has brought it back after the handler had run. */
  datatype Msg = Msg(id: nat, deaths: seq<Death>, trips: nat, handled: nat, repeats: nat)

  datatype Config = Config(maxRetries: nat, ttl: nat)

  /** What the consumer writes to its channel about the delivery it holds. */
  datatype Frame = ToRetry(msg: Msg) | Ack | Nack(sendFailed: bool)

  /** How the handler ends, and whether a publish to the retry queue would throw. */
  datatype Outcome = Success | Failure(sendOk: bool)

  datatype Delivery = Delivery(msg: Msg, handling: bool)

  datatype Parked = Parked(msg: Msg, expiry: nat)

  datatype Dead = Dead(msg: Msg, sendFailed: bool)

  datatype State = State(
    main: seq<Msg>,
    unacked: Option<Delivery>,  // prefetch 1
    frames: seq<Frame>,         // written by the consumer, not yet read by the broker
    retry: seq<Parked>,
    dlq: seq<Dead>,
    published: set<nat>,
    succeeded: set<nat>,        // ids for which the handler has succeeded
    seen: map<nat, nat>,        // handler runs per id
    now: nat)

  const INIT := State([], None, [], [], [], {}, {}, map[], 0)

  // ---- x-death ----

  /** The count of the first entry for (q, r), or 0. */
  function CountOf(deaths: seq<Death>, q: Queue, r: Reason): nat {
    if deaths == [] then 0
    else if deaths[0].queue == q && deaths[0].reason == r then deaths[0].count
    else CountOf(deaths[1..], q, r)
  }

  function RetryCountOf(msg: Msg): nat {
    CountOf(msg.deaths, RetryQueue, Expired)
  }

  function Without(deaths: seq<Death>, q: Queue, r: Reason): seq<Death> {
    if deaths == [] then []
    else if deaths[0].queue == q && deaths[0].reason == r then Without(deaths[1..], q, r)
    else [deaths[0]] + Without(deaths[1..], q, r)
  }

  /** The broker's update: the entry for (q, r) goes to the front with its count raised by one. */
  function Bump(deaths: seq<Death>, q: Queue, r: Reason): seq<Death> {
    [Death(q, r, CountOf(deaths, q, r) + 1)] + Without(deaths, q, r)
  }

  predicate Unique(deaths: seq<Death>) {
    forall i, j :: 0 <= i < j < |deaths| ==> deaths[i].queue != deaths[j].queue || deaths[i].reason != deaths[j].reason
  }

  lemma {:induction false} WithoutHas(deaths: seq<Death>, q: Queue, r: Reason)
    ensures forall d :: d in Without(deaths, q, r) <==> d in deaths && !(d.queue == q && d.reason == r)
  {
    if deaths != [] {
      WithoutHas(deaths[1..], q, r);
      assert deaths == [deaths[0]] + deaths[1..];
    }
  }

  lemma {:induction false} WithoutIsUnique(deaths: seq<Death>, q: Queue, r: Reason)
    requires Unique(deaths)
    ensures Unique(Without(deaths, q, r))
  {
    if deaths != [] {
      WithoutIsUnique(deaths[1..], q, r);
      WithoutHas(deaths[1..], q, r);
      assert forall d :: d in deaths[1..] ==> d.queue != deaths[0].queue || d.reason != deaths[0].reason;
    }
  }

  lemma {:induction false} WithoutCounts(deaths: seq<Death>, q: Queue, r: Reason)
    ensures forall q', r' :: q' != q || r' != r ==> CountOf(Without(deaths, q, r), q', r') == CountOf(deaths, q', r')
  {
    if deaths != [] {
      WithoutCounts(deaths[1..], q, r);
    }
  }

  /** A death raises its own count by one and no other, and entries stay unique. */
  lemma BumpCounts(deaths: seq<Death>, q: Queue, r: Reason)
    requires Unique(deaths)
    ensures Unique(Bump(deaths, q, r))
    ensures CountOf(Bump(deaths, q, r), q, r) == CountOf(deaths, q, r) + 1
    ensures forall q', r' :: q' != q || r' != r ==> CountOf(Bump(deaths, q, r), q', r') == CountOf(deaths, q', r')
  {
    WithoutHas(deaths, q, r);
    WithoutIsUnique(deaths, q, r);
    WithoutCounts(deaths, q, r);
    assert Bump(deaths, q, r)[1..] == Without(deaths, q, r);
  }

  // ---- The steps ----

  datatype Label =
    | Publish(id: nat)
    | Deliver
    | Handle(outcome: Outcome)
    | Process            // the broker reads one frame
    | Expire             // the head of the retry queue is dead-lettered to the main queue
    | Tick
    | Cut                // connection or consumer dies: unread frames are lost, the delivery is requeued

  /** The frames handleMessage writes for a delivery. */
  function Emit(c: Config, msg: Msg, outcome: Outcome): seq<Frame> {
    if outcome.Success? then [Ack]
    else if RetryCountOf(msg) >= c.maxRetries then [Nack(false)]
    else if outcome.sendOk then [ToRetry(msg), Ack]
    else [Nack(true)]
  }

  predicate Enabled(c: Config, s: State, l: Label) {
    match l
    case Publish(id) => id !in s.published
    case Deliver => s.main != [] && s.unacked.None?
    case Handle(_) => s.unacked.Some? && s.unacked.value.handling
    case Process => s.frames != []
    case Expire => s.retry != [] && s.retry[0].expiry <= s.now
    case Tick => true
    case Cut => true
  }

  function AfterExpiry(m: Msg): Msg {
    m.(deaths := Bump(m.deaths, RetryQueue, Expired), trips := m.trips + 1)
  }

  function AfterRejection(m: Msg): Msg {
    m.(deaths := Bump(m.deaths, MainQueue, Rejected))
  }

  function Requeued(d: Delivery): Msg {
    if d.handling then d.msg else d.msg.(repeats := d.msg.repeats + 1)
  }

  function SeenOf(s: State, id: nat): nat {
    if id in s.seen then s.seen[id] else 0
  }

  function Step(c: Config, s: State, l: Label): State
    requires Enabled(c, s, l)
  {
    match l
    case Publish(id) => s.(main := s.main + [Msg(id, [], 0, 0, 0)], published := s.published + {id})
    case Deliver => s.(main := s.main[1..], unacked := Some(Delivery(s.main[0], true)))
    case Handle(outcome) =>
      var m := s.unacked.value.msg.(handled := s.unacked.value.msg.handled + 1);
      s.(unacked := Some(Delivery(m, false)),
         frames := s.frames + Emit(c, m, outcome),
         succeeded := if outcome.Success? then s.succeeded + {m.id} else s.succeeded,
         seen := s.seen[m.id := SeenOf(s, m.id) + 1])
    case Process => ProcessFrame(c, s.(frames := s.frames[1..]), s.frames[0])
    case Expire => s.(retry := s.retry[1..], main := s.main + [AfterExpiry(s.retry[0].msg)])
    case Tick => s.(now := s.now + 1)
    case Cut =>
      s.(frames := [], unacked := None,
         main := if s.unacked.Some? then [Requeued(s.unacked.value)] + s.main else s.main)
  }

  function ProcessFrame(c: Config, s: State, f: Frame): State {
    match f
    case ToRetry(m) => s.(retry := s.retry + [Parked(m, s.now + c.ttl)])
    case Ack => s.(unacked := None)
    case Nack(sendFailed) =>
      s.(unacked := None,
         dlq := if s.unacked.Some? then s.dlq + [Dead(AfterRejection(s.unacked.value.msg), sendFailed)] else s.dlq)
  }
}
