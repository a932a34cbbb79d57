/** The analytics consumer: retry in place, then a dead-letter topic, and an offset that always advances. */
module AnalyticsConsumer {
  import opened Basics

  datatype EventType = ORDER_CREATED | ORDER_FAILED | OtherType

  datatype Data = Data(id: nat, userId: nat, productName: string, totalPrice: int)

  /** A message value: not JSON, the JSON null, or an event whose data may be missing. */
  datatype Payload = Malformed | NullEvent | Event(eventType: EventType, data: Option<Data>)

  datatype MetricStatus = CREATED | FAILED

  /** One row of order_metrics; a FAILED row leaves user_id and product_name null and total_price 0. */
  datatype Metric =
    Metric(orderId: nat, userId: Option<nat>, productName: Option<string>, totalPrice: int, status: MetricStatus)

  datatype DeadLetter = DeadLetter(offset: nat, attempts: nat)

  /** How the database behaves during one attempt. */
  datatype Attempt =
    | Fine
    | InsertFails
    | InsertUnheard   // the row is inserted, the reply is lost
    | DashboardFails  // the row is inserted, a query after it fails

  // ---- One attempt ----

  function NullIfEmpty(name: string): Option<string> {
    if name == "" then None else Some(name)
  }

  /** The row handleEvent inserts; a payload without data throws before any query. */
  function RowOf(p: Payload): Option<Metric> {
    match p
    case Event(ORDER_CREATED, Some(d)) =>
      Some(Metric(d.id, Some(d.userId), NullIfEmpty(d.productName), d.totalPrice, CREATED))
    case Event(ORDER_FAILED, Some(d)) => Some(Metric(d.id, None, None, 0, FAILED))
    case _ => None
  }

  /** An event of a known type that carries its data. */
  predicate Recordable(p: Payload) {
    p.Event? && (p.eventType.ORDER_CREATED? || p.eventType.ORDER_FAILED?) && p.data.Some?
  }

  /** The row is what the repository writes for the event, column by column. */
  predicate Records(p: Payload, m: Metric)
    requires Recordable(p)
  {
    var d := p.data.value;
    && m.orderId == d.id
    && (m.status.CREATED? <==> p.eventType.ORDER_CREATED?)
    && (m.status.CREATED? ==>
          && m.userId == Some(d.userId) && m.totalPrice == d.totalPrice
          && m.productName == (if d.productName == "" then None else Some(d.productName)))
    && (m.status == MetricStatus.FAILED ==> m.userId.None? && m.productName.None? && m.totalPrice == 0)
  }

  /** An event of another type is ignored without touching the database. */
  predicate Ignored(p: Payload) {
    p.Event? && p.eventType.OtherType?
  }

  predicate Inserts(p: Payload, a: Attempt) {
    RowOf(p).Some? && !a.InsertFails?
  }

  predicate Succeeds(p: Payload, a: Attempt) {
    Ignored(p) || (RowOf(p).Some? && a.Fine?)
  }

  /** A row whose attempt is reported as failed all the same. */
  predicate InsertsInVain(p: Payload, a: Attempt) {
    Inserts(p, a) && !Succeeds(p, a)
  }

  // ---- One message ----

  /** Attempts made: up to the first success, or all of them. */
  function Made(p: Payload, attempts: seq<Attempt>): (n: nat)
    ensures n <= |attempts|
  {
    if attempts == [] then 0
    else if Succeeds(p, attempts[0]) then 1
    else 1 + Made(p, attempts[1..])
  }

  lemma {:induction false} MadeIs(p: Payload, attempts: seq<Attempt>, n: nat)
    requires n <= |attempts| && forall i :: 0 <= i < n - 1 ==> !Succeeds(p, attempts[i])
    requires n == |attempts| || (n > 0 && Succeeds(p, attempts[n - 1]))
    ensures Made(p, attempts) == n
  {
    if n > 1 {
      MadeIs(p, attempts[1..], n - 1);
    }
  }

  /** Rows inserted by the first n attempts. */
  function Rows(p: Payload, attempts: seq<Attempt>, n: nat): seq<Metric>
    requires n <= |attempts|
  {
    if n == 0 then []
    else Rows(p, attempts, n - 1) + if Inserts(p, attempts[n - 1]) then [RowOf(p).value] else []
  }

  lemma {:induction false} NoRows(p: Payload, attempts: seq<Attempt>, n: nat)
    requires n <= |attempts| && RowOf(p).None?
    ensures Rows(p, attempts, n) == []
  {
    if n > 0 {
      NoRows(p, attempts, n - 1);
    }
  }

  predicate Handled(p: Payload, attempts: seq<Attempt>) {
    exists i :: 0 <= i < |attempts| && Succeeds(p, attempts[i])
  }

  function GivenUp(offset: nat, p: Payload, attempts: seq<Attempt>): DeadLetter {
    DeadLetter(offset, if p.Malformed? then 0 else |attempts|)
  }

  /** The script of one message: its attempts, as many as maxRetries, and whether the dead-letter topic
      accepts it. */
  datatype Script = Script(attempts: seq<Attempt>, dlqOk: bool)

  // ---- A whole log ----

  /** Everything the first n messages of a log insert. */
  function AllRows(log: seq<Payload>, scripts: seq<Script>, n: nat): seq<Metric>
    requires n <= |log| == |scripts|
  {
    if n == 0 then []
    else AllRows(log, scripts, n - 1)
         + Rows(log[n - 1], scripts[n - 1].attempts, Made(log[n - 1], scripts[n - 1].attempts))
  }

  /** The dead letters of the first n messages, whose offsets start at first. */
  function AllDead(log: seq<Payload>, scripts: seq<Script>, first: nat, n: nat): seq<DeadLetter>
    requires n <= |log| == |scripts|
  {
    if n == 0 then []
    else
      var p, s := log[n - 1], scripts[n - 1];
      AllDead(log, scripts, first, n - 1)
      + if !Handled(p, s.attempts) && s.dlqOk then [GivenUp(first + n - 1, p, s.attempts)] else []
  }

  function AllLost(log: seq<Payload>, scripts: seq<Script>, first: nat, n: nat): seq<nat>
    requires n <= |log| == |scripts|
  {
    if n == 0 then []
    else
      AllLost(log, scripts, first, n - 1)
      + if !Handled(log[n - 1], scripts[n - 1].attempts) && !scripts[n - 1].dlqOk then [first + n - 1] else []
  }

  class Consumer {
    const maxRetries: nat
    var metrics: seq<Metric>
    var dlq: seq<DeadLetter>
    var lost: seq<nat>       // offsets whose dead-letter publish failed too; only logged
    var nextOffset: nat      // the offset kafkajs will deliver next

    constructor (maxRetries: nat)
      requires maxRetries >= 1
      ensures this.maxRetries == maxRetries && metrics == [] && dlq == [] && lost == [] && nextOffset == 0
    {
      this.maxRetries := maxRetries;
      metrics, dlq, lost, nextOffset := [], [], [], 0;
    }

    /** handleEvent: insert, then query the dashboard figures. It throws (ok is false) when either fails. */
    method HandleEvent(p: Payload, a: Attempt) returns (ok: bool)
      requires !p.Malformed?
      modifies this`metrics
      ensures metrics == old(metrics) + if Inserts(p, a) then [RowOf(p).value] else []
      ensures ok == Succeeds(p, a)
      ensures ok <==> p.Event? && (p.eventType.OtherType? || (p.data.Some? && a.Fine?))
      ensures if Recordable(p) && !a.InsertFails?
              then |metrics| == |old(metrics)| + 1 && metrics[..|old(metrics)|] == old(metrics)
                   && Records(p, metrics[|old(metrics)|])
              else metrics == old(metrics)
    {
      if p.NullEvent? {
        return false;
      }
      match p.eventType {
        case OtherType =>
          return true;
        case _ =>
          if p.data.None? || a.InsertFails? {
            return false;
          }
          metrics := metrics + [RowOf(p).value];
          if a.InsertUnheard? {
            return false;
          }
      }
      ok := !a.DashboardFails?;
    }

    method SendToDlq(offset: nat, attempts: nat, dlqOk: bool)
      modifies this`dlq, this`lost
      ensures dlq == if dlqOk then old(dlq) + [DeadLetter(offset, attempts)] else old(dlq)
      ensures lost == if dlqOk then old(lost) else old(lost) + [offset]
    {
      if dlqOk {
        dlq := dlq + [DeadLetter(offset, attempts)];
      } else {
        lost := lost + [offset];
      }
    }

    /** processMessage: it never throws, and a message that is not handled is dead-lettered or logged lost. */
    method ProcessMessage(offset: nat, p: Payload, s: Script)
      requires |s.attempts| == maxRetries >= 1
      modifies this`metrics, this`dlq, this`lost
      ensures metrics == old(metrics) + Rows(p, s.attempts, Made(p, s.attempts))
      ensures Handled(p, s.attempts) ==> dlq == old(dlq) && lost == old(lost)
      ensures !Handled(p, s.attempts) && s.dlqOk ==>
                dlq == old(dlq) + [GivenUp(offset, p, s.attempts)] && lost == old(lost)
      ensures !Handled(p, s.attempts) && !s.dlqOk ==> dlq == old(dlq) && lost == old(lost) + [offset]
    {
      if p.Malformed? {
        SendToDlq(offset, 0, s.dlqOk);
        NoRows(p, s.attempts, Made(p, s.attempts));
        return;
      }
      var attempt := 0;
      while attempt < maxRetries
        invariant 0 <= attempt <= maxRetries
        invariant forall i :: 0 <= i < attempt ==> !Succeeds(p, s.attempts[i])
        invariant metrics == old(metrics) + Rows(p, s.attempts, attempt)
        invariant dlq == old(dlq) && lost == old(lost)
      {
        var ok := HandleEvent(p, s.attempts[attempt]);
        attempt := attempt + 1;
        if ok {
          MadeIs(p, s.attempts, attempt);
          return;
        }
      }
      MadeIs(p, s.attempts, attempt);
      SendToDlq(offset, maxRetries, s.dlqOk);
    }

    /** kafkajs delivers messages in offset order; as processMessage never throws, each delivery commits. */
    method Consume(log: seq<Payload>, scripts: seq<Script>)
      requires |scripts| == |log| && maxRetries >= 1
      requires forall i :: 0 <= i < |scripts| ==> |scripts[i].attempts| == maxRetries
      modifies this
      ensures nextOffset == old(nextOffset) + |log|
      ensures metrics == old(metrics) + AllRows(log, scripts, |log|)
      ensures dlq == old(dlq) + AllDead(log, scripts, old(nextOffset), |log|)
      ensures lost == old(lost) + AllLost(log, scripts, old(nextOffset), |log|)
    {
      var n := 0;
      while n < |log|
        invariant 0 <= n <= |log| && nextOffset == old(nextOffset) + n
        invariant metrics == old(metrics) + AllRows(log, scripts, n)
        invariant dlq == old(dlq) + AllDead(log, scripts, old(nextOffset), n)
        invariant lost == old(lost) + AllLost(log, scripts, old(nextOffset), n)
      {
        ProcessMessage(nextOffset, log[n], scripts[n]);
        nextOffset := nextOffset + 1;
        n := n + 1;
      }
    }
  }

  // ---- What becomes of a message ----

  lemma {:induction false} RowsInVain(p: Payload, attempts: seq<Attempt>, n: nat)
    requires n <= |attempts| && forall i :: 0 <= i < n ==> !Succeeds(p, attempts[i])
    ensures |Rows(p, attempts, n)| <= n
    ensures |Rows(p, attempts, n)| > 0 <==> exists i :: 0 <= i < n && InsertsInVain(p, attempts[i])
  {
    if n > 0 {
      RowsInVain(p, attempts, n - 1);
      assert InsertsInVain(p, attempts[n - 1]) <==> Inserts(p, attempts[n - 1]);
    }
  }

  lemma {:induction false} MadeEnds(p: Payload, attempts: seq<Attempt>)
    ensures var n := Made(p, attempts);
            && (forall i :: 0 <= i < n - 1 ==> !Succeeds(p, attempts[i]))
            && (Handled(p, attempts) <==> n > 0 && Succeeds(p, attempts[n - 1]))
  {
    if attempts != [] && !Succeeds(p, attempts[0]) {
      MadeEnds(p, attempts[1..]);
      assert forall i :: 0 < i < |attempts| ==> attempts[i] == attempts[1..][i - 1];
    }
  }

  /** The attempt inserted a row and was reported as failed all the same. */
  predicate LeavesStrayRow(p: Payload, a: Attempt) {
    Recordable(p) && (a.InsertUnheard? || a.DashboardFails?)
  }

  lemma InVainIsStray(p: Payload, a: Attempt)
    ensures InsertsInVain(p, a) <==> LeavesStrayRow(p, a)
    ensures Succeeds(p, a) <==> p.Event? && (p.eventType.OtherType? || (p.data.Some? && a.Fine?))
  {
  }

  /** A message is handled if and only if it is an event of an unknown type, or one of a known type with data
      and an attempt at which nothing failed. A handled message of a known type has a row, one of an unknown
      type none. There are duplicates, or rows of a message that is given up, if and only if at some attempt
      made the reply to the insert was lost or the dashboard failed after it; in all there are at most as many
      rows as attempts. */
  lemma MessageFate(p: Payload, attempts: seq<Attempt>)
    ensures var rows := |Rows(p, attempts, Made(p, attempts))|;
            && (Handled(p, attempts) <==>
                  attempts != [] && p.Event? && (p.eventType.OtherType?
                               || (p.data.Some? && exists i :: 0 <= i < |attempts| && attempts[i].Fine?)))
            && (Handled(p, attempts) ==> (rows == 0 <==> p.eventType.OtherType?))
            && (rows > (if Handled(p, attempts) then 1 else 0)
                <==> exists i :: 0 <= i < Made(p, attempts) && LeavesStrayRow(p, attempts[i]))
            && rows <= |attempts|
  {
    HandledIs(p, attempts);
    RowsOfMessage(p, attempts);
    forall i | 0 <= i < |attempts|
      ensures InsertsInVain(p, attempts[i]) <==> LeavesStrayRow(p, attempts[i])
    {
      InVainIsStray(p, attempts[i]);
    }
  }

  lemma HandledIs(p: Payload, attempts: seq<Attempt>)
    ensures Handled(p, attempts) <==>
              attempts != [] && p.Event? && (p.eventType.OtherType?
                           || (p.data.Some? && exists i :: 0 <= i < |attempts| && attempts[i].Fine?))
  {
    forall i | 0 <= i < |attempts|
      ensures Succeeds(p, attempts[i]) <==> p.Event? && (p.eventType.OtherType? || (p.data.Some? && attempts[i].Fine?))
    {
      InVainIsStray(p, attempts[i]);
    }
    assert attempts != [] && p.Event? && p.eventType.OtherType? ==> Succeeds(p, attempts[0]);
  }

  lemma RowsOfMessage(p: Payload, attempts: seq<Attempt>)
    ensures var rows := |Rows(p, attempts, Made(p, attempts))|;
            && (Handled(p, attempts) ==> (rows == 0 <==> Ignored(p)))
            && (rows > (if Handled(p, attempts) then 1 else 0)
                <==> exists i :: 0 <= i < Made(p, attempts) && InsertsInVain(p, attempts[i]))
            && rows <= |attempts|
  {
    var n := Made(p, attempts);
    MadeEnds(p, attempts);
    if Handled(p, attempts) {
      RowsInVain(p, attempts, n - 1);
      if Ignored(p) {
        NoRows(p, attempts, n);
      }
      assert !InsertsInVain(p, attempts[n - 1]);
    } else {
      if n < |attempts| {
        MadeIsAll(p, attempts);
      }
      RowsInVain(p, attempts, n);
    }
  }

  /** The dashboard fails once after the insert: the message is handled at the second attempt, with two rows. */
  lemma DashboardFailsOnce(p: Payload)
    requires Recordable(p)
    ensures var attempts := [DashboardFails, Fine, Fine];
            && Handled(p, attempts) && Made(p, attempts) == 2
            && |Rows(p, attempts, Made(p, attempts))| == 2
  {
    var attempts := [DashboardFails, Fine, Fine];
    assert Succeeds(p, attempts[1]);
    MadeIs(p, attempts, 2);
    RowsNext(p, attempts, 0);
    RowsNext(p, attempts, 1);
  }

  lemma RowsNext(p: Payload, attempts: seq<Attempt>, n: nat)
    requires n < |attempts|
    ensures |Rows(p, attempts, n + 1)| == |Rows(p, attempts, n)| + if Inserts(p, attempts[n]) then 1 else 0
  {
  }

  /** The dashboard fails every time: three rows, and a dead letter besides. */
  lemma DashboardFailsAlways(p: Payload, first: nat)
    requires Recordable(p)
    ensures var s := Script([DashboardFails, DashboardFails, DashboardFails], true);
            && |AllRows([p], [s], 1)| == 3
            && AllDead([p], [s], first, 1) == [DeadLetter(first, 3)]
  {
    var s := Script([DashboardFails, DashboardFails, DashboardFails], true);
    MadeIsAll(p, s.attempts);
    RowsNext(p, s.attempts, 0);
    RowsNext(p, s.attempts, 1);
    RowsNext(p, s.attempts, 2);
    assert AllRows([p], [s], 0) == [] && AllDead([p], [s], first, 0) == [];
  }

  lemma {:induction false} MadeIsAll(p: Payload, attempts: seq<Attempt>)
    requires !Handled(p, attempts)
    ensures Made(p, attempts) == |attempts|
  {
    MadeIs(p, attempts, |attempts|);
  }

  predicate HasOffset(dead: seq<DeadLetter>, offset: nat) {
    exists i :: 0 <= i < |dead| && dead[i].offset == offset
  }

  predicate DeadLettered(log: seq<Payload>, scripts: seq<Script>, k: nat)
    requires k < |log| == |scripts|
  {
    !Handled(log[k], scripts[k].attempts) && scripts[k].dlqOk
  }

  predicate Lost(log: seq<Payload>, scripts: seq<Script>, k: nat)
    requires k < |log| == |scripts|
  {
    !Handled(log[k], scripts[k].attempts) && !scripts[k].dlqOk
  }

  lemma DeadNext(log: seq<Payload>, scripts: seq<Script>, first: nat, n: nat, offset: nat)
    requires 0 < n <= |log| == |scripts|
    ensures HasOffset(AllDead(log, scripts, first, n), offset)
       <==> || HasOffset(AllDead(log, scripts, first, n - 1), offset)
            || (offset == first + n - 1 && DeadLettered(log, scripts, n - 1))
  {
    var front, all := AllDead(log, scripts, first, n - 1), AllDead(log, scripts, first, n);
    assert forall i :: 0 <= i < |front| ==> all[i] == front[i];
    if DeadLettered(log, scripts, n - 1) {
      assert all[|front|].offset == first + n - 1;
    }
  }

  lemma {:induction false} DeadOrLost(log: seq<Payload>, scripts: seq<Script>, first: nat, n: nat, k: nat)
    requires n <= |log| == |scripts| && k < |log|
    ensures HasOffset(AllDead(log, scripts, first, n), first + k) <==> k < n && DeadLettered(log, scripts, k)
    ensures first + k in AllLost(log, scripts, first, n) <==> k < n && Lost(log, scripts, k)
    ensures forall d :: d in AllDead(log, scripts, first, n) && d.offset == first + k ==>
              d.attempts == if log[k].Malformed? then 0 else |scripts[k].attempts|
  {
    if n > 0 {
      DeadOrLost(log, scripts, first, n - 1, k);
      DeadNext(log, scripts, first, n, first + k);
    }
  }

  lemma {:induction false} RowsAreCopies(p: Payload, attempts: seq<Attempt>, n: nat, m: Metric)
    requires n <= |attempts| && m in Rows(p, attempts, n)
    ensures RowOf(p) == Some(m)
  {
    if m !in Rows(p, attempts, n - 1) {
      assert Inserts(p, attempts[n - 1]);
    } else {
      RowsAreCopies(p, attempts, n - 1, m);
    }
  }

  /** The rows message k has left in the table. */
  function Left(log: seq<Payload>, scripts: seq<Script>, k: nat): seq<Metric>
    requires k < |log| == |scripts|
  {
    Rows(log[k], scripts[k].attempts, Made(log[k], scripts[k].attempts))
  }

  lemma SliceStays<T>(front: seq<T>, back: seq<T>, from: nat, to: nat)
    requires from <= to <= |front|
    ensures (front + back)[from..to] == front[from..to]
  {
  }

  lemma {:induction false} LeftIsThere(log: seq<Payload>, scripts: seq<Script>, n: nat, k: nat)
    requires k < n <= |log| == |scripts|
    ensures var from := |AllRows(log, scripts, k)|;
            var to := from + |Left(log, scripts, k)|;
            to <= |AllRows(log, scripts, n)| && AllRows(log, scripts, n)[from..to] == Left(log, scripts, k)
  {
    if k < n - 1 {
      LeftIsThere(log, scripts, n - 1, k);
      var from := |AllRows(log, scripts, k)|;
      SliceStays(AllRows(log, scripts, n - 1), Left(log, scripts, n - 1), from, from + |Left(log, scripts, k)|);
    }
  }

  /** Every message of a consumed log is accounted for: it is of an unknown type, or it has left rows in the
      table, all with its own contents, or its offset has a dead letter, which tells the number of attempts, or
      was logged as lost. Never both of the last two; and a message has both rows and a dead letter if and only
      if no attempt succeeded, the dead-letter topic accepted it, and some attempt failed after its insert. */
  lemma EveryOffsetIsAccountedFor(log: seq<Payload>, scripts: seq<Script>, first: nat, n: nat, k: nat)
    requires k < n <= |log| == |scripts|
    ensures var rows, all := Left(log, scripts, k), AllRows(log, scripts, n);
            var from := |AllRows(log, scripts, k)|;
            var dead := HasOffset(AllDead(log, scripts, first, n), first + k);
            var lost := first + k in AllLost(log, scripts, first, n);
            && from + |rows| <= |all| && all[from..from + |rows|] == rows
            && (forall m :: m in rows ==> Recordable(log[k]) && Records(log[k], m))
            && (forall d :: d in AllDead(log, scripts, first, n) && d.offset == first + k ==>
                  d.attempts == if log[k].Malformed? then 0 else |scripts[k].attempts|)
            && ((log[k].Event? && log[k].eventType.OtherType?) || rows != [] || dead || lost)
            && !(dead && lost)
            && (dead && rows != [] <==> GivenUpWithRows(log[k], scripts[k]))
  {
    var attempts := scripts[k].attempts;
    LeftIsThere(log, scripts, n, k);
    DeadOrLost(log, scripts, first, n, k);
    MessageFate(log[k], attempts);
    if !Handled(log[k], attempts) {
      MadeIsAll(log[k], attempts);
    }
    forall m | m in Left(log, scripts, k)
      ensures Recordable(log[k]) && Records(log[k], m)
    {
      RowsAreCopies(log[k], attempts, Made(log[k], attempts), m);
    }
  }

  /** No attempt went through, the dead-letter topic took the message, and a row was left on the way. */
  predicate GivenUpWithRows(p: Payload, s: Script) {
    && Recordable(p) && s.dlqOk
    && (forall i :: 0 <= i < |s.attempts| ==> !s.attempts[i].Fine?)
    && exists i :: 0 <= i < |s.attempts| && (s.attempts[i].InsertUnheard? || s.attempts[i].DashboardFails?)
  }

  // ---- The summary ----

  datatype Summary = Summary(totalOrders: nat, successfulOrders: nat, failedOrders: nat, totalRevenue: int)

  /** SELECT COUNT(*), COUNT(*) FILTER ..., SUM(total_price) FILTER (WHERE status = 'CREATED'). */
  function GetSummary(metrics: seq<Metric>): Summary {
    if metrics == [] then Summary(0, 0, 0, 0)
    else
      var s, m := GetSummary(metrics[..|metrics| - 1]), metrics[|metrics| - 1];
      if m.status.CREATED?
      then s.(totalOrders := s.totalOrders + 1, successfulOrders := s.successfulOrders + 1,
              totalRevenue := s.totalRevenue + m.totalPrice)
      else s.(totalOrders := s.totalOrders + 1, failedOrders := s.failedOrders + 1)
  }

  lemma SummaryAppend(metrics: seq<Metric>, m: Metric)
    ensures var s, s' := GetSummary(metrics), GetSummary(metrics + [m]);
            && s'.totalOrders == s.totalOrders + 1
            && s'.successfulOrders == s.successfulOrders + (if m.status.CREATED? then 1 else 0)
            && s'.failedOrders == s.failedOrders + (if m.status.CREATED? then 0 else 1)
            && s'.totalRevenue == s.totalRevenue + (if m.status.CREATED? then m.totalPrice else 0)
  {
    assert (metrics + [m])[..|metrics|] == metrics;
  }
}
