/** What analytics-service records about the sagas whose events it consumes. */
module CrossService {
  import opened Basics
  import opened PaymentTables
  import opened AnalyticsConsumer
  import L = LedgerProtocol
  import W = OrderWorld
  import R = OrderRuns

  /** The JSON value order-service publishes for an event. */
  function PayloadOf(e: W.Event): Payload {
    match e
    case OrderCreated(o, user, name, total) => Payload.Event(ORDER_CREATED, Some(Data(o, user, name, total)))
    case OrderFailed(o) => Payload.Event(EventType.ORDER_FAILED, Some(Data(o, 0, "", 0)))
  }

  function LogOf(events: seq<W.Event>): (log: seq<Payload>)
    ensures |log| == |events|
    ensures forall i :: 0 <= i < |log| ==> log[i] == PayloadOf(events[i])
  {
    seq(|events|, i requires 0 <= i < |events| => PayloadOf(events[i]))
  }

  /** Every row comes from one of the messages consumed. */
  lemma {:induction false} RowHasMessage(log: seq<Payload>, scripts: seq<Script>, n: nat, m: Metric) returns (i: nat)
    requires n <= |log| == |scripts| && m in AllRows(log, scripts, n)
    ensures i < n && RowOf(log[i]) == Some(m)
  {
    if m in AllRows(log, scripts, n - 1) {
      i := RowHasMessage(log, scripts, n - 1, m);
    } else {
      i := n - 1;
      RowsAreCopies(log[i], scripts[i].attempts, Made(log[i], scripts[i].attempts), m);
    }
  }

  /** Metrics tell the truth: however the consumer fails and retries, after any prefix of the events of any
      run, a CREATED row is about a confirmed and paid order and carries its total, a FAILED row is about a
      saga that threw, and no order has rows of both kinds. */
  lemma MetricsTellTheTruth(c: L.Config, labels: seq<W.WorldLabel>, scripts: seq<Script>, n: nat, m: Metric, m': Metric)
    requires R.IsRun(c, W.EMPTY_WORLD, labels)
    requires var w := R.End(c, W.EMPTY_WORLD, labels);
             && n <= |w.events| == |scripts|
             && m in AllRows(LogOf(w.events), scripts, n) && m' in AllRows(LogOf(w.events), scripts, n)
    ensures var w := R.End(c, W.EMPTY_WORLD, labels);
            && (m.status.CREATED? ==>
                  && R.ConfirmedAndPaid(w, m.orderId)
                  && m.totalPrice == w.orders[m.orderId].totalPrice
                  && m.userId == Some(w.orders[m.orderId].userId)
                  && m.productName == NullIfEmpty(w.orders[m.orderId].productName))
            && (m.status == MetricStatus.FAILED ==> m.orderId in w.sagas && w.sagas[m.orderId].pc.Threw?)
            && (m.orderId == m'.orderId ==> m == m')
  {
    var w := R.End(c, W.EMPTY_WORLD, labels);
    R.EventsTellTheTruth(c, labels);
    var i := RowHasMessage(LogOf(w.events), scripts, n, m);
    var j := RowHasMessage(LogOf(w.events), scripts, n, m');
    assert w.events[i].id == m.orderId && w.events[j].id == m'.orderId;
    assert R.Truthful(w, w.events[i]);
  }

  // ---- Revenue ----

  /** The orders whose ORDER_CREATED is among the first n events. */
  function Created(events: seq<W.Event>, n: nat): set<OrderId>
    requires n <= |events|
  {
    set i | 0 <= i < n && events[i].OrderCreated? :: events[i].id
  }

  ghost function Totals(orders: map<OrderId, W.Order>, ids: set<OrderId>): int
    requires ids <= orders.Keys
  {
    if ids == {} then 0 else orders[Pick(ids)].totalPrice + Totals(orders, ids - {Pick(ids)})
  }

  lemma {:induction false} TotalsRemove(orders: map<OrderId, W.Order>, ids: set<OrderId>, o: OrderId)
    requires ids <= orders.Keys && o in ids
    ensures Totals(orders, ids) == orders[o].totalPrice + Totals(orders, ids - {o})
  {
    var first := Pick(ids);
    if first != o {
      TotalsRemove(orders, ids - {first}, o);
      TotalsRemove(orders, ids - {o}, first);
      assert ids - {first} - {o} == ids - {o} - {first};
    }
  }

  /** Each of the first n events has inserted one row, at whichever attempt. */
  predicate OneRowEach(log: seq<Payload>, scripts: seq<Script>, n: nat)
    requires n <= |log| == |scripts|
  {
    forall i :: 0 <= i < n ==> |Rows(log[i], scripts[i].attempts, Made(log[i], scripts[i].attempts))| == 1
  }

  lemma NextRow(log: seq<Payload>, scripts: seq<Script>, n: nat, e: W.Event)
    requires n < |log| == |scripts| && OneRowEach(log, scripts, n + 1) && log[n] == PayloadOf(e)
    ensures AllRows(log, scripts, n + 1) == AllRows(log, scripts, n) + [RowOf(PayloadOf(e)).value]
  {
    var rows := Rows(log[n], scripts[n].attempts, Made(log[n], scripts[n].attempts));
    assert rows[0] in rows;
    RowsAreCopies(log[n], scripts[n].attempts, Made(log[n], scripts[n].attempts), rows[0]);
    assert rows == [rows[0]];
  }

  ghost predicate OnePerOrder(w: W.World) {
    && (forall i, j :: 0 <= i < j < |w.events| ==> w.events[i].id != w.events[j].id)
    && (forall i :: 0 <= i < |w.events| && w.events[i].OrderCreated? ==>
          w.events[i].id in w.orders && w.orders[w.events[i].id].totalPrice == w.events[i].totalPrice)
  }

  lemma CreatedNext(w: W.World, n: nat)
    requires n < |w.events| && OnePerOrder(w)
    ensures Created(w.events, n + 1)
         == Created(w.events, n) + if w.events[n].OrderCreated? then {w.events[n].id} else {}
    ensures w.events[n].id !in Created(w.events, n)
    ensures Created(w.events, n + 1) <= w.orders.Keys
  {
  }

  /** The summary of the first n events, counted event by event. */
  function Tally(events: seq<W.Event>, n: nat): Summary
    requires n <= |events|
  {
    if n == 0 then Summary(0, 0, 0, 0)
    else
      var t := Tally(events, n - 1);
      match events[n - 1]
      case OrderCreated(_, _, _, total) =>
        Summary(t.totalOrders + 1, t.successfulOrders + 1, t.failedOrders, t.totalRevenue + total)
      case OrderFailed(_) =>
        Summary(t.totalOrders + 1, t.successfulOrders, t.failedOrders + 1, t.totalRevenue)
  }

  lemma TotalsAdd(orders: map<OrderId, W.Order>, ids: set<OrderId>, o: OrderId)
    requires ids <= orders.Keys && o in orders && o !in ids
    ensures Totals(orders, ids + {o}) == Totals(orders, ids) + orders[o].totalPrice
    ensures |ids + {o}| == |ids| + 1
  {
    TotalsRemove(orders, ids + {o}, o);
    assert ids + {o} - {o} == ids;
  }

  /** The tally agrees with the set of created orders. */
  ghost predicate Agrees(w: W.World, n: nat)
    requires n <= |w.events|
  {
    && Created(w.events, n) <= w.orders.Keys
    && Totals(w.orders, Created(w.events, n)) == Tally(w.events, n).totalRevenue
    && |Created(w.events, n)| == Tally(w.events, n).successfulOrders
  }

  lemma TallyNext(w: W.World, n: nat)
    requires n < |w.events| && OnePerOrder(w) && Agrees(w, n)
    ensures Agrees(w, n + 1)
  {
    CreatedNext(w, n);
    if w.events[n].OrderCreated? {
      TotalsAdd(w.orders, Created(w.events, n), w.events[n].id);
    } else {
      assert Created(w.events, n + 1) == Created(w.events, n);
    }
  }

  lemma {:induction false} TallyAgrees(w: W.World, n: nat)
    requires n <= |w.events| && OnePerOrder(w)
    ensures Agrees(w, n)
  {
    if n == 0 {
      assert Created(w.events, 0) == {};
    } else {
      TallyAgrees(w, n - 1);
      TallyNext(w, n - 1);
    }
  }

  function SummaryAfter(log: seq<Payload>, scripts: seq<Script>, n: nat): Summary
    requires n <= |log| == |scripts|
  {
    GetSummary(AllRows(log, scripts, n))
  }

  lemma SummaryNext(events: seq<W.Event>, log: seq<Payload>, scripts: seq<Script>, n: nat)
    requires n < |events| == |log| == |scripts| && OneRowEach(log, scripts, n + 1) && log[n] == PayloadOf(events[n])
    requires SummaryAfter(log, scripts, n) == Tally(events, n)
    ensures SummaryAfter(log, scripts, n + 1) == Tally(events, n + 1)
  {
    NextRow(log, scripts, n, events[n]);
    SummaryAppend(AllRows(log, scripts, n), RowOf(PayloadOf(events[n])).value);
  }

  lemma {:induction false} SummaryOfPrefix(events: seq<W.Event>, log: seq<Payload>, scripts: seq<Script>, n: nat)
    requires n <= |events| == |log| == |scripts| && OneRowEach(log, scripts, n)
    requires forall i :: 0 <= i < |log| ==> log[i] == PayloadOf(events[i])
    ensures SummaryAfter(log, scripts, n) == Tally(events, n)
  {
    if n > 0 {
      SummaryOfPrefix(events, log, scripts, n - 1);
      SummaryNext(events, log, scripts, n - 1);
    }
  }

  lemma {:induction false} TallyAddsUp(events: seq<W.Event>, n: nat)
    requires n <= |events|
    ensures var t := Tally(events, n); t.totalOrders == n == t.successfulOrders + t.failedOrders
  {
    if n > 0 {
      TallyAddsUp(events, n - 1);
    }
  }

  /** With one row per event, however many attempts it took, the dashboard is right: it counts every event
      once, successful_orders is the number of confirmed orders consumed, and total_revenue is the sum of
      their totals. */
  lemma DashboardIsRight(c: L.Config, labels: seq<W.WorldLabel>, scripts: seq<Script>, n: nat)
    requires R.IsRun(c, W.EMPTY_WORLD, labels)
    requires n <= |R.End(c, W.EMPTY_WORLD, labels).events| == |scripts|
    requires OneRowEach(LogOf(R.End(c, W.EMPTY_WORLD, labels).events), scripts, n)
    ensures var w := R.End(c, W.EMPTY_WORLD, labels);
            var confirmed := Created(w.events, n);
            && confirmed <= w.orders.Keys
            && (forall o :: o in confirmed ==> R.ConfirmedAndPaid(w, o))
            && var s := SummaryAfter(LogOf(w.events), scripts, n);
            && s.totalOrders == n == s.successfulOrders + s.failedOrders
            && s.successfulOrders == |confirmed|
            && s.totalRevenue == Totals(w.orders, confirmed)
  {
    var w := R.End(c, W.EMPTY_WORLD, labels);
    R.EventsTellTheTruth(c, labels);
    EventsOnePerOrder(w);
    TallyAgrees(w, n);
    TallyAddsUp(w.events, n);
    SummaryOfPrefix(w.events, LogOf(w.events), scripts, n);
  }

  lemma EventsOnePerOrder(w: W.World)
    requires forall i, j :: 0 <= i < j < |w.events| ==> w.events[i].id != w.events[j].id
    requires forall i :: 0 <= i < |w.events| ==> R.Truthful(w, w.events[i])
    ensures OnePerOrder(w)
    ensures forall o, n | n <= |w.events| && 0 <= n && o in Created(w.events, n) :: R.ConfirmedAndPaid(w, o)
  {
    assert forall i :: 0 <= i < |w.events| ==> R.Truthful(w, w.events[i]);
  }
}
