/** What holds in every reachable state of the sagas and the ledger together. */
module OrderRuns {
  import opened PaymentTables
  import opened LedgerProtocol
  import opened LedgerSafety
  import opened OrderWorld
  import opened OrderSafety
  import L = LedgerRuns
  import LedgerMarks

  ghost predicate IsRun(c: Config, w: World, labels: seq<WorldLabel>)
    decreases |labels|
  {
    labels == [] || (WorldEnabled(c, w, labels[0]) && IsRun(c, WorldStep(c, w, labels[0]), labels[1..]))
  }

  ghost function End(c: Config, w: World, labels: seq<WorldLabel>): World
    requires IsRun(c, w, labels)
    decreases |labels|
  {
    if labels == [] then w else End(c, WorldStep(c, w, labels[0]), labels[1..])
  }

  lemma {:induction false} RunExtends(c: Config, w: World, labels: seq<WorldLabel>, l: WorldLabel)
    requires IsRun(c, w, labels) && WorldEnabled(c, End(c, w, labels), l)
    ensures IsRun(c, w, labels + [l]) && End(c, w, labels + [l]) == WorldStep(c, End(c, w, labels), l)
    decreases |labels|
  {
    if labels == [] {
      assert ([l])[1..] == [];
    } else {
      RunExtends(c, WorldStep(c, w, labels[0]), labels[1..], l);
      assert (labels + [l])[1..] == labels[1..] + [l];
    }
  }

  lemma {:induction false} RunPrefix(c: Config, w: World, labels: seq<WorldLabel>, k: nat)
    requires IsRun(c, w, labels) && k <= |labels|
    ensures IsRun(c, w, labels[..k])
    decreases |labels|
  {
    if k > 0 {
      RunPrefix(c, WorldStep(c, w, labels[0]), labels[1..], k - 1);
      assert labels[..k][1..] == labels[1..][..k - 1];
    }
  }

  /** A step moves the ledger forward only. */
  lemma LedgerMovesOn(c: Config, w: World, l: WorldLabel)
    requires WorldInv(c, w) && WorldEnabled(c, w, l)
    ensures Later(w.ledger.tables, WorldStep(c, w, l).ledger.tables)
  {
    if l.LedgerStep? {
      TablesKept(c, w.ledger, l.l);
    } else if IsSagaLabel(l) {
      MoveIsLocal(c, w, l, l.o);
    }
  }

  /** Every run keeps the invariant, and along it the ledger only moves forward. */
  lemma {:induction false} RunInv(c: Config, w: World, labels: seq<WorldLabel>)
    requires WorldInv(c, w) && IsRun(c, w, labels)
    ensures WorldInv(c, End(c, w, labels))
    ensures Later(w.ledger.tables, End(c, w, labels).ledger.tables)
    decreases |labels|
  {
    if labels != [] {
      var w' := WorldStep(c, w, labels[0]);
      WorldStepInv(c, w, labels[0]);
      LedgerMovesOn(c, w, labels[0]);
      RunInv(c, w', labels[1..]);
      LaterTransitive(w.ledger.tables, w'.ledger.tables, End(c, w, labels).ledger.tables);
    }
  }

  lemma ReachableInv(c: Config, labels: seq<WorldLabel>)
    requires IsRun(c, EMPTY_WORLD, labels)
    ensures WorldInv(c, End(c, EMPTY_WORLD, labels))
  {
    EmptyWorldInv(c);
    RunInv(c, EMPTY_WORLD, labels);
  }

  // ---- The ledger's part in a run ----

  function LedgerPart(labels: seq<WorldLabel>): seq<Label> {
    if labels == [] then []
    else (if labels[0].LedgerStep? then [labels[0].l] else []) + LedgerPart(labels[1..])
  }

  lemma SagaStepsLeaveLedger(c: Config, w: World, l: WorldLabel)
    requires WorldEnabled(c, w, l) && !l.LedgerStep?
    ensures WorldStep(c, w, l).ledger == w.ledger
  {
  }

  /** The ledger's steps in a run of the whole system are a run of the ledger, so whatever holds of all runs
      of the ledger holds here. */
  lemma {:induction false} LedgerPartIsRun(c: Config, w: World, labels: seq<WorldLabel>)
    requires IsRun(c, w, labels)
    ensures L.IsRun(c, w.ledger, LedgerPart(labels))
    ensures L.End(c, w.ledger, LedgerPart(labels)) == End(c, w, labels).ledger
    decreases |labels|
  {
    if labels != [] {
      LedgerPartIsRun(c, WorldStep(c, w, labels[0]), labels[1..]);
      if labels[0].LedgerStep? {
        assert LedgerPart(labels)[1..] == LedgerPart(labels[1..]);
      } else {
        SagaStepsLeaveLedger(c, w, labels[0]);
        assert LedgerPart(labels) == LedgerPart(labels[1..]);
      }
    }
  }

  // ---- What a saga that has ended leaves behind ----

  /** The order was persisted as confirmed, with a payment row of the same order and the same amount that
      is SUCCESS, or REFUNDED if and only if a call of RefundPayment has marked that very row. */
  ghost predicate ConfirmedAndPaid(w: World, o: OrderId) {
    && o in w.sagas && o in w.orders
    && var order := w.orders[o];
    && var g := w.sagas[o];
    && order.userId == g.input.userId && order.productId == g.input.productId && order.quantity == g.input.quantity
    && order.productName == g.product.name && order.totalPrice == g.product.price * g.input.quantity
    && order.status == CONFIRMED
    && order.paymentId in w.ledger.tables.payments
    && var p := w.ledger.tables.payments[order.paymentId];
    && p.charge == Charge(o, order.userId, order.totalPrice, "CREDIT_CARD")
    && p.status == if order.paymentId in w.ledger.marked then REFUNDED else SUCCESS
  }

  ghost predicate NotConfirmed(w: World, o: OrderId) {
    o in w.orders ==> w.orders[o].status == CANCELLED
  }

  /** In every reachable state, a saga that has returned has a confirmed and paid order. */
  lemma ReturnedIsConfirmedAndPaid(c: Config, w: World, o: OrderId)
    requires WorldInv(c, w) && o in w.sagas && (w.sagas[o].pc.Returned? || w.sagas[o].pc.Publishing?)
    ensures ConfirmedAndPaid(w, o)
  {
    assert SagaOk(w, o);
  }

  /** Rows of an order exist only if its charge was sent. */
  lemma RowsWereRequested(c: Config, w: World, id: PaymentId)
    requires WorldInv(c, w) && id in w.ledger.tables.payments
    ensures w.ledger.tables.payments[id].charge.orderId in w.charges
  {
    assert RowOk(w.ledger, id);
    assert Requested(w, w.ledger.txns[id].call);
  }

  /** In every reachable state, a saga that has thrown leaves no kept payment unless its refund compensation
      failed, and no confirmed order unless its cancel compensation failed. */
  lemma ThrewIsUndone(c: Config, w: World, o: OrderId)
    requires WorldInv(c, w) && o in w.sagas && w.sagas[o].pc.Threw?
    ensures RefundPayment !in w.sagas[o].failed ==> Kept(w.ledger.tables, o) == {}
    ensures CancelOrder !in w.sagas[o].failed ==> NotConfirmed(w, o)
    ensures w.sagas[o].failed == [] ==> Kept(w.ledger.tables, o) == {} && NotConfirmed(w, o)
  {
    assert SagaOk(w, o);
    forall id | id in Kept(w.ledger.tables, o)
      ensures o in w.charges
    {
      RowsWereRequested(c, w, id);
    }
  }

  predicate Ended(g: Saga) {
    g.pc.Returned? || g.pc.Threw?
  }

  /** Nothing changes what a saga that has ended owns. */
  lemma EndedStays(c: Config, w: World, l: WorldLabel, o: OrderId)
    requires WorldInv(c, w) && WorldEnabled(c, w, l) && o in w.sagas && Ended(w.sagas[o])
    ensures o in WorldStep(c, w, l).sagas && LocalOf(WorldStep(c, w, l), o) == LocalOf(w, o)
  {
    if IsSagaLabel(l) {
      MoveIsLocal(c, w, l, o);
    }
  }

  lemma {:induction false} EndedStaysForever(c: Config, w: World, labels: seq<WorldLabel>, o: OrderId)
    requires WorldInv(c, w) && IsRun(c, w, labels) && o in w.sagas && Ended(w.sagas[o])
    ensures o in End(c, w, labels).sagas && LocalOf(End(c, w, labels), o) == LocalOf(w, o)
    decreases |labels|
  {
    if labels != [] {
      WorldStepInv(c, w, labels[0]);
      EndedStays(c, w, labels[0], o);
      EndedStaysForever(c, WorldStep(c, w, labels[0]), labels[1..], o);
    }
  }

  /** Saga consistency. Take any interleaving of any number of sagas and ledger calls, any replies, losses,
      timeouts and crashes of payment-service, and a saga that has ended. In that state and in every state
      of every continuation, if it returned then its order is confirmed and paid, and if it threw then a
      payment is kept only if the refund compensation failed and an order is confirmed only if the cancel
      compensation failed. */
  lemma SagaConsistency(c: Config, labels: seq<WorldLabel>, later: seq<WorldLabel>, o: OrderId)
    requires IsRun(c, EMPTY_WORLD, labels) && IsRun(c, End(c, EMPTY_WORLD, labels), later)
    requires o in End(c, EMPTY_WORLD, labels).sagas && Ended(End(c, EMPTY_WORLD, labels).sagas[o])
    ensures var g := End(c, EMPTY_WORLD, labels).sagas[o];
            var w := End(c, End(c, EMPTY_WORLD, labels), later);
            && (g.pc.Returned? ==> ConfirmedAndPaid(w, o))
            && (g.pc.Threw? && RefundPayment !in g.failed ==> Kept(w.ledger.tables, o) == {})
            && (g.pc.Threw? && CancelOrder !in g.failed ==> NotConfirmed(w, o))
  {
    var w := End(c, EMPTY_WORLD, labels);
    EmptyWorldInv(c);
    RunInv(c, EMPTY_WORLD, labels);
    RunInv(c, w, later);
    EndedStaysForever(c, w, later, o);
    var w' := End(c, w, later);
    assert w'.sagas[o] == LocalOf(w', o).saga == w.sagas[o];
    if w.sagas[o].pc.Returned? {
      ReturnedIsConfirmedAndPaid(c, w', o);
    } else {
      ThrewIsUndone(c, w', o);
    }
  }

  /** In every reachable state the payment of a saga that has returned is REFUNDED if and only if the run has
      committed a markRefunded of that very payment, and SUCCESS otherwise. */
  lemma PaymentIsKeptUnlessMarked(c: Config, labels: seq<WorldLabel>, o: OrderId)
    requires IsRun(c, EMPTY_WORLD, labels)
    requires o in End(c, EMPTY_WORLD, labels).sagas && End(c, EMPTY_WORLD, labels).sagas[o].pc.Returned?
    ensures Inv(c, INIT) && L.IsRun(c, INIT, LedgerPart(labels))
    ensures ConfirmedAndPaid(End(c, EMPTY_WORLD, labels), o)
    ensures var w := End(c, EMPTY_WORLD, labels);
            var id := w.orders[o].paymentId;
            w.ledger.tables.payments[id].status
              == if MarkRefunded(id) in L.Commits(c, INIT, LedgerPart(labels)) then REFUNDED else SUCCESS
  {
    ReachableInv(c, labels);
    InitInv(c);
    var w := End(c, EMPTY_WORLD, labels);
    ReturnedIsConfirmedAndPaid(c, w, o);
    LedgerPartIsRun(c, EMPTY_WORLD, labels);
    LedgerMarks.MarkedByRun(c, INIT, LedgerPart(labels), w.orders[o].paymentId);
  }

  lemma IntentKeepsNothing(c: Config, w: World, labels: seq<WorldLabel>, o: OrderId)
    requires WorldInv(c, w) && o in w.ledger.tables.intents && IsRun(c, w, labels)
    ensures Kept(End(c, w, labels).ledger.tables, o) == {}
  {
    RunInv(c, w, labels);
  }

  /** In every reachable state in which a saga hears that its refund compensation succeeded, no continuation
      keeps a charge for its order, however long its ProcessPayment goes on charging after the deadline. */
  lemma LateChargesNeutralised(c: Config, labels: seq<WorldLabel>, o: OrderId, call: CallId, later: seq<WorldLabel>)
    requires IsRun(c, EMPTY_WORLD, labels) && WorldEnabled(c, End(c, EMPTY_WORLD, labels), RefundReply(o, call))
    requires IsRun(c, End(c, EMPTY_WORLD, labels), later)
    ensures Kept(End(c, End(c, EMPTY_WORLD, labels), later).ledger.tables, o) == {}
  {
    EmptyWorldInv(c);
    RunInv(c, EMPTY_WORLD, labels);
    ConfirmedRefundHasIntent(c, End(c, EMPTY_WORLD, labels), o, call);
    IntentKeepsNothing(c, End(c, EMPTY_WORLD, labels), later, o);
  }

  /** Register before act: in every reachable state, an effect that has happened or may still happen has its
      compensation on the stack. */
  lemma RegisteredBeforeAct(c: Config, labels: seq<WorldLabel>, o: OrderId)
    requires IsRun(c, EMPTY_WORLD, labels) && o in End(c, EMPTY_WORLD, labels).sagas
    ensures var w := End(c, EMPTY_WORLD, labels);
            && (o in w.charges ==> RefundPayment in w.sagas[o].compensations)
            && (o in w.orders || w.sagas[o].pc.AwaitingInsert? ==> CancelOrder in w.sagas[o].compensations)
            && (forall id :: id in w.ledger.tables.payments && w.ledger.tables.payments[id].charge.orderId == o
                  ==> RefundPayment in w.sagas[o].compensations)
  {
    EmptyWorldInv(c);
    RunInv(c, EMPTY_WORLD, labels);
    var w := End(c, EMPTY_WORLD, labels);
    StackIsRegistered(w, o);
    forall id | id in w.ledger.tables.payments && w.ledger.tables.payments[id].charge.orderId == o
      ensures o in w.charges
    {
      RowsWereRequested(c, w, id);
    }
  }

  lemma StackIsRegistered(w: World, o: OrderId)
    requires o in w.sagas && SagaOk(w, o)
    ensures o in w.charges ==> RefundPayment in w.sagas[o].compensations
    ensures o in w.orders || w.sagas[o].pc.AwaitingInsert? ==> CancelOrder in w.sagas[o].compensations
  {
    var n := |w.sagas[o].compensations|;
    assert n >= 1 ==> w.sagas[o].compensations[0] == RefundPayment;
    assert n >= 2 ==> w.sagas[o].compensations[1] == CancelOrder;
  }

  /** The event says what the orders table says. */
  ghost predicate Truthful(w: World, e: Event) {
    match e
    case OrderCreated(o, user, name, total) =>
      && ConfirmedAndPaid(w, o)
      && w.orders[o].userId == user && w.orders[o].productName == name && w.orders[o].totalPrice == total
    case OrderFailed(o) => o in w.sagas && w.sagas[o].pc.Threw?
  }

  /** Event truth: in every reachable state an order has at most one event and at most one notification.
      ORDER_CREATED and the notification are about a confirmed, paid order; ORDER_FAILED is about a saga
      that threw. */
  lemma EventsTellTheTruth(c: Config, labels: seq<WorldLabel>)
    requires IsRun(c, EMPTY_WORLD, labels)
    ensures var w := End(c, EMPTY_WORLD, labels);
            && (forall i, j :: 0 <= i < j < |w.events| ==> w.events[i].id != w.events[j].id)
            && (forall i :: 0 <= i < |w.events| ==> Truthful(w, w.events[i]))
            && (forall i, j :: 0 <= i < j < |w.notified| ==> w.notified[i] != w.notified[j])
            && (forall i :: 0 <= i < |w.notified| ==> ConfirmedAndPaid(w, w.notified[i]))
  {
    EmptyWorldInv(c);
    RunInv(c, EMPTY_WORLD, labels);
    var w := End(c, EMPTY_WORLD, labels);
    forall i | 0 <= i < |w.events|
      ensures Truthful(w, w.events[i])
    {
      assert EventOk(w, w.events[i]);
      if w.events[i].OrderCreated? {
        ReturnedIsConfirmedAndPaid(c, w, w.events[i].id);
      }
    }
    forall i | 0 <= i < |w.notified|
      ensures ConfirmedAndPaid(w, w.notified[i])
    {
      ReturnedIsConfirmedAndPaid(c, w, w.notified[i]);
    }
  }

  lemma OwnOrderRow(w: World, o: OrderId)
    requires o in w.sagas && SagaOk(w, o) && w.sagas[o].pc.Publishing?
    ensures o in w.orders
    ensures var g := w.sagas[o];
            CreatedEvent(o, w.orders[o])
              == OrderCreated(o, g.input.userId, g.product.name, g.product.price * g.input.quantity)
  {
    assert LocalOf(w, o).order.Some?;
  }

  /** What reaches each topic is the order's own data, and nothing but the saga's end changes. */
  ghost predicate PublishedOwnData(w: World, w': World, o: OrderId, toKafka: bool, toRabbit: bool) {
    && o in w.sagas && o in w'.sagas
    && var g := w.sagas[o];
    && w'.events == w.events
       + (if toKafka then [OrderCreated(o, g.input.userId, g.product.name, g.product.price * g.input.quantity)] else [])
    && w'.notified == w.notified + (if toRabbit then [o] else [])
    && w'.sagas[o].pc.Returned? && w'.ledger == w.ledger
    && Lookup(w'.orders, o) == Lookup(w.orders, o)
  }

  /** Publishing: Kafka and RabbitMQ are independent of each other, and neither can undo the order. */
  lemma PublishesIndependently(c: Config, w: World, o: OrderId, toKafka: bool, toRabbit: bool)
    requires WorldInv(c, w) && WorldEnabled(c, w, PublishCreated(o, toKafka, toRabbit))
    ensures PublishedOwnData(w, WorldStep(c, w, PublishCreated(o, toKafka, toRabbit)), o, toKafka, toRabbit)
  {
    var l := PublishCreated(o, toKafka, toRabbit);
    OwnOrderRow(w, o);
    PublishStep(c, w, l);
    assert Emitted(LocalOf(w, o), o, l) == if toKafka then [CreatedEvent(o, w.orders[o])] else [];
  }

  lemma PublishStep(c: Config, w: World, l: WorldLabel)
    requires WorldInv(c, w) && WorldEnabled(c, w, l) && l.PublishCreated?
    ensures var w' := WorldStep(c, w, l);
            && w'.events == w.events + Emitted(LocalOf(w, l.o), l.o, l)
            && w'.notified == w.notified + (if l.toRabbit then [l.o] else [])
            && l.o in w'.sagas && w'.sagas[l.o].pc.Returned? && w'.ledger == w.ledger
            && Lookup(w'.orders, l.o) == Lookup(w.orders, l.o)
  {
    SagaIsEnabled(c, w, l);
    StepTopics(w, l);
    MoveIsLocal(c, w, l, l.o);
  }

  // ---- What is published, and by whom ----

  /** What the end of a saga leaves behind. */
  datatype Outcome = FailureEvent | SuccessEvent | Notification | ThrewError | ReturnedOrder

  predicate Shows(w: World, o: OrderId, k: Outcome) {
    match k
    case FailureEvent => OrderFailed(o) in w.events
    case SuccessEvent => exists i :: 0 <= i < |w.events| && w.events[i].OrderCreated? && w.events[i].id == o
    case Notification => o in w.notified
    case ThrewError => o in w.sagas && w.sagas[o].pc.Threw?
    case ReturnedOrder => o in w.sagas && w.sagas[o].pc.Returned?
  }

  predicate Leaves(l: WorldLabel, o: OrderId, k: Outcome) {
    match k
    case FailureEvent => l == PublishFailed(o, true)
    case SuccessEvent => l.PublishCreated? && l.o == o && l.toKafka
    case Notification => l.PublishCreated? && l.o == o && l.toRabbit
    case ThrewError => l.PublishFailed? && l.o == o
    case ReturnedOrder => l.PublishCreated? && l.o == o
  }

  predicate Ends(l: WorldLabel, o: OrderId) {
    (l.PublishFailed? || l.PublishCreated?) && l.o == o
  }

  /** What a step adds to events, to the notifications, and to the sagas that have ended. */
  lemma PublishedByStep(c: Config, w: World, l: WorldLabel, o: OrderId, k: Outcome)
    requires WorldInv(c, w) && WorldEnabled(c, w, l)
    ensures Shows(WorldStep(c, w, l), o, k) <==> Shows(w, o, k) || Leaves(l, o, k)
  {
    if IsSagaLabel(l) {
      PublishedBySaga(c, w, l, o, k);
    } else {
      PublishedByNobody(w, WorldStep(c, w, l), o, k);
    }
  }

  lemma PublishedByNobody(w: World, w': World, o: OrderId, k: Outcome)
    requires w'.events == w.events && w'.notified == w.notified
    requires o in w.sagas ==> o in w'.sagas && w'.sagas[o] == w.sagas[o]
    requires o in w'.sagas && o !in w.sagas ==> !Ended(w'.sagas[o])
    ensures Shows(w', o, k) <==> Shows(w, o, k)
  {
  }

  lemma StepTopics(w: World, l: WorldLabel)
    requires IsSagaLabel(l) && l.o in w.sagas && SagaEnabled(w.sagas[l.o], l)
    ensures SagaStep(w, l).sagas.Keys == w.sagas.Keys && SagaStep(w, l).ledger == w.ledger
    ensures SagaStep(w, l).events == w.events + Emitted(LocalOf(w, l.o), l.o, l)
    ensures SagaStep(w, l).notified == if l.PublishCreated? && l.toRabbit then w.notified + [l.o] else w.notified
  {
  }

  lemma SagaIsEnabled(c: Config, w: World, l: WorldLabel)
    requires WorldInv(c, w) && WorldEnabled(c, w, l) && IsSagaLabel(l)
    ensures l.o in w.sagas && SagaEnabled(w.sagas[l.o], l)
    ensures WorldStep(c, w, l) == SagaStep(w, l)
    ensures l.PublishCreated? ==> l.o in w.orders
  {
    if l.PublishCreated? {
      OwnOrderRow(w, l.o);
    }
  }

  lemma PublishedBySaga(c: Config, w: World, l: WorldLabel, o: OrderId, k: Outcome)
    requires WorldInv(c, w) && WorldEnabled(c, w, l) && IsSagaLabel(l)
    ensures Shows(WorldStep(c, w, l), o, k) <==> Shows(w, o, k) || Leaves(l, o, k)
  {
    SagaIsEnabled(c, w, l);
    StepTopics(w, l);
    if o in w.sagas {
      MoveIsLocal(c, w, l, o);
    }
    if k.FailureEvent? || k.SuccessEvent? {
      EventsNext(w, WorldStep(c, w, l), l, o, k);
    } else if k.ThrewError? || k.ReturnedOrder? {
      SagasNext(w, WorldStep(c, w, l), l, o, k);
    }
  }

  lemma EventsNext(w: World, w': World, l: WorldLabel, o: OrderId, k: Outcome)
    requires IsSagaLabel(l) && l.o in w.sagas && (l.PublishCreated? ==> l.o in w.orders)
    requires k.FailureEvent? || k.SuccessEvent?
    requires w'.events == w.events + Emitted(LocalOf(w, l.o), l.o, l)
    ensures Shows(w', o, k) <==> Shows(w, o, k) || Leaves(l, o, k)
  {
    var emitted := Emitted(LocalOf(w, l.o), l.o, l);
    if k.FailureEvent? {
      assert OrderFailed(o) in w'.events <==> OrderFailed(o) in w.events || OrderFailed(o) in emitted;
    } else {
      assert forall i :: 0 <= i < |w.events| ==> w'.events[i] == w.events[i];
      if emitted != [] {
        assert w'.events[|w.events|] == emitted[0];
      }
    }
  }

  lemma SagasNext(w: World, w': World, l: WorldLabel, o: OrderId, k: Outcome)
    requires IsSagaLabel(l) && l.o in w.sagas && SagaEnabled(w.sagas[l.o], l)
    requires k.ThrewError? || k.ReturnedOrder?
    requires w'.sagas.Keys == w.sagas.Keys
    requires o in w.sagas ==>
               if o == l.o
               then LocalOf(w', o) == LocalStep(LocalOf(w, o), o, l, SaysSuccess(w, l))
               else LocalOf(w', o) == LocalOf(w, o)
    ensures Shows(w', o, k) <==> Shows(w, o, k) || Leaves(l, o, k)
  {
    if o in w.sagas {
      assert LocalOf(w', o).saga == w'.sagas[o];
    }
  }

  lemma LeavesSplit(labels: seq<WorldLabel>, o: OrderId, k: Outcome)
    requires labels != []
    ensures (exists i :: 0 <= i < |labels| && Leaves(labels[i], o, k))
       <==> Leaves(labels[0], o, k) || exists i :: 0 <= i < |labels[1..]| && Leaves(labels[1..][i], o, k)
  {
    if i :| 0 < i < |labels| && Leaves(labels[i], o, k) {
      assert Leaves(labels[1..][i - 1], o, k);
    }
  }

  lemma {:induction false} PublishedByRun(c: Config, w: World, labels: seq<WorldLabel>, o: OrderId, k: Outcome)
    requires WorldInv(c, w) && IsRun(c, w, labels)
    ensures Shows(End(c, w, labels), o, k)
       <==> Shows(w, o, k) || exists i :: 0 <= i < |labels| && Leaves(labels[i], o, k)
    decreases |labels|
  {
    if labels != [] {
      var w' := WorldStep(c, w, labels[0]);
      WorldStepInv(c, w, labels[0]);
      PublishedByStep(c, w, labels[0], o, k);
      PublishedByRun(c, w', labels[1..], o, k);
      LeavesSplit(labels, o, k);
    }
  }

  /** How often saga o ends in a run. */
  function TimesEnded(labels: seq<WorldLabel>, o: OrderId): nat {
    if labels == [] then 0 else TimesEnded(labels[1..], o) + if Ends(labels[0], o) then 1 else 0
  }

  lemma EndingStep(c: Config, w: World, l: WorldLabel, o: OrderId)
    requires WorldInv(c, w) && WorldEnabled(c, w, l)
    ensures Ends(l, o) ==> o in WorldStep(c, w, l).sagas && Ended(WorldStep(c, w, l).sagas[o])
    ensures o in w.sagas && Ended(w.sagas[o]) ==> !Ends(l, o)
  {
    PublishedByStep(c, w, l, o, ThrewError);
    PublishedByStep(c, w, l, o, ReturnedOrder);
  }

  /** A saga ends at most once, and one that has ended does not end again. */
  lemma {:induction false} EndsOnce(c: Config, w: World, labels: seq<WorldLabel>, o: OrderId)
    requires WorldInv(c, w) && IsRun(c, w, labels)
    ensures TimesEnded(labels, o) <= if o in w.sagas && Ended(w.sagas[o]) then 0 else 1
    decreases |labels|
  {
    if labels != [] {
      WorldStepInv(c, w, labels[0]);
      EndingStep(c, w, labels[0], o);
      if o in w.sagas && Ended(w.sagas[o]) {
        EndedStays(c, w, labels[0], o);
      }
      EndsOnce(c, WorldStep(c, w, labels[0]), labels[1..], o);
    }
  }

  /** The topics hold what was published and nothing else. In every reachable state an order has an
      ORDER_FAILED event if and only if its saga threw and that publish went through, an ORDER_CREATED event or
      a notification if and only if its saga returned and that very publish went through; and no saga
      publishes at its end twice. */
  lemma TopicsHoldWhatWasPublished(c: Config, labels: seq<WorldLabel>, o: OrderId)
    requires IsRun(c, EMPTY_WORLD, labels)
    ensures var w := End(c, EMPTY_WORLD, labels);
            && (OrderFailed(o) in w.events <==> PublishFailed(o, true) in labels)
            && (Shows(w, o, SuccessEvent) <==> exists i :: 0 <= i < |labels| && Leaves(labels[i], o, SuccessEvent))
            && (o in w.notified <==> exists i :: 0 <= i < |labels| && Leaves(labels[i], o, Notification))
            && (o in w.sagas && w.sagas[o].pc.Threw?
                <==> exists i :: 0 <= i < |labels| && Leaves(labels[i], o, ThrewError))
            && (o in w.sagas && w.sagas[o].pc.Returned?
                <==> exists i :: 0 <= i < |labels| && Leaves(labels[i], o, ReturnedOrder))
    ensures TimesEnded(labels, o) <= 1
  {
    EmptyWorldInv(c);
    EndsOnce(c, EMPTY_WORLD, labels, o);
    forall k: Outcome
      ensures Shows(End(c, EMPTY_WORLD, labels), o, k) <==> exists i :: 0 <= i < |labels| && Leaves(labels[i], o, k)
    {
      PublishedByRun(c, EMPTY_WORLD, labels, o, k);
    }
    var w := End(c, EMPTY_WORLD, labels);
    assert Shows(w, o, FailureEvent) <==> OrderFailed(o) in w.events;
    assert Shows(w, o, Notification) <==> o in w.notified;
    assert Shows(w, o, ThrewError) <==> o in w.sagas && w.sagas[o].pc.Threw?;
    assert Shows(w, o, ReturnedOrder) <==> o in w.sagas && w.sagas[o].pc.Returned?;
  }
}
