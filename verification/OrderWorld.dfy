/** Sagas of order-service running against payment-service's ledger and the orders table.

    Any number of sagas and ledger transactions interleave. A remote call of a saga has two halves: sending
    it allows the callee to start work, and a reply or an error ends the wait. An error may come at any
    time, whatever the callee has done or will still do; in particular a ProcessPayment whose deadline has
    passed may go on charging for ever after. */
module OrderWorld {
  import opened Basics
  import opened PaymentTables
  import opened LedgerProtocol

  datatype OrderStatus = CONFIRMED | CANCELLED

  datatype Order = Order(userId: nat, productId: nat, quantity: nat, totalPrice: int, productName: string,
                         paymentId: PaymentId, status: OrderStatus)

  datatype Event =
    | OrderCreated(id: OrderId, userId: nat, productName: string, totalPrice: int)
    | OrderFailed(id: OrderId)

  datatype Compensation = RefundPayment | CancelOrder

  datatype Input = Input(userId: nat, productId: nat, quantity: nat)

  datatype Product = Product(name: string, price: int)

  datatype Pc =
    | GettingUser
    | GettingProduct
    | AwaitingPayment
    | AwaitingInsert(payment: PaymentId)
    | Unwinding(left: nat)       // compensations 0 .. left - 1 are still to be run
    | AwaitingRefund(left: nat)  // compensation left, a refund, has been sent
    | Threw
    | Publishing
    | Returned

  datatype Saga =
    Saga(input: Input, product: Product, pc: Pc, compensations: seq<Compensation>, failed: seq<Compensation>)

  datatype World = World(
    ledger: State,
    orders: map<OrderId, Order>,
    sagas: map<OrderId, Saga>,
    charges: map<OrderId, Charge>,  // ProcessPayment requests sent
    refundsSent: set<OrderId>,      // RefundByOrderId requests sent
    events: seq<Event>,             // the Kafka topic order-events
    notified: seq<OrderId>)         // the RabbitMQ queue order_notifications

  datatype WorldLabel =
    | Start(o: OrderId, input: Input)
    | UserReply(o: OrderId, ok: bool)
    | ProductReply(o: OrderId, product: Option<Product>)
    | PaymentReply(o: OrderId, call: CallId)
    | PaymentError(o: OrderId)
    | InsertReply(o: OrderId, done: bool, ok: bool)
    | CancelReply(o: OrderId, done: bool, ok: bool)
    | SendRefund(o: OrderId)
    | RefundReply(o: OrderId, call: CallId)
    | RefundError(o: OrderId)
    | PublishFailed(o: OrderId, published: bool)
    | PublishCreated(o: OrderId, toKafka: bool, toRabbit: bool)
    | LedgerStep(l: Label)

  const EMPTY_WORLD := World(INIT, map[], map[], map[], {}, [], [])

  function ChargeOf(o: OrderId, g: Saga): Charge {
    Charge(o, g.input.userId, g.product.price * g.input.quantity, "CREDIT_CARD")
  }

  function OrderRow(g: Saga, payment: PaymentId, status: OrderStatus): Order {
    Order(g.input.userId, g.input.productId, g.input.quantity, g.product.price * g.input.quantity, g.product.name,
          payment, status)
  }

  function CreatedEvent(o: OrderId, order: Order): Event {
    OrderCreated(o, order.userId, order.productName, order.totalPrice)
  }

  /** payment-service starts a ledger call only for a request it has been sent. RefundPayment can be called
      by anyone at any time. */
  predicate Requested(w: World, call: Call) {
    match call
    case ChargeCall(charge, _) => charge.orderId in w.charges && w.charges[charge.orderId] == charge
    case FailureCall(charge) => charge.orderId in w.charges && w.charges[charge.orderId] == charge
    case RefundCall(o) => o in w.refundsSent
    case RefundPaymentCall(_) => true
  }

  /** Call t is a finished ProcessPayment transaction for order o, so its row is what the reply carries. */
  predicate Answers(w: World, t: CallId, o: OrderId) {
    && t in w.ledger.txns
    && var x := w.ledger.txns[t];
    && (x.call.ChargeCall? || x.call.FailureCall?) && x.call.charge.orderId == o
    && x.phase.Done? && (x.phase.reply.Charged? || x.phase.reply.FailureRecorded?)
  }

  /** What one saga owns: its own state, its row in orders, and the requests it has sent. */
  datatype Local = Local(saga: Saga, order: Option<Order>, charge: Option<Charge>, refundSent: bool)

  function Lookup<V>(m: map<OrderId, V>, o: OrderId): Option<V> {
    if o in m then Some(m[o]) else None
  }

  function LocalOf(w: World, o: OrderId): Local
    requires o in w.sagas
  {
    Local(w.sagas[o], Lookup(w.orders, o), Lookup(w.charges, o), o in w.refundsSent)
  }

  function Store<V>(m: map<OrderId, V>, o: OrderId, v: Option<V>): map<OrderId, V> {
    if v.Some? then m[o := v.value] else m
  }

  function Put(w: World, o: OrderId, x: Local): World {
    w.(sagas := w.sagas[o := x.saga],
       orders := Store(w.orders, o, x.order),
       charges := Store(w.charges, o, x.charge),
       refundsSent := if x.refundSent then w.refundsSent + {o} else w.refundsSent)
  }

  predicate WorldEnabled(c: Config, w: World, l: WorldLabel) {
    match l
    case Start(o, _) => o !in w.sagas
    case LedgerStep(step) => Enabled(c, w.ledger, step) && (step.Spawn? ==> Requested(w, step.call))
    case PaymentReply(o, t) => o in w.sagas && SagaEnabled(w.sagas[o], l) && Answers(w, t, o)
    case RefundReply(o, t) => o in w.sagas && SagaEnabled(w.sagas[o], l) && Confirms(w, t, o)
    case _ => l.o in w.sagas && SagaEnabled(w.sagas[l.o], l)
  }

  /** Call t is a RefundByOrderId transaction for order o that has replied without an error. */
  predicate Confirms(w: World, t: CallId, o: OrderId) {
    && t in w.ledger.txns && w.ledger.txns[t].call == RefundCall(o)
    && w.ledger.txns[t].phase.Done? && w.ledger.txns[t].phase.reply.RefundedRows?
  }

  predicate SagaEnabled(g: Saga, l: WorldLabel) {
    match l
    case UserReply(_, _) => g.pc.GettingUser?
    case ProductReply(_, _) => g.pc.GettingProduct?
    case PaymentReply(_, _) => g.pc.AwaitingPayment?
    case PaymentError(_) => g.pc.AwaitingPayment?
    case InsertReply(_, done, ok) => g.pc.AwaitingInsert? && (ok ==> done)
    case CancelReply(_, done, ok) => NextIs(g, CancelOrder) && (ok ==> done)
    case SendRefund(_) => NextIs(g, RefundPayment)
    case RefundReply(_, _) => g.pc.AwaitingRefund?
    case RefundError(_) => g.pc.AwaitingRefund?
    case PublishFailed(_, _) => g.pc == Unwinding(0)
    case PublishCreated(_, _, _) => g.pc.Publishing?
    case _ => false
  }

  predicate NextIs(g: Saga, comp: Compensation) {
    g.pc.Unwinding? && 0 < g.pc.left <= |g.compensations| && g.compensations[g.pc.left - 1] == comp
  }

  /** The catch block: unwinding starts with the compensation registered last. */
  function Fail(g: Saga): Saga {
    g.(pc := Unwinding(|g.compensations|))
  }

  /** A compensation has run; its name is recorded if it threw. */
  function Ran(g: Saga, left: nat, comp: Compensation, ok: bool): Saga {
    g.(pc := Unwinding(left), failed := if ok then g.failed else g.failed + [comp])
  }

  /** The step of one saga; charged says whether a payment reply carries status SUCCESS. */
  function LocalStep(x: Local, o: OrderId, l: WorldLabel, charged: bool): Local
    requires SagaEnabled(x.saga, l)
  {
    var g := x.saga;
    match l
    case UserReply(_, ok) => x.(saga := if ok then g.(pc := GettingProduct) else Fail(g))
    case ProductReply(_, None) => x.(saga := Fail(g))
    case ProductReply(_, Some(product)) =>
      // the refund is registered, then the charge is sent
      var g' := g.(product := product, compensations := g.compensations + [RefundPayment], pc := AwaitingPayment);
      x.(saga := g', charge := Some(ChargeOf(o, g')))
    case PaymentReply(_, t) =>
      x.(saga :=
           if charged
           // the cancellation is registered, then the insert is sent
           then g.(compensations := g.compensations + [CancelOrder], pc := AwaitingInsert(t))
           else Fail(g))
    case PaymentError(_) => x.(saga := Fail(g))
    case InsertReply(_, done, ok) =>
      x.(saga := if ok then g.(pc := Publishing) else Fail(g),
         order := if done then Some(OrderRow(g, g.pc.payment, CONFIRMED)) else x.order)
    case CancelReply(_, done, ok) =>
      x.(saga := Ran(g, g.pc.left - 1, CancelOrder, ok),
         order := if done && x.order.Some? then Some(x.order.value.(status := CANCELLED)) else x.order)
    case SendRefund(_) => x.(saga := g.(pc := AwaitingRefund(g.pc.left - 1)), refundSent := true)
    case RefundReply(_, _) => x.(saga := Ran(g, g.pc.left, RefundPayment, true))
    case RefundError(_) => x.(saga := Ran(g, g.pc.left, RefundPayment, false))
    case PublishFailed(_, _) => x.(saga := g.(pc := Threw))
    case PublishCreated(_, _, _) => x.(saga := g.(pc := Returned))
  }

  /** The events a saga step publishes to Kafka. */
  function Emitted(x: Local, o: OrderId, l: WorldLabel): seq<Event> {
    match l
    case PublishFailed(_, true) => [OrderFailed(o)]
    case PublishCreated(_, true, _) => if x.order.Some? then [CreatedEvent(o, x.order.value)] else []
    case _ => []
  }

  predicate SaysSuccess(w: World, l: WorldLabel) {
    l.PaymentReply? && l.call in w.ledger.txns && w.ledger.txns[l.call].phase == Done(Charged(false))
  }

  predicate IsSagaLabel(l: WorldLabel) {
    !l.Start? && !l.LedgerStep?
  }

  function SagaStep(w: World, l: WorldLabel): World
    requires IsSagaLabel(l) && l.o in w.sagas && SagaEnabled(w.sagas[l.o], l)
  {
    var x := LocalOf(w, l.o);
    Put(w, l.o, LocalStep(x, l.o, l, SaysSuccess(w, l))).(
      events := w.events + Emitted(x, l.o, l),
      notified := if l.PublishCreated? && l.toRabbit then w.notified + [l.o] else w.notified)
  }

  function WorldStep(c: Config, w: World, l: WorldLabel): World
    requires WorldEnabled(c, w, l)
  {
    match l
    case Start(o, input) => w.(sagas := w.sagas[o := Saga(input, Product("", 0), GettingUser, [], [])])
    case LedgerStep(step) => w.(ledger := Step(c, w.ledger, step))
    case _ => SagaStep(w, l)
  }
}
