/** Two whole runs from the empty system: a saga that returns its order, and one whose payment is refunded. */
module OrderScenarios {
  import opened Basics
  import opened PaymentTables
  import opened LedgerProtocol
  import opened OrderWorld
  import opened OrderRuns
  import L = LedgerRuns
  import M = LedgerMarks

  lemma {:induction false} RunsJoin(c: Config, w: World, first: seq<WorldLabel>, second: seq<WorldLabel>)
    requires IsRun(c, w, first) && IsRun(c, End(c, w, first), second)
    ensures IsRun(c, w, first + second)
    ensures End(c, w, first + second) == End(c, End(c, w, first), second)
    decreases |first|
  {
    if first == [] {
      assert first + second == second;
    } else {
      RunsJoin(c, WorldStep(c, w, first[0]), first[1..], second);
      assert (first + second)[1..] == first[1..] + second;
    }
  }

  lemma OneStep(c: Config, w: World, l: WorldLabel)
    requires WorldEnabled(c, w, l)
    ensures IsRun(c, w, [l]) && End(c, w, [l]) == WorldStep(c, w, l)
  {
    assert [l][1..] == [];
  }

  function Lift(labels: seq<Label>): (lifted: seq<WorldLabel>) {
    if labels == [] then [] else [LedgerStep(labels[0])] + Lift(labels[1..])
  }

  /** A run of the ledger that serves only requests sent is a run of the system, and moves nothing else. */
  lemma {:induction false} LedgerRunLifts(c: Config, w: World, labels: seq<Label>)
    requires L.IsRun(c, w.ledger, labels)
    requires forall i :: 0 <= i < |labels| && labels[i].Spawn? ==> Requested(w, labels[i].call)
    ensures IsRun(c, w, Lift(labels))
    ensures End(c, w, Lift(labels)) == w.(ledger := L.End(c, w.ledger, labels))
    decreases |labels|
  {
    if labels != [] {
      var w' := WorldStep(c, w, LedgerStep(labels[0]));
      LedgerRunLifts(c, w', labels[1..]);
      assert Lift(labels)[1..] == Lift(labels[1..]);
    }
  }

  // ---- From the request to the charge ----

  function ChargeFor(o: OrderId, input: Input, p: Product): Charge {
    Charge(o, input.userId, p.price * input.quantity, "CREDIT_CARD")
  }

  /** Saga o alone is there, at pc, with what it has registered and sent so far. */
  predicate Only(w: World, o: OrderId, input: Input, p: Product, pc: Pc, compensations: seq<Compensation>) {
    && w.sagas == map[o := Saga(input, p, pc, compensations, [])]
    && w.charges == map[o := ChargeFor(o, input, p)]
  }

  predicate Quiet(w: World) {
    w.orders == map[] && w.events == [] && w.notified == [] && w.refundsSent == {}
  }

  function Asks(o: OrderId, input: Input, p: Product): seq<WorldLabel> {
    [Start(o, input)] + [UserReply(o, true)] + [ProductReply(o, Some(p))]
  }

  lemma AskRun(c: Config, o: OrderId, input: Input, p: Product)
    ensures IsRun(c, EMPTY_WORLD, Asks(o, input, p))
    ensures var w := End(c, EMPTY_WORLD, Asks(o, input, p));
            w.ledger == INIT && Quiet(w) && Only(w, o, input, p, AwaitingPayment, [RefundPayment])
  {
    OneStep(c, EMPTY_WORLD, Start(o, input));
    var w1 := End(c, EMPTY_WORLD, [Start(o, input)]);
    OneStep(c, w1, UserReply(o, true));
    RunsJoin(c, EMPTY_WORLD, [Start(o, input)], [UserReply(o, true)]);
    var w2 := End(c, w1, [UserReply(o, true)]);
    assert w2 == w1.(sagas := map[o := Saga(input, Product("", 0), GettingProduct, [], [])]);
    OneStep(c, w2, ProductReply(o, Some(p)));
    assert [] + [RefundPayment] == [RefundPayment];
    assert WorldStep(c, w2, ProductReply(o, Some(p))).sagas
        == map[o := Saga(input, p, AwaitingPayment, [RefundPayment], [])];
    RunsJoin(c, EMPTY_WORLD, [Start(o, input)] + [UserReply(o, true)], [ProductReply(o, Some(p))]);
  }

  /** The charge has been made and answered. */
  predicate PaymentMade(w: World, o: OrderId, input: Input, p: Product, tx: nat) {
    && Quiet(w) && Only(w, o, input, p, AwaitingPayment, [RefundPayment])
    && M.OnlyCharged(w.ledger, 0, ChargeFor(o, input, p), tx)
  }

  function Pays(o: OrderId, input: Input, p: Product, tx: nat): seq<WorldLabel> {
    Asks(o, input, p) + Lift(M.ChargeRun(0, ChargeFor(o, input, p), tx))
  }

  lemma PayRun(c: Config, o: OrderId, input: Input, p: Product, tx: nat)
    requires c.poolSize >= 1
    ensures IsRun(c, EMPTY_WORLD, Pays(o, input, p, tx))
    ensures PaymentMade(End(c, EMPTY_WORLD, Pays(o, input, p, tx)), o, input, p, tx)
  {
    var charge := ChargeFor(o, input, p);
    AskRun(c, o, input, p);
    M.ChargeFromInit(c, 0, charge, tx);
    LedgerRunLifts(c, End(c, EMPTY_WORLD, Asks(o, input, p)), M.ChargeRun(0, charge, tx));
    RunsJoin(c, EMPTY_WORLD, Asks(o, input, p), Lift(M.ChargeRun(0, charge, tx)));
  }

  // ---- The order is returned ----

  function Finishes(o: OrderId): seq<WorldLabel> {
    [PaymentReply(o, 0)] + [InsertReply(o, true, true)] + [PublishCreated(o, true, true)]
  }

  function TheOrder(input: Input, p: Product): Order {
    Order(input.userId, input.productId, input.quantity, p.price * input.quantity, p.name, 0, CONFIRMED)
  }

  lemma FinishRun(c: Config, w: World, o: OrderId, input: Input, p: Product, tx: nat)
    requires PaymentMade(w, o, input, p, tx)
    ensures IsRun(c, w, Finishes(o))
    ensures var w' := End(c, w, Finishes(o));
            && Only(w', o, input, p, Returned, [RefundPayment, CancelOrder])
            && w'.orders == map[o := TheOrder(input, p)]
            && w'.events == [OrderCreated(o, input.userId, p.name, p.price * input.quantity)]
            && w'.notified == [o] && w'.ledger == w.ledger
  {
    OneStep(c, w, PaymentReply(o, 0));
    var w1 := End(c, w, [PaymentReply(o, 0)]);
    assert [RefundPayment] + [CancelOrder] == [RefundPayment, CancelOrder];
    assert w1.sagas == map[o := Saga(input, p, AwaitingInsert(0), [RefundPayment, CancelOrder], [])];
    assert Quiet(w1) && w1.ledger == w.ledger;
    OneStep(c, w1, InsertReply(o, true, true));
    RunsJoin(c, w, [PaymentReply(o, 0)], [InsertReply(o, true, true)]);
    var w2 := End(c, w1, [InsertReply(o, true, true)]);
    assert Only(w2, o, input, p, Publishing, [RefundPayment, CancelOrder]);
    assert w2.orders == map[o := TheOrder(input, p)];
    OneStep(c, w2, PublishCreated(o, true, true));
    RunsJoin(c, w, [PaymentReply(o, 0)] + [InsertReply(o, true, true)], [PublishCreated(o, true, true)]);
  }

  /** Nothing fails: the saga returns the order that was asked for, paid and announced. */
  lemma OrderIsReturned(c: Config, o: OrderId, input: Input, p: Product, tx: nat)
    requires c.poolSize >= 1
    ensures var labels := Pays(o, input, p, tx) + Finishes(o);
            && IsRun(c, EMPTY_WORLD, labels)
            && var w := End(c, EMPTY_WORLD, labels);
            && o in w.sagas && w.sagas[o].pc.Returned?
            && w.orders == map[o := TheOrder(input, p)]
            && w.ledger.tables.payments == map[0 := Payment(ChargeFor(o, input, p), SUCCESS, Some(tx), false)]
            && w.events == [OrderCreated(o, input.userId, p.name, p.price * input.quantity)] && w.notified == [o]
  {
    PayRun(c, o, input, p, tx);
    FinishRun(c, End(c, EMPTY_WORLD, Pays(o, input, p, tx)), o, input, p, tx);
    RunsJoin(c, EMPTY_WORLD, Pays(o, input, p, tx), Finishes(o));
  }

  // ---- The payment's deadline passes, and the charge is refunded ----

  function RefundRun(t: CallId, o: OrderId): seq<Label> {
    ([Spawn(t, RefundCall(o)), Connect(t)] + [Begin(t), Lock(t)])
    + ([InsertIntent(t), StartUpdate(t)] + [UpdateRow(t, 0), Commit(t, true)] + [Release(t)])
  }

  /** Call 1 holds the lock of the order that call 0 has charged. */
  predicate RefundLocked(c: Config, s: State, charge: Charge, tx: nat) {
    && s.txns == map[0 := Txn(ChargeCall(charge, tx), Done(Charged(false))),
                     1 := Txn(RefundCall(charge.orderId), Locked)]
    && s.tables == Tables(map[0 := Payment(charge, SUCCESS, Some(tx), false)], {})
    && s.clients == {1}
  }

  lemma RefundLocks(c: Config, s: State, charge: Charge, tx: nat)
    requires c.poolSize >= 1 && M.OnlyCharged(s, 0, charge, tx)
    ensures var labels := [Spawn(1, RefundCall(charge.orderId)), Connect(1)] + [Begin(1), Lock(1)];
            L.IsRun(c, s, labels) && RefundLocked(c, L.End(c, s, labels), charge, tx)
  {
    var first, second := [Spawn(1, RefundCall(charge.orderId)), Connect(1)], [Begin(1), Lock(1)];
    M.TwoSteps(c, s, first[0], first[1]);
    M.TwoSteps(c, L.End(c, s, first), second[0], second[1]);
    M.RunsJoin(c, s, first, second);
  }

  /** The refund has found the row. */
  predicate RefundFound(c: Config, s: State, charge: Charge, tx: nat) {
    && s.txns == map[0 := Txn(ChargeCall(charge, tx), Done(Charged(false))),
                     1 := Txn(RefundCall(charge.orderId), Updating({0}, {}))]
    && s.tables == Tables(map[0 := Payment(charge, SUCCESS, Some(tx), false)], {})
    && s.clients == {1}
  }

  lemma RefundFinds(c: Config, s: State, charge: Charge, tx: nat)
    requires RefundLocked(c, s, charge, tx)
    ensures L.IsRun(c, s, [InsertIntent(1), StartUpdate(1)])
    ensures RefundFound(c, L.End(c, s, [InsertIntent(1), StartUpdate(1)]), charge, tx)
  {
    assert Kept(s.tables, charge.orderId) == {0};
    M.TwoSteps(c, s, InsertIntent(1), StartUpdate(1));
  }

  lemma RefundCommits(c: Config, s: State, charge: Charge, tx: nat)
    requires RefundFound(c, s, charge, tx)
    ensures var labels := [UpdateRow(1, 0), Commit(1, true)];
            && L.IsRun(c, s, labels)
            && var s' := L.End(c, s, labels);
            && 1 in s'.txns && s'.txns[1] == Txn(RefundCall(charge.orderId), Committed(RefundedRows({0})))
            && s'.tables == Tables(map[0 := Payment(charge, REFUNDED, Some(tx), true)], {charge.orderId})
  {
    RefundMoves(c, s, charge, tx);
    M.TwoSteps(c, s, UpdateRow(1, 0), Commit(1, true));
    var s1 := Step(c, s, UpdateRow(1, 0));
    assert Step(c, s1, Commit(1, true)).tables
        == Tables(RefundRows(s.tables.payments, {0}), s.tables.intents + {charge.orderId});
  }

  /** The row is free and SUCCESS, so it is updated, and the UPDATE is done. */
  lemma RefundMoves(c: Config, s: State, charge: Charge, tx: nat)
    requires RefundFound(c, s, charge, tx)
    ensures Enabled(c, s, UpdateRow(1, 0))
    ensures var s' := Step(c, s, UpdateRow(1, 0));
            s'.tables == s.tables && s'.txns == s.txns[1 := Txn(RefundCall(charge.orderId), Updating({}, {0}))]
  {
    assert {0 as PaymentId} - {0} == {} && {} + {0 as PaymentId} == {0};
  }

  lemma RefundRuns(c: Config, s: State, charge: Charge, tx: nat)
    requires c.poolSize >= 1 && M.OnlyCharged(s, 0, charge, tx)
    ensures var labels := RefundRun(1, charge.orderId);
            && L.IsRun(c, s, labels)
            && var s' := L.End(c, s, labels);
            && 1 in s'.txns && s'.txns[1] == Txn(RefundCall(charge.orderId), Done(RefundedRows({0})))
            && s'.tables == Tables(map[0 := Payment(charge, REFUNDED, Some(tx), true)], {charge.orderId})
  {
    var first := [Spawn(1, RefundCall(charge.orderId)), Connect(1)] + [Begin(1), Lock(1)];
    var second, third := [InsertIntent(1), StartUpdate(1)], [UpdateRow(1, 0), Commit(1, true)];
    RefundLocks(c, s, charge, tx);
    var s1 := L.End(c, s, first);
    RefundFinds(c, s1, charge, tx);
    RefundCommits(c, L.End(c, s1, second), charge, tx);
    M.RunsJoin(c, s1, second, third);
    M.OneStep(c, L.End(c, s1, second + third), Release(1));
    M.RunsJoin(c, s1, second + third, [Release(1)]);
    M.RunsJoin(c, s, first, second + third + [Release(1)]);
  }

  lemma GiveUpRun(c: Config, w: World, o: OrderId, input: Input, p: Product, tx: nat)
    requires PaymentMade(w, o, input, p, tx)
    ensures var labels := [PaymentError(o)] + [SendRefund(o)];
            && IsRun(c, w, labels)
            && var w' := End(c, w, labels);
            && Only(w', o, input, p, AwaitingRefund(0), [RefundPayment])
            && w'.orders == map[] && w'.events == [] && w'.notified == []
            && w'.refundsSent == {o} && w'.ledger == w.ledger
  {
    OneStep(c, w, PaymentError(o));
    var w1 := End(c, w, [PaymentError(o)]);
    assert Only(w1, o, input, p, Unwinding(1), [RefundPayment]) && Quiet(w1) && w1.ledger == w.ledger;
    OneStep(c, w1, SendRefund(o));
    RunsJoin(c, w, [PaymentError(o)], [SendRefund(o)]);
  }

  lemma AnnounceRun(c: Config, w: World, o: OrderId, input: Input, p: Product)
    requires Only(w, o, input, p, AwaitingRefund(0), [RefundPayment])
    requires w.orders == map[] && w.events == [] && w.refundsSent == {o} && Confirms(w, 1, o)
    ensures var labels := [RefundReply(o, 1)] + [PublishFailed(o, true)];
            && IsRun(c, w, labels)
            && var w' := End(c, w, labels);
            && Only(w', o, input, p, Threw, [RefundPayment])
            && w'.orders == map[] && w'.events == [OrderFailed(o)] && w'.ledger == w.ledger
  {
    OneStep(c, w, RefundReply(o, 1));
    var w1 := End(c, w, [RefundReply(o, 1)]);
    assert Only(w1, o, input, p, Unwinding(0), [RefundPayment]) && w1.ledger == w.ledger;
    OneStep(c, w1, PublishFailed(o, true));
    RunsJoin(c, w, [RefundReply(o, 1)], [PublishFailed(o, true)]);
  }

  function Undoes(o: OrderId): seq<WorldLabel> {
    ([PaymentError(o)] + [SendRefund(o)]) + Lift(RefundRun(1, o)) + ([RefundReply(o, 1)] + [PublishFailed(o, true)])
  }

  /** The charge is made, but its reply comes too late: the saga refunds it, throws and announces the
      failure, no compensation fails, and the payment ends REFUNDED. */
  lemma ChargeIsRefunded(c: Config, o: OrderId, input: Input, p: Product, tx: nat)
    requires c.poolSize >= 1
    ensures var labels := Pays(o, input, p, tx) + Undoes(o);
            && IsRun(c, EMPTY_WORLD, labels)
            && var w := End(c, EMPTY_WORLD, labels);
            && o in w.sagas && w.sagas[o].pc.Threw? && w.sagas[o].failed == []
            && w.orders == map[] && w.events == [OrderFailed(o)]
            && w.ledger.tables.payments == map[0 := Payment(ChargeFor(o, input, p), REFUNDED, Some(tx), true)]
  {
    PayRun(c, o, input, p, tx);
    var w0 := End(c, EMPTY_WORLD, Pays(o, input, p, tx));
    GiveUpRun(c, w0, o, input, p, tx);
    var gives := [PaymentError(o)] + [SendRefund(o)];
    var w1 := End(c, w0, gives);
    RefundRuns(c, w1.ledger, ChargeFor(o, input, p), tx);
    LedgerRunLifts(c, w1, RefundRun(1, o));
    var w2 := End(c, w1, Lift(RefundRun(1, o)));
    RunsJoin(c, w0, gives, Lift(RefundRun(1, o)));
    AnnounceRun(c, w2, o, input, p);
    RunsJoin(c, w0, gives + Lift(RefundRun(1, o)), [RefundReply(o, 1)] + [PublishFailed(o, true)]);
    RunsJoin(c, EMPTY_WORLD, Pays(o, input, p, tx), Undoes(o));
  }
}
