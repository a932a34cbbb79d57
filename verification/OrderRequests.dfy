/** What a saga asks for and stores is what its request and the product service said. */
module OrderRequests {
  import opened Basics
  import opened PaymentTables
  import opened LedgerProtocol
  import opened LedgerSafety
  import opened OrderWorld
  import opened OrderSafety
  import opened OrderRuns

  /** The saga was started with this input. */
  predicate HasInput(w: World, o: OrderId, input: Input) {
    o in w.sagas && w.sagas[o].input == input
  }

  /** The saga has this product and has sent the charge for it: the unit price times the quantity. */
  predicate HasProduct(w: World, o: OrderId, p: Product) {
    && o in w.sagas && w.sagas[o].product == p
    && !w.sagas[o].pc.GettingUser? && !w.sagas[o].pc.GettingProduct?
    && o in w.charges
    && w.charges[o] == Charge(o, w.sagas[o].input.userId, p.price * w.sagas[o].input.quantity, "CREDIT_CARD")
  }

  lemma RequestStep(x: Local, o: OrderId, tables: Tables, l: WorldLabel, charged: bool)
    requires LocalOk(x, o, tables) && SagaEnabled(x.saga, l)
    ensures var g, x' := x.saga, LocalStep(x, o, l, charged);
            && x'.saga.input == g.input
            && (if l.ProductReply? && l.product.Some?
                then x'.saga.product == l.product.value
                     && x'.charge
                        == Some(Charge(o, g.input.userId, l.product.value.price * g.input.quantity, "CREDIT_CARD"))
                else x'.saga.product == g.product && x'.charge == x.charge)
            && !x'.saga.pc.GettingUser? && (x'.saga.pc.GettingProduct? ==> g.pc.GettingUser?)
            && (l.ProductReply? && l.product.Some? ==> x'.saga.pc.AwaitingPayment?)
  {
  }

  lemma LocalMoves(c: Config, w: World, l: WorldLabel, o: OrderId)
    requires WorldInv(c, w) && WorldEnabled(c, w, l) && o in w.sagas
    ensures o in WorldStep(c, w, l).sagas
    ensures IsSagaLabel(l) && l.o == o ==>
              SagaEnabled(w.sagas[o], l)
              && LocalOf(WorldStep(c, w, l), o) == LocalStep(LocalOf(w, o), o, l, SaysSuccess(w, l))
    ensures !(IsSagaLabel(l) && l.o == o) ==> LocalOf(WorldStep(c, w, l), o) == LocalOf(w, o)
  {
    if IsSagaLabel(l) {
      MoveIsLocal(c, w, l, o);
    }
  }

  /** No step changes an input, and none but the product's reply the product or the charge. */
  lemma RequestKept(c: Config, w: World, l: WorldLabel, o: OrderId, input: Input, p: Product)
    requires WorldInv(c, w) && WorldEnabled(c, w, l) && o in w.sagas
    ensures HasInput(w, o, input) ==> HasInput(WorldStep(c, w, l), o, input)
    ensures HasProduct(w, o, p) || l == ProductReply(o, Some(p)) ==> HasProduct(WorldStep(c, w, l), o, p)
  {
    LocalMoves(c, w, l, o);
    assert SagaOk(w, o);
    var x, x' := LocalOf(w, o), LocalOf(WorldStep(c, w, l), o);
    if IsSagaLabel(l) && l.o == o {
      RequestStep(x, o, w.ledger.tables, l, SaysSuccess(w, l));
    }
    LocalRequest(w, x, o, input, p);
    LocalRequest(WorldStep(c, w, l), x', o, input, p);
  }

  /** What a saga has asked for can be read off what it owns. */
  predicate Asked(x: Local, o: OrderId, p: Product) {
    && x.saga.product == p && !x.saga.pc.GettingUser? && !x.saga.pc.GettingProduct?
    && x.charge == Some(Charge(o, x.saga.input.userId, p.price * x.saga.input.quantity, "CREDIT_CARD"))
  }

  lemma LocalRequest(w: World, x: Local, o: OrderId, input: Input, p: Product)
    requires o in w.sagas && x == LocalOf(w, o)
    ensures HasInput(w, o, input) <==> x.saga.input == input
    ensures HasProduct(w, o, p) <==> Asked(x, o, p)
  {
  }

  lemma FromLocal(w: World, x: Local, o: OrderId)
    requires o in w.sagas && x == LocalOf(w, o)
    ensures x.saga == w.sagas[o] && (x.charge.Some? <==> o in w.charges)
    ensures o in w.charges ==> x.charge == Some(w.charges[o])
  {
  }

  lemma NewSaga(c: Config, w: World, l: WorldLabel, o: OrderId) returns (input: Input)
    requires WorldInv(c, w) && WorldEnabled(c, w, l) && o !in w.sagas && o in WorldStep(c, w, l).sagas
    ensures l == Start(o, input) && HasInput(WorldStep(c, w, l), o, input)
  {
    if IsSagaLabel(l) {
      SagaIsEnabled(c, w, l);
      StepTopics(w, l);
      assert false;
    }
    input := l.input;
  }

  lemma NewCharge(c: Config, w: World, l: WorldLabel, o: OrderId) returns (p: Product)
    requires WorldInv(c, w) && WorldEnabled(c, w, l) && o !in w.charges && o in WorldStep(c, w, l).charges
    ensures l == ProductReply(o, Some(p))
  {
    OnlySagasCharge(c, w, l, o);
    LocalMoves(c, w, l, o);
    assert SagaOk(w, o);
    RequestStep(LocalOf(w, o), o, w.ledger.tables, l, SaysSuccess(w, l));
    FromLocal(w, LocalOf(w, o), o);
    FromLocal(WorldStep(c, w, l), LocalOf(WorldStep(c, w, l), o), o);
    p := l.product.value;
  }

  lemma OnlySagasCharge(c: Config, w: World, l: WorldLabel, o: OrderId)
    requires WorldInv(c, w) && WorldEnabled(c, w, l) && o !in w.charges && o in WorldStep(c, w, l).charges
    ensures IsSagaLabel(l) && l.o == o && o in w.sagas
  {
    if IsSagaLabel(l) {
      SagaIsEnabled(c, w, l);
      OnlyOwnCharge(w, l, o);
    }
  }

  lemma OnlyOwnCharge(w: World, l: WorldLabel, o: OrderId)
    requires IsSagaLabel(l) && l.o in w.sagas && SagaEnabled(w.sagas[l.o], l)
    requires o !in w.charges && o in SagaStep(w, l).charges
    ensures l.o == o
  {
  }

  lemma {:induction false} SagaWasStarted(c: Config, w: World, labels: seq<WorldLabel>, o: OrderId)
    returns (input: Input)
    requires WorldInv(c, w) && IsRun(c, w, labels) && o !in w.sagas && o in End(c, w, labels).sagas
    ensures Start(o, input) in labels && HasInput(End(c, w, labels), o, input)
    decreases |labels|
  {
    var w' := WorldStep(c, w, labels[0]);
    WorldStepInv(c, w, labels[0]);
    if o in w'.sagas {
      input := NewSaga(c, w, labels[0], o);
      InputKeptAlong(c, w', labels[1..], o, input);
    } else {
      input := SagaWasStarted(c, w', labels[1..], o);
    }
  }

  lemma {:induction false} InputKeptAlong(c: Config, w: World, labels: seq<WorldLabel>, o: OrderId, input: Input)
    requires WorldInv(c, w) && IsRun(c, w, labels) && HasInput(w, o, input)
    ensures HasInput(End(c, w, labels), o, input)
    decreases |labels|
  {
    if labels != [] {
      WorldStepInv(c, w, labels[0]);
      RequestKept(c, w, labels[0], o, input, w.sagas[o].product);
      InputKeptAlong(c, WorldStep(c, w, labels[0]), labels[1..], o, input);
    }
  }

  lemma {:induction false} ProductWasFound(c: Config, w: World, labels: seq<WorldLabel>, o: OrderId)
    returns (p: Product)
    requires WorldInv(c, w) && IsRun(c, w, labels) && o !in w.charges && o in End(c, w, labels).charges
    ensures ProductReply(o, Some(p)) in labels
    decreases |labels|
  {
    var w' := WorldStep(c, w, labels[0]);
    WorldStepInv(c, w, labels[0]);
    if o in w'.charges {
      p := NewCharge(c, w, labels[0], o);
    } else {
      p := ProductWasFound(c, w', labels[1..], o);
    }
  }

  lemma {:induction false} ProductKeptAlong(c: Config, w: World, labels: seq<WorldLabel>, o: OrderId, p: Product)
    requires WorldInv(c, w) && IsRun(c, w, labels)
    requires HasProduct(w, o, p) || ProductReply(o, Some(p)) in labels
    ensures HasProduct(End(c, w, labels), o, p)
    decreases |labels|
  {
    if labels != [] {
      WorldStepInv(c, w, labels[0]);
      if HasProduct(w, o, p) || labels[0] == ProductReply(o, Some(p)) {
        RequestKept(c, w, labels[0], o, w.sagas[o].input, p);
      }
      ProductKeptAlong(c, WorldStep(c, w, labels[0]), labels[1..], o, p);
    }
  }

  /** The order row says what was asked for and what the product service answered. */
  predicate RowSays(order: Order, input: Input, p: Product) {
    && order.userId == input.userId && order.productId == input.productId && order.quantity == input.quantity
    && order.productName == p.name && order.totalPrice == p.price * input.quantity
  }

  /** In every reachable state, if the product service has answered p for an order, the saga has kept p and has
      sent a charge of p's price times the quantity asked for, and every payment row and the order row, if
      there is one, say the same. */
  lemma OrdersAreWhatWasAsked(c: Config, labels: seq<WorldLabel>, o: OrderId, p: Product)
    requires IsRun(c, EMPTY_WORLD, labels) && ProductReply(o, Some(p)) in labels
    ensures var w := End(c, EMPTY_WORLD, labels);
            && o in w.sagas && w.sagas[o].product == p && Start(o, w.sagas[o].input) in labels
            && var input := w.sagas[o].input;
            && var charge := Charge(o, input.userId, p.price * input.quantity, "CREDIT_CARD");
            && o in w.charges && w.charges[o] == charge
            && (forall id :: id in w.ledger.tables.payments && w.ledger.tables.payments[id].charge.orderId == o
                  ==> w.ledger.tables.payments[id].charge == charge)
            && (o in w.orders ==> RowSays(w.orders[o], input, p))
  {
    ReachableInv(c, labels);
    EmptyWorldInv(c);
    var w := End(c, EMPTY_WORLD, labels);
    ProductKeptAlong(c, EMPTY_WORLD, labels, o, p);
    var input := SagaWasStarted(c, EMPTY_WORLD, labels, o);
    assert w.sagas[o].input == input;
    RowIsOfRequest(c, w, o);
    forall id | id in w.ledger.tables.payments && w.ledger.tables.payments[id].charge.orderId == o
      ensures w.ledger.tables.payments[id].charge == w.charges[o]
    {
      assert RowOk(w.ledger, id);
      assert Requested(w, w.ledger.txns[id].call);
    }
  }

  lemma RowIsOfRequest(c: Config, w: World, o: OrderId)
    requires WorldInv(c, w) && o in w.sagas
    ensures o in w.orders ==> RowSays(w.orders[o], w.sagas[o].input, w.sagas[o].product)
  {
    assert SagaOk(w, o);
    if o in w.orders {
      assert LocalOf(w, o).order == Some(w.orders[o]);
    }
  }

  /** And nothing is charged or ordered without such an answer. */
  lemma NothingIsChargedUnasked(c: Config, labels: seq<WorldLabel>, o: OrderId) returns (p: Product)
    requires IsRun(c, EMPTY_WORLD, labels) && o in End(c, EMPTY_WORLD, labels).charges
    ensures ProductReply(o, Some(p)) in labels
  {
    EmptyWorldInv(c);
    p := ProductWasFound(c, EMPTY_WORLD, labels, o);
  }
}
