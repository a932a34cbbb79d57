/** What every step of every saga keeps, and what that says about the orders and payments it leaves behind. */
module OrderSafety {
  import opened Basics
  import opened PaymentTables
  import opened LedgerProtocol
  import opened LedgerSafety
  import opened OrderWorld

  // ---- A ledger invariant the sagas need ----

  /** A row is REFUNDED only because its order's refund was requested or a call of RefundPayment has marked
      it, and every row so marked is REFUNDED. */
  ghost predicate RefundsHaveCause(s: State) {
    && (forall id :: id in s.tables.payments && s.tables.payments[id].status == REFUNDED ==>
          s.tables.payments[id].charge.orderId in s.tables.intents || id in s.marked)
    && (forall id :: id in s.marked ==> id in s.tables.payments && s.tables.payments[id].status == REFUNDED)
  }

  lemma CausesKept(c: Config, s: State, l: Label)
    requires Inv(c, s) && RefundsHaveCause(s) && Enabled(c, s, l)
    ensures RefundsHaveCause(Step(c, s, l))
  {
    StepRefines(c, s, l);
    TablesKept(c, s, l);
    MarksAreCommits(c, s, l);
    CausesFollow(s, Step(c, s, l), ActionOf(s, l));
  }

  lemma CausesFollow(s: State, s': State, a: Option<Action>)
    requires RefundsHaveCause(s) && Refines(s.tables, a, s'.tables)
    requires Later(s.tables, s'.tables) && MarksFollow(s, a, s')
    ensures RefundsHaveCause(s')
  {
  }

  // ---- The invariant of the whole system ----

  /** The compensations in the order they are registered. */
  function Stack(n: nat): seq<Compensation> {
    if n == 0 then [] else if n == 1 then [RefundPayment] else [RefundPayment, CancelOrder]
  }

  /** How many compensations a saga has registered at each point: always before the step they undo. */
  predicate Registered(g: Saga) {
    var n := |g.compensations|;
    && n <= 2 && g.compensations == Stack(n)
    && match g.pc
       case GettingUser | GettingProduct => n == 0
       case AwaitingPayment => n == 1
       case AwaitingInsert(_) | Publishing | Returned => n == 2
       case Unwinding(left) => left <= n
       case AwaitingRefund(left) => left == 0 < n
       case Threw => true
  }

  /** The refund compensation has run to its end. */
  predicate RefundRan(g: Saga) {
    |g.compensations| >= 1 && (g.pc == Unwinding(0) || g.pc.Threw?)
  }

  predicate CancelRan(g: Saga) {
    |g.compensations| >= 2 && ((g.pc.Unwinding? && g.pc.left < 2) || g.pc.AwaitingRefund? || g.pc.Threw?)
  }

  predicate Failing(g: Saga) {
    g.pc.Unwinding? || g.pc.AwaitingRefund? || g.pc.Threw?
  }

  /** The payment is a charge row made for this very request. */
  ghost predicate PaidBy(tables: Tables, charge: Option<Charge>, id: PaymentId) {
    && id in tables.payments
    && charge == Some(tables.payments[id].charge)
    && tables.payments[id].status != FAILED
  }

  ghost predicate LocalOk(x: Local, o: OrderId, tables: Tables) {
    var g := x.saga;
    && Registered(g)
    && (!Failing(g) ==> g.failed == [])
    && x.charge == (if |g.compensations| >= 1 then Some(ChargeOf(o, g)) else None)
    && (x.refundSent ==> g.pc.AwaitingRefund? || RefundRan(g))
    && (RefundRan(g) && RefundPayment !in g.failed ==> o in tables.intents)
    && (g.pc.AwaitingInsert? ==> x.order.None? && PaidBy(tables, x.charge, g.pc.payment))
    && (x.order.Some? ==> OrderOk(x, x.order.value, tables))
    && (CancelRan(g) && CancelOrder !in g.failed && x.order.Some? ==> x.order.value.status == CANCELLED)
    && (g.pc.Publishing? || g.pc.Returned? ==> x.order.Some? && x.order.value.status == CONFIRMED)
  }

  ghost predicate OrderOk(x: Local, order: Order, tables: Tables) {
    && |x.saga.compensations| >= 2
    && PaidBy(tables, x.charge, order.paymentId)
    && order == OrderRow(x.saga, order.paymentId, order.status)
    && (order.status == CANCELLED ==> CancelRan(x.saga))
  }

  ghost predicate SagaOk(w: World, o: OrderId)
    requires o in w.sagas
  {
    LocalOk(LocalOf(w, o), o, w.ledger.tables)
  }

  /** The ledger works only on what it has been asked. */
  ghost predicate LedgerAsked(w: World) {
    && (forall t :: t in w.ledger.txns ==> Requested(w, w.ledger.txns[t].call))
    && w.ledger.tables.intents <= w.refundsSent
  }

  ghost predicate KeysOk(w: World) {
    w.orders.Keys <= w.sagas.Keys && w.charges.Keys <= w.sagas.Keys && w.refundsSent <= w.sagas.Keys
  }

  /** An event tells the truth about a saga that has ended. */
  ghost predicate EventOk(w: World, e: Event) {
    && e.id in w.sagas
    && match e
       case OrderCreated(o, _, _, _) => w.sagas[o].pc.Returned? && o in w.orders && e == CreatedEvent(o, w.orders[o])
       case OrderFailed(o) => w.sagas[o].pc.Threw?
  }

  ghost predicate EventsOk(w: World) {
    && (forall i :: 0 <= i < |w.events| ==> EventOk(w, w.events[i]))
    && (forall i, j :: 0 <= i < j < |w.events| ==> w.events[i].id != w.events[j].id)
  }

  ghost predicate NotifiedOk(w: World) {
    && (forall i :: 0 <= i < |w.notified| ==> w.notified[i] in w.sagas && w.sagas[w.notified[i]].pc.Returned?)
    && (forall i, j :: 0 <= i < j < |w.notified| ==> w.notified[i] != w.notified[j])
  }

  ghost predicate WorldInv(c: Config, w: World) {
    && Inv(c, w.ledger)
    && RefundsHaveCause(w.ledger)
    && LedgerAsked(w)
    && KeysOk(w)
    && (forall o :: o in w.sagas ==> SagaOk(w, o))
    && EventsOk(w)
    && NotifiedOk(w)
  }

  lemma EmptyWorldInv(c: Config)
    ensures WorldInv(c, EMPTY_WORLD)
  {
  }

  // ---- Ledger steps ----

  lemma LedgerStepInv(c: Config, w: World, l: WorldLabel)
    requires WorldInv(c, w) && WorldEnabled(c, w, l) && l.LedgerStep?
    ensures WorldInv(c, WorldStep(c, w, l))
  {
    var w' := WorldStep(c, w, l);
    StepInv(c, w.ledger, l.l);
    CausesKept(c, w.ledger, l.l);
    AskedKept(c, w, l.l);
    TablesKept(c, w.ledger, l.l);
    forall o | o in w'.sagas
      ensures SagaOk(w', o)
    {
      assert SagaOk(w, o);
      SagaFrame(w, w', o);
    }
  }

  lemma AskedKept(c: Config, w: World, l: Label)
    requires WorldInv(c, w) && WorldEnabled(c, w, LedgerStep(l))
    ensures LedgerAsked(WorldStep(c, w, LedgerStep(l)))
  {
    var w' := WorldStep(c, w, LedgerStep(l));
    IntentsAsked(c, w, l);
    NewCallsRequested(c, w, l);
    forall t | t in w'.ledger.txns
      ensures Requested(w', w'.ledger.txns[t].call)
    {
      assert Requested(w, w'.ledger.txns[t].call);
    }
  }

  lemma NewCallsRequested(c: Config, w: World, l: Label)
    requires LedgerAsked(w) && Enabled(c, w.ledger, l) && (l.Spawn? ==> Requested(w, l.call))
    ensures forall t :: t in Step(c, w.ledger, l).txns ==> Requested(w, Step(c, w.ledger, l).txns[t].call)
  {
    var s' := Step(c, w.ledger, l);
    if !l.Crash? {
      Shape(c, w.ledger, l);
    }
    forall t | t in s'.txns
      ensures Requested(w, s'.txns[t].call)
    {
      assert t in w.ledger.txns ==> Requested(w, w.ledger.txns[t].call) && s'.txns[t].call == w.ledger.txns[t].call;
    }
  }

  lemma IntentsAsked(c: Config, w: World, l: Label)
    requires Inv(c, w.ledger) && LedgerAsked(w) && Enabled(c, w.ledger, l)
    ensures Step(c, w.ledger, l).tables.intents <= w.refundsSent
  {
    StepRefines(c, w.ledger, l);
    if !l.Crash? && ActionOf(w.ledger, l).Some? && ActionOf(w.ledger, l).value.RequestRefund? {
      assert PhaseFits(w.ledger.txns[l.t]);
      assert Requested(w, w.ledger.txns[l.t].call);
    }
  }

  /** Nothing of saga o's own has changed and the ledger has only moved on. */
  lemma SagaFrame(w: World, w': World, o: OrderId)
    requires o in w.sagas && SagaOk(w, o)
    requires o in w'.sagas && LocalOf(w', o) == LocalOf(w, o)
    requires Later(w.ledger.tables, w'.ledger.tables)
    ensures SagaOk(w', o)
  {
  }

  // ---- Saga steps ----

  /** A saga step changes what its own saga owns, and nothing of any other. */
  lemma StepIsLocal(w: World, l: WorldLabel, o: OrderId)
    requires IsSagaLabel(l) && l.o in w.sagas && SagaEnabled(w.sagas[l.o], l) && o in w.sagas
    requires LocalOf(w, l.o).charge.Some? ==> LocalStep(LocalOf(w, l.o), l.o, l, SaysSuccess(w, l)).charge.Some?
    ensures o in SagaStep(w, l).sagas && SagaStep(w, l).ledger == w.ledger
    ensures o != l.o ==> LocalOf(SagaStep(w, l), o) == LocalOf(w, o)
    ensures o == l.o ==> LocalOf(SagaStep(w, l), o) == LocalStep(LocalOf(w, o), o, l, SaysSuccess(w, l))
  {
  }

  /** The forward half of the saga keeps what it owns in order. */
  lemma ForwardStepOk(x: Local, o: OrderId, tables: Tables, l: WorldLabel, charged: bool)
    requires LocalOk(x, o, tables) && SagaEnabled(x.saga, l)
    requires IsForward(l)
    requires l.PaymentReply? && charged ==> PaidBy(tables, x.charge, l.call)
    ensures LocalOk(LocalStep(x, o, l, charged), o, tables)
  {
  }

  /** So does unwinding. */
  lemma UnwindStepOk(x: Local, o: OrderId, tables: Tables, l: WorldLabel, charged: bool)
    requires LocalOk(x, o, tables) && SagaEnabled(x.saga, l)
    requires !IsForward(l)
    requires l.RefundReply? ==> o in tables.intents
    ensures LocalOk(LocalStep(x, o, l, charged), o, tables)
  {
  }

  /** The payment a successful reply names is a charge made for this order's own request. */
  lemma ReplyIsPaid(c: Config, w: World, o: OrderId, t: CallId)
    requires WorldInv(c, w) && o in w.sagas && Answers(w, t, o)
    requires w.ledger.txns[t].phase.reply == Charged(false)
    ensures PaidBy(w.ledger.tables, LocalOf(w, o).charge, t)
  {
    assert PhaseFits(w.ledger.txns[t]) && ViewOk(w.ledger, t);
    assert RowOk(w.ledger, t);
    assert Requested(w, w.ledger.txns[t].call);
  }

  predicate IsForward(l: WorldLabel) {
    l.UserReply? || l.ProductReply? || l.PaymentReply? || l.PaymentError? || l.InsertReply?
  }

  lemma OwnForwardOk(c: Config, w: World, l: WorldLabel)
    requires WorldInv(c, w) && WorldEnabled(c, w, l) && IsForward(l) && SagaOk(w, l.o)
    ensures LocalOk(LocalStep(LocalOf(w, l.o), l.o, l, SaysSuccess(w, l)), l.o, w.ledger.tables)
  {
    if SaysSuccess(w, l) {
      ReplyIsPaid(c, w, l.o, l.call);
    }
    ForwardStepOk(LocalOf(w, l.o), l.o, w.ledger.tables, l, SaysSuccess(w, l));
  }

  /** A refund that has replied without an error has recorded its order's intent. */
  lemma ConfirmedRefundHasIntent(c: Config, w: World, o: OrderId, call: CallId)
    requires WorldInv(c, w) && Confirms(w, call, o)
    ensures o in w.ledger.tables.intents
  {
    assert PhaseFits(w.ledger.txns[call]) && ViewOk(w.ledger, call);
  }

  lemma OwnUnwindOk(c: Config, w: World, l: WorldLabel)
    requires WorldInv(c, w) && WorldEnabled(c, w, l) && IsSagaLabel(l) && !IsForward(l) && SagaOk(w, l.o)
    ensures LocalOk(LocalStep(LocalOf(w, l.o), l.o, l, SaysSuccess(w, l)), l.o, w.ledger.tables)
  {
    if l.RefundReply? {
      ConfirmedRefundHasIntent(c, w, l.o, l.call);
    }
    UnwindStepOk(LocalOf(w, l.o), l.o, w.ledger.tables, l, SaysSuccess(w, l));
  }

  lemma OwnStepOk(c: Config, w: World, l: WorldLabel)
    requires WorldInv(c, w) && WorldEnabled(c, w, l) && IsSagaLabel(l)
    ensures LocalOk(LocalStep(LocalOf(w, l.o), l.o, l, SaysSuccess(w, l)), l.o, w.ledger.tables)
  {
    assert SagaOk(w, l.o);
    if IsForward(l) {
      OwnForwardOk(c, w, l);
    } else {
      OwnUnwindOk(c, w, l);
    }
  }

  lemma SagaKept(c: Config, w: World, l: WorldLabel, o: OrderId)
    requires WorldInv(c, w) && WorldEnabled(c, w, l) && IsSagaLabel(l) && o in w.sagas
    ensures o in WorldStep(c, w, l).sagas && SagaOk(WorldStep(c, w, l), o)
  {
    MoveIsLocal(c, w, l, o);
    if o == l.o {
      OwnStepOk(c, w, l);
    } else {
      assert SagaOk(w, o);
    }
  }

  lemma SagasKept(c: Config, w: World, l: WorldLabel)
    requires WorldInv(c, w) && WorldEnabled(c, w, l) && IsSagaLabel(l)
    ensures forall o :: o in WorldStep(c, w, l).sagas ==> SagaOk(WorldStep(c, w, l), o)
  {
    assert WorldStep(c, w, l).sagas.Keys == w.sagas.Keys;
    forall o | o in WorldStep(c, w, l).sagas
      ensures SagaOk(WorldStep(c, w, l), o)
    {
      SagaKept(c, w, l, o);
    }
  }

  lemma RequestsGrow(c: Config, w: World, l: WorldLabel)
    requires WorldInv(c, w) && WorldEnabled(c, w, l) && IsSagaLabel(l)
    ensures LedgerAsked(WorldStep(c, w, l)) && KeysOk(WorldStep(c, w, l))
  {
    var w' := WorldStep(c, w, l);
    assert SagaOk(w, l.o);
    var x' := LocalStep(LocalOf(w, l.o), l.o, l, SaysSuccess(w, l));
    ChargeStays(LocalOf(w, l.o), l.o, w.ledger.tables, l, SaysSuccess(w, l));
    PutGrows(w, l.o, x');
    assert w'.charges == Put(w, l.o, x').charges && w'.refundsSent == Put(w, l.o, x').refundsSent;
    RequestsKept(w, w');
  }

  lemma PutGrows(w: World, o: OrderId, x: Local)
    requires KeysOk(w) && o in w.sagas
    requires o in w.charges ==> x.charge == Some(w.charges[o])
    ensures KeysOk(Put(w, o, x)) && w.refundsSent <= Put(w, o, x).refundsSent
    ensures forall o' :: o' in w.charges ==> o' in Put(w, o, x).charges && Put(w, o, x).charges[o'] == w.charges[o']
  {
  }

  lemma RequestsKept(w: World, w': World)
    requires LedgerAsked(w) && w'.ledger == w.ledger && w.refundsSent <= w'.refundsSent
    requires forall o :: o in w.charges ==> o in w'.charges && w'.charges[o] == w.charges[o]
    ensures LedgerAsked(w')
  {
    forall t | t in w'.ledger.txns
      ensures Requested(w', w'.ledger.txns[t].call)
    {
      assert Requested(w, w.ledger.txns[t].call);
    }
  }

  /** A request once sent is never sent again with other contents. */
  lemma ChargeStays(x: Local, o: OrderId, tables: Tables, l: WorldLabel, charged: bool)
    requires LocalOk(x, o, tables) && SagaEnabled(x.saga, l)
    ensures x.charge.Some? ==> LocalStep(x, o, l, charged).charge == x.charge
    ensures x.refundSent ==> LocalStep(x, o, l, charged).refundSent
  {
  }

  lemma MoveIsLocal(c: Config, w: World, l: WorldLabel, o: OrderId)
    requires WorldInv(c, w) && WorldEnabled(c, w, l) && IsSagaLabel(l) && o in w.sagas
    ensures o in WorldStep(c, w, l).sagas
    ensures o != l.o ==> LocalOf(WorldStep(c, w, l), o) == LocalOf(w, o)
    ensures o == l.o ==> LocalOf(WorldStep(c, w, l), o) == LocalStep(LocalOf(w, o), o, l, SaysSuccess(w, l))
  {
    assert SagaOk(w, l.o);
    ChargeStays(LocalOf(w, l.o), l.o, w.ledger.tables, l, SaysSuccess(w, l));
    StepIsLocal(w, l, o);
  }

  lemma EventFrame(w: World, w': World, e: Event)
    requires EventOk(w, e) && e.id in w'.sagas && LocalOf(w', e.id) == LocalOf(w, e.id)
    ensures EventOk(w', e)
  {
  }

  /** An event of another saga stays true. */
  lemma OldEventOk(c: Config, w: World, l: WorldLabel, e: Event)
    requires WorldInv(c, w) && WorldEnabled(c, w, l) && IsSagaLabel(l) && EventOk(w, e)
    ensures e.id != l.o && EventOk(WorldStep(c, w, l), e)
  {
    MoveIsLocal(c, w, l, e.id);
    EventFrame(w, WorldStep(c, w, l), e);
  }

  lemma NewEventOk(c: Config, w: World, l: WorldLabel)
    requires WorldInv(c, w) && WorldEnabled(c, w, l) && IsSagaLabel(l)
    ensures |Emitted(LocalOf(w, l.o), l.o, l)| <= 1
    ensures forall e :: e in Emitted(LocalOf(w, l.o), l.o, l) ==> e.id == l.o && EventOk(WorldStep(c, w, l), e)
  {
    MoveIsLocal(c, w, l, l.o);
    NewEventTrue(WorldStep(c, w, l), LocalOf(w, l.o), l.o, l, SaysSuccess(w, l));
  }

  lemma NewEventTrue(w': World, x: Local, o: OrderId, l: WorldLabel, charged: bool)
    requires SagaEnabled(x.saga, l) && o in w'.sagas && LocalOf(w', o) == LocalStep(x, o, l, charged)
    ensures |Emitted(x, o, l)| <= 1
    ensures forall e :: e in Emitted(x, o, l) ==> e.id == o && EventOk(w', e)
  {
    if l.PublishCreated? {
      assert w'.sagas[o].pc.Returned? && Lookup(w'.orders, o) == x.order;
    } else if l.PublishFailed? {
      assert w'.sagas[o].pc.Threw?;
    }
  }

  /** Events already published stay true, and a saga publishes only once, when it ends. */
  lemma EventsKept(c: Config, w: World, l: WorldLabel)
    requires WorldInv(c, w) && WorldEnabled(c, w, l) && IsSagaLabel(l)
    ensures EventsOk(WorldStep(c, w, l))
  {
    NewEventOk(c, w, l);
    EventsAppended(w, WorldStep(c, w, l), l.o, Emitted(LocalOf(w, l.o), l.o, l)) by {
      forall i | 0 <= i < |w.events|
        ensures w.events[i].id != l.o && EventOk(WorldStep(c, w, l), w.events[i])
      {
        OldEventOk(c, w, l, w.events[i]);
      }
    }
  }

  lemma EventsAppended(w: World, w': World, o: OrderId, emitted: seq<Event>)
    requires EventsOk(w) && w'.events == w.events + emitted && |emitted| <= 1
    requires forall e :: e in emitted ==> e.id == o && EventOk(w', e)
    requires forall i :: 0 <= i < |w.events| ==> w.events[i].id != o && EventOk(w', w.events[i])
    ensures EventsOk(w')
  {
  }

  lemma SagaStepInv(c: Config, w: World, l: WorldLabel)
    requires WorldInv(c, w) && WorldEnabled(c, w, l) && IsSagaLabel(l)
    ensures WorldInv(c, WorldStep(c, w, l))
  {
    SagasKept(c, w, l);
    RequestsGrow(c, w, l);
    EventsKept(c, w, l);
    NotifiedKept(c, w, l);
  }

  lemma OldNoticeOk(c: Config, w: World, l: WorldLabel, o: OrderId)
    requires WorldInv(c, w) && WorldEnabled(c, w, l) && IsSagaLabel(l) && o in w.sagas && w.sagas[o].pc.Returned?
    ensures o != l.o && o in WorldStep(c, w, l).sagas && WorldStep(c, w, l).sagas[o].pc.Returned?
  {
    MoveIsLocal(c, w, l, o);
    assert WorldStep(c, w, l).sagas[o] == LocalOf(WorldStep(c, w, l), o).saga;
  }

  /** A saga notifies only once, when it ends. */
  lemma NotifiedKept(c: Config, w: World, l: WorldLabel)
    requires WorldInv(c, w) && WorldEnabled(c, w, l) && IsSagaLabel(l)
    ensures NotifiedOk(WorldStep(c, w, l))
  {
    var w' := WorldStep(c, w, l);
    MoveIsLocal(c, w, l, l.o);
    assert w'.sagas[l.o] == LocalOf(w', l.o).saga;
    forall i | 0 <= i < |w.notified|
      ensures w.notified[i] != l.o && w.notified[i] in w'.sagas && w'.sagas[w.notified[i]].pc.Returned?
    {
      OldNoticeOk(c, w, l, w.notified[i]);
    }
    NotifiedAppended(w, w', l);
  }

  lemma NotifiedAppended(w: World, w': World, l: WorldLabel)
    requires NotifiedOk(w) && IsSagaLabel(l) && l.o in w'.sagas
    requires w'.notified == w.notified || (w'.notified == w.notified + [l.o] && w'.sagas[l.o].pc.Returned?)
    requires forall i :: 0 <= i < |w.notified| ==>
               w.notified[i] != l.o && w.notified[i] in w'.sagas && w'.sagas[w.notified[i]].pc.Returned?
    ensures NotifiedOk(w')
  {
  }

  lemma StartInv(c: Config, w: World, l: WorldLabel)
    requires WorldInv(c, w) && WorldEnabled(c, w, l) && l.Start?
    ensures WorldInv(c, WorldStep(c, w, l))
  {
    var w', o := WorldStep(c, w, l), l.o;
    RequestsKept(w, w');
    StartEvents(w, w', o);
    forall o' | o' in w'.sagas
      ensures SagaOk(w', o')
    {
      if o' != o {
        assert SagaOk(w, o') && LocalOf(w', o') == LocalOf(w, o');
      }
    }
  }

  lemma StartEvents(w: World, w': World, o: OrderId)
    requires EventsOk(w) && NotifiedOk(w) && o !in w.sagas && o in w'.sagas
    requires w' == w.(sagas := w.sagas[o := w'.sagas[o]])
    ensures EventsOk(w') && NotifiedOk(w')
  {
    assert forall i :: 0 <= i < |w.events| ==> EventOk(w, w.events[i]);
  }

  /** Every step of every saga and every ledger transaction keeps the invariant of the whole system. */
  lemma WorldStepInv(c: Config, w: World, l: WorldLabel)
    requires WorldInv(c, w) && WorldEnabled(c, w, l)
    ensures WorldInv(c, WorldStep(c, w, l))
  {
    if l.Start? {
      StartInv(c, w, l);
    } else if l.LedgerStep? {
      LedgerStepInv(c, w, l);
    } else {
      SagaStepInv(c, w, l);
    }
  }
}
