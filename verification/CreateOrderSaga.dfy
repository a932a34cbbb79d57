/** The create-order saga as the orchestrator runs it: try, catch, and the reverse loop over the registered
    compensations. Every await is a point where other sagas and payment-service run; the script says what
    they do there and how each remote call ends. */
module CreateOrderSaga {
  import opened Basics
  import opened PaymentTables
  import opened LedgerProtocol
  import opened OrderWorld
  import opened OrderSafety
  import opened OrderRuns
  import opened SagaScript

  class Orchestrator {
    const config: Config
    var world: World
    ghost var trace: seq<WorldLabel>  // every step taken so far, by whomever

    /** The world is the one that the recorded run has led to. */
    ghost predicate Valid()
      reads this
    {
      IsRun(config, EMPTY_WORLD, trace) && End(config, EMPTY_WORLD, trace) == world
    }

    lemma ValidInv()
      requires Valid()
      ensures WorldInv(config, world)
    {
      ReachableInv(config, trace);
    }

    constructor (config: Config)
      ensures Valid() && this.config == config && world == EMPTY_WORLD && trace == []
    {
      this.config := config;
      world, trace := EMPTY_WORLD, [];
    }

    /** Takes one step of the system and records it. */
    method Do(l: WorldLabel)
      requires Valid() && WorldEnabled(config, world, l)
      modifies this
      ensures Valid() && trace == old(trace) + [l]
      ensures world == WorldStep(config, old(world), l) == Take(config, old(world), l)
    {
      RunExtends(config, EMPTY_WORLD, trace, l);
      world := WorldStep(config, world, l);
      trace := trace + [l];
    }

    /** A step of saga o itself: afterwards o owns exactly what the step says. */
    method Act(o: OrderId, l: WorldLabel)
      requires Valid() && WorldEnabled(config, world, l) && IsSagaLabel(l) && l.o == o
      modifies this
      ensures Valid() && trace == old(trace) + [l]
      ensures world == Take(config, old(world), l) && Took(old(trace), trace, o, [l])
      ensures o in world.sagas && world.ledger == old(world.ledger)
      ensures LocalOf(world, o) == LocalStep(old(LocalOf(world, o)), o, l, old(SaysSuccess(world, l)))
    {
      ValidInv();
      MoveIsLocal(config, world, l, o);
      SagaIsEnabled(config, world, l);
      StepTopics(world, l);
      TookOne(trace, l, o);
      Do(l);
    }

    /** Lets the others run. The orchestrator's compensation stack is the one the system believes it has. */
    method Await(o: OrderId, labels: seq<WorldLabel>, compensations: seq<Compensation>)
      requires Valid() && o in world.sagas && world.sagas[o].compensations == compensations
      modifies this
      ensures Valid() && world == Others(config, old(world), o, labels)
      ensures Took(old(trace), trace, o, [])
      ensures o in world.sagas && LocalOf(world, o) == old(LocalOf(world, o))
    {
      var i := 0;
      while i < |labels|
        invariant 0 <= i <= |labels|
        invariant Valid() && Others(config, world, o, labels[i..]) == Others(config, old(world), o, labels)
        invariant Took(old(trace), trace, o, [])
        invariant o in world.sagas && LocalOf(world, o) == old(LocalOf(world, o))
      {
        assert labels[i..][1..] == labels[i + 1..];
        if WorldEnabled(config, world, labels[i]) && !About(labels[i], o) {
          ValidInv();
          OtherStepLeavesLocal(config, world, labels[i], o);
          TookOne(trace, labels[i], o);
          TookThen(old(trace), trace, trace + [labels[i]], o, [], []);
          Do(labels[i]);
        }
        i := i + 1;
      }
    }

    /** The saga is unwinding: left compensations are still to run, and the ones in failed have thrown. */
    ghost predicate IsUnwinding(o: OrderId, compensations: seq<Compensation>, left: nat, failed: seq<Compensation>)
      reads this
    {
      && o in world.sagas
      && world.sagas[o].compensations == compensations
      && world.sagas[o].pc == Unwinding(left)
      && world.sagas[o].failed == failed
    }

    method RunCancel(o: OrderId, i: nat, compensations: seq<Compensation>, ghost failed: seq<Compensation>, undo: Undo)
      returns (threw: bool)
      requires Valid() && IsUnwinding(o, compensations, i + 1, failed)
      requires i < |compensations| && compensations[i] == CancelOrder
      modifies this
      ensures Valid() && world == Undone(config, old(world), o, CancelOrder, undo)
      ensures Took(old(trace), trace, o, UndoStep(o, CancelOrder, undo, threw))
      ensures threw <==> Throws(world, o, CancelOrder, undo)
      ensures threw <==> !(undo.done && undo.heard)
      ensures old(Lookup(world.orders, o)).None? ==> o !in world.orders
      ensures old(Lookup(world.orders, o)).Some? ==>
                o in world.orders && (undo.done ==> world.orders[o].status == CANCELLED)
                && world.orders[o] == old(world.orders[o]).(status := world.orders[o].status)
                && (!undo.done ==> world.orders[o] == old(world.orders[o]))
      ensures IsUnwinding(o, compensations, i, if threw then failed + [CancelOrder] else failed)
      ensures SameRequest(old(world.sagas[o]), world.sagas[o])
    {
      Await(o, undo.wait.meanwhile, compensations);
      ghost var awaited := trace;
      threw := !(undo.done && undo.heard);
      ghost var row := Lookup(world.orders, o);
      assert LocalOf(world, o).order == row;
      Act(o, CancelReply(o, undo.done, !threw));
      assert LocalOf(world, o).order == Lookup(world.orders, o);
      TookThen(old(trace), awaited, trace, o, [], UndoStep(o, CancelOrder, undo, threw));
    }

    method RunRefund(o: OrderId, i: nat, compensations: seq<Compensation>, ghost failed: seq<Compensation>, undo: Undo)
      returns (threw: bool)
      requires Valid() && IsUnwinding(o, compensations, i + 1, failed)
      requires i < |compensations| && compensations[i] == RefundPayment
      modifies this
      ensures Valid() && world == Undone(config, old(world), o, RefundPayment, undo)
      ensures Took(old(trace), trace, o, UndoStep(o, RefundPayment, undo, threw))
      ensures threw <==> Throws(RefundAwaited(config, old(world), o, undo), o, RefundPayment, undo)
      ensures threw <==> Throws(world, o, RefundPayment, undo)
      ensures !threw <==>
                && undo.refund.Some? && undo.refund.value in world.ledger.txns
                && var x := world.ledger.txns[undo.refund.value];
                x.call == RefundCall(o) && x.phase.Done? && x.phase.reply.RefundedRows?
      ensures IsUnwinding(o, compensations, i, if threw then failed + [RefundPayment] else failed)
      ensures SameRequest(old(world.sagas[o]), world.sagas[o])
    {
      AskRefund(o);
      ghost var asked := trace;
      Await(o, undo.wait.meanwhile, compensations);
      ghost var awaited := trace;
      threw := HearRefund(o, undo.refund);
      TookThen(old(trace), asked, awaited, o, [SendRefund(o)], []);
      TookThen(old(trace), awaited, trace, o, [SendRefund(o)], UndoStep(o, RefundPayment, undo, threw)[1..]);
    }

    method AskRefund(o: OrderId)
      requires Valid() && o in world.sagas && NextIs(world.sagas[o], RefundPayment)
      modifies this
      ensures Valid() && trace == old(trace) + [SendRefund(o)] && o in world.sagas
      ensures world == Take(config, old(world), SendRefund(o))
      ensures Took(old(trace), trace, o, [SendRefund(o)])
      ensures world.sagas[o] == old(world.sagas[o]).(pc := AwaitingRefund(old(world.sagas[o].pc.left) - 1))
      ensures o in world.refundsSent
    {
      Act(o, SendRefund(o));
      assert LocalOf(world, o).refundSent;
    }

    /** The refund's reply if its call has confirmed by now, and an error otherwise. */
    method HearRefund(o: OrderId, refund: Option<CallId>) returns (threw: bool)
      requires Valid() && o in world.sagas && world.sagas[o].pc.AwaitingRefund?
      modifies this
      ensures Valid() && o in world.sagas
      ensures world == Take(config, old(world), RefundAnswer(old(world), o, refund))
      ensures world.ledger == old(world.ledger)
      ensures Took(old(trace), trace, o, [RefundAnswer(old(world), o, refund)])
      ensures world.sagas[o] == Ran(old(world.sagas[o]), old(world.sagas[o].pc.left), RefundPayment, !threw)
      ensures threw <==> !(refund.Some? && Confirms(world, refund.value, o))
      ensures !threw <==>
                && refund.Some? && refund.value in world.ledger.txns
                && var x := world.ledger.txns[refund.value];
                x.call == RefundCall(o) && x.phase.Done? && x.phase.reply.RefundedRows?
    {
      threw := !(refund.Some? && Confirms(world, refund.value, o));
      if threw {
        Act(o, RefundError(o));
      } else {
        Act(o, RefundReply(o, refund.value));
      }
    }

    /** The body of the unwinding loop: run compensation i and catch its failure. */
    method RunOne(o: OrderId, i: nat, compensations: seq<Compensation>, ghost failed: seq<Compensation>, undo: Undo)
      returns (threw: bool, millis: nat)
      requires Valid() && IsUnwinding(o, compensations, i + 1, failed) && i < |compensations|
      modifies this
      ensures Valid() && world == Undone(config, old(world), o, compensations[i], undo)
      ensures Took(old(trace), trace, o, UndoStep(o, compensations[i], undo, threw))
      ensures threw <==> Throws(world, o, compensations[i], undo)
      ensures IsUnwinding(o, compensations, i, if threw then failed + [compensations[i]] else failed)
      ensures SameRequest(old(world.sagas[o]), world.sagas[o])
      ensures millis == if compensations[i] == RefundPayment then Until(undo.wait.millis, PAYMENT_DEADLINE) else 0
    {
      if compensations[i] == CancelOrder {
        threw := RunCancel(o, i, compensations, failed, undo);
        millis := 0;
      } else {
        threw := RunRefund(o, i, compensations, failed, undo);
        millis := Until(undo.wait.millis, PAYMENT_DEADLINE);
      }
    }

    lemma CancelsFollow(o: OrderId, compensations: seq<Compensation>)
      requires Valid() && o in world.sagas && world.sagas[o].compensations == compensations
      ensures forall i :: 0 <= i < |compensations| ==> (compensations[i] == RefundPayment <==> i == 0)
    {
      ValidInv();
      assert SagaOk(world, o);
    }

    /** Runs every compensation once, last registered first, whichever of them throw, and returns the names
        of those that did. The saga's own steps meanwhile are exactly those of the compensations; threw[k]
        says whether compensation k ended in an error. */
    method RunCompensations(o: OrderId, compensations: seq<Compensation>, undos: seq<Undo>)
      returns (failed: seq<Compensation>, ghost threw: seq<bool>, millis: nat)
      requires Valid() && IsUnwinding(o, compensations, |compensations|, []) && |undos| >= |compensations|
      modifies this
      ensures Valid() && world == AllUndone(config, old(world), o, compensations, undos)
      ensures |threw| == |compensations| && AreThrows(world, o, compensations, undos, threw)
      ensures Took(old(trace), trace, o, UndoSteps(o, compensations, undos, threw))
      ensures RanNames(UndoSteps(o, compensations, undos, threw)) == RunOrder(compensations)
      ensures failed == FailedNames(UndoSteps(o, compensations, undos, threw)) == Thrown(compensations, threw)
      ensures IsUnwinding(o, compensations, 0, failed)
      ensures SameRequest(old(world.sagas[o]), world.sagas[o])
      ensures millis == if compensations == [] then 0 else Until(undos[0].wait.millis, PAYMENT_DEADLINE)
    {
      failed, threw, millis := [], [], 0;
      CancelsFollow(o, compensations);
      var i := |compensations|;
      while i > 0
        invariant 0 <= i <= |compensations| <= |undos|
        invariant Valid() && Unwinds(old(world), old(trace), o, compensations, undos, i, threw, failed)
        invariant millis == if i > 0 || compensations == [] then 0 else Until(undos[0].wait.millis, PAYMENT_DEADLINE)
      {
        i := i - 1;
        var spent;
        failed, threw, spent := RunNext(o, i, compensations, undos, failed, threw, old(world), old(trace));
        millis := millis + spent;
      }
      assert compensations[0..] == compensations && undos[0..] == undos;
      HaveRunShows(world, old(trace), trace, o, compensations, undos, threw, failed);
    }

    /** Since w0 and t0 compensations i and up have run, and nothing else of the saga's. */
    ghost predicate Unwinds(w0: World, t0: seq<WorldLabel>, o: OrderId, compensations: seq<Compensation>,
                            undos: seq<Undo>, i: nat, threw: seq<bool>, failed: seq<Compensation>)
      requires o in w0.sagas && i <= |compensations| <= |undos|
      reads this
    {
      && world == AllUndone(config, w0, o, compensations[i..], undos[i..])
      && IsUnwinding(o, compensations, i, failed) && SameRequest(w0.sagas[o], world.sagas[o])
      && HaveRun(world, t0, trace, o, compensations, undos, i, threw, failed)
    }

    /** The loop's body: run compensation i, catch its failure and note its name. */
    method RunNext(o: OrderId, i: nat, compensations: seq<Compensation>, undos: seq<Undo>, failed: seq<Compensation>,
                   ghost threw: seq<bool>, ghost w0: World, ghost t0: seq<WorldLabel>)
      returns (failed': seq<Compensation>, ghost threw': seq<bool>, millis: nat)
      requires Valid() && o in w0.sagas && i < |compensations| <= |undos|
      requires Unwinds(w0, t0, o, compensations, undos, i + 1, threw, failed)
      requires forall k :: 0 <= k < |compensations| ==> (compensations[k] == RefundPayment <==> k == 0)
      modifies this
      ensures Valid() && Unwinds(w0, t0, o, compensations, undos, i, threw', failed')
      ensures millis == if i > 0 then 0 else Until(undos[0].wait.millis, PAYMENT_DEADLINE)
    {
      ghost var w, before := world, trace;
      var caught;
      caught, millis := RunOne(o, i, compensations, failed, undos[i]);
      AllUndoneNext(config, w0, o, compensations, undos, i);
      HaveRunNext(w, world, t0, before, trace, o, compensations, undos, i, threw, failed, caught);
      failed' := if caught then failed + [compensations[i]] else failed;
      threw' := [caught] + threw;
    }

    /** A new saga is on record. */
    method Begin(o: OrderId, input: Input)
      requires Valid() && o !in world.sagas
      modifies this
      ensures Valid() && world == Take(config, old(world), Start(o, input))
      ensures Took(old(trace), trace, o, [Start(o, input)])
      ensures o in world.sagas && world.sagas[o] == Saga(input, Product("", 0), GettingUser, [], [])
    {
      TookOne(trace, Start(o, input), o);
      Do(Start(o, input));
    }

    /** Step 1. */
    method GetUser(o: OrderId, input: Input, s: Script) returns (millis: nat)
      requires Valid() && o !in world.sagas
      modifies this
      ensures Valid() && world == GotUser(config, old(world), o, input, s)
      ensures Took(old(trace), trace, o, [Start(o, input), UserReply(o, s.userOk)])
      ensures o in world.sagas
      ensures world.sagas[o] == Saga(input, Product("", 0), if s.userOk then GettingProduct else Unwinding(0), [], [])
      ensures millis == Until(s.user.millis, LOOKUP_DEADLINE)
    {
      Begin(o, input);
      ghost var begun := trace;
      Await(o, s.user.meanwhile, []);
      ghost var awaited := trace;
      millis := Until(s.user.millis, LOOKUP_DEADLINE);
      Act(o, UserReply(o, s.userOk));
      TookThen(old(trace), begun, awaited, o, [Start(o, input)], []);
      TookThen(old(trace), awaited, trace, o, [Start(o, input)], [UserReply(o, s.userOk)]);
    }

    /** Step 2. When the product is found, the refund is registered and the charge has been sent. */
    method GetProduct(o: OrderId, s: Script) returns (compensations: seq<Compensation>, millis: nat)
      requires Valid() && o in world.sagas && world.sagas[o].pc.GettingProduct?
      requires world.sagas[o].compensations == world.sagas[o].failed == []
      modifies this
      ensures Valid() && world == GotProduct(config, old(world), o, s)
      ensures Took(old(trace), trace, o, [ProductReply(o, s.productFound)])
      ensures o in world.sagas && world.sagas[o].input == old(world.sagas[o].input) && world.sagas[o].failed == []
      ensures s.productFound.Some? ==> world.sagas[o].product == s.productFound.value
      ensures compensations == world.sagas[o].compensations == if s.productFound.Some? then [RefundPayment] else []
      ensures world.sagas[o].pc == if s.productFound.Some? then AwaitingPayment else Unwinding(0)
      ensures millis == Until(s.product.millis, LOOKUP_DEADLINE)
    {
      Await(o, s.product.meanwhile, []);
      ghost var awaited := trace;
      millis := Until(s.product.millis, LOOKUP_DEADLINE);
      Act(o, ProductReply(o, s.productFound));
      TookThen(old(trace), awaited, trace, o, [], [ProductReply(o, s.productFound)]);
      compensations := if s.productFound.Some? then [RefundPayment] else [];
    }

    /** Steps 1 and 2: look up the user and the product. */
    method LookUp(o: OrderId, input: Input, s: Script) returns (compensations: seq<Compensation>, ok: bool, millis: nat)
      requires Valid() && o !in world.sagas
      modifies this
      ensures Valid() && world == LookedUp(config, old(world), o, input, s)
      ensures Took(old(trace), trace, o, LookUpSteps(o, input, s))
      ensures o in world.sagas && IsRequest(world.sagas[o], input, s) && world.sagas[o].failed == []
      ensures compensations == world.sagas[o].compensations == (if ok then [RefundPayment] else [])
      ensures world.sagas[o].pc == if ok then AwaitingPayment else Unwinding(|compensations|)
      ensures ok <==> LooksUp(s)
      ensures millis == LookUpMillis(s)
    {
      compensations, ok := [], false;
      millis := GetUser(o, input, s);
      if s.userOk {
        ghost var got := trace;
        var spent;
        compensations, spent := GetProduct(o, s);
        TookThen(old(trace), got, trace, o, [Start(o, input), UserReply(o, true)], [ProductReply(o, s.productFound)]);
        millis, ok := millis + spent, s.productFound.Some?;
      }
    }

    /** Step 3: ProcessPayment has replied by now, or the wait is over. Only a SUCCESS reply leads on; then
        the cancellation is registered and the insert has been sent. */
    method HearPayment(o: OrderId, compensations: seq<Compensation>, call: Option<CallId>)
      returns (registered: seq<Compensation>, paid: bool)
      requires Valid() && o in world.sagas && world.sagas[o].pc.AwaitingPayment?
      requires world.sagas[o].compensations == compensations && world.sagas[o].failed == []
      modifies this
      ensures Valid() && trace == old(trace) + [PaymentStep(old(world), o, call)]
      ensures world == Take(config, old(world), PaymentStep(old(world), o, call))
      ensures Took(old(trace), trace, o, [PaymentStep(old(world), o, call)])
      ensures o in world.sagas && SameRequest(old(world.sagas[o]), world.sagas[o])
      ensures registered == world.sagas[o].compensations == compensations + (if paid then [CancelOrder] else [])
      ensures world.sagas[o].failed == []
      ensures paid <==> AnsweredSuccess(old(world), o, call)
      ensures world.sagas[o].pc == if paid then AwaitingInsert(call.value) else Unwinding(|registered|)
    {
      if call.Some? && Answers(world, call.value, o) {
        paid := SaysSuccess(world, PaymentReply(o, call.value));
        Act(o, PaymentReply(o, call.value));
        registered := if paid then compensations + [CancelOrder] else compensations;
      } else {
        Act(o, PaymentError(o));
        registered, paid := compensations, false;
      }
    }

    /** Step 3 with its wait, which ends at step at of the run, in the world heard. */
    method Pay(o: OrderId, compensations: seq<Compensation>, s: Script)
      returns (registered: seq<Compensation>, paid: bool, ghost at: nat, ghost heard: World, millis: nat)
      requires Valid() && o in world.sagas && world.sagas[o].pc.AwaitingPayment?
      requires world.sagas[o].compensations == compensations && world.sagas[o].failed == []
      modifies this
      ensures Valid() && |old(trace)| <= at && PaymentHeard(config, trace, o, s.paymentCall, at, heard)
      ensures heard == Others(config, old(world), o, s.payment.meanwhile)
      ensures world == Take(config, heard, PaymentStep(heard, o, s.paymentCall))
      ensures Took(old(trace), trace, o, [PaymentStep(heard, o, s.paymentCall)])
      ensures o in world.sagas && SameRequest(old(world.sagas[o]), world.sagas[o])
      ensures registered == world.sagas[o].compensations == compensations + (if paid then [CancelOrder] else [])
      ensures world.sagas[o].failed == []
      ensures paid <==> AnsweredSuccess(heard, o, s.paymentCall)
      ensures world.sagas[o].pc == if paid then AwaitingInsert(s.paymentCall.value) else Unwinding(|registered|)
      ensures millis == Until(s.payment.millis, PAYMENT_DEADLINE)
    {
      Await(o, s.payment.meanwhile, compensations);
      millis := Until(s.payment.millis, PAYMENT_DEADLINE);
      at, heard := |trace|, world;
      ghost var before := trace;
      registered, paid := HearPayment(o, compensations, s.paymentCall);
      assert trace[..at] == before;
    }

    /** Step 4: the insert. Its row may be there even when the reply is an error. */
    method Insert(o: OrderId, compensations: seq<Compensation>, s: Script) returns (ok: bool)
      requires Valid() && o in world.sagas && world.sagas[o].pc.AwaitingInsert?
      requires world.sagas[o].compensations == compensations && world.sagas[o].failed == []
      modifies this
      ensures Valid() && world == Inserted(config, old(world), o, s)
      ensures Took(old(trace), trace, o, [InsertReply(o, s.insertDone, ok)])
      ensures o in world.sagas && SameRequest(old(world.sagas[o]), world.sagas[o])
      ensures world.sagas[o].compensations == compensations && world.sagas[o].failed == []
      ensures world.sagas[o].pc == if ok then Publishing else Unwinding(|compensations|)
      ensures ok <==> s.insertDone && s.insertHeard
      ensures o in world.orders <==> s.insertDone
      ensures s.insertDone ==> world.orders[o].paymentId == old(world.sagas[o].pc.payment)
    {
      Await(o, s.insert.meanwhile, compensations);
      ghost var awaited := trace;
      ok := s.insertDone && s.insertHeard;
      NotYetInserted(o);
      Act(o, InsertReply(o, s.insertDone, ok));
      TookThen(old(trace), awaited, trace, o, [], [InsertReply(o, s.insertDone, ok)]);
      assert LocalOf(world, o).order == Lookup(world.orders, o);
    }

    lemma NotYetInserted(o: OrderId)
      requires Valid() && o in world.sagas && world.sagas[o].pc.AwaitingInsert?
      ensures LocalOf(world, o).order.None?
    {
      ValidInv();
      assert SagaOk(world, o);
    }

    /** The try block: ok says whether it ran to its end. The wait for the payment ended at step at of the
        run, in the world heard. */
    method Try(o: OrderId, input: Input, s: Script)
      returns (compensations: seq<Compensation>, ok: bool, ghost at: nat, ghost heard: World, millis: nat)
      requires Valid() && o !in world.sagas
      modifies this
      ensures Valid() && world == Tried(config, old(world), o, input, s)
      ensures heard == PaymentAwaited(config, old(world), o, input, s)
      ensures |old(trace)| <= at && (LooksUp(s) ==> PaymentHeard(config, trace, o, s.paymentCall, at, heard))
      ensures ok <==> Succeeds(o, s, heard)
      ensures compensations == Registrations(o, s, heard)
      ensures Took(old(trace), trace, o, TrySteps(o, input, s, heard))
      ensures o in world.sagas && IsRequest(world.sagas[o], input, s)
      ensures world.sagas[o].compensations == compensations && world.sagas[o].failed == []
      ensures world.sagas[o].pc == if ok then Publishing else Unwinding(|compensations|)
      ensures ok ==> o in world.orders && world.orders[o].paymentId == s.paymentCall.value
      ensures millis == LookUpMillis(s) + if LooksUp(s) then Until(s.payment.millis, PAYMENT_DEADLINE) else 0
    {
      compensations, ok, millis := LookUp(o, input, s);
      at, heard := |trace|, PaymentAwaited(config, old(world), o, input, s);
      if ok {
        var spent;
        ghost var looked := trace;
        compensations, ok, at, heard, spent := Pay(o, compensations, s);
        ghost var paid := trace;
        TookThen(old(trace), looked, paid, o, LookUpSteps(o, input, s), [PaymentStep(heard, o, s.paymentCall)]);
        millis := millis + spent;
        if ok {
          ok := Insert(o, compensations, s);
          PaymentStays(config, paid, trace, o, s.paymentCall, at, heard);
          TookThen(old(trace), paid, trace, o, LookUpSteps(o, input, s) + [PaymentStep(heard, o, s.paymentCall)],
                   [InsertReply(o, s.insertDone, ok)]);
        }
      }
    }

    /** The saga. It returns the order, or throws (None) after unwinding; failed names the compensations that
        threw. Whatever the others do at the awaits and however each remote call ends, its own steps in the
        run are exactly those its code prescribes for these outcomes. A returned order is confirmed and paid;
        a saga that throws keeps no payment unless its refund failed, and leaves no confirmed order unless
        its cancellation failed. Lookups, payment and refund together take at most 40 s, less than the API
        gateway waits. */
    method Execute(o: OrderId, input: Input, s: Script)
      returns (order: Option<Order>, failed: seq<Compensation>, ghost at: nat, ghost heard: World,
               ghost threw: seq<bool>, millis: nat)
      requires Valid() && o !in world.sagas && |s.undos| >= 2
      modifies this
      ensures Valid() && world == Executed(config, old(world), o, input, s)
      ensures heard == PaymentAwaited(config, old(world), o, input, s)
      ensures o in world.sagas && IsRequest(world.sagas[o], input, s) && world.sagas[o].failed == failed
      ensures |old(trace)| <= at && (LooksUp(s) ==> PaymentHeard(config, trace, o, s.paymentCall, at, heard))
      ensures order.Some? <==> Succeeds(o, s, heard)
      ensures order.Some? <==>
                && s.userOk && s.productFound.Some? && s.insertDone && s.insertHeard
                && s.paymentCall.Some? && s.paymentCall.value in heard.ledger.txns
                && var x := heard.ledger.txns[s.paymentCall.value];
                && (x.call.ChargeCall? || x.call.FailureCall?) && x.call.charge.orderId == o
                && x.phase == Done(Charged(false))
      ensures order.Some? ==>
                && order.value.userId == input.userId && order.value.productId == input.productId
                && order.value.quantity == input.quantity
                && order.value.productName == s.productFound.value.name
                && order.value.totalPrice == s.productFound.value.price * input.quantity
                && order.value.paymentId == s.paymentCall.value && order.value.status == CONFIRMED
      ensures order.Some? ==> failed == [] && world.sagas[o].pc.Returned?
                              && ConfirmedAndPaid(world, o) && order.value == world.orders[o]
      ensures order.None? ==> world.sagas[o].pc.Threw? && |threw| == |Registrations(o, s, heard)|
                              && failed == Thrown(Registrations(o, s, heard), threw)
                              && AreThrows(Unwound(config, old(world), o, input, s), o,
                                           Registrations(o, s, heard), s.undos, threw)
      ensures Took(old(trace), trace, o, TrySteps(o, input, s, heard) + LastSteps(o, s, heard, threw))
      ensures order.None? && RefundPayment !in failed ==> Kept(world.ledger.tables, o) == {}
      ensures order.None? && CancelOrder !in failed ==> NotConfirmed(world, o)
      ensures millis == Until(s.user.millis, LOOKUP_DEADLINE)
                        + (if s.userOk then Until(s.product.millis, LOOKUP_DEADLINE) else 0)
                        + (if LooksUp(s) then Until(s.payment.millis, PAYMENT_DEADLINE) else 0)
                        + (if LooksUp(s) && order.None? then Until(s.undos[0].wait.millis, PAYMENT_DEADLINE) else 0)
      ensures millis <= 2 * LOOKUP_DEADLINE + 2 * PAYMENT_DEADLINE == 40000 < GATEWAY_DEADLINE
    {
      var compensations, ok;
      compensations, ok, at, heard, millis := Try(o, input, s);
      ghost var tried := trace;
      threw := [];
      if ok {
        order := Publish(o, compensations, s);
        failed := [];
      } else {
        order := None;
        var spent;
        failed, threw, spent := Unwind(o, compensations, s);
        millis := millis + spent;
      }
      SucceedsIs(o, s, heard);
      TookThen(old(trace), tried, trace, o, TrySteps(o, input, s, heard), LastSteps(o, s, heard, threw));
      if LooksUp(s) {
        PaymentStays(config, tried, trace, o, s.paymentCall, at, heard);
      }
    }

    /** The catch block: compensate, announce the failure as well as possible, rethrow. */
    method Unwind(o: OrderId, compensations: seq<Compensation>, s: Script)
      returns (failed: seq<Compensation>, ghost threw: seq<bool>, millis: nat)
      requires Valid() && IsUnwinding(o, compensations, |compensations|, []) && |s.undos| >= 2
      modifies this
      ensures Valid() && |threw| == |compensations| <= 2 && failed == Thrown(compensations, threw)
      ensures var w := AllUndone(config, old(world), o, compensations, s.undos);
              && world == Published(config, w, o, s, PublishFailed(o, s.toKafka))
              && AreThrows(w, o, compensations, s.undos, threw)
      ensures Took(old(trace), trace, o, (UndoSteps(o, compensations, s.undos, threw) + [PublishFailed(o, s.toKafka)]))
      ensures o in world.sagas && world.sagas[o].pc.Threw? && world.sagas[o].failed == failed
      ensures SameRequest(old(world.sagas[o]), world.sagas[o])
      ensures RefundPayment !in failed ==> Kept(world.ledger.tables, o) == {}
      ensures CancelOrder !in failed ==> NotConfirmed(world, o)
      ensures millis == if compensations == [] then 0 else Until(s.undos[0].wait.millis, PAYMENT_DEADLINE)
    {
      AtMostTwo(o, compensations);
      failed, threw, millis := RunCompensations(o, compensations, s.undos);
      ghost var ran := trace;
      Await(o, s.publish.meanwhile, compensations);
      ghost var awaited := trace;
      Act(o, PublishFailed(o, s.toKafka));
      TookThen(old(trace), ran, awaited, o, UndoSteps(o, compensations, s.undos, threw), []);
      TookThen(old(trace), awaited, trace, o, UndoSteps(o, compensations, s.undos, threw),
               [PublishFailed(o, s.toKafka)]);
      ThrownIsUndone(o);
    }

    lemma ThrownIsUndone(o: OrderId)
      requires Valid() && o in world.sagas && world.sagas[o].pc.Threw?
      ensures RefundPayment !in world.sagas[o].failed ==> Kept(world.ledger.tables, o) == {}
      ensures CancelOrder !in world.sagas[o].failed ==> NotConfirmed(world, o)
    {
      ValidInv();
      ThrewIsUndone(config, world, o);
    }

    lemma ReturnedIsPaid(o: OrderId)
      requires Valid() && o in world.sagas && world.sagas[o].pc.Returned?
      ensures ConfirmedAndPaid(world, o)
    {
      ValidInv();
      ReturnedIsConfirmedAndPaid(config, world, o);
    }

    lemma AtMostTwo(o: OrderId, compensations: seq<Compensation>)
      requires Valid() && o in world.sagas && world.sagas[o].compensations == compensations
      ensures |compensations| <= 2
    {
      ValidInv();
      assert SagaOk(world, o);
    }

    /** Step 5: publishing, which cannot fail the order any more. */
    method Publish(o: OrderId, compensations: seq<Compensation>, s: Script) returns (order: Option<Order>)
      requires Valid() && o in world.sagas && world.sagas[o].pc.Publishing?
      requires world.sagas[o].compensations == compensations && world.sagas[o].failed == []
      modifies this
      ensures Valid() && world == Published(config, old(world), o, s, PublishCreated(o, s.toKafka, s.toRabbit))
      ensures Took(old(trace), trace, o, [PublishCreated(o, s.toKafka, s.toRabbit)])
      ensures o in world.sagas && world.sagas[o].pc.Returned? && world.sagas[o].failed == []
      ensures SameRequest(old(world.sagas[o]), world.sagas[o])
      ensures ConfirmedAndPaid(world, o) && order == Some(world.orders[o])
      ensures old(Lookup(world.orders, o)) == order
    {
      assert LocalOf(world, o).order == Lookup(world.orders, o);
      Await(o, s.publish.meanwhile, compensations);
      Act(o, PublishCreated(o, s.toKafka, s.toRabbit));
      assert LocalOf(world, o).order == Lookup(world.orders, o);
      ReturnedIsPaid(o);
      order := Some(world.orders[o]);
    }
  }

  lemma OtherStepLeavesLocal(c: Config, w: World, l: WorldLabel, o: OrderId)
    requires WorldInv(c, w) && WorldEnabled(c, w, l) && !About(l, o) && o in w.sagas
    ensures o in WorldStep(c, w, l).sagas && LocalOf(WorldStep(c, w, l), o) == LocalOf(w, o)
  {
    if IsSagaLabel(l) {
      MoveIsLocal(c, w, l, o);
    }
  }
}
