/** What one run of the create-order saga is given, and what its code does with it: a script says how each
    remote call ends and what the others do at each await; the functions say which steps the saga takes then,
    and which world it leaves. */
module SagaScript {
  import opened Basics
  import opened PaymentTables
  import opened LedgerProtocol
  import opened OrderWorld
  import opened OrderRuns

  /** One await: what the others do meanwhile, and how many milliseconds pass. */
  datatype Wait = Wait(meanwhile: seq<WorldLabel>, millis: nat)

  /** How a compensation's remote call ends. A refund succeeds if the call named has replied by then; a
      cancellation takes effect if done, and reports success if also heard. */
  datatype Undo = Undo(wait: Wait, refund: Option<CallId>, done: bool, heard: bool)

  datatype Script = Script(
    user: Wait, userOk: bool,
    product: Wait, productFound: Option<Product>,
    payment: Wait, paymentCall: Option<CallId>,
    insert: Wait, insertDone: bool, insertHeard: bool,
    undos: seq<Undo>,
    publish: Wait, toKafka: bool, toRabbit: bool)

  const LOOKUP_DEADLINE := 5000
  const GATEWAY_DEADLINE := 45000

  /** A remote call ends at its deadline at the latest. */
  function Until(millis: nat, deadline: nat): (spent: nat)
    ensures spent <= millis && spent <= deadline
    ensures spent == millis || spent == deadline
  {
    if millis < deadline then millis else deadline
  }

  /** Milliseconds spent on steps 1 and 2. */
  function LookUpMillis(s: Script): nat {
    Until(s.user.millis, LOOKUP_DEADLINE) + if s.userOk then Until(s.product.millis, LOOKUP_DEADLINE) else 0
  }

  /** The saga is about this input and the product that was found for it. */
  predicate IsRequest(g: Saga, input: Input, s: Script) {
    g.input == input && (s.userOk && s.productFound.Some? ==> g.product == s.productFound.value)
  }

  predicate SameRequest(g: Saga, g': Saga) {
    g'.input == g.input && g'.product == g.product
  }

  predicate About(l: WorldLabel, o: OrderId) {
    !l.LedgerStep? && l.o == o
  }

  /** Last registered, first run, each exactly once. */
  function RunOrder(compensations: seq<Compensation>): seq<Compensation> {
    if compensations == [] then [] else RunOrder(compensations[1..]) + [compensations[0]]
  }

  lemma {:induction false} RunOrderIsReverse(compensations: seq<Compensation>, k: nat)
    requires k < |compensations|
    ensures |RunOrder(compensations)| == |compensations|
    ensures RunOrder(compensations)[k] == compensations[|compensations| - 1 - k]
  {
    if |compensations| > 1 {
      RunOrderIsReverse(compensations[1..], if k < |compensations| - 1 then k else 0);
    }
  }

  /** The names of the compensations that threw, in the order they ran. */
  function Thrown(compensations: seq<Compensation>, threw: seq<bool>): seq<Compensation>
    requires |compensations| == |threw|
  {
    if compensations == [] then []
    else Thrown(compensations[1..], threw[1..]) + if threw[0] then [compensations[0]] else []
  }

  // ---- A saga's own steps in a run ----

  /** The steps of saga o among all the steps of a run. */
  function Own(labels: seq<WorldLabel>, o: OrderId): seq<WorldLabel> {
    if labels == [] then []
    else
      var last := labels[|labels| - 1];
      Own(labels[..|labels| - 1], o) + if About(last, o) then [last] else []
  }

  lemma OwnNext(labels: seq<WorldLabel>, l: WorldLabel, o: OrderId)
    ensures Own(labels + [l], o) == Own(labels, o) + if About(l, o) then [l] else []
  {
    assert (labels + [l])[..|labels|] == labels;
  }

  /** From one trace to a later one, saga o has taken exactly these steps of its own. */
  ghost predicate Took(before: seq<WorldLabel>, after: seq<WorldLabel>, o: OrderId, steps: seq<WorldLabel>) {
    before <= after && Own(after, o) == Own(before, o) + steps
  }

  lemma TookThen(t0: seq<WorldLabel>, t1: seq<WorldLabel>, t2: seq<WorldLabel>, o: OrderId,
                 steps: seq<WorldLabel>, more: seq<WorldLabel>)
    requires Took(t0, t1, o, steps) && Took(t1, t2, o, more)
    ensures Took(t0, t2, o, steps + more)
  {
  }

  lemma TookOne(labels: seq<WorldLabel>, l: WorldLabel, o: OrderId)
    ensures Took(labels, labels + [l], o, if About(l, o) then [l] else [])
  {
    OwnNext(labels, l, o);
  }

  /** Whether a compensation throws: a cancellation unless it is heard to be done, a refund unless the call
      named has confirmed. */
  predicate Throws(w: World, o: OrderId, comp: Compensation, undo: Undo) {
    match comp
    case CancelOrder => !(undo.done && undo.heard)
    case RefundPayment => !(undo.refund.Some? && Confirms(w, undo.refund.value, o))
  }

  /** Which of the compensations have thrown, in the world in which the last of them has run. */
  predicate AreThrows(w: World, o: OrderId, compensations: seq<Compensation>, undos: seq<Undo>, threw: seq<bool>)
    requires |threw| == |compensations| <= |undos|
  {
    forall k :: 0 <= k < |threw| ==> (threw[k] <==> Throws(w, o, compensations[k], undos[k]))
  }

  /** The steps of one compensation. */
  function UndoStep(o: OrderId, comp: Compensation, undo: Undo, threw: bool): seq<WorldLabel> {
    match comp
    case CancelOrder => [CancelReply(o, undo.done, !threw)]
    case RefundPayment =>
      [SendRefund(o), if threw || undo.refund.None? then RefundError(o) else RefundReply(o, undo.refund.value)]
  }

  /** The steps of an unwinding, the compensation registered last first. */
  function UndoSteps(o: OrderId, compensations: seq<Compensation>, undos: seq<Undo>, threw: seq<bool>): seq<WorldLabel>
    requires |threw| == |compensations| <= |undos|
  {
    if compensations == [] then []
    else UndoSteps(o, compensations[1..], undos[1..], threw[1..]) + UndoStep(o, compensations[0], undos[0], threw[0])
  }

  /** The compensations whose end a list of steps shows. */
  function RanNames(labels: seq<WorldLabel>): seq<Compensation> {
    if labels == [] then []
    else
      RanNames(labels[..|labels| - 1]) +
      match labels[|labels| - 1]
      case CancelReply(_, _, _) => [CancelOrder]
      case RefundReply(_, _) => [RefundPayment]
      case RefundError(_) => [RefundPayment]
      case _ => []
  }

  /** Those of them that ended in an error. */
  function FailedNames(labels: seq<WorldLabel>): seq<Compensation> {
    if labels == [] then []
    else
      FailedNames(labels[..|labels| - 1]) +
      match labels[|labels| - 1]
      case CancelReply(_, _, false) => [CancelOrder]
      case RefundError(_) => [RefundPayment]
      case _ => []
  }

  lemma NamesNext(labels: seq<WorldLabel>, o: OrderId, comp: Compensation, undo: Undo, threw: bool)
    requires comp == RefundPayment && undo.refund.None? ==> threw
    ensures RanNames(labels + UndoStep(o, comp, undo, threw)) == RanNames(labels) + [comp]
    ensures FailedNames(labels + UndoStep(o, comp, undo, threw)) == FailedNames(labels) + if threw then [comp] else []
  {
    var steps := UndoStep(o, comp, undo, threw);
    var all := labels + steps;
    if comp == CancelOrder {
      assert all[..|all| - 1] == labels;
    } else {
      assert all[..|all| - 1] == labels + [SendRefund(o)];
      assert (labels + [SendRefund(o)])[..|labels|] == labels;
    }
  }

  /** The steps of an unwinding show every compensation run exactly once, last registered first, and failed
      exactly where it threw. */
  lemma {:induction false} UndoStepsShow(o: OrderId, compensations: seq<Compensation>, undos: seq<Undo>,
                                         threw: seq<bool>)
    requires |threw| == |compensations| <= |undos|
    requires forall i :: 0 <= i < |threw| && compensations[i] == RefundPayment && undos[i].refund.None? ==> threw[i]
    ensures RanNames(UndoSteps(o, compensations, undos, threw)) == RunOrder(compensations)
    ensures FailedNames(UndoSteps(o, compensations, undos, threw)) == Thrown(compensations, threw)
    decreases |compensations|
  {
    if compensations != [] {
      UndoStepsShow(o, compensations[1..], undos[1..], threw[1..]);
      NamesNext(UndoSteps(o, compensations[1..], undos[1..], threw[1..]), o, compensations[0], undos[0], threw[0]);
    }
  }

  /** Compensations i and up have run: these have thrown, and their steps were taken. */
  ghost predicate HaveRun(w: World, before: seq<WorldLabel>, after: seq<WorldLabel>, o: OrderId,
                          compensations: seq<Compensation>,
                          undos: seq<Undo>, i: nat, threw: seq<bool>, failed: seq<Compensation>)
    requires i <= |compensations| <= |undos|
  {
    && |threw| == |compensations| - i
    && failed == Thrown(compensations[i..], threw)
    && (forall k :: i <= k < |compensations| ==> (threw[k - i] <==> Throws(w, o, compensations[k], undos[k])))
    && Took(before, after, o, UndoSteps(o, compensations[i..], undos[i..], threw))
  }

  lemma HaveRunNext(w: World, w': World, t0: seq<WorldLabel>, t1: seq<WorldLabel>, t2: seq<WorldLabel>, o: OrderId,
                    compensations: seq<Compensation>, undos: seq<Undo>, i: nat, threw: seq<bool>,
                    failed: seq<Compensation>, caught: bool)
    requires i < |compensations| <= |undos| && HaveRun(w, t0, t1, o, compensations, undos, i + 1, threw, failed)
    requires forall k :: 0 < k < |compensations| ==> compensations[k] == CancelOrder
    requires Took(t1, t2, o, UndoStep(o, compensations[i], undos[i], caught))
    requires caught <==> Throws(w', o, compensations[i], undos[i])
    ensures HaveRun(w', t0, t2, o, compensations, undos, i, [caught] + threw,
                    if caught then failed + [compensations[i]] else failed)
  {
    assert compensations[i..][1..] == compensations[i + 1..];
    assert undos[i..][1..] == undos[i + 1..];
    assert ([caught] + threw)[1..] == threw;
    TookThen(t0, t1, t2, o, UndoSteps(o, compensations[i + 1..], undos[i + 1..], threw),
             UndoStep(o, compensations[i], undos[i], caught));
  }

  /** What an unwinding that has run all compensations shows. */
  lemma HaveRunShows(w: World, before: seq<WorldLabel>, after: seq<WorldLabel>, o: OrderId,
                     compensations: seq<Compensation>,
                     undos: seq<Undo>, threw: seq<bool>, failed: seq<Compensation>)
    requires |compensations| <= |undos| && HaveRun(w, before, after, o, compensations, undos, 0, threw, failed)
    ensures |threw| == |compensations| && failed == Thrown(compensations, threw)
    ensures AreThrows(w, o, compensations, undos, threw)
    ensures Took(before, after, o, UndoSteps(o, compensations, undos, threw))
    ensures RanNames(UndoSteps(o, compensations, undos, threw)) == RunOrder(compensations)
    ensures FailedNames(UndoSteps(o, compensations, undos, threw)) == failed
  {
    assert compensations[0..] == compensations && undos[0..] == undos;
    UndoStepsShow(o, compensations, undos, threw);
  }

  /** Steps 1 and 2. */
  function LookUpSteps(o: OrderId, input: Input, s: Script): seq<WorldLabel> {
    [Start(o, input), UserReply(o, s.userOk)] + if s.userOk then [ProductReply(o, s.productFound)] else []
  }

  predicate LooksUp(s: Script) {
    s.userOk && s.productFound.Some?
  }

  /** The payment step in world w: the reply of the call named if it has answered by then, else an error. */
  function PaymentStep(w: World, o: OrderId, call: Option<CallId>): WorldLabel {
    if call.Some? && Answers(w, call.value, o) then PaymentReply(o, call.value) else PaymentError(o)
  }

  /** The call has answered in world w, and with status SUCCESS. */
  predicate AnsweredSuccess(w: World, o: OrderId, call: Option<CallId>) {
    call.Some? && Answers(w, call.value, o) && w.ledger.txns[call.value].phase.reply == Charged(false)
  }

  /** Step at of the run is the end of the wait for the payment, and heard is the world it happened in. */
  ghost predicate PaymentHeard(c: Config, trace: seq<WorldLabel>, o: OrderId, call: Option<CallId>, at: nat,
                               heard: World)
  {
    && at < |trace| && IsRun(c, EMPTY_WORLD, trace[..at])
    && End(c, EMPTY_WORLD, trace[..at]) == heard && trace[at] == PaymentStep(heard, o, call)
  }

  lemma PaymentStays(c: Config, trace: seq<WorldLabel>, trace': seq<WorldLabel>, o: OrderId,
                     call: Option<CallId>, at: nat, heard: World)
    requires PaymentHeard(c, trace, o, call, at, heard) && trace <= trace'
    ensures PaymentHeard(c, trace', o, call, at, heard)
  {
    assert trace'[..at] == trace[..at];
  }

  /** The charge was sent and a SUCCESS reply heard. */
  predicate Paid(o: OrderId, s: Script, heard: World) {
    LooksUp(s) && AnsweredSuccess(heard, o, s.paymentCall)
  }

  predicate Succeeds(o: OrderId, s: Script, heard: World) {
    Paid(o, s, heard) && s.insertDone && s.insertHeard
  }

  /** In detail: both look-ups and the insert were heard to succeed, and by the end of its wait the payment
      call named had answered, about this order, that it has charged and kept the money. */
  lemma SucceedsIs(o: OrderId, s: Script, heard: World)
    ensures Succeeds(o, s, heard) <==>
              && s.userOk && s.productFound.Some? && s.insertDone && s.insertHeard
              && s.paymentCall.Some? && s.paymentCall.value in heard.ledger.txns
              && var x := heard.ledger.txns[s.paymentCall.value];
              && (x.call.ChargeCall? || x.call.FailureCall?) && x.call.charge.orderId == o
              && x.phase == Done(Charged(false))
  {
  }

  /** What is registered when the saga fails. */
  function Registrations(o: OrderId, s: Script, heard: World): seq<Compensation> {
    if !LooksUp(s) then [] else [RefundPayment] + if Paid(o, s, heard) then [CancelOrder] else []
  }

  /** The saga's own steps in its try block. */
  function TrySteps(o: OrderId, input: Input, s: Script, heard: World): seq<WorldLabel> {
    LookUpSteps(o, input, s)
    + (if LooksUp(s) then [PaymentStep(heard, o, s.paymentCall)] else [])
    + (if Paid(o, s, heard) then [InsertReply(o, s.insertDone, s.insertDone && s.insertHeard)] else [])
  }

  /** And those after it: publish the order, or unwind and announce the failure. */
  function LastSteps(o: OrderId, s: Script, heard: World, threw: seq<bool>): seq<WorldLabel>
    requires Succeeds(o, s, heard) || |threw| == |Registrations(o, s, heard)| <= |s.undos|
  {
    if Succeeds(o, s, heard) then [PublishCreated(o, s.toKafka, s.toRabbit)]
    else UndoSteps(o, Registrations(o, s, heard), s.undos, threw) + [PublishFailed(o, s.toKafka)]
  }

  // ---- The worlds a script leads to ----

  /** The step, if it can be taken. */
  function Take(c: Config, w: World, l: WorldLabel): World {
    if WorldEnabled(c, w, l) then WorldStep(c, w, l) else w
  }

  /** An await of saga o: of the steps listed, those that can be taken in their turn, except its own. */
  function Others(c: Config, w: World, o: OrderId, labels: seq<WorldLabel>): World
    decreases |labels|
  {
    if labels == [] then w
    else Others(c, if About(labels[0], o) then w else Take(c, w, labels[0]), o, labels[1..])
  }

  /** When all that is scripted is a run of the others, exactly that run happens. */
  lemma {:induction false} OthersRun(c: Config, w: World, o: OrderId, labels: seq<WorldLabel>)
    requires IsRun(c, w, labels) && forall i :: 0 <= i < |labels| ==> !About(labels[i], o)
    ensures Others(c, w, o, labels) == End(c, w, labels)
    decreases |labels|
  {
    if labels != [] {
      OthersRun(c, WorldStep(c, w, labels[0]), o, labels[1..]);
    }
  }

  function GotUser(c: Config, w: World, o: OrderId, input: Input, s: Script): World {
    Take(c, Others(c, Take(c, w, Start(o, input)), o, s.user.meanwhile), UserReply(o, s.userOk))
  }

  function GotProduct(c: Config, w: World, o: OrderId, s: Script): World {
    Take(c, Others(c, w, o, s.product.meanwhile), ProductReply(o, s.productFound))
  }

  /** After both look-ups, or the first that failed. */
  function LookedUp(c: Config, w: World, o: OrderId, input: Input, s: Script): World {
    var w' := GotUser(c, w, o, input, s);
    if s.userOk then GotProduct(c, w', o, s) else w'
  }

  /** When the wait for the payment ends. */
  function PaymentAwaited(c: Config, w: World, o: OrderId, input: Input, s: Script): World {
    Others(c, LookedUp(c, w, o, input, s), o, s.payment.meanwhile)
  }

  function Inserted(c: Config, w: World, o: OrderId, s: Script): World {
    Take(c, Others(c, w, o, s.insert.meanwhile), InsertReply(o, s.insertDone, s.insertDone && s.insertHeard))
  }

  /** After the try block, however it ends. */
  function Tried(c: Config, w: World, o: OrderId, input: Input, s: Script): World {
    var heard := PaymentAwaited(c, w, o, input, s);
    if !LooksUp(s) then LookedUp(c, w, o, input, s)
    else if !Paid(o, s, heard) then Take(c, heard, PaymentStep(heard, o, s.paymentCall))
    else Inserted(c, Take(c, heard, PaymentStep(heard, o, s.paymentCall)), o, s)
  }

  /** When the wait of a refund compensation ends. */
  function RefundAwaited(c: Config, w: World, o: OrderId, undo: Undo): World {
    Others(c, Take(c, w, SendRefund(o)), o, undo.wait.meanwhile)
  }

  /** The refund's answer in world w: a reply if the call named has confirmed by then, else an error. */
  function RefundAnswer(w: World, o: OrderId, refund: Option<CallId>): WorldLabel {
    if refund.Some? && Confirms(w, refund.value, o) then RefundReply(o, refund.value) else RefundError(o)
  }

  function Undone(c: Config, w: World, o: OrderId, comp: Compensation, undo: Undo): World {
    match comp
    case CancelOrder =>
      Take(c, Others(c, w, o, undo.wait.meanwhile), CancelReply(o, undo.done, undo.done && undo.heard))
    case RefundPayment =>
      var heard := RefundAwaited(c, w, o, undo);
      Take(c, heard, RefundAnswer(heard, o, undo.refund))
  }

  /** After the compensations, the one registered last first. */
  function AllUndone(c: Config, w: World, o: OrderId, compensations: seq<Compensation>, undos: seq<Undo>): World
    requires |compensations| <= |undos|
  {
    if compensations == [] then w
    else Undone(c, AllUndone(c, w, o, compensations[1..], undos[1..]), o, compensations[0], undos[0])
  }

  lemma AllUndoneNext(c: Config, w: World, o: OrderId, compensations: seq<Compensation>, undos: seq<Undo>, i: nat)
    requires i < |compensations| <= |undos|
    ensures AllUndone(c, w, o, compensations[i..], undos[i..])
         == Undone(c, AllUndone(c, w, o, compensations[i + 1..], undos[i + 1..]), o, compensations[i], undos[i])
  {
    assert compensations[i..][1..] == compensations[i + 1..] && undos[i..][1..] == undos[i + 1..];
  }

  function Published(c: Config, w: World, o: OrderId, s: Script, l: WorldLabel): World {
    Take(c, Others(c, w, o, s.publish.meanwhile), l)
  }

  /** The world in which the unwinding, if there is one, has run its compensations. */
  function Unwound(c: Config, w: World, o: OrderId, input: Input, s: Script): World
    requires |s.undos| >= 2
  {
    AllUndone(c, Tried(c, w, o, input, s), o, Registrations(o, s, PaymentAwaited(c, w, o, input, s)), s.undos)
  }

  /** The world the saga leaves, whether it returns or throws. */
  function Executed(c: Config, w: World, o: OrderId, input: Input, s: Script): World
    requires |s.undos| >= 2
  {
    if Succeeds(o, s, PaymentAwaited(c, w, o, input, s))
    then Published(c, Tried(c, w, o, input, s), o, s, PublishCreated(o, s.toKafka, s.toRabbit))
    else Published(c, Unwound(c, w, o, input, s), o, s, PublishFailed(o, s.toKafka))
  }
}
