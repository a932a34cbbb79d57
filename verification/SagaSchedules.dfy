/** A script played out step by step: when every step written down for a saga and for the others can be taken
    in its turn, the saga's code takes exactly that run. */
module SagaSchedules {
  import opened PaymentTables
  import opened LedgerProtocol
  import opened OrderWorld
  import opened OrderRuns
  import opened SagaScript

  /** The look-ups: each reply after its wait. */
  function LookUpRun(o: OrderId, input: Input, s: Script): seq<WorldLabel> {
    [Start(o, input)] + s.user.meanwhile + [UserReply(o, s.userOk)]
    + if s.userOk then s.product.meanwhile + [ProductReply(o, s.productFound)] else []
  }

  /** The whole try block, given the world in which the wait for the payment ends. */
  function TryRun(o: OrderId, input: Input, s: Script, heard: World): seq<WorldLabel> {
    LookUpRun(o, input, s)
    + (if LooksUp(s) then s.payment.meanwhile + [PaymentStep(heard, o, s.paymentCall)] else [])
    + (if Paid(o, s, heard)
       then s.insert.meanwhile + [InsertReply(o, s.insertDone, s.insertDone && s.insertHeard)]
       else [])
  }

  function CancelRun(o: OrderId, undo: Undo): seq<WorldLabel> {
    undo.wait.meanwhile + [CancelReply(o, undo.done, undo.done && undo.heard)]
  }

  /** A refund compensation, given the world in which its wait ends. */
  function RefundRun(o: OrderId, undo: Undo, heard: World): seq<WorldLabel> {
    [SendRefund(o)] + undo.wait.meanwhile + [RefundAnswer(heard, o, undo.refund)]
  }

  function PublishRun(o: OrderId, s: Script, l: WorldLabel): seq<WorldLabel> {
    s.publish.meanwhile + [l]
  }

  predicate OfOthers(labels: seq<WorldLabel>, o: OrderId) {
    forall i :: 0 <= i < |labels| ==> !About(labels[i], o)
  }

  /** No wait is scripted to take the saga's own steps. */
  predicate WaitsOfOthers(o: OrderId, s: Script) {
    && OfOthers(s.user.meanwhile, o) && OfOthers(s.product.meanwhile, o) && OfOthers(s.payment.meanwhile, o)
    && OfOthers(s.insert.meanwhile, o) && OfOthers(s.publish.meanwhile, o)
    && forall i :: 0 <= i < |s.undos| ==> OfOthers(s.undos[i].wait.meanwhile, o)
  }

  lemma {:induction false} RunSplits(c: Config, w: World, first: seq<WorldLabel>, second: seq<WorldLabel>)
    requires IsRun(c, w, first + second)
    ensures IsRun(c, w, first) && IsRun(c, End(c, w, first), second)
    ensures End(c, w, first + second) == End(c, End(c, w, first), second)
    decreases |first|
  {
    if first == [] {
      assert first + second == second;
    } else {
      assert (first + second)[1..] == first[1..] + second;
      RunSplits(c, WorldStep(c, w, first[0]), first[1..], second);
    }
  }

  lemma TakeRun(c: Config, w: World, l: WorldLabel)
    requires IsRun(c, w, [l])
    ensures Take(c, w, l) == End(c, w, [l])
  {
    assert [l][1..] == [];
  }

  lemma WaitRun(c: Config, w: World, o: OrderId, meanwhile: seq<WorldLabel>, l: WorldLabel)
    requires IsRun(c, w, meanwhile + [l]) && OfOthers(meanwhile, o)
    ensures IsRun(c, w, meanwhile) && End(c, w, meanwhile) == Others(c, w, o, meanwhile)
    ensures Take(c, Others(c, w, o, meanwhile), l) == End(c, w, meanwhile + [l])
  {
    RunSplits(c, w, meanwhile, [l]);
    OthersRun(c, w, o, meanwhile);
    TakeRun(c, End(c, w, meanwhile), l);
  }

  lemma LookUpIsRun(c: Config, w: World, o: OrderId, input: Input, s: Script)
    requires IsRun(c, w, LookUpRun(o, input, s)) && WaitsOfOthers(o, s)
    ensures LookedUp(c, w, o, input, s) == End(c, w, LookUpRun(o, input, s))
  {
    var start, user := [Start(o, input)], s.user.meanwhile + [UserReply(o, s.userOk)];
    var product := if s.userOk then s.product.meanwhile + [ProductReply(o, s.productFound)] else [];
    assert LookUpRun(o, input, s) == start + (user + product);
    RunSplits(c, w, start, user + product);
    TakeRun(c, w, Start(o, input));
    var w1 := End(c, w, start);
    RunSplits(c, w1, user, product);
    WaitRun(c, w1, o, s.user.meanwhile, UserReply(o, s.userOk));
    if s.userOk {
      WaitRun(c, End(c, w1, user), o, s.product.meanwhile, ProductReply(o, s.productFound));
    }
  }

  lemma TryIsRun(c: Config, w: World, o: OrderId, input: Input, s: Script)
    requires WaitsOfOthers(o, s)
    requires IsRun(c, w, TryRun(o, input, s, PaymentAwaited(c, w, o, input, s)))
    ensures Tried(c, w, o, input, s) == End(c, w, TryRun(o, input, s, PaymentAwaited(c, w, o, input, s)))
  {
    var heard := PaymentAwaited(c, w, o, input, s);
    var looks := LookUpRun(o, input, s);
    var pays := if LooksUp(s) then s.payment.meanwhile + [PaymentStep(heard, o, s.paymentCall)] else [];
    var inserts := if Paid(o, s, heard)
                   then s.insert.meanwhile + [InsertReply(o, s.insertDone, s.insertDone && s.insertHeard)]
                   else [];
    assert TryRun(o, input, s, heard) == looks + (pays + inserts);
    RunSplits(c, w, looks, pays + inserts);
    LookUpIsRun(c, w, o, input, s);
    var w1 := End(c, w, looks);
    RunSplits(c, w1, pays, inserts);
    if LooksUp(s) {
      WaitRun(c, w1, o, s.payment.meanwhile, PaymentStep(heard, o, s.paymentCall));
      if Paid(o, s, heard) {
        var l := InsertReply(o, s.insertDone, s.insertDone && s.insertHeard);
        WaitRun(c, End(c, w1, pays), o, s.insert.meanwhile, l);
      }
    }
  }

  lemma RefundIsRun(c: Config, w: World, o: OrderId, undo: Undo)
    requires OfOthers(undo.wait.meanwhile, o)
    requires IsRun(c, w, RefundRun(o, undo, RefundAwaited(c, w, o, undo)))
    ensures Undone(c, w, o, RefundPayment, undo) == End(c, w, RefundRun(o, undo, RefundAwaited(c, w, o, undo)))
  {
    var answer := RefundAnswer(RefundAwaited(c, w, o, undo), o, undo.refund);
    assert RefundRun(o, undo, RefundAwaited(c, w, o, undo)) == [SendRefund(o)] + (undo.wait.meanwhile + [answer]);
    RunSplits(c, w, [SendRefund(o)], undo.wait.meanwhile + [answer]);
    TakeRun(c, w, SendRefund(o));
    WaitRun(c, End(c, w, [SendRefund(o)]), o, undo.wait.meanwhile, answer);
  }

  /** The unwinding after the try block has ended in world w: the cancellation first, then the refund. */
  function UndoRun(c: Config, w: World, o: OrderId, compensations: seq<Compensation>, s: Script): seq<WorldLabel>
    requires |s.undos| >= 2
  {
    if compensations == [RefundPayment] then RefundRun(o, s.undos[0], RefundAwaited(c, w, o, s.undos[0]))
    else if compensations == [RefundPayment, CancelOrder] then
      var w' := Undone(c, w, o, CancelOrder, s.undos[1]);
      CancelRun(o, s.undos[1]) + RefundRun(o, s.undos[0], RefundAwaited(c, w', o, s.undos[0]))
    else []
  }

  lemma UndoIsRun(c: Config, w: World, o: OrderId, input: Input, s: Script, heard: World)
    requires |s.undos| >= 2 && WaitsOfOthers(o, s)
    requires IsRun(c, w, UndoRun(c, w, o, Registrations(o, s, heard), s))
    ensures AllUndone(c, w, o, Registrations(o, s, heard), s.undos)
         == End(c, w, UndoRun(c, w, o, Registrations(o, s, heard), s))
  {
    var compensations := Registrations(o, s, heard);
    if compensations == [RefundPayment] {
      assert compensations[1..] == [];
      RefundIsRun(c, w, o, s.undos[0]);
    } else if compensations == [RefundPayment, CancelOrder] {
      assert compensations[1..] == [CancelOrder] && [CancelOrder][1..] == [];
      var w' := Undone(c, w, o, CancelOrder, s.undos[1]);
      RunSplits(c, w, CancelRun(o, s.undos[1]), RefundRun(o, s.undos[0], RefundAwaited(c, w', o, s.undos[0])));
      WaitRun(c, w, o, s.undos[1].wait.meanwhile, CancelReply(o, s.undos[1].done, s.undos[1].done && s.undos[1].heard));
      RefundIsRun(c, w', o, s.undos[0]);
      assert AllUndone(c, w, o, compensations[1..], s.undos[1..]) == w' by {
        assert s.undos[1..][0] == s.undos[1];
      }
    }
  }

  /** Everything a script writes down: the try block, then the publication, or the unwinding and its announcement. */
  function WholeRun(c: Config, w: World, o: OrderId, input: Input, s: Script): seq<WorldLabel>
    requires |s.undos| >= 2
  {
    var heard := PaymentAwaited(c, w, o, input, s);
    TryRun(o, input, s, heard)
    + if Succeeds(o, s, heard) then PublishRun(o, s, PublishCreated(o, s.toKafka, s.toRabbit))
      else
        UndoRun(c, Tried(c, w, o, input, s), o, Registrations(o, s, heard), s)
        + PublishRun(o, s, PublishFailed(o, s.toKafka))
  }

  /** When all of it can be taken in its turn, the saga leaves the world that this run leads to. */
  lemma ScriptIsPlayedOut(c: Config, w: World, o: OrderId, input: Input, s: Script)
    requires |s.undos| >= 2 && WaitsOfOthers(o, s)
    requires IsRun(c, w, WholeRun(c, w, o, input, s))
    ensures Executed(c, w, o, input, s) == End(c, w, WholeRun(c, w, o, input, s))
  {
    var heard := PaymentAwaited(c, w, o, input, s);
    var tries := TryRun(o, input, s, heard);
    if Succeeds(o, s, heard) {
      var l := PublishCreated(o, s.toKafka, s.toRabbit);
      RunSplits(c, w, tries, PublishRun(o, s, l));
      TryIsRun(c, w, o, input, s);
      WaitRun(c, End(c, w, tries), o, s.publish.meanwhile, l);
    } else {
      var l := PublishFailed(o, s.toKafka);
      var w1 := Tried(c, w, o, input, s);
      var undoes := UndoRun(c, w1, o, Registrations(o, s, heard), s);
      RunSplits(c, w, tries, undoes + PublishRun(o, s, l));
      TryIsRun(c, w, o, input, s);
      RunSplits(c, w1, undoes, PublishRun(o, s, l));
      UndoIsRun(c, w1, o, input, s, heard);
      WaitRun(c, End(c, w1, undoes), o, s.publish.meanwhile, l);
    }
  }
}
