/** What holds of every run of the ledger's transactions. */
module LedgerRuns {
  import opened PaymentTables
  import opened LedgerProtocol
  import opened LedgerSafety

  ghost predicate IsRun(c: Config, s: State, labels: seq<Label>)
    decreases |labels|
  {
    labels == [] || (Enabled(c, s, labels[0]) && IsRun(c, Step(c, s, labels[0]), labels[1..]))
  }

  ghost function End(c: Config, s: State, labels: seq<Label>): State
    requires IsRun(c, s, labels)
    decreases |labels|
  {
    if labels == [] then s else End(c, Step(c, s, labels[0]), labels[1..])
  }

  // ---- Refinement of the atomic ledger ----

  /** The atomic operations of a run, in commit order. */
  ghost function Commits(c: Config, s: State, labels: seq<Label>): seq<Action>
    requires Inv(c, s) && IsRun(c, s, labels)
    decreases |labels|
  {
    if labels == [] then []
    else
      StepInv(c, s, labels[0]);
      var rest := Commits(c, Step(c, s, labels[0]), labels[1..]);
      match ActionOf(s, labels[0])
      case None => rest
      case Some(a) => [a] + rest
  }

  /** Every interleaving has the effect of its atomic operations performed one after another. */
  lemma {:induction false} RunRefinesAtomicLedger(c: Config, s: State, labels: seq<Label>)
    requires Inv(c, s) && IsRun(c, s, labels)
    ensures Inv(c, End(c, s, labels))
    ensures AllAllowed(s.tables, Commits(c, s, labels))
    ensures ApplyAll(s.tables, Commits(c, s, labels)) == End(c, s, labels).tables
    decreases |labels|
  {
    if labels != [] {
      StepInv(c, s, labels[0]);
      StepRefines(c, s, labels[0]);
      RunRefinesAtomicLedger(c, Step(c, s, labels[0]), labels[1..]);
      if ActionOf(s, labels[0]).Some? {
        assert Commits(c, s, labels)[1..] == Commits(c, Step(c, s, labels[0]), labels[1..]);
      }
    }
  }

  /** Semantic lock: in every reachable state a committed refund intent means no SUCCESS row for its order. */
  lemma SemanticLockSafety(c: Config, labels: seq<Label>)
    requires IsRun(c, INIT, labels)
    ensures forall id :: id in End(c, INIT, labels).tables.payments &&
              End(c, INIT, labels).tables.payments[id].charge.orderId in End(c, INIT, labels).tables.intents
              ==> End(c, INIT, labels).tables.payments[id].status != SUCCESS
  {
    InitInv(c);
    RunRefinesAtomicLedger(c, INIT, labels);
  }

  lemma StampedRows(c: Config, s: State)
    requires Inv(c, s)
    ensures Stamped(s.tables)
  {
    assert forall id :: id in s.tables.payments ==> RowOk(s, id);
  }

  /** Rows and intents are never lost along a run, and SUCCESS to REFUNDED is the only status change. */
  lemma StatusesMonotone(c: Config, s: State, labels: seq<Label>)
    requires Inv(c, s) && IsRun(c, s, labels)
    ensures Inv(c, End(c, s, labels)) && Later(s.tables, End(c, s, labels).tables)
  {
    RunRefinesAtomicLedger(c, s, labels);
    StampedRows(c, s);
    AtomicRun(s.tables, Commits(c, s, labels));
  }

  /** Once an order's refund intent is committed, no continuation ever keeps a charge for that order,
      however late the charge arrives. */
  lemma LateChargesNeutralised(c: Config, s: State, labels: seq<Label>, o: OrderId)
    requires Inv(c, s) && o in s.tables.intents && IsRun(c, s, labels)
    ensures Kept(End(c, s, labels).tables, o) == {}
  {
    StatusesMonotone(c, s, labels);
  }

  /** The unguarded UPDATE of markRefunded meets a charged row: in every reachable state the status check
      made before the sleep still holds when the row is locked and when it is committed. */
  lemma MarkRefundedNeverTouchesFailed(c: Config, labels: seq<Label>, t: CallId)
    requires IsRun(c, INIT, labels)
    requires var s := End(c, INIT, labels);
             Enabled(c, s, LockRow(t)) || (Enabled(c, s, Commit(t, true)) && s.txns[t].call.RefundPaymentCall?)
    ensures var s := End(c, INIT, labels);
            s.txns[t].call.id in s.tables.payments && s.tables.payments[s.txns[t].call.id].status != FAILED
  {
    InitInv(c);
    RunRefinesAtomicLedger(c, INIT, labels);
    assert ViewOk(End(c, INIT, labels), t);
  }

  // ---- The write skew the advisory lock prevents ----

  /** A run in which the advisory lock is never waited for. */
  ghost predicate IsUnlockedRun(c: Config, s: State, labels: seq<Label>)
    decreases |labels|
  {
    labels == [] || (Ready(c, s, labels[0]) && IsUnlockedRun(c, Step(c, s, labels[0]), labels[1..]))
  }

  ghost function UnlockedEnd(c: Config, s: State, labels: seq<Label>): State
    requires IsUnlockedRun(c, s, labels)
    decreases |labels|
  {
    if labels == [] then s else UnlockedEnd(c, Step(c, s, labels[0]), labels[1..])
  }

  lemma {:induction false} UnlockedRunsJoin(c: Config, s: State, first: seq<Label>, second: seq<Label>)
    requires IsUnlockedRun(c, s, first) && IsUnlockedRun(c, UnlockedEnd(c, s, first), second)
    ensures IsUnlockedRun(c, s, first + second)
    ensures UnlockedEnd(c, s, first + second) == UnlockedEnd(c, UnlockedEnd(c, s, first), second)
    decreases |first|
  {
    if first == [] {
      assert first + second == second;
    } else {
      UnlockedRunsJoin(c, Step(c, s, first[0]), first[1..], second);
      assert (first + second)[1..] == first[1..] + second;
    }
  }

  lemma TwoUnlocked(c: Config, s: State, l: Label, l': Label)
    requires Ready(c, s, l) && Ready(c, Step(c, s, l), l')
    ensures IsUnlockedRun(c, s, [l, l']) && UnlockedEnd(c, s, [l, l']) == Step(c, Step(c, s, l), l')
  {
    assert [l, l'][1..] == [l'] && [l'][1..] == [];
    assert UnlockedEnd(c, s, [l, l']) == UnlockedEnd(c, Step(c, s, l), [l']);
  }

  /** Call 0 charges while call 1 refunds: each reads before the other commits. */
  const SKEW_ENTERS: seq<Label> := [Connect(0), Connect(1)] + [Begin(0), Begin(1)] + [Lock(0), Lock(1)]
  const SKEW_READS: seq<Label> := [ReadIntents(0), InsertIntent(1)] + [StartUpdate(1), InsertRow(0)]
  const SKEW: seq<Label> := SKEW_ENTERS + SKEW_READS + [Commit(1, true), Commit(0, true)]

  /** Call 0 charges an order and is in phase p, call 1 refunds it and is in phase p'; nothing has been
      committed. */
  predicate Both(s: State, charge: Charge, tx: nat, p: Phase, p': Phase, clients: set<CallId>) {
    && s.txns == map[0 := Txn(ChargeCall(charge, tx), p), 1 := Txn(RefundCall(charge.orderId), p')]
    && s.tables == EMPTY_TABLES && s.clients == clients
  }

  lemma SkewConnects(c: Config, s: State, charge: Charge, tx: nat)
    requires c.poolSize >= 2 && Both(s, charge, tx, Waiting, Waiting, {})
    ensures IsUnlockedRun(c, s, [Connect(0), Connect(1)])
    ensures Both(UnlockedEnd(c, s, [Connect(0), Connect(1)]), charge, tx, Connected, Connected, {0, 1})
  {
    assert |{0 as CallId}| == 1;
    TwoUnlocked(c, s, Connect(0), Connect(1));
  }

  lemma SkewBegins(c: Config, s: State, charge: Charge, tx: nat)
    requires Both(s, charge, tx, Connected, Connected, {0, 1})
    ensures IsUnlockedRun(c, s, [Begin(0), Begin(1)])
    ensures Both(UnlockedEnd(c, s, [Begin(0), Begin(1)]), charge, tx, Begun, Begun, {0, 1})
  {
    TwoUnlocked(c, s, Begin(0), Begin(1));
  }

  lemma SkewLocks(c: Config, s: State, charge: Charge, tx: nat)
    requires Both(s, charge, tx, Begun, Begun, {0, 1})
    ensures IsUnlockedRun(c, s, [Lock(0), Lock(1)])
    ensures Both(UnlockedEnd(c, s, [Lock(0), Lock(1)]), charge, tx, Locked, Locked, {0, 1})
  {
    TwoUnlocked(c, s, Lock(0), Lock(1));
  }

  lemma SkewEnters(c: Config, s: State, charge: Charge, tx: nat)
    requires c.poolSize >= 2 && Both(s, charge, tx, Waiting, Waiting, {})
    ensures IsUnlockedRun(c, s, SKEW_ENTERS)
    ensures Both(UnlockedEnd(c, s, SKEW_ENTERS), charge, tx, Locked, Locked, {0, 1})
  {
    var first, second := [Connect(0), Connect(1)], [Begin(0), Begin(1)];
    SkewConnects(c, s, charge, tx);
    SkewBegins(c, UnlockedEnd(c, s, first), charge, tx);
    UnlockedRunsJoin(c, s, first, second);
    SkewLocks(c, UnlockedEnd(c, s, first + second), charge, tx);
    UnlockedRunsJoin(c, s, first + second, [Lock(0), Lock(1)]);
  }

  lemma SkewLooks(c: Config, s: State, charge: Charge, tx: nat)
    requires Both(s, charge, tx, Locked, Locked, {0, 1})
    ensures IsUnlockedRun(c, s, [ReadIntents(0), InsertIntent(1)])
    ensures Both(UnlockedEnd(c, s, [ReadIntents(0), InsertIntent(1)]), charge, tx,
                 IntentsRead(false), IntentInserted, {0, 1})
  {
    TwoUnlocked(c, s, ReadIntents(0), InsertIntent(1));
  }

  lemma SkewWrites(c: Config, s: State, charge: Charge, tx: nat)
    requires Both(s, charge, tx, IntentsRead(false), IntentInserted, {0, 1})
    ensures IsUnlockedRun(c, s, [StartUpdate(1), InsertRow(0)])
    ensures Both(UnlockedEnd(c, s, [StartUpdate(1), InsertRow(0)]), charge, tx,
                 RowInserted(false), Updating({}, {}), {0, 1})
  {
    assert Kept(EMPTY_TABLES, charge.orderId) == {};
    TwoUnlocked(c, s, StartUpdate(1), InsertRow(0));
  }

  /** The charge has read no intent, and the refund has found no row. */
  lemma SkewReads(c: Config, s: State, charge: Charge, tx: nat)
    requires Both(s, charge, tx, Locked, Locked, {0, 1})
    ensures IsUnlockedRun(c, s, SKEW_READS)
    ensures Both(UnlockedEnd(c, s, SKEW_READS), charge, tx, RowInserted(false), Updating({}, {}), {0, 1})
  {
    SkewLooks(c, s, charge, tx);
    SkewWrites(c, UnlockedEnd(c, s, [ReadIntents(0), InsertIntent(1)]), charge, tx);
    UnlockedRunsJoin(c, s, [ReadIntents(0), InsertIntent(1)], [StartUpdate(1), InsertRow(0)]);
  }

  lemma RefundCommits(c: Config, s: State, charge: Charge, tx: nat)
    requires Both(s, charge, tx, RowInserted(false), Updating({}, {}), {0, 1})
    ensures var s' := Step(c, s, Commit(1, true));
            charge.orderId in s'.tables.intents && 0 in s'.txns && s'.txns[0] == s.txns[0]
  {
  }

  lemma SkewCommits(c: Config, s: State, charge: Charge, tx: nat)
    requires Both(s, charge, tx, RowInserted(false), Updating({}, {}), {0, 1})
    ensures IsUnlockedRun(c, s, [Commit(1, true), Commit(0, true)])
    ensures !NothingKept(UnlockedEnd(c, s, [Commit(1, true), Commit(0, true)]).tables)
  {
    RefundCommits(c, s, charge, tx);
    TwoUnlocked(c, s, Commit(1, true), Commit(0, true));
    assert 0 in UnlockedEnd(c, s, [Commit(1, true), Commit(0, true)]).tables.payments;
  }

  /** Both calls have been made and nothing else has happened. */
  function BothCalled(charge: Charge, tx: nat): State {
    INIT.(txns := map[0 := Txn(ChargeCall(charge, tx), Waiting), 1 := Txn(RefundCall(charge.orderId), Waiting)])
  }

  /** Without the advisory lock the two calls pass each other and the charge is kept for good. */
  lemma WithoutLockChargeIsKept(c: Config, charge: Charge, tx: nat)
    requires c.poolSize >= 2
    ensures IsUnlockedRun(c, BothCalled(charge, tx), SKEW)
    ensures !NothingKept(UnlockedEnd(c, BothCalled(charge, tx), SKEW).tables)
  {
    var s := BothCalled(charge, tx);
    SkewEnters(c, s, charge, tx);
    SkewReads(c, UnlockedEnd(c, s, SKEW_ENTERS), charge, tx);
    UnlockedRunsJoin(c, s, SKEW_ENTERS, SKEW_READS);
    SkewCommits(c, UnlockedEnd(c, s, SKEW_ENTERS + SKEW_READS), charge, tx);
    UnlockedRunsJoin(c, s, SKEW_ENTERS + SKEW_READS, [Commit(1, true), Commit(0, true)]);
  }
}
