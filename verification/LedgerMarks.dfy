/** What refundPayment's check, sleep and unguarded UPDATE allow when calls overlap. */
module LedgerMarks {
  import opened Basics
  import opened PaymentTables
  import opened LedgerProtocol
  import opened LedgerSafety
  import opened LedgerRuns
  import P = PaymentService

  lemma {:induction false} RunsJoin(c: Config, s: State, first: seq<Label>, second: seq<Label>)
    requires IsRun(c, s, first) && IsRun(c, End(c, s, first), second)
    ensures IsRun(c, s, first + second)
    ensures End(c, s, first + second) == End(c, End(c, s, first), second)
    decreases |first|
  {
    if first == [] {
      assert first + second == second;
    } else {
      RunsJoin(c, Step(c, s, first[0]), first[1..], second);
      assert (first + second)[1..] == first[1..] + second;
    }
  }

  lemma OneStep(c: Config, s: State, l: Label)
    requires Enabled(c, s, l)
    ensures IsRun(c, s, [l]) && End(c, s, [l]) == Step(c, s, l)
  {
    assert [l][1..] == [];
  }

  lemma TwoSteps(c: Config, s: State, l: Label, l': Label)
    requires Enabled(c, s, l) && Enabled(c, Step(c, s, l), l')
    ensures IsRun(c, s, [l, l']) && End(c, s, [l, l']) == Step(c, Step(c, s, l), l')
  {
    OneStep(c, Step(c, s, l), l');
    assert [l, l'][1..] == [l'];
  }

  // ---- When the row has been refunded before it is marked ----

  /** Along any run a kept payment stays kept if and only if no call marks it and none asks for its order's
      refund: this is what decides whether refundPayment marks a payment that is still SUCCESS. */
  lemma KeptUntilMarked(c: Config, s: State, labels: seq<Label>, id: PaymentId)
    requires Inv(c, s) && IsRun(c, s, labels)
    requires id in s.tables.payments && s.tables.payments[id].status == SUCCESS
    ensures var t := End(c, s, labels).tables;
            && id in t.payments
            && (t.payments[id].status == SUCCESS <==>
                  && MarkRefunded(id) !in Commits(c, s, labels)
                  && RequestRefund(s.tables.payments[id].charge.orderId) !in Commits(c, s, labels))
  {
    RunRefinesAtomicLedger(c, s, labels);
    P.MeanwhileIsCommits(s.tables, Commits(c, s, labels), {});
    P.StillKept(s.tables, Commits(c, s, labels), id, {});
  }

  /** The payments marked along a run are those whose marking it commits. */
  lemma {:induction false} MarkedByRun(c: Config, s: State, labels: seq<Label>, id: PaymentId)
    requires Inv(c, s) && IsRun(c, s, labels)
    ensures id in End(c, s, labels).marked <==> id in s.marked || MarkRefunded(id) in Commits(c, s, labels)
    decreases |labels|
  {
    if labels != [] {
      StepInv(c, s, labels[0]);
      MarksAreCommits(c, s, labels[0]);
      MarkedByRun(c, Step(c, s, labels[0]), labels[1..], id);
    }
  }

  // ---- A payment reported refunded twice ----

  /** Both calls look before either marks. */
  function Looks(t: CallId, t': CallId, id: PaymentId): seq<Label> {
    [Spawn(t, RefundPaymentCall(id)), Spawn(t', RefundPaymentCall(id))] + [Find(t), Find(t')]
  }

  function Marks(t: CallId): seq<Label> {
    [Connect(t), LockRow(t)] + [Commit(t, true), Release(t)]
  }

  /** A client is free and nobody else is updating the row. */
  predicate CanMark(c: Config, s: State, id: PaymentId) {
    |s.clients| < c.poolSize && forall t :: t in s.txns ==> !HoldsRow(s.txns[t], id)
  }

  predicate Is(s: State, t: CallId, id: PaymentId, p: Phase) {
    t in s.txns && s.txns[t] == Txn(RefundPaymentCall(id), p)
  }

  lemma LooksRun(c: Config, s: State, t: CallId, t': CallId, id: PaymentId)
    requires CanMark(c, s, id) && t != t' && t !in s.txns && t' !in s.txns
    requires id in s.tables.payments && s.tables.payments[id].status == SUCCESS
    ensures IsRun(c, s, Looks(t, t', id))
    ensures var s' := End(c, s, Looks(t, t', id));
            CanMark(c, s', id) && Is(s', t, id, Checked) && Is(s', t', id, Checked)
  {
    var call := RefundPaymentCall(id);
    TwoSteps(c, s, Spawn(t, call), Spawn(t', call));
    var s2 := Step(c, Step(c, s, Spawn(t, call)), Spawn(t', call));
    TwoSteps(c, s2, Find(t), Find(t'));
    RunsJoin(c, s, [Spawn(t, call), Spawn(t', call)], [Find(t), Find(t')]);
  }

  /** Call t has the row and its client; call other and the other clients are where they were. */
  predicate HasRow(s: State, t: CallId, id: PaymentId, other: CallId, p: Phase, clients: set<CallId>) {
    && Is(s, t, id, RowLocked) && Is(s, other, id, p) && s.clients == clients + {t}
    && forall t' :: t' in s.txns && t' != t ==> !HoldsRow(s.txns[t'], id)
  }

  lemma MarkLocks(c: Config, s: State, t: CallId, id: PaymentId, other: CallId, p: Phase)
    requires CanMark(c, s, id) && Is(s, t, id, Checked) && other != t && Is(s, other, id, p)
    ensures IsRun(c, s, [Connect(t), LockRow(t)])
    ensures HasRow(End(c, s, [Connect(t), LockRow(t)]), t, id, other, p, s.clients)
  {
    TwoSteps(c, s, Connect(t), LockRow(t));
  }

  lemma MarkCommits(c: Config, s: State, t: CallId, id: PaymentId, other: CallId, p: Phase, clients: set<CallId>)
    requires HasRow(s, t, id, other, p, clients) && other != t && t !in clients && |clients| < c.poolSize
    ensures IsRun(c, s, [Commit(t, true), Release(t)])
    ensures var s' := End(c, s, [Commit(t, true), Release(t)]);
            CanMark(c, s', id) && Is(s', t, id, Done(Marked)) && Is(s', other, id, p) && s'.clients == clients
  {
    TwoSteps(c, s, Commit(t, true), Release(t));
    assert End(c, s, [Commit(t, true), Release(t)]).clients == clients;
  }

  lemma MarksRun(c: Config, s: State, t: CallId, id: PaymentId, other: CallId, p: Phase)
    requires CanMark(c, s, id) && Is(s, t, id, Checked) && t !in s.clients && other != t && Is(s, other, id, p)
    ensures IsRun(c, s, Marks(t))
    ensures var s' := End(c, s, Marks(t));
            CanMark(c, s', id) && Is(s', t, id, Done(Marked)) && Is(s', other, id, p) && s'.clients == s.clients
  {
    var locks := [Connect(t), LockRow(t)];
    MarkLocks(c, s, t, id, other, p);
    MarkCommits(c, End(c, s, locks), t, id, other, p, s.clients);
    RunsJoin(c, s, locks, [Commit(t, true), Release(t)]);
  }

  /** Wherever a payment is kept, a client is free and the row is not locked, two calls of refundPayment can
      both answer that they have refunded it. */
  lemma RefundedTwice(c: Config, s: State, t: CallId, t': CallId, id: PaymentId)
    requires Inv(c, s) && CanMark(c, s, id) && t != t' && t !in s.txns && t' !in s.txns
    requires id in s.tables.payments && s.tables.payments[id].status == SUCCESS
    ensures var labels := Looks(t, t', id) + Marks(t) + Marks(t');
            && IsRun(c, s, labels)
            && Is(End(c, s, labels), t, id, Done(Marked)) && Is(End(c, s, labels), t', id, Done(Marked))
  {
    LooksRun(c, s, t, t', id);
    var s1 := End(c, s, Looks(t, t', id));
    StatusesMonotone(c, s, Looks(t, t', id));
    MarksRun(c, s1, t, id, t', Checked);
    var s2 := End(c, s1, Marks(t));
    MarksRun(c, s2, t', id, t, Done(Marked));
    RunsJoin(c, s, Looks(t, t', id), Marks(t));
    RunsJoin(c, s, Looks(t, t', id) + Marks(t), Marks(t'));
  }

  /** Call t charges from an idle ledger. */
  function ChargeRun(t: CallId, charge: Charge, tx: nat): seq<Label> {
    ChargeReads(t, charge, tx) + ChargeWrites(t)
  }

  function ChargeReads(t: CallId, charge: Charge, tx: nat): seq<Label> {
    [Spawn(t, ChargeCall(charge, tx)), Connect(t)] + [Begin(t), Lock(t)]
  }

  function ChargeWrites(t: CallId): seq<Label> {
    [ReadIntents(t), InsertRow(t)] + [Commit(t, true), Release(t)]
  }

  /** Call t holds the lock of its order and has done nothing else, nor has anybody. */
  predicate OnlyLocked(c: Config, s: State, t: CallId, charge: Charge, tx: nat) {
    && s.txns == map[t := Txn(ChargeCall(charge, tx), Locked)] && s.tables == EMPTY_TABLES
    && s.clients == {t} && s.locks == map[c.hash(charge.orderId) := t]
  }

  /** Call t has charged and answered, and nothing else has happened. */
  predicate OnlyCharged(s: State, t: CallId, charge: Charge, tx: nat) {
    && s.txns == map[t := Txn(ChargeCall(charge, tx), Done(Charged(false)))]
    && s.tables == Tables(map[t := Payment(charge, SUCCESS, Some(tx), false)], {})
    && s.clients == {} && s.locks == map[]
  }

  lemma ChargeLocks(c: Config, t: CallId, charge: Charge, tx: nat)
    requires c.poolSize >= 1
    ensures IsRun(c, INIT, ChargeReads(t, charge, tx))
    ensures OnlyLocked(c, End(c, INIT, ChargeReads(t, charge, tx)), t, charge, tx)
  {
    var first, second := [Spawn(t, ChargeCall(charge, tx)), Connect(t)], [Begin(t), Lock(t)];
    TwoSteps(c, INIT, first[0], first[1]);
    TwoSteps(c, End(c, INIT, first), second[0], second[1]);
    RunsJoin(c, INIT, first, second);
  }

  lemma ChargeCommits(c: Config, s: State, t: CallId, charge: Charge, tx: nat)
    requires c.poolSize >= 1 && OnlyLocked(c, s, t, charge, tx)
    ensures IsRun(c, s, ChargeWrites(t))
    ensures OnlyCharged(End(c, s, ChargeWrites(t)), t, charge, tx)
  {
    var first, second := [ReadIntents(t), InsertRow(t)], [Commit(t, true), Release(t)];
    TwoSteps(c, s, first[0], first[1]);
    TwoSteps(c, End(c, s, first), second[0], second[1]);
    assert Step(c, End(c, s, first), Commit(t, true)).locks == map[];
    RunsJoin(c, s, first, second);
  }

  lemma ChargeFromInit(c: Config, t: CallId, charge: Charge, tx: nat)
    requires c.poolSize >= 1
    ensures IsRun(c, INIT, ChargeRun(t, charge, tx))
    ensures OnlyCharged(End(c, INIT, ChargeRun(t, charge, tx)), t, charge, tx)
  {
    ChargeLocks(c, t, charge, tx);
    ChargeCommits(c, End(c, INIT, ChargeReads(t, charge, tx)), t, charge, tx);
    RunsJoin(c, INIT, ChargeReads(t, charge, tx), ChargeWrites(t));
  }

  /** From the empty ledger: call 0 charges, calls 1 and 2 both report its payment refunded. */
  lemma ReportedRefundedTwice(c: Config, charge: Charge, tx: nat)
    requires c.poolSize >= 1
    ensures var labels := ChargeRun(0, charge, tx) + (Looks(1, 2, 0) + Marks(1) + Marks(2));
            && IsRun(c, INIT, labels)
            && Is(End(c, INIT, labels), 1, 0, Done(Marked)) && Is(End(c, INIT, labels), 2, 0, Done(Marked))
  {
    InitInv(c);
    ChargeFromInit(c, 0, charge, tx);
    RunRefinesAtomicLedger(c, INIT, ChargeRun(0, charge, tx));
    RefundedTwice(c, End(c, INIT, ChargeRun(0, charge, tx)), 1, 2, 0);
    RunsJoin(c, INIT, ChargeRun(0, charge, tx), Looks(1, 2, 0) + Marks(1) + Marks(2));
  }

  // ---- And only when they overlap ----

  /** The call has not looked yet, or has looked and been refused. */
  predicate NotPassed(s: State, t: CallId, id: PaymentId) {
    t !in s.txns || s.txns[t].call != RefundPaymentCall(id) || s.txns[t].phase in {Waiting, Done(Error)}
  }

  predicate NotKept(tables: Tables, id: PaymentId) {
    id in tables.payments && tables.payments[id].status != SUCCESS
  }

  lemma OwnLateLook(c: Config, s: State, l: Label, id: PaymentId)
    requires Enabled(c, s, l) && NotKept(s.tables, id) && !l.Crash? && NotPassed(s, l.t, id)
    ensures NotPassed(Step(c, s, l), l.t, id)
  {
    if l.t in s.txns && s.txns[l.t].call == RefundPaymentCall(id) {
      assert l.Find? || l.ConnectFail?;
    }
  }

  lemma LateLookStep(c: Config, s: State, l: Label, t: CallId, id: PaymentId)
    requires Enabled(c, s, l) && NotKept(s.tables, id) && NotPassed(s, t, id)
    ensures NotPassed(Step(c, s, l), t, id)
  {
    if !l.Crash? {
      if l.t == t {
        OwnLateLook(c, s, l, id);
      } else {
        Shape(c, s, l);
      }
    }
  }

  /** A call that looks after the payment has been refunded never reports it refunded. */
  lemma {:induction false} LateLookFails(c: Config, s: State, labels: seq<Label>, t: CallId, id: PaymentId)
    requires Inv(c, s) && IsRun(c, s, labels) && NotKept(s.tables, id) && NotPassed(s, t, id)
    ensures !Is(End(c, s, labels), t, id, Done(Marked))
    decreases |labels|
  {
    if labels != [] {
      StepInv(c, s, labels[0]);
      TablesKept(c, s, labels[0]);
      LateLookStep(c, s, labels[0], t, id);
      LateLookFails(c, Step(c, s, labels[0]), labels[1..], t, id);
    }
  }
}
