/** Refunding an order more than once, or from many callers at once, refunds each payment at most once. */
module LedgerRefunds {
  import opened PaymentTables
  import opened LedgerProtocol
  import opened LedgerSafety
  import opened LedgerRuns

  ghost predicate EntryOk(s: State, e: RefundEntry) {
    && e.caller in s.txns && s.txns[e.caller].call == RefundCall(e.orderId)
    && (s.txns[e.caller].phase.Committed? || s.txns[e.caller].phase.Done?)
    && e.orderId in s.tables.intents
    && forall id :: id in e.ids ==> id in s.tables.payments && s.tables.payments[id].status == REFUNDED
  }

  /** Entry f was committed after entry e. */
  predicate Ordered(e: RefundEntry, f: RefundEntry) {
    && e.caller != f.caller
    && e.ids !! f.ids
    && (e.orderId == f.orderId ==> f.ids == {})
  }

  ghost predicate LogOk(s: State) {
    && (forall i :: 0 <= i < |s.refundLog| ==> EntryOk(s, s.refundLog[i]))
    && (forall i, j :: 0 <= i < j < |s.refundLog| ==> Ordered(s.refundLog[i], s.refundLog[j]))
  }

  /** The rows a step moves from SUCCESS to REFUNDED on behalf of RefundByOrderId. */
  ghost function MovedBy(c: Config, s: State, l: Label): set<PaymentId>
    requires Enabled(c, s, l)
  {
    if l.Commit? && s.txns[l.t].call.RefundCall? then
      set id | id in s.tables.payments && s.tables.payments[id].status == SUCCESS &&
               id in Step(c, s, l).tables.payments && Step(c, s, l).tables.payments[id].status == REFUNDED
    else {}
  }

  /** A refund commit reports exactly the rows it moved. */
  lemma CommitReportsMoved(c: Config, s: State, l: Label)
    requires Inv(c, s) && Enabled(c, s, l)
    ensures var s' := Step(c, s, l);
            if l.Commit? && s.txns[l.t].call.RefundCall?
            then s'.refundLog == s.refundLog + [RefundEntry(l.t, s.txns[l.t].call.orderId, MovedBy(c, s, l))]
            else s'.refundLog == s.refundLog
  {
    if l.Commit? && s.txns[l.t].call.RefundCall? {
      assert PhaseFits(s.txns[l.t]) && ViewOk(s, l.t);
      assert s.txns[l.t].phase.locked == MovedBy(c, s, l);
    }
  }

  lemma EntryStable(s: State, s': State, e: RefundEntry)
    requires EntryOk(s, e) && CallsKept(s, s') && Later(s.tables, s'.tables)
    ensures EntryOk(s', e)
  {
  }

  /** A new refund finds nothing an earlier one has reported. */
  lemma NewEntryOrdered(c: Config, s: State, l: Label, e: RefundEntry)
    requires Inv(c, s) && Enabled(c, s, l) && l.Commit? && s.txns[l.t].call.RefundCall? && EntryOk(s, e)
    ensures Ordered(e, RefundEntry(l.t, s.txns[l.t].call.orderId, MovedBy(c, s, l)))
    ensures EntryOk(Step(c, s, l), RefundEntry(l.t, s.txns[l.t].call.orderId, MovedBy(c, s, l)))
  {
    assert PhaseFits(s.txns[l.t]) && ViewOk(s, l.t);
    assert s.txns[l.t].phase.locked == MovedBy(c, s, l);
  }

  lemma LogKept(c: Config, s: State, l: Label)
    requires Inv(c, s) && LogOk(s) && Enabled(c, s, l)
    ensures LogOk(Step(c, s, l))
  {
    var s' := Step(c, s, l);
    CommitReportsMoved(c, s, l);
    CallsMove(c, s, l);
    TablesKept(c, s, l);
    forall i | 0 <= i < |s'.refundLog|
      ensures EntryOk(s', s'.refundLog[i])
      ensures i < |s.refundLog| < |s'.refundLog| ==> Ordered(s'.refundLog[i], s'.refundLog[|s.refundLog|])
    {
      if i < |s.refundLog| {
        EntryStable(s, s', s.refundLog[i]);
      }
      if |s.refundLog| < |s'.refundLog| {
        if i < |s.refundLog| {
          NewEntryOrdered(c, s, l, s.refundLog[i]);
        } else {
          NewEntryOk(c, s, l);
        }
      }
    }
  }

  lemma NewEntryOk(c: Config, s: State, l: Label)
    requires Inv(c, s) && Enabled(c, s, l) && l.Commit? && s.txns[l.t].call.RefundCall?
    ensures EntryOk(Step(c, s, l), RefundEntry(l.t, s.txns[l.t].call.orderId, MovedBy(c, s, l)))
  {
    assert PhaseFits(s.txns[l.t]) && ViewOk(s, l.t);
    assert s.txns[l.t].phase.locked == MovedBy(c, s, l);
  }

  // ---- Whole runs ----

  /** The sum of the refunded counts of the committed calls. */
  function RefundedCount(log: seq<RefundEntry>): nat {
    if log == [] then 0 else RefundedCount(log[..|log| - 1]) + |log[|log| - 1].ids|
  }

  function RefundedIds(log: seq<RefundEntry>): set<PaymentId> {
    if log == [] then {} else RefundedIds(log[..|log| - 1]) + log[|log| - 1].ids
  }

  /** The rows RefundByOrderId moved from SUCCESS to REFUNDED during a run. */
  ghost function MovedByRun(c: Config, s: State, labels: seq<Label>): set<PaymentId>
    requires IsRun(c, s, labels)
    decreases |labels|
  {
    if labels == [] then {} else MovedBy(c, s, labels[0]) + MovedByRun(c, Step(c, s, labels[0]), labels[1..])
  }

  lemma {:induction false} InRefundedIds(log: seq<RefundEntry>, id: PaymentId)
    ensures id in RefundedIds(log) <==> exists i :: 0 <= i < |log| && id in log[i].ids
  {
    if log != [] {
      InRefundedIds(log[..|log| - 1], id);
    }
  }

  lemma {:induction false} CountIsCardinality(log: seq<RefundEntry>)
    requires forall i, j :: 0 <= i < j < |log| ==> Ordered(log[i], log[j])
    ensures RefundedCount(log) == |RefundedIds(log)|
  {
    if log != [] {
      var front, last := log[..|log| - 1], log[|log| - 1];
      CountIsCardinality(front);
      forall id | id in last.ids
        ensures id !in RefundedIds(front)
      {
        InRefundedIds(front, id);
      }
      assert RefundedIds(front) * last.ids == {};
    }
  }

  /** The log reports what a step moves. */
  lemma LogNext(c: Config, s: State, l: Label)
    requires Inv(c, s) && Enabled(c, s, l)
    ensures RefundedIds(Step(c, s, l).refundLog) == RefundedIds(s.refundLog) + MovedBy(c, s, l)
  {
    CommitReportsMoved(c, s, l);
    if l.Commit? && s.txns[l.t].call.RefundCall? {
      RefundedNext(s.refundLog, RefundEntry(l.t, s.txns[l.t].call.orderId, MovedBy(c, s, l)));
    }
  }

  lemma RefundedNext(log: seq<RefundEntry>, e: RefundEntry)
    ensures RefundedIds(log + [e]) == RefundedIds(log) + e.ids
  {
    assert (log + [e])[..|log|] == log;
  }

  lemma StepLog(c: Config, s: State, l: Label)
    requires Inv(c, s) && LogOk(s) && Enabled(c, s, l)
    ensures Inv(c, Step(c, s, l)) && LogOk(Step(c, s, l))
    ensures RefundedIds(Step(c, s, l).refundLog) == RefundedIds(s.refundLog) + MovedBy(c, s, l)
  {
    StepInv(c, s, l);
    LogKept(c, s, l);
    LogNext(c, s, l);
  }

  lemma {:induction false} RunLog(c: Config, s: State, labels: seq<Label>)
    requires Inv(c, s) && LogOk(s) && IsRun(c, s, labels)
    ensures Inv(c, End(c, s, labels)) && LogOk(End(c, s, labels))
    ensures RefundedIds(End(c, s, labels).refundLog) == RefundedIds(s.refundLog) + MovedByRun(c, s, labels)
    decreases |labels|
  {
    if labels != [] {
      StepLog(c, s, labels[0]);
      RunLog(c, Step(c, s, labels[0]), labels[1..]);
    }
  }

  /** The refunded counts of all calls add up to the number of rows moved, over every interleaving. */
  lemma RefundsAddUp(c: Config, labels: seq<Label>)
    requires IsRun(c, INIT, labels)
    ensures RefundedCount(End(c, INIT, labels).refundLog) == |MovedByRun(c, INIT, labels)|
  {
    InitInv(c);
    RunLog(c, INIT, labels);
    CountIsCardinality(End(c, INIT, labels).refundLog);
    assert RefundedIds(INIT.refundLog) + MovedByRun(c, INIT, labels) == MovedByRun(c, INIT, labels);
  }

  ghost predicate Replied(s: State, t: CallId, o: OrderId, ids: set<PaymentId>) {
    && t in s.txns && s.txns[t].call == RefundCall(o)
    && (s.txns[t].phase == Committed(RefundedRows(ids)) || s.txns[t].phase == Done(RefundedRows(ids)))
  }

  lemma RepliedIsLogged(s: State, t: CallId, o: OrderId, ids: set<PaymentId>) returns (i: nat)
    requires TxnsOk(s) && Replied(s, t, o, ids)
    ensures i < |s.refundLog| && s.refundLog[i] == RefundEntry(t, o, ids)
  {
    assert PhaseFits(s.txns[t]) && ViewOk(s, t);
    i :| 0 <= i < |s.refundLog| && s.refundLog[i] == RefundEntry(t, o, ids);
  }

  lemma RepliesDiffer(s: State, t: CallId, t': CallId, o: OrderId, o': OrderId,
                      ids: set<PaymentId>, ids': set<PaymentId>)
    requires TxnsOk(s) && LogOk(s) && t != t' && Replied(s, t, o, ids) && Replied(s, t', o', ids')
    ensures ids !! ids' && (o == o' ==> ids == {} || ids' == {})
  {
    var i := RepliedIsLogged(s, t, o, ids);
    var j := RepliedIsLogged(s, t', o', ids');
    assert i < j || j < i;
  }

  /** No payment is returned by two calls, and of the calls for one order at most one returns any. */
  lemma RefundedAtMostOnce(c: Config, labels: seq<Label>, t: CallId, t': CallId, o: OrderId, o': OrderId,
                           ids: set<PaymentId>, ids': set<PaymentId>)
    requires IsRun(c, INIT, labels) && t != t'
    requires Replied(End(c, INIT, labels), t, o, ids) && Replied(End(c, INIT, labels), t', o', ids')
    ensures ids !! ids'
    ensures o == o' ==> ids == {} || ids' == {}
  {
    InitInv(c);
    RunLog(c, INIT, labels);
    RepliesDiffer(End(c, INIT, labels), t, t', o, o', ids, ids');
  }

  /** After an order's first committed refund, whether or not its caller heard of it, every later one of
      the same order returns no rows. */
  lemma LaterRefundsReturnNothing(c: Config, labels: seq<Label>, i: nat, j: nat)
    requires IsRun(c, INIT, labels) && i < j < |End(c, INIT, labels).refundLog|
    requires End(c, INIT, labels).refundLog[i].orderId == End(c, INIT, labels).refundLog[j].orderId
    ensures End(c, INIT, labels).refundLog[j].ids == {}
  {
    InitInv(c);
    RunLog(c, INIT, labels);
    assert Ordered(End(c, INIT, labels).refundLog[i], End(c, INIT, labels).refundLog[j]);
  }
}
