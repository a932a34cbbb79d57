/** The invariants of the ledger's transactions, kept by every step of every interleaving. */
module LedgerSafety {
  import opened Basics
  import opened PaymentTables
  import opened LedgerProtocol

  // ---- The invariant ----

  ghost predicate ClientsOk(c: Config, s: State) {
    && |s.clients| <= c.poolSize
    && (forall t :: t in s.clients ==> t in s.txns && HasClient(s.txns[t].phase))
    && (forall t :: t in s.txns && HasClient(s.txns[t].phase) ==> t in s.clients)
  }

  ghost predicate LocksOk(c: Config, s: State) {
    && (forall k :: k in s.locks ==>
          && s.locks[k] in s.txns
          && var x := s.txns[s.locks[k]]; HasLock(x.phase) && Locking(x.call) && c.hash(OrderOf(x.call)) == k)
    && (forall t :: t in s.txns && HasLock(s.txns[t].phase) && Locking(s.txns[t].call) ==>
          && c.hash(OrderOf(s.txns[t].call)) in s.locks
          && s.locks[c.hash(OrderOf(s.txns[t].call))] == t)
  }

  /** Each row was inserted by the committed call it is named after, with that call's data. */
  ghost predicate RowOk(s: State, id: PaymentId)
    requires id in s.tables.payments
  {
    var p := s.tables.payments[id];
    && id in s.txns
    && (s.txns[id].phase.Committed? || s.txns[id].phase.Done?)
    && (p.refundedAt <==> p.status == REFUNDED)
    && match s.txns[id].call
       case ChargeCall(charge, tx) => p.charge == charge && p.transactionId == Some(tx) && p.status != FAILED
       case FailureCall(charge) => IsFailedRow(s.tables, id, charge)
       case _ => false
  }

  /** What an open transaction has read is still true, and what a reply reported stays true. */
  ghost predicate ViewOk(s: State, t: CallId)
    requires t in s.txns && PhaseFits(s.txns[t])
  {
    var x := s.txns[t];
    match x.phase
    case IntentsRead(requested) => requested <==> x.call.charge.orderId in s.tables.intents
    case RowInserted(requested) => requested <==> x.call.charge.orderId in s.tables.intents
    case Updating(todo, locked) =>
      && todo !! locked && locked <= Kept(s.tables, x.call.orderId) <= todo + locked
      && OfOrder(s.tables, todo, x.call.orderId)
    case Checked | MarkConnected | RowLocked => Markable(s.tables, x.call.id)
    case Committed(r) => ReplyOk(s, t, r)
    case Done(r) => ReplyOk(s, t, r)
    case _ => true
  }

  predicate OfOrder(tables: Tables, ids: set<PaymentId>, o: OrderId) {
    forall id :: id in ids ==> id in tables.payments && tables.payments[id].charge.orderId == o
  }

  predicate Markable(tables: Tables, id: PaymentId) {
    id in tables.payments && tables.payments[id].status != FAILED
  }

  ghost predicate ReplyOk(s: State, t: CallId, r: Reply)
    requires t in s.txns && ReplyFits(s.txns[t].call, r)
  {
    match r
    case Charged(requested) => t in s.tables.payments && (requested ==> s.tables.payments[t].status == REFUNDED)
    case RefundedRows(ids) =>
      && s.txns[t].call.orderId in s.tables.intents
      && RefundEntry(t, s.txns[t].call.orderId, ids) in s.refundLog
    case FailureRecorded => t in s.tables.payments
    case Marked => s.txns[t].call.id in s.tables.payments && s.tables.payments[s.txns[t].call.id].status == REFUNDED
    case Error => true
  }

  ghost predicate TxnsOk(s: State) {
    forall t :: t in s.txns ==> PhaseFits(s.txns[t]) && ViewOk(s, t)
  }

  ghost predicate RowsOk(s: State) {
    forall id :: id in s.tables.payments ==> RowOk(s, id)
  }

  /** No row is locked twice. */
  ghost predicate RowLocksOk(s: State) {
    forall t, t', id :: t in s.txns && t' in s.txns && HoldsRow(s.txns[t], id) && HoldsRow(s.txns[t'], id) ==> t == t'
  }

  ghost predicate Inv(c: Config, s: State) {
    && ClientsOk(c, s)
    && LocksOk(c, s)
    && TxnsOk(s)
    && RowsOk(s)
    && RowLocksOk(s)
    && NothingKept(s.tables)
  }

  lemma InitInv(c: Config)
    ensures Inv(c, INIT)
  {
  }

  // ---- Frame lemmas ----

  /** Two calls never hold the lock of the same order, even when hashes collide. */
  lemma LockExcludes(c: Config, s: State, t: CallId, t': CallId)
    requires LocksOk(c, s) && t in s.txns && t' in s.txns && t != t'
    requires HasLock(s.txns[t].phase) && HasLock(s.txns[t'].phase)
    requires Locking(s.txns[t].call) && Locking(s.txns[t'].call)
    ensures OrderOf(s.txns[t].call) != OrderOf(s.txns[t'].call)
  {
  }

  /** What a step leaves alone: it moves one call and no other. */
  ghost predicate Moves(s: State, s': State, t: CallId) {
    && t in s'.txns
    && s'.txns == s.txns[t := s'.txns[t]]
    && (t in s.txns ==> s'.txns[t].call == s.txns[t].call)
    && (t !in s.txns ==> s'.txns[t].phase == Waiting)
  }

  ghost predicate ClientMoves(s: State, s': State, t: CallId)
    requires t in s'.txns
  {
    && (t in s'.clients <==> HasClient(s'.txns[t].phase))
    && forall t' :: t' != t ==> (t' in s'.clients <==> t' in s.clients)
  }

  lemma Shape(c: Config, s: State, l: Label)
    requires Enabled(c, s, l) && !l.Crash?
    ensures Moves(s, Step(c, s, l), l.t)
  {
  }

  lemma ClientsBounded(c: Config, s: State, l: Label)
    requires |s.clients| <= c.poolSize && Enabled(c, s, l)
    ensures |Step(c, s, l).clients| <= c.poolSize
  {
    match l {
      case Connect(t) => CardinalityAdd(s.clients, t);
      case Release(t) => CardinalityRemove(s.clients, t);
      case Crash =>
      case _ => assert Step(c, s, l).clients == s.clients;
    }
  }

  lemma CardinalityAdd(ids: set<CallId>, t: CallId)
    ensures |ids + {t}| <= |ids| + 1
  {
  }

  lemma CardinalityRemove(ids: set<CallId>, t: CallId)
    ensures |ids - {t}| <= |ids|
  {
  }

  lemma ClientShape(c: Config, s: State, l: Label)
    requires ClientsOk(c, s) && Enabled(c, s, l) && !l.Crash?
    ensures Moves(s, Step(c, s, l), l.t) && ClientMoves(s, Step(c, s, l), l.t)
  {
    Shape(c, s, l);
  }

  lemma ClientsKept(c: Config, s: State, l: Label)
    requires ClientsOk(c, s) && Enabled(c, s, l)
    ensures ClientsOk(c, Step(c, s, l))
  {
    ClientsBounded(c, s, l);
    if !l.Crash? {
      ClientShape(c, s, l);
    }
  }

  /** How a step changes the advisory locks. */
  ghost predicate LockMoves(c: Config, s: State, s': State, t: CallId)
    requires t in s'.txns
  {
    var x' := s'.txns[t];
    if t !in s.txns || HasLock(s.txns[t].phase) == HasLock(x'.phase) then s'.locks == s.locks
    else if HasLock(x'.phase) then
      Locking(x'.call) && c.hash(OrderOf(x'.call)) !in s.locks && s'.locks == s.locks[c.hash(OrderOf(x'.call)) := t]
    else Locking(x'.call) && s'.locks == s.locks - {c.hash(OrderOf(x'.call))}
  }

  lemma LockShape(c: Config, s: State, l: Label)
    requires Enabled(c, s, l) && !l.Crash?
    requires l.t in s.txns ==> PhaseFits(s.txns[l.t])
    ensures Moves(s, Step(c, s, l), l.t) && LockMoves(c, s, Step(c, s, l), l.t)
  {
    Shape(c, s, l);
  }

  lemma LocksKept(c: Config, s: State, l: Label)
    requires LocksOk(c, s) && TxnsOk(s) && Enabled(c, s, l)
    ensures LocksOk(c, Step(c, s, l))
  {
    if !l.Crash? {
      LockShape(c, s, l);
      LocksFollow(c, s, Step(c, s, l), l.t);
    }
  }

  lemma LocksFollow(c: Config, s: State, s': State, t: CallId)
    requires LocksOk(c, s) && TxnsOk(s) && Moves(s, s', t) && LockMoves(c, s, s', t)
    ensures LocksOk(c, s')
  {
    assert t in s.txns ==> PhaseFits(s.txns[t]);
  }

  // ---- Refinement: what a step does to the committed tables ----

  /** The atomic operation a step performs, if it is one that commits. */
  ghost function ActionOf(s: State, l: Label): Option<Action>
    requires !l.Crash? && !l.Spawn? ==> l.t in s.txns && PhaseFits(s.txns[l.t])
  {
    match l
    case InsertFailure(t, _) =>
      if s.txns[t].call.FailureCall? then Some(RecordFailure(t, s.txns[t].call.charge)) else None
    case Commit(t, _) =>
      var x := s.txns[t];
      if x.phase.RowInserted? then Some(RecordCharge(t, x.call.charge, x.call.transactionId))
      else if x.phase.Updating? then Some(RequestRefund(x.call.orderId))
      else if x.phase.RowLocked? then Some(MarkRefunded(x.call.id))
      else None
    case _ => None
  }

  ghost predicate Refines(t: Tables, a: Option<Action>, t': Tables) {
    match a
    case None => t' == t
    case Some(action) => Allowed(t, action) && t' == Apply(t, action)
  }

  /** Every step of the interleaved system is one atomic ledger operation or leaves the tables alone. */
  lemma StepRefines(c: Config, s: State, l: Label)
    requires Inv(c, s) && Enabled(c, s, l)
    ensures Refines(s.tables, ActionOf(s, l), Step(c, s, l).tables)
  {
    if l.Commit? {
      CommitRefines(c, s, l.t, l.acked);
      assert l == Commit(l.t, l.acked);
    } else {
      assert !l.Crash? && l.t in s.txns ==> PhaseFits(s.txns[l.t]);
      assert l.InsertFailure? ==> l.t !in s.tables.payments || RowOk(s, l.t);
    }
  }

  /** In particular a refund's UPDATE, row by row as it ran, has found exactly the SUCCESS rows of its order. */
  lemma CommitRefines(c: Config, s: State, t: CallId, acked: bool)
    requires Inv(c, s) && Enabled(c, s, Commit(t, acked))
    ensures Refines(s.tables, ActionOf(s, Commit(t, acked)), Step(c, s, Commit(t, acked)).tables)
  {
    assert PhaseFits(s.txns[t]) && ViewOk(s, t);
    assert t in s.tables.payments ==> RowOk(s, t);
    if s.txns[t].phase.Updating? {
      assert s.txns[t].phase.locked == Kept(s.tables, s.txns[t].call.orderId);
    }
  }

  lemma TablesKept(c: Config, s: State, l: Label)
    requires Inv(c, s) && Enabled(c, s, l)
    ensures Later(s.tables, Step(c, s, l).tables) && NothingKept(Step(c, s, l).tables)
  {
    StepRefines(c, s, l);
    if ActionOf(s, l).Some? {
      assert forall id :: id in s.tables.payments ==> RowOk(s, id);
      AtomicStep(s.tables, ActionOf(s, l).value);
    }
  }

  // ---- Rows, row locks and views ----

  /** What a step adds to the marked payments is what it commits. */
  ghost predicate MarksFollow(s: State, a: Option<Action>, s': State) {
    s'.marked == s.marked + if a.Some? && a.value.MarkRefunded? then {a.value.id} else {}
  }

  lemma MarksAreCommits(c: Config, s: State, l: Label)
    requires TxnsOk(s) && Enabled(c, s, l)
    ensures MarksFollow(s, ActionOf(s, l), Step(c, s, l))
  {
    assert !l.Crash? && !l.Spawn? ==> PhaseFits(s.txns[l.t]);
  }

  lemma RowsKept(c: Config, s: State, l: Label)
    requires Inv(c, s) && Enabled(c, s, l)
    ensures RowsOk(Step(c, s, l))
  {
    StepRefines(c, s, l);
    CallsMove(c, s, l);
    RowsFollow(s, Step(c, s, l), ActionOf(s, l));
  }

  /** Calls keep their identity, and one that has committed or finished stays so. */
  lemma CallsMove(c: Config, s: State, l: Label)
    requires TxnsOk(s) && Enabled(c, s, l)
    ensures CallsKept(s, Step(c, s, l))
    ensures InserterCommits(Step(c, s, l), ActionOf(s, l))
  {
    if !l.Crash? {
      Shape(c, s, l);
    }
  }

  ghost predicate CallsKept(s: State, s': State) {
    forall t :: t in s.txns ==>
      && t in s'.txns && s'.txns[t].call == s.txns[t].call
      && (s.txns[t].phase.Committed? || s.txns[t].phase.Done? ==> s'.txns[t].phase.Committed? || s'.txns[t].phase.Done?)
  }

  ghost predicate InserterCommits(s: State, a: Option<Action>) {
    match a
    case Some(RecordCharge(id, charge, tx)) =>
      id in s.txns && s.txns[id].phase.Committed? && s.txns[id].call == ChargeCall(charge, tx)
    case Some(RecordFailure(id, charge)) =>
      id in s.txns && s.txns[id].phase.Committed? && s.txns[id].call == FailureCall(charge)
    case _ => true
  }

  lemma RowsFollow(s: State, s': State, a: Option<Action>)
    requires RowsOk(s) && CallsKept(s, s') && Refines(s.tables, a, s'.tables) && InserterCommits(s', a)
    ensures RowsOk(s')
  {
    forall id | id in s'.tables.payments
      ensures RowOk(s', id)
    {
      assert id in s.tables.payments ==> RowOk(s, id);
    }
  }

  lemma RowLocksKept(c: Config, s: State, l: Label)
    requires RowLocksOk(s) && TxnsOk(s) && Enabled(c, s, l)
    ensures RowLocksOk(Step(c, s, l))
  {
    if !l.Crash? {
      Shape(c, s, l);
      NewRowLock(c, s, l);
    }
  }

  /** A step locks a row only if no other call holds it. */
  lemma NewRowLock(c: Config, s: State, l: Label)
    requires TxnsOk(s) && Enabled(c, s, l) && !l.Crash?
    ensures var s' := Step(c, s, l);
            l.t in s'.txns &&
            forall id :: HoldsRow(s'.txns[l.t], id) ==>
              (l.t in s.txns && HoldsRow(s.txns[l.t], id)) || RowFree(s, l.t, id)
  {
    if l.t in s.txns {
      HoldsNext(c, s, l);
    }
  }

  lemma HoldsNext(c: Config, s: State, l: Label)
    requires Enabled(c, s, l) && !l.Crash? && !l.Spawn? && PhaseFits(s.txns[l.t])
    ensures var s' := Step(c, s, l);
            l.t in s'.txns &&
            forall id :: HoldsRow(s'.txns[l.t], id) ==> HoldsRow(s.txns[l.t], id) || RowFree(s, l.t, id)
  {
  }

  /** While a call holds an order's lock, no other call changes whether the order's refund was requested. */
  lemma IntentStable(c: Config, s: State, l: Label, t: CallId)
    requires Inv(c, s) && Enabled(c, s, l) && !l.Crash? && t in s.txns && t != l.t
    requires HasLock(s.txns[t].phase) && Locking(s.txns[t].call)
    ensures var o := OrderOf(s.txns[t].call); o in Step(c, s, l).tables.intents <==> o in s.tables.intents
  {
    StepRefines(c, s, l);
    if l.Commit? && s.txns[l.t].phase.Updating? {
      LockExcludes(c, s, t, l.t);
    }
  }

  /** While a refund holds its order's lock, no SUCCESS row of the order appears, and none that it has
      locked goes away. */
  lemma KeptStable(c: Config, s: State, l: Label, t: CallId)
    requires Inv(c, s) && Enabled(c, s, l) && !l.Crash? && t in s.txns && t != l.t
    requires s.txns[t].phase.Updating? && s.txns[t].call.RefundCall?
    ensures var o := s.txns[t].call.orderId;
            s.txns[t].phase.locked <= Kept(Step(c, s, l).tables, o) <= Kept(s.tables, o)
  {
    StepRefines(c, s, l);
    assert ViewOk(s, t);
    if l.Commit? {
      OtherCommit(c, s, l, t);
    }
    if ActionOf(s, l).Some? {
      KeptUnder(s.tables, ActionOf(s, l).value, s.txns[t].call.orderId, s.txns[t].phase.locked);
    }
  }

  lemma KeptUnder(tables: Tables, a: Action, o: OrderId, locked: set<PaymentId>)
    requires Allowed(tables, a) && locked <= Kept(tables, o)
    requires match a
             case RecordCharge(_, charge, _) => charge.orderId != o
             case RequestRefund(o') => o' != o
             case MarkRefunded(id) => id !in locked
             case RecordFailure(_, _) => true
    ensures locked <= Kept(Apply(tables, a), o) <= Kept(tables, o)
  {
  }

  /** Another call's commit neither belongs to the order a refund has locked nor marks a row it has locked. */
  lemma OtherCommit(c: Config, s: State, l: Label, t: CallId)
    requires Inv(c, s) && Enabled(c, s, l) && l.Commit? && t in s.txns && t != l.t
    requires s.txns[t].phase.Updating? && s.txns[t].call.RefundCall?
    ensures PhaseFits(s.txns[l.t])
    ensures HasLock(s.txns[l.t].phase) ==> OrderOf(s.txns[l.t].call) != s.txns[t].call.orderId
    ensures s.txns[l.t].phase.RowLocked? ==> s.txns[l.t].call.id !in s.txns[t].phase.locked
  {
    var x := s.txns[l.t];
    if HasLock(x.phase) {
      LockExcludes(c, s, t, l.t);
    }
    if x.phase.RowLocked? {
      assert HoldsRow(x, x.call.id);
    }
  }

  lemma LogGrows(c: Config, s: State, l: Label)
    requires Enabled(c, s, l)
    ensures s.refundLog <= Step(c, s, l).refundLog
  {
  }

  /** A reply stays true as the ledger moves on. */
  lemma ReplyStable(s: State, s': State, t: CallId, r: Reply)
    requires t in s.txns && t in s'.txns && s'.txns[t].call == s.txns[t].call
    requires ReplyFits(s.txns[t].call, r) && ReplyOk(s, t, r)
    requires Later(s.tables, s'.tables) && s.refundLog <= s'.refundLog
    ensures ReplyOk(s', t, r)
  {
    if r.RefundedRows? {
      var e := RefundEntry(t, s.txns[t].call.orderId, r.ids);
      var i :| 0 <= i < |s.refundLog| && s.refundLog[i] == e;
      assert s'.refundLog[i] == e;
    }
  }

  /** What one call has read is not disturbed by a step of another: this is what the locks are for. */
  lemma ViewStable(c: Config, s: State, l: Label, t: CallId)
    requires Inv(c, s) && Enabled(c, s, l) && !l.Crash? && t in s.txns && t != l.t
    ensures t in Step(c, s, l).txns && Step(c, s, l).txns[t] == s.txns[t] && ViewOk(Step(c, s, l), t)
  {
    Shape(c, s, l);
    TablesKept(c, s, l);
    LogGrows(c, s, l);
    var s' := Step(c, s, l);
    OtherViewStable(c, s, l, s', t);
  }

  lemma OtherViewStable(c: Config, s: State, l: Label, s': State, t: CallId)
    requires Inv(c, s) && Enabled(c, s, l) && !l.Crash? && t in s.txns && t != l.t
    requires s' == Step(c, s, l)
    requires t in s'.txns && s'.txns[t] == s.txns[t]
    requires Later(s.tables, s'.tables) && s.refundLog <= s'.refundLog
    ensures ViewOk(s', t)
  {
    assert ViewOk(s, t);
    match s.txns[t].phase {
      case IntentsRead(_) => IntentStable(c, s, l, t);
      case RowInserted(_) => IntentStable(c, s, l, t);
      case Updating(_, _) => KeptStable(c, s, l, t);
      case Committed(r) => ReplyStable(s, s', t, r);
      case Done(r) => ReplyStable(s, s', t, r);
      case _ =>
    }
  }

  /** A commit's reply tells the truth. */
  lemma CommitViewOk(c: Config, s: State, t: CallId, acked: bool)
    requires Inv(c, s) && Enabled(c, s, Commit(t, acked))
    ensures var s' := Step(c, s, Commit(t, acked));
            t in s'.txns && PhaseFits(s'.txns[t]) && ViewOk(s', t)
  {
    var s' := Step(c, s, Commit(t, acked));
    assert PhaseFits(s.txns[t]) && ViewOk(s, t);
    if s.txns[t].phase.Updating? {
      assert s'.refundLog[|s.refundLog|] == RefundEntry(t, s.txns[t].call.orderId, s.txns[t].phase.locked);
    }
  }

  lemma ReleaseViewOk(c: Config, s: State, t: CallId)
    requires Inv(c, s) && Enabled(c, s, Release(t))
    ensures var s' := Step(c, s, Release(t));
            t in s'.txns && PhaseFits(s'.txns[t]) && ViewOk(s', t)
  {
    assert PhaseFits(s.txns[t]) && ViewOk(s, t);
    if s.txns[t].phase.Committed? {
      ReplyStable(s, Step(c, s, Release(t)), t, s.txns[t].phase.reply);
    }
  }

  lemma UpdateViewOk(c: Config, s: State, l: Label)
    requires Inv(c, s) && Enabled(c, s, l) && (l.StartUpdate? || l.UpdateRow?)
    ensures var s' := Step(c, s, l); l.t in s'.txns && PhaseFits(s'.txns[l.t]) && ViewOk(s', l.t)
  {
    assert PhaseFits(s.txns[l.t]) && ViewOk(s, l.t);
  }

  lemma ReadViewOk(c: Config, s: State, l: Label)
    requires Enabled(c, s, l) && (l.ReadIntents? || l.InsertRow?)
    requires PhaseFits(s.txns[l.t]) && ViewOk(s, l.t)
    ensures var s' := Step(c, s, l); l.t in s'.txns && PhaseFits(s'.txns[l.t]) && ViewOk(s', l.t)
  {
  }

  lemma MarkViewOk(c: Config, s: State, l: Label)
    requires Enabled(c, s, l) && (l.Find? || l.LockRow? || l.Connect?)
    requires PhaseFits(s.txns[l.t]) && ViewOk(s, l.t)
    ensures var s' := Step(c, s, l); l.t in s'.txns && PhaseFits(s'.txns[l.t]) && ViewOk(s', l.t)
  {
  }

  /** The moving call's new view holds. */
  lemma ViewMoved(c: Config, s: State, l: Label)
    requires Inv(c, s) && Enabled(c, s, l) && !l.Crash?
    ensures var s' := Step(c, s, l); l.t in s'.txns && PhaseFits(s'.txns[l.t]) && ViewOk(s', l.t)
  {
    if l.Commit? {
      assert l == Commit(l.t, l.acked);
      CommitViewOk(c, s, l.t, l.acked);
    } else if l.Release? {
      assert l == Release(l.t);
      ReleaseViewOk(c, s, l.t);
    } else if l.StartUpdate? || l.UpdateRow? {
      UpdateViewOk(c, s, l);
    } else if l.Spawn? || l.ConnectFail? || l.Begin? || l.Lock? || l.InsertIntent? || l.Abort? {
      // the new phase has read and reported nothing
    } else if l.InsertFailure? {
      assert PhaseFits(s.txns[l.t]);
    } else if l.ReadIntents? || l.InsertRow? {
      assert PhaseFits(s.txns[l.t]) && ViewOk(s, l.t);
      ReadViewOk(c, s, l);
    } else {
      assert PhaseFits(s.txns[l.t]) && ViewOk(s, l.t);
      MarkViewOk(c, s, l);
    }
  }

  lemma OtherTxnKept(c: Config, s: State, l: Label, t: CallId)
    requires Inv(c, s) && Enabled(c, s, l) && !l.Crash? && t in s.txns && t != l.t
    ensures t in Step(c, s, l).txns && PhaseFits(Step(c, s, l).txns[t]) && ViewOk(Step(c, s, l), t)
  {
    assert PhaseFits(s.txns[t]);
    ViewStable(c, s, l, t);
  }

  lemma TxnsFollow(s: State, s': State, t: CallId)
    requires Moves(s, s', t) && PhaseFits(s'.txns[t]) && ViewOk(s', t)
    requires forall t' :: t' in s.txns && t' != t ==> PhaseFits(s'.txns[t']) && ViewOk(s', t')
    ensures TxnsOk(s')
  {
  }

  lemma TxnsKept(c: Config, s: State, l: Label)
    requires Inv(c, s) && Enabled(c, s, l)
    ensures TxnsOk(Step(c, s, l))
  {
    if !l.Crash? {
      Shape(c, s, l);
      ViewMoved(c, s, l);
      forall t | t in s.txns && t != l.t
        ensures PhaseFits(Step(c, s, l).txns[t]) && ViewOk(Step(c, s, l), t)
      {
        OtherTxnKept(c, s, l, t);
      }
      TxnsFollow(s, Step(c, s, l), l.t);
    }
  }

  /** Every step of every interleaving keeps the invariant. */
  lemma StepInv(c: Config, s: State, l: Label)
    requires Inv(c, s) && Enabled(c, s, l)
    ensures Inv(c, Step(c, s, l))
  {
    ClientsKept(c, s, l);
    LocksKept(c, s, l);
    TxnsKept(c, s, l);
    RowsKept(c, s, l);
    RowLocksKept(c, s, l);
    TablesKept(c, s, l);
  }
}
