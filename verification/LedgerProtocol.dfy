/** payment-service's ledger calls as a system of concurrently running database transactions.

    Any number of calls run at once. Each statement of a call is one step; the steps of different calls
    interleave freely, any statement may fail, the reply to a COMMIT may be lost after it took effect, and
    the whole service may crash. Visibility is READ COMMITTED: a statement sees the rows committed when it
    starts plus the writes of its own transaction, and an UPDATE that meets a row locked by another
    transaction waits for it and re-evaluates its WHERE clause. */
module LedgerProtocol {
  import opened PaymentTables

  type CallId = nat

  /** poolSize is the maximum number of pooled clients; hash is hashtext, about which nothing is assumed. */
  datatype Config = Config(poolSize: nat, hash: OrderId -> int)

  datatype Call =
    | ChargeCall(charge: Charge, transactionId: nat)   // createChargedPayment
    | RefundCall(orderId: OrderId)                     // requestRefundByOrderId
    | FailureCall(charge: Charge)                      // create with status FAILED
    | RefundPaymentCall(id: PaymentId)                 // refundPayment: findById, sleep, markRefunded

  datatype Reply =
    | Charged(refundRequested: bool)
    | RefundedRows(ids: set<PaymentId>)
    | FailureRecorded
    | Marked
    | Error

  datatype Phase =
    | Waiting                                                // before pool.connect() resolves
    | Connected                                              // holds a client, BEGIN not yet executed
    | Begun                                                  // waiting for the advisory lock
    | Locked
    | IntentsRead(refundRequested: bool)
    | RowInserted(refundRequested: bool)                     // INSERT INTO payments, uncommitted
    | IntentInserted                                         // INSERT INTO refund_intents, uncommitted
    | Updating(todo: set<PaymentId>, locked: set<PaymentId>) // UPDATE payments, row by row
    | Checked                                                // refundPayment saw SUCCESS and sleeps
    | MarkConnected                                          // markRefunded has its client
    | RowLocked                                              // markRefunded's UPDATE holds the row
    | RolledBack                                             // still holds the client
    | Committed(reply: Reply)                                // still holds the client
    | Done(reply: Reply)

  datatype Txn = Txn(call: Call, phase: Phase)

  /** One committed requestRefundByOrderId: the rows its UPDATE returned. */
  datatype RefundEntry = RefundEntry(caller: CallId, orderId: OrderId, ids: set<PaymentId>)

  datatype State = State(
    tables: Tables,
    txns: map<CallId, Txn>,
    locks: map<int, CallId>,      // advisory locks and their holders
    clients: set<CallId>,         // calls holding a pooled client
    refundLog: seq<RefundEntry>,  // committed refunds, oldest first
    marked: set<PaymentId>)       // payments for which a markRefunded has committed

  datatype Label =
    | Spawn(t: CallId, call: Call)
    | Connect(t: CallId)
    | ConnectFail(t: CallId)
    | Begin(t: CallId)
    | Lock(t: CallId)
    | ReadIntents(t: CallId)
    | InsertRow(t: CallId)
    | InsertIntent(t: CallId)
    | StartUpdate(t: CallId)
    | UpdateRow(t: CallId, row: PaymentId)
    | InsertFailure(t: CallId, acked: bool)
    | Find(t: CallId)
    | LockRow(t: CallId)
    | Commit(t: CallId, acked: bool)
    | Abort(t: CallId)
    | Release(t: CallId)
    | Crash

  const INIT := State(EMPTY_TABLES, map[], map[], {}, [], {})

  // ---- Reading a transaction's phase ----

  predicate HasClient(p: Phase) {
    !p.Waiting? && !p.Checked? && !p.Done?
  }

  predicate HasLock(p: Phase) {
    p.Locked? || p.IntentsRead? || p.RowInserted? || p.IntentInserted? || p.Updating?
  }

  predicate HoldsRow(x: Txn, id: PaymentId) {
    || (x.phase.Updating? && id in x.phase.locked)
    || (x.phase.RowLocked? && x.call.RefundPaymentCall? && x.call.id == id)
  }

  predicate Locking(call: Call) {
    call.ChargeCall? || call.RefundCall?
  }

  function OrderOf(call: Call): OrderId
    requires !call.RefundPaymentCall?
  {
    match call
    case RefundCall(o) => o
    case ChargeCall(charge, _) => charge.orderId
    case FailureCall(charge) => charge.orderId
  }

  predicate RowFree(s: State, t: CallId, id: PaymentId) {
    forall t' :: t' in s.txns && t' != t ==> !HoldsRow(s.txns[t'], id)
  }

  /** The phases a call of each kind can be in. */
  predicate PhaseFits(x: Txn) {
    match x.phase
    case Waiting | RolledBack => true
    case Connected => !x.call.RefundPaymentCall?
    case Begun | Locked => Locking(x.call)
    case IntentsRead(_) | RowInserted(_) => x.call.ChargeCall?
    case IntentInserted | Updating(_, _) => x.call.RefundCall?
    case Checked | MarkConnected | RowLocked => x.call.RefundPaymentCall?
    case Committed(r) => ReplyFits(x.call, r)
    case Done(r) => ReplyFits(x.call, r)
  }

  predicate ReplyFits(call: Call, r: Reply) {
    match r
    case Charged(_) => call.ChargeCall?
    case RefundedRows(_) => call.RefundCall?
    case FailureRecorded => call.FailureCall?
    case Marked => call.RefundPaymentCall?
    case Error => true
  }

  // ---- The steps ----

  function Move(s: State, t: CallId, p: Phase): State
    requires t in s.txns
  {
    s.(txns := s.txns[t := s.txns[t].(phase := p)])
  }

  function Unlock(c: Config, s: State, t: CallId): State
    requires t in s.txns
  {
    if HasLock(s.txns[t].phase) && Locking(s.txns[t].call)
    then s.(locks := s.locks - {c.hash(OrderOf(s.txns[t].call))})
    else s
  }

  /** The statement is next in its call, whatever locks other calls hold on the order. */
  predicate Ready(c: Config, s: State, l: Label) {
    if l.Crash? then true
    else if l.Spawn? then l.t !in s.txns
    else
      l.t in s.txns &&
      var x := s.txns[l.t];
      match l
      case Connect(_) =>
        && (x.phase.Checked? || (x.phase.Waiting? && !x.call.RefundPaymentCall?))
        && |s.clients| < c.poolSize
      case ConnectFail(_) => x.phase.Checked? || x.phase.Waiting?
      case Begin(_) => x.phase.Connected? && Locking(x.call)
      case Lock(_) => x.phase.Begun? && Locking(x.call)
      case ReadIntents(_) => x.phase.Locked? && x.call.ChargeCall?
      case InsertRow(_) => x.phase.IntentsRead?
      case InsertIntent(_) => x.phase.Locked? && x.call.RefundCall?
      case StartUpdate(_) => x.phase.IntentInserted? && x.call.RefundCall?
      case UpdateRow(_, id) => x.phase.Updating? && id in x.phase.todo && RowFree(s, l.t, id)
      case InsertFailure(_, _) => x.phase.Connected? && x.call.FailureCall?
      case Find(_) => x.phase.Waiting? && x.call.RefundPaymentCall? && |s.clients| < c.poolSize
      case LockRow(_) => x.phase.MarkConnected? && x.call.RefundPaymentCall? && RowFree(s, l.t, x.call.id)
      case Commit(_, _) =>
        || (x.phase.RowInserted? && x.call.ChargeCall?)
        || (x.phase.Updating? && x.phase.todo == {} && x.call.RefundCall?)
        || (x.phase.RowLocked? && x.call.RefundPaymentCall?)
      case Abort(_) => HasClient(x.phase) && !x.phase.Committed? && !x.phase.RolledBack?
      case Release(_) => x.phase.Committed? || x.phase.RolledBack?
  }

  /** pg_advisory_xact_lock blocks while another transaction holds the same hash. */
  predicate Enabled(c: Config, s: State, l: Label) {
    Ready(c, s, l) && (l.Lock? ==> c.hash(OrderOf(s.txns[l.t].call)) !in s.locks)
  }

  function Step(c: Config, s: State, l: Label): State
    requires Ready(c, s, l)
  {
    match l
    case Spawn(t, call) => s.(txns := s.txns[t := Txn(call, Waiting)])
    case Connect(t) =>
      Move(s, t, if s.txns[t].phase.Checked? then MarkConnected else Connected).(clients := s.clients + {t})
    case ConnectFail(t) => Move(s, t, Done(Error))
    case Begin(t) => Move(s, t, Begun)
    case Lock(t) => Move(s, t, Locked).(locks := s.locks[c.hash(OrderOf(s.txns[t].call)) := t])
    case ReadIntents(t) => Move(s, t, IntentsRead(s.txns[t].call.charge.orderId in s.tables.intents))
    case InsertRow(t) => Move(s, t, RowInserted(s.txns[t].phase.refundRequested))
    case InsertIntent(t) => Move(s, t, IntentInserted)
    case StartUpdate(t) => Move(s, t, Updating(Kept(s.tables, s.txns[t].call.orderId), {}))
    case UpdateRow(t, id) => Move(s, t, UpdatedRow(s.tables, s.txns[t].phase, id))
    case InsertFailure(t, acked) =>
      Move(s, t, Committed(if acked then FailureRecorded else Error))
      .(tables := Apply(s.tables, RecordFailure(t, s.txns[t].call.charge)))
    case Find(t) =>
      var id := s.txns[t].call.id;
      Move(s, t, if id in s.tables.payments && s.tables.payments[id].status == SUCCESS then Checked else Done(Error))
    case LockRow(t) => Move(s, t, RowLocked)
    case Commit(t, acked) => CommitStep(c, s, t, acked)
    case Abort(t) => Move(s, t, RolledBack).(locks := Unlock(c, s, t).locks)
    case Release(t) =>
      Move(s, t, Done(if s.txns[t].phase.Committed? then s.txns[t].phase.reply else Error)).(clients := s.clients - {t})
    case Crash => s.(txns := map t | t in s.txns :: Crashed(s.txns[t]), locks := map[], clients := {})
  }

  /** The row has become free: WHERE status = 'SUCCESS' is evaluated on its committed version. */
  function UpdatedRow(tables: Tables, p: Phase, id: PaymentId): Phase
    requires p.Updating?
  {
    if id in tables.payments && tables.payments[id].status == SUCCESS
    then Updating(p.todo - {id}, p.locked + {id})
    else Updating(p.todo - {id}, p.locked)
  }

  function Crashed(x: Txn): Txn {
    if x.phase.Done? then x else x.(phase := Done(Error))
  }

  /** COMMIT releases the advisory lock; the caller sees an error when the reply is lost. */
  function Finish(c: Config, s: State, t: CallId, acked: bool, r: Reply): State
    requires t in s.txns
  {
    Move(s, t, Committed(if acked then r else Error)).(locks := Unlock(c, s, t).locks)
  }

  /** What COMMIT makes visible is what the statements of the transaction wrote, nothing more. */
  function CommitStep(c: Config, s: State, t: CallId, acked: bool): State
    requires t in s.txns
    requires var x := s.txns[t];
             || (x.phase.RowInserted? && x.call.ChargeCall?)
             || (x.phase.Updating? && x.call.RefundCall?)
             || (x.phase.RowLocked? && x.call.RefundPaymentCall?)
  {
    var x := s.txns[t];
    if x.phase.RowInserted? then
      Finish(c, s, t, acked, Charged(x.phase.refundRequested)).(tables := s.tables.(payments :=
        s.tables.payments[t := ChargedRow(x.call.charge, x.call.transactionId, x.phase.refundRequested)]))
    else if x.phase.Updating? then
      Finish(c, s, t, acked, RefundedRows(x.phase.locked)).(
        tables := Tables(RefundRows(s.tables.payments, x.phase.locked), s.tables.intents + {x.call.orderId}),
        refundLog := s.refundLog + [RefundEntry(t, x.call.orderId, x.phase.locked)])
    else
      Finish(c, s, t, acked, Marked).(
        tables := s.tables.(payments := RefundRows(s.tables.payments, {x.call.id})),
        marked := s.marked + {x.call.id})
  }
}
