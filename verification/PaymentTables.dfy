/** The tables of payment-service and the two atomic ledger operations the rest of the system relies on.

    UUIDs are modelled as natural numbers and amounts as integer cents. The primary key of a payment row,
    which the database draws from gen_random_uuid(), is the number of the call that inserted the row, so
    two inserts never share a key. */
module PaymentTables {
  import opened Basics

  type OrderId = nat
  type PaymentId = nat

  datatype Status = SUCCESS | REFUNDED | FAILED

  /** The request fields of ProcessPayment, copied unchanged into the row. */
  datatype Charge = Charge(orderId: OrderId, userId: nat, amount: int, means: string)

  /** One row of the payments table; refundedAt says whether the refunded_at column is set. */
  datatype Payment = Payment(charge: Charge, status: Status, transactionId: Option<nat>, refundedAt: bool)

  /** The committed contents of payments and refund_intents. */
  datatype Tables = Tables(payments: map<PaymentId, Payment>, intents: set<OrderId>)

  const EMPTY_TABLES := Tables(map[], {})

  datatype Action =
    | RecordCharge(id: PaymentId, charge: Charge, transactionId: nat)
    | RequestRefund(orderId: OrderId)
    | RecordFailure(id: PaymentId, charge: Charge)
    | MarkRefunded(id: PaymentId)

  function Refunded(p: Payment): Payment {
    p.(status := REFUNDED, refundedAt := true)
  }

  function ChargedRow(charge: Charge, transactionId: nat, refundRequested: bool): Payment {
    Payment(charge, if refundRequested then REFUNDED else SUCCESS, Some(transactionId), refundRequested)
  }

  function FailedRow(charge: Charge): Payment {
    Payment(charge, FAILED, None, false)
  }

  /** The row says that this very charge has failed: nothing was charged for it and nothing refunded. */
  predicate IsFailedRow(t: Tables, id: PaymentId, charge: Charge) {
    && id in t.payments
    && var p := t.payments[id];
    && p.charge == charge && p.status == FAILED && p.transactionId.None? && !p.refundedAt
  }

  /** The rows UPDATE ... WHERE order_id = o AND status = 'SUCCESS' matches. */
  function Kept(t: Tables, o: OrderId): set<PaymentId> {
    set id | id in t.payments && t.payments[id].charge.orderId == o && t.payments[id].status == SUCCESS
  }

  function RefundRows(payments: map<PaymentId, Payment>, ids: set<PaymentId>): map<PaymentId, Payment> {
    map id | id in payments :: if id in ids then Refunded(payments[id]) else payments[id]
  }

  /** When an atomic operation may happen: inserted keys are new and only charged rows are marked. */
  predicate Allowed(t: Tables, a: Action) {
    match a
    case RecordCharge(id, _, _) => id !in t.payments
    case RequestRefund(_) => true
    case RecordFailure(id, _) => id !in t.payments
    case MarkRefunded(id) => id in t.payments && t.payments[id].status != FAILED
  }

  /** The atomic ledger: every operation reads and writes the tables in one indivisible step. */
  function Apply(t: Tables, a: Action): Tables {
    match a
    case RecordCharge(id, charge, tx) =>
      t.(payments := t.payments[id := ChargedRow(charge, tx, charge.orderId in t.intents)])
    case RequestRefund(o) => Tables(RefundRows(t.payments, Kept(t, o)), t.intents + {o})
    case RecordFailure(id, charge) => t.(payments := t.payments[id := FailedRow(charge)])
    case MarkRefunded(id) => t.(payments := RefundRows(t.payments, {id}))
  }

  /** What each operation writes, column by column, and that it writes nothing else. */
  lemma OperationsWrite(t: Tables, a: Action)
    requires Allowed(t, a)
    ensures var t' := Apply(t, a);
            && t'.intents == t.intents + (if a.RequestRefund? then {a.orderId} else {})
            && t'.payments.Keys == t.payments.Keys + (if a.RecordCharge? || a.RecordFailure? then {a.id} else {})
            && (a.RecordFailure? ==> IsFailedRow(t', a.id, a.charge))
            && (a.RecordCharge? ==>
                  && t'.payments[a.id].charge == a.charge
                  && t'.payments[a.id].transactionId == Some(a.transactionId)
                  && t'.payments[a.id].status == (if a.charge.orderId in t.intents then REFUNDED else SUCCESS)
                  && (t'.payments[a.id].refundedAt <==> a.charge.orderId in t.intents))
    ensures forall id :: id in t.payments ==>
              var p, p' := t.payments[id], Apply(t, a).payments[id];
              if (a == MarkRefunded(id)) || (a == RequestRefund(p.charge.orderId) && p.status == SUCCESS)
              then p'.status == REFUNDED && p'.refundedAt
                   && p'.charge == p.charge && p'.transactionId == p.transactionId
              else p' == p
  {
  }

  ghost predicate AllAllowed(t: Tables, actions: seq<Action>)
    decreases |actions|
  {
    actions == [] || (Allowed(t, actions[0]) && AllAllowed(Apply(t, actions[0]), actions[1..]))
  }

  function ApplyAll(t: Tables, actions: seq<Action>): Tables
    decreases |actions|
  {
    if actions == [] then t else ApplyAll(Apply(t, actions[0]), actions[1..])
  }

  /** No money is kept for an order whose refund has been requested. */
  ghost predicate NothingKept(t: Tables) {
    forall id :: id in t.payments && t.payments[id].charge.orderId in t.intents ==> t.payments[id].status != SUCCESS
  }

  /** How the ledger may change, whoever writes it: rows and intents are never deleted, everything in a row
      but its status and refund stamp is immutable, and the only status change is SUCCESS to REFUNDED. */
  ghost predicate Later(t: Tables, t': Tables) {
    && t.intents <= t'.intents
    && forall id :: id in t.payments ==>
         && id in t'.payments
         && (t'.payments[id] == t.payments[id] ||
             (t.payments[id].status == SUCCESS && t'.payments[id] == Refunded(t.payments[id])))
  }

  /** A refunded row carries its stamp, and no other row does. */
  ghost predicate Stamped(t: Tables) {
    forall id :: id in t.payments ==> (t.payments[id].refundedAt <==> t.payments[id].status == REFUNDED)
  }

  lemma LaterTransitive(t0: Tables, t1: Tables, t2: Tables)
    requires Later(t0, t1) && Later(t1, t2)
    ensures Later(t0, t2)
  {
  }

  lemma AtomicStep(t: Tables, a: Action)
    requires NothingKept(t) && Stamped(t) && Allowed(t, a)
    ensures NothingKept(Apply(t, a)) && Stamped(Apply(t, a)) && Later(t, Apply(t, a))
  {
  }

  /** Every run of the atomic ledger keeps no money for a refunded order and only moves statuses forward. */
  lemma {:induction false} AtomicRun(t: Tables, actions: seq<Action>)
    requires NothingKept(t) && Stamped(t) && AllAllowed(t, actions)
    ensures NothingKept(ApplyAll(t, actions)) && Stamped(ApplyAll(t, actions)) && Later(t, ApplyAll(t, actions))
    decreases |actions|
  {
    if actions != [] {
      AtomicStep(t, actions[0]);
      AtomicRun(Apply(t, actions[0]), actions[1..]);
      LaterTransitive(t, Apply(t, actions[0]), ApplyAll(t, actions));
    }
  }
}
