/** payment-service's repository and service code, statement by statement, for one caller.

    Every await is a point where other calls may run. What they do there is an arbitrary sequence of the
    atomic ledger operations to which LedgerRuns.RunRefinesAtomicLedger reduces their transactions; the
    caller of a method passes that sequence in, together with every outcome the code does not decide. */
module PaymentService {
  import opened Basics
  import opened PaymentTables

  /** How a database call ends: as asked, with an error and no effect, or with an error after the commit. */
  datatype Fault = NoFault | RolledBack | ReplyLost

  /** Other calls' operations, applied one by one; one that is not possible, or that would insert a key
      reserved by this call, does not happen. */
  function Meanwhile(t: Tables, actions: seq<Action>, reserved: set<PaymentId>): Tables
    decreases |actions|
  {
    if actions == [] then t
    else if Allowed(t, actions[0]) && !Inserts(actions[0], reserved)
    then Meanwhile(Apply(t, actions[0]), actions[1..], reserved)
    else Meanwhile(t, actions[1..], reserved)
  }

  predicate Inserts(a: Action, ids: set<PaymentId>) {
    (a.RecordCharge? || a.RecordFailure?) && a.id in ids
  }

  /** Interference never inserts a reserved row, never deletes one and never keeps money for a refunded order. */
  lemma {:induction false} MeanwhileIsLater(t: Tables, actions: seq<Action>, reserved: set<PaymentId>)
    requires NothingKept(t) && Stamped(t)
    ensures var t' := Meanwhile(t, actions, reserved);
            Later(t, t') && NothingKept(t') && Stamped(t')
    ensures forall id :: id in reserved && id !in t.payments ==> id !in Meanwhile(t, actions, reserved).payments
    decreases |actions|
  {
    if actions != [] {
      if Allowed(t, actions[0]) && !Inserts(actions[0], reserved) {
        AtomicStep(t, actions[0]);
        MeanwhileIsLater(Apply(t, actions[0]), actions[1..], reserved);
        LaterTransitive(t, Apply(t, actions[0]), Meanwhile(t, actions, reserved));
      } else {
        MeanwhileIsLater(t, actions[1..], reserved);
      }
    }
  }

  /** An await during which the ledger's other calls commit the given operations, none of which inserts a
      key of this call, is exactly this interference. */
  lemma {:induction false} MeanwhileIsCommits(t: Tables, actions: seq<Action>, reserved: set<PaymentId>)
    requires AllAllowed(t, actions)
    requires forall i :: 0 <= i < |actions| ==> !Inserts(actions[i], reserved)
    ensures Meanwhile(t, actions, reserved) == ApplyAll(t, actions)
    decreases |actions|
  {
    if actions != [] {
      MeanwhileIsCommits(Apply(t, actions[0]), actions[1..], reserved);
    }
  }

  /** After an await an order's refund is requested if and only if it was before or is requested there. */
  lemma {:induction false} IntentsMeanwhile(t: Tables, actions: seq<Action>, reserved: set<PaymentId>, o: OrderId)
    ensures o in Meanwhile(t, actions, reserved).intents <==> o in t.intents || RequestRefund(o) in actions
    decreases |actions|
  {
    if actions != [] {
      assert forall a :: a in actions <==> a == actions[0] || a in actions[1..];
      var t' := if Allowed(t, actions[0]) && !Inserts(actions[0], reserved) then Apply(t, actions[0]) else t;
      IntentsMeanwhile(t', actions[1..], reserved, o);
    }
  }

  /** A kept payment is still kept after an await if and only if nobody has marked it or asked for its
      order's refund there. */
  lemma {:induction false} StillKept(t: Tables, actions: seq<Action>, id: PaymentId, reserved: set<PaymentId>)
    requires id in t.payments && t.payments[id].status == SUCCESS
    ensures id in Meanwhile(t, actions, reserved).payments
    ensures Meanwhile(t, actions, reserved).payments[id].status == SUCCESS
       <==> MarkRefunded(id) !in actions && RequestRefund(t.payments[id].charge.orderId) !in actions
    decreases |actions|
  {
    if actions != [] {
      assert forall a :: a in actions <==> a == actions[0] || a in actions[1..];
      var t' := if Allowed(t, actions[0]) && !Inserts(actions[0], reserved) then Apply(t, actions[0]) else t;
      if t'.payments[id].status == SUCCESS {
        StillKept(t', actions[1..], id, reserved);
      } else {
        StaysRefunded(t', actions[1..], id, reserved);
      }
    }
  }

  lemma {:induction false} StaysRefunded(t: Tables, actions: seq<Action>, id: PaymentId, reserved: set<PaymentId>)
    requires id in t.payments && t.payments[id].status == REFUNDED
    ensures id in Meanwhile(t, actions, reserved).payments
    ensures Meanwhile(t, actions, reserved).payments[id].status == REFUNDED
    decreases |actions|
  {
    if actions != [] {
      StaysRefunded(if Allowed(t, actions[0]) && !Inserts(actions[0], reserved) then Apply(t, actions[0]) else t,
                    actions[1..], id, reserved);
    }
  }

  class PaymentRepository {
    var tables: Tables

    ghost predicate Valid()
      reads this
    {
      NothingKept(tables) && Stamped(tables)
    }

    constructor ()
      ensures Valid() && tables == EMPTY_TABLES
    {
      tables := EMPTY_TABLES;
    }

    /** An await: other calls run. */
    method Await(actions: seq<Action>, reserved: set<PaymentId>)
      requires Valid()
      modifies this
      ensures Valid() && tables == Meanwhile(old(tables), actions, reserved)
      ensures Later(old(tables), tables)
      ensures forall id :: id in reserved && id !in old(tables.payments) ==> id !in tables.payments
    {
      MeanwhileIsLater(tables, actions, reserved);
      tables := Meanwhile(tables, actions, reserved);
    }

    method CreateChargedPayment(id: PaymentId, charge: Charge, transactionId: nat, fault: Fault)
      returns (payment: Option<Payment>)
      requires Valid() && id !in tables.payments
      modifies this
      ensures Valid()
      ensures tables == if fault.RolledBack? then old(tables)
                        else Apply(old(tables), RecordCharge(id, charge, transactionId))
      ensures payment == if fault.NoFault? then Some(tables.payments[id]) else None
    {
      var client := tables;                                            // BEGIN, lock
      var refundRequested := charge.orderId in client.intents;         // SELECT 1 FROM refund_intents
      var row := Payment(charge, if refundRequested then REFUNDED else SUCCESS, Some(transactionId), refundRequested);
      client := client.(payments := client.payments[id := row]);       // INSERT INTO payments
      AtomicStep(tables, RecordCharge(id, charge, transactionId));
      if fault.RolledBack? {
        return None;                                                   // ROLLBACK
      }
      tables := client;                                                // COMMIT
      payment := if fault.NoFault? then Some(row) else None;
    }

    method RequestRefundByOrderId(orderId: OrderId, fault: Fault) returns (rows: Option<set<PaymentId>>)
      requires Valid()
      modifies this
      ensures Valid()
      ensures tables == if fault.RolledBack? then old(tables) else Apply(old(tables), RequestRefund(orderId))
      ensures rows == if fault.NoFault? then Some(Kept(old(tables), orderId)) else None
    {
      var client := tables;
      client := client.(intents := client.intents + {orderId});        // INSERT ... ON CONFLICT DO NOTHING
      var matched := Kept(client, orderId);                            // UPDATE ... WHERE status = 'SUCCESS'
      client := client.(payments := RefundRows(client.payments, matched));
      assert matched == Kept(tables, orderId);
      AtomicStep(tables, RequestRefund(orderId));
      if fault.RolledBack? {
        return None;
      }
      tables := client;
      rows := if fault.NoFault? then Some(matched) else None;
    }

    method CreateFailed(id: PaymentId, charge: Charge, fault: Fault) returns (payment: Option<Payment>)
      requires Valid() && id !in tables.payments
      modifies this
      ensures Valid()
      ensures tables == if fault.RolledBack? then old(tables) else Apply(old(tables), RecordFailure(id, charge))
      ensures !fault.RolledBack? ==> IsFailedRow(tables, id, charge)
      ensures payment == if fault.NoFault? then Some(tables.payments[id]) else None
    {
      if fault.RolledBack? {
        return None;
      }
      AtomicStep(tables, RecordFailure(id, charge));
      tables := tables.(payments := tables.payments[id := FailedRow(charge)]);
      payment := if fault.NoFault? then Some(FailedRow(charge)) else None;
    }

    /** UPDATE ... WHERE id = $1: there is no condition on the status. */
    method MarkRefunded(id: PaymentId, fault: Fault) returns (ok: bool)
      requires Valid()
      modifies this
      ensures Valid() && tables.intents == old(tables.intents)
      ensures tables.payments == if fault.RolledBack? then old(tables.payments)
                                 else RefundRows(old(tables.payments), {id})
      ensures ok <==> fault.NoFault?
    {
      if !fault.RolledBack? {
        tables := tables.(payments := RefundRows(tables.payments, {id}));
      }
      ok := fault.NoFault?;
    }

    method FindByOrderId(orderId: OrderId) returns (rows: set<PaymentId>)
      ensures rows == set id | id in tables.payments && tables.payments[id].charge.orderId == orderId
    {
      rows := set id | id in tables.payments && tables.payments[id].charge.orderId == orderId;
    }
  }

  // ---- ProcessPayment ----

  /** One pass through the retry loop: what the gateway answers after delay milliseconds, what other calls
      do meanwhile, before anything is recorded, and how the recording ends. */
  datatype Attempt = Attempt(delay: real, charged: bool, transactionId: nat, meanwhile: seq<Action>, fault: Fault)

  datatype Kind = GatewayCharged | RowWritten | PaymentReturned | CommitUnheard | RecordingFailed

  predicate Is(a: Attempt, k: Kind) {
    a.charged &&
    match k
    case GatewayCharged => true
    case RowWritten => !a.fault.RolledBack?
    case PaymentReturned => a.fault.NoFault?
    case CommitUnheard => a.fault.ReplyLost?
    case RecordingFailed => a.fault.RolledBack?
  }

  function Count(attempts: seq<Attempt>, k: Kind): nat {
    if attempts == [] then 0
    else Count(attempts[..|attempts| - 1], k) + if Is(attempts[|attempts| - 1], k) then 1 else 0
  }

  lemma CountNext(attempts: seq<Attempt>, i: nat, k: Kind)
    requires i < |attempts|
    ensures Count(attempts[..i + 1], k) == Count(attempts[..i], k) + if Is(attempts[i], k) then 1 else 0
  {
    assert attempts[..i + 1][..i] == attempts[..i];
  }

  /** Number of passes made: up to the first that returns a payment, or all of them. */
  function Passes(attempts: seq<Attempt>): (n: nat)
    ensures n <= |attempts|
    ensures n == |attempts| || (n > 0 && Is(attempts[n - 1], PaymentReturned))
    ensures forall i :: 0 <= i < n - 1 ==> !Is(attempts[i], PaymentReturned)
    ensures attempts != [] ==> n > 0
  {
    if attempts == [] then 0
    else if Is(attempts[0], PaymentReturned) then 1
    else 1 + Passes(attempts[1..])
  }

  lemma {:induction false} PassesIs(attempts: seq<Attempt>, n: nat)
    requires 0 < n <= |attempts|
    requires n == |attempts| || Is(attempts[n - 1], PaymentReturned)
    requires forall i :: 0 <= i < n - 1 ==> !Is(attempts[i], PaymentReturned)
    ensures Passes(attempts) == n
  {
    if n > 1 {
      PassesIs(attempts[1..], n - 1);
    }
  }

  /** The last pass made returned a row. */
  predicate Returns(attempts: seq<Attempt>)
    requires attempts != []
  {
    Is(attempts[Passes(attempts) - 1], PaymentReturned)
  }

  /** How often the gateway charges. */
  function Charges(attempts: seq<Attempt>): nat {
    Count(attempts[..Passes(attempts)], GatewayCharged)
  }

  /** How many rows one call inserts: one for each charge whose recording took effect, and the FAILED row if
      no pass returned and its insert, which ends with failFault, took effect. */
  function RowsStored(attempts: seq<Attempt>, failFault: Fault): nat
    requires attempts != []
  {
    Count(attempts[..Passes(attempts)], RowWritten) + if Returns(attempts) || failFault.RolledBack? then 0 else 1
  }

  function Pow2(n: nat): nat {
    if n == 0 then 1 else 2 * Pow2(n - 1)
  }

  /** Milliseconds slept in the first i backoffs. */
  function Backoff(i: nat): real {
    1000.0 * (Pow2(i) as real - 1.0)
  }

  /** The keys this call's inserts may draw: one per pass and one for the FAILED row. */
  function Reserved(ids: seq<PaymentId>, failId: PaymentId): set<PaymentId> {
    (set i | 0 <= i < |ids| :: ids[i]) + {failId}
  }

  ghost predicate Distinct(ids: seq<PaymentId>, failId: PaymentId) {
    (forall i, j :: 0 <= i < j < |ids| ==> ids[i] != ids[j]) && failId !in ids
  }

  /** The keys drawn by the first i passes that wrote a row. */
  function Written(attempts: seq<Attempt>, ids: seq<PaymentId>, i: nat): set<PaymentId>
    requires i <= |attempts| == |ids|
  {
    set j | 0 <= j < i && Is(attempts[j], RowWritten) :: ids[j]
  }

  lemma NewKey(attempts: seq<Attempt>, ids: seq<PaymentId>, i: nat)
    requires i < |attempts| == |ids|
    requires forall j, k :: 0 <= j < k < |ids| ==> ids[j] != ids[k]
    ensures ids[i] !in Written(attempts, ids, i)
  {
  }

  lemma WrittenNext(attempts: seq<Attempt>, ids: seq<PaymentId>, i: nat)
    requires i < |attempts| == |ids|
    ensures Written(attempts, ids, i + 1)
         == Written(attempts, ids, i) + if Is(attempts[i], RowWritten) then {ids[i]} else {}
  {
  }

  lemma {:induction false} WrittenCount(attempts: seq<Attempt>, ids: seq<PaymentId>, i: nat)
    requires i <= |attempts| == |ids|
    requires forall j, k :: 0 <= j < k < |ids| ==> ids[j] != ids[k]
    ensures |Written(attempts, ids, i)| == Count(attempts[..i], RowWritten)
  {
    if i > 0 {
      WrittenCount(attempts, ids, i - 1);
      CountNext(attempts, i - 1, RowWritten);
      NewKey(attempts, ids, i - 1);
      WrittenNext(attempts, ids, i - 1);
    }
  }

  /** The rows this call has inserted after i passes: one for each pass that wrote one. */
  ghost predicate RowsAfter(tables: Tables, ids: seq<PaymentId>, failId: PaymentId, attempts: seq<Attempt>, i: nat)
    requires i <= |attempts| == |ids|
  {
    && (forall j :: 0 <= j < |ids| ==> (ids[j] in tables.payments <==> j < i && Is(attempts[j], RowWritten)))
    && failId !in tables.payments
  }

  lemma OwnRows(tables: Tables, ids: seq<PaymentId>, failId: PaymentId, attempts: seq<Attempt>, i: nat)
    requires i <= |attempts| == |ids| && Distinct(ids, failId)
    requires forall j :: 0 <= j < |ids| ==> (ids[j] in tables.payments <==> j < i && Is(attempts[j], RowWritten))
    ensures |Reserved(ids, failId) * tables.payments.Keys|
         == Count(attempts[..i], RowWritten) + if failId in tables.payments then 1 else 0
  {
    WrittenCount(attempts, ids, i);
    var own := Reserved(ids, failId) * tables.payments.Keys;
    if failId in tables.payments {
      assert own == Written(attempts, ids, i) + {failId};
    } else {
      assert own == Written(attempts, ids, i);
    }
  }

  /** The tables after one pass: what the others have done, and the row if its insert took effect. */
  function AfterPass(t: Tables, charge: Charge, a: Attempt, id: PaymentId, reserved: set<PaymentId>): Tables {
    var t' := Meanwhile(t, a.meanwhile, reserved);
    if Is(a, RowWritten) then Apply(t', RecordCharge(id, charge, a.transactionId)) else t'
  }

  function AfterPasses(t: Tables, charge: Charge, attempts: seq<Attempt>, ids: seq<PaymentId>,
                       reserved: set<PaymentId>, n: nat): Tables
    requires n <= |attempts| == |ids|
  {
    if n == 0 then t
    else
      var before := AfterPasses(t, charge, attempts, ids, reserved, n - 1);
      AfterPass(before, charge, attempts[n - 1], ids[n - 1], reserved)
  }

  /** The tables after the code that follows the loop. */
  function AfterFailure(t: Tables, charge: Charge, failId: PaymentId, meanwhile: seq<Action>, fault: Fault,
                        reserved: set<PaymentId>): Tables
  {
    var t' := Meanwhile(t, meanwhile, reserved);
    if fault.RolledBack? then t' else Apply(t', RecordFailure(failId, charge))
  }

  /** The tables a call of ProcessPayment leaves. */
  function AfterCall(t: Tables, charge: Charge, attempts: seq<Attempt>, ids: seq<PaymentId>, failId: PaymentId,
                     failMeanwhile: seq<Action>, failFault: Fault): Tables
    requires 0 < |attempts| == |ids|
  {
    var reserved := Reserved(ids, failId);
    var t' := AfterPasses(t, charge, attempts, ids, reserved, Passes(attempts));
    if Returns(attempts) then t' else AfterFailure(t', charge, failId, failMeanwhile, failFault, reserved)
  }

  /** The refund of this order was requested before the call, or in one of its first n passes. */
  ghost predicate RefundSeen(t: Tables, o: OrderId, attempts: seq<Attempt>, n: nat)
    requires n <= |attempts|
  {
    o in t.intents || exists i :: 0 <= i < n && RequestRefund(o) in attempts[i].meanwhile
  }

  lemma {:induction false} IntentsAfterPasses(t: Tables, charge: Charge, attempts: seq<Attempt>, ids: seq<PaymentId>,
                                              reserved: set<PaymentId>, n: nat, o: OrderId)
    requires n <= |attempts| == |ids|
    ensures o in AfterPasses(t, charge, attempts, ids, reserved, n).intents <==> RefundSeen(t, o, attempts, n)
  {
    if n > 0 {
      IntentsAfterPasses(t, charge, attempts, ids, reserved, n - 1, o);
      IntentsMeanwhile(AfterPasses(t, charge, attempts, ids, reserved, n - 1), attempts[n - 1].meanwhile, reserved, o);
    }
  }

  /** After the whole call an order's refund is requested if and only if it was before or was requested while
      the call was waiting. */
  lemma IntentsAfterCall(t: Tables, charge: Charge, attempts: seq<Attempt>, ids: seq<PaymentId>, failId: PaymentId,
                         failMeanwhile: seq<Action>, failFault: Fault, o: OrderId)
    requires 0 < |attempts| == |ids|
    ensures o in AfterCall(t, charge, attempts, ids, failId, failMeanwhile, failFault).intents
       <==> RefundSeen(t, o, attempts, Passes(attempts)) || (!Returns(attempts) && RequestRefund(o) in failMeanwhile)
  {
    var reserved := Reserved(ids, failId);
    IntentsAfterPasses(t, charge, attempts, ids, reserved, Passes(attempts), o);
    IntentsMeanwhile(AfterPasses(t, charge, attempts, ids, reserved, Passes(attempts)), failMeanwhile, reserved, o);
  }

  /** The body of the loop's try block: charge, then record. */
  method Pass(repository: PaymentRepository, charge: Charge, attempts: seq<Attempt>, i: nat, ids: seq<PaymentId>,
              failId: PaymentId)
    returns (payment: Option<Payment>)
    requires repository.Valid() && i < |attempts| == |ids| && Distinct(ids, failId)
    requires RowsAfter(repository.tables, ids, failId, attempts, i)
    modifies repository
    ensures repository.Valid() && Later(old(repository.tables), repository.tables)
    ensures RowsAfter(repository.tables, ids, failId, attempts, i + 1)
    ensures repository.tables == AfterPass(old(repository.tables), charge, attempts[i], ids[i], Reserved(ids, failId))
    ensures payment.Some? <==> Is(attempts[i], PaymentReturned)
    ensures payment.Some? ==> ReturnedRow(repository.tables, charge, attempts[i], ids[i], payment.value)
  {
    var a := attempts[i];
    payment := None;
    repository.Await(a.meanwhile, Reserved(ids, failId));
    ghost var t := repository.tables;
    if a.charged {
      payment := repository.CreateChargedPayment(ids[i], charge, a.transactionId, a.fault);
      LaterTransitive(old(repository.tables), t, repository.tables);
    }
  }

  /** The row handed back for a charge: it is in the table, it carries this charge, and it is REFUNDED
      exactly when the saga has already asked for the refund. */
  ghost predicate ReturnedRow(tables: Tables, charge: Charge, a: Attempt, id: PaymentId, p: Payment) {
    && id in tables.payments && tables.payments[id] == p
    && p.charge == charge && p.transactionId == Some(a.transactionId)
    && p.status == if charge.orderId in tables.intents then REFUNDED else SUCCESS
  }

  /** Charges with retry and exponential backoff, then records the outcome; payment is the row returned to
      the handler, or None when the last database call failed. */
  method ProcessPayment(repository: PaymentRepository, charge: Charge, attempts: seq<Attempt>, ids: seq<PaymentId>,
                        failId: PaymentId, failMeanwhile: seq<Action>, failFault: Fault)
    returns (payment: Option<(PaymentId, Payment)>, charges: nat, elapsed: real)
    requires repository.Valid() && |attempts| >= 1 && |ids| == |attempts| && Distinct(ids, failId)
    requires RowsAfter(repository.tables, ids, failId, attempts, 0)
    requires forall i :: 0 <= i < |attempts| ==> 0.0 <= attempts[i].delay < 2000.0
    modifies repository
    ensures repository.Valid() && Later(old(repository.tables), repository.tables)
    ensures charges == Charges(attempts)
    ensures |Reserved(ids, failId) * repository.tables.payments.Keys| == RowsStored(attempts, failFault)
    ensures if Returns(attempts)
            then payment.Some? && payment.value.0 == ids[Passes(attempts) - 1]
                 && ReturnedRow(repository.tables, charge, attempts[Passes(attempts) - 1],
                                payment.value.0, payment.value.1)
            else FailureReply(repository.tables, charge, failId, failFault, payment)
    ensures Returns(attempts) ==>
              (payment.value.1.status == REFUNDED <==>
                 RefundSeen(old(repository.tables), charge.orderId, attempts, Passes(attempts)))
    ensures repository.tables
         == AfterCall(old(repository.tables), charge, attempts, ids, failId, failMeanwhile, failFault)
    ensures payment.Some? && payment.value.1.status == FAILED <==> !Returns(attempts) && failFault.NoFault?
    ensures elapsed == Delays(attempts, Passes(attempts)) + Backoff(Passes(attempts) - 1) < MaxElapsed(|attempts|)
    ensures !Returns(attempts) ==> elapsed >= Backoff(|attempts| - 1)
  {
    var row, n;
    row, n, charges, elapsed := ChargeWithRetry(repository, charge, attempts, ids, failId);
    assert Returns(attempts) <==> row.Some?;
    if row.Some? {
      ReturnedIs(old(repository.tables), repository.tables, charge, attempts, ids, failId, n, row.value);
      return Some((ids[n - 1], row.value)), charges, elapsed;
    }
    ghost var before := repository.tables;
    payment := RecordFailed(repository, charge, attempts, ids, failId, failMeanwhile, failFault);
    LaterTransitive(old(repository.tables), before, repository.tables);
  }

  /** What n passes have made of the tables t0. */
  ghost predicate Recorded(t0: Tables, t: Tables, charge: Charge, attempts: seq<Attempt>, ids: seq<PaymentId>,
                           failId: PaymentId, n: nat)
    requires n <= |attempts| == |ids|
  {
    && Later(t0, t) && RowsAfter(t, ids, failId, attempts, n)
    && t == AfterPasses(t0, charge, attempts, ids, Reserved(ids, failId), n)
  }

  lemma RecordedNext(t0: Tables, t: Tables, t': Tables, charge: Charge, attempts: seq<Attempt>, ids: seq<PaymentId>,
                     failId: PaymentId, n: nat)
    requires n < |attempts| == |ids| && Recorded(t0, t, charge, attempts, ids, failId, n)
    requires Later(t, t') && RowsAfter(t', ids, failId, attempts, n + 1)
    requires t' == AfterPass(t, charge, attempts[n], ids[n], Reserved(ids, failId))
    ensures Recorded(t0, t', charge, attempts, ids, failId, n + 1)
  {
    LaterTransitive(t0, t, t');
  }

  /** A returned row is REFUNDED exactly when the refund was requested by then, and is the last of those stored. */
  lemma ReturnedIs(t0: Tables, t: Tables, charge: Charge, attempts: seq<Attempt>, ids: seq<PaymentId>,
                   failId: PaymentId, n: nat, p: Payment)
    requires 0 < n <= |attempts| == |ids| && Distinct(ids, failId)
    requires RowsAfter(t, ids, failId, attempts, n)
    requires t == AfterPasses(t0, charge, attempts, ids, Reserved(ids, failId), n)
    requires ReturnedRow(t, charge, attempts[n - 1], ids[n - 1], p)
    ensures p.status == if RefundSeen(t0, charge.orderId, attempts, n) then REFUNDED else SUCCESS
    ensures |Reserved(ids, failId) * t.payments.Keys| == Count(attempts[..n], RowWritten)
  {
    IntentsAfterPasses(t0, charge, attempts, ids, Reserved(ids, failId), n, charge.orderId);
    OwnRows(t, ids, failId, attempts, n);
  }

  /** The retry loop of ProcessPayment: n passes, the last of which returns a row unless all have failed. */
  method ChargeWithRetry(repository: PaymentRepository, charge: Charge, attempts: seq<Attempt>, ids: seq<PaymentId>,
                         failId: PaymentId)
    returns (row: Option<Payment>, n: nat, charges: nat, elapsed: real)
    requires repository.Valid() && |attempts| >= 1 && |ids| == |attempts| && Distinct(ids, failId)
    requires RowsAfter(repository.tables, ids, failId, attempts, 0)
    requires forall i :: 0 <= i < |attempts| ==> 0.0 <= attempts[i].delay < 2000.0
    modifies repository
    ensures repository.Valid() && n == Passes(attempts) && charges == Count(attempts[..n], GatewayCharged)
    ensures Later(old(repository.tables), repository.tables) && RowsAfter(repository.tables, ids, failId, attempts, n)
    ensures repository.tables == AfterPasses(old(repository.tables), charge, attempts, ids, Reserved(ids, failId), n)
    ensures row.Some? <==> Is(attempts[n - 1], PaymentReturned)
    ensures if row.Some? then ReturnedRow(repository.tables, charge, attempts[n - 1], ids[n - 1], row.value)
            else n == |attempts|
    ensures elapsed == Delays(attempts, n) + Backoff(n - 1) < MaxElapsed(|attempts|)
    ensures row.None? ==> elapsed >= Backoff(|attempts| - 1)
  {
    var maxRetries := |attempts|;
    row, n, charges, elapsed := None, 0, 0, 0.0;
    while n < maxRetries && row.None?
      invariant 0 <= n <= maxRetries
      invariant repository.Valid() && charges == Count(attempts[..n], GatewayCharged)
      invariant Recorded(old(repository.tables), repository.tables, charge, attempts, ids, failId, n)
      invariant forall j :: 0 <= j < n - 1 ==> !Is(attempts[j], PaymentReturned)
      invariant n > 0 ==> (row.Some? <==> Is(attempts[n - 1], PaymentReturned))
      invariant row.Some? ==> n > 0 && ReturnedRow(repository.tables, charge, attempts[n - 1], ids[n - 1], row.value)
      invariant TimeIs(attempts, n, row.Some?, elapsed)
    {
      ghost var before := repository.tables;
      row := Pass(repository, charge, attempts, n, ids, failId);
      RecordedNext(old(repository.tables), before, repository.tables, charge, attempts, ids, failId, n);
      CountNext(attempts, n, GatewayCharged);
      TimeNext(attempts, n, elapsed, row.Some?);
      charges := if attempts[n].charged then charges + 1 else charges;
      elapsed := elapsed + attempts[n].delay + if row.Some? then 0.0 else Pause(n, maxRetries);
      n := n + 1;
    }
    TimeBounded(attempts, n);
    PassesIs(attempts, n);
  }

  /** The reply when every pass failed: the FAILED row, which is also in the table unless its insert failed. */
  ghost predicate FailureReply(tables: Tables, charge: Charge, failId: PaymentId, fault: Fault,
                               payment: Option<(PaymentId, Payment)>) {
    && (!fault.RolledBack? ==> IsFailedRow(tables, failId, charge))
    && payment == if fault.NoFault? then Some((failId, tables.payments[failId])) else None
  }

  /** The code after the loop: one FAILED row. */
  method RecordFailed(repository: PaymentRepository, charge: Charge, attempts: seq<Attempt>, ids: seq<PaymentId>,
                      failId: PaymentId, meanwhile: seq<Action>, fault: Fault)
    returns (payment: Option<(PaymentId, Payment)>)
    requires repository.Valid() && |attempts| == |ids| && Distinct(ids, failId)
    requires RowsAfter(repository.tables, ids, failId, attempts, |attempts|)
    modifies repository
    ensures repository.Valid() && Later(old(repository.tables), repository.tables)
    ensures |Reserved(ids, failId) * repository.tables.payments.Keys|
         == Count(attempts[..|attempts|], RowWritten) + if fault.RolledBack? then 0 else 1
    ensures FailureReply(repository.tables, charge, failId, fault, payment)
    ensures repository.tables
         == AfterFailure(old(repository.tables), charge, failId, meanwhile, fault, Reserved(ids, failId))
  {
    repository.Await(meanwhile, Reserved(ids, failId));
    ghost var awaited := repository.tables;
    var row := repository.CreateFailed(failId, charge, fault);
    LaterTransitive(old(repository.tables), awaited, repository.tables);
    OwnRows(repository.tables, ids, failId, attempts, |attempts|);
    payment := if row.Some? then Some((failId, row.value)) else None;
  }

  // ---- Time ----

  /** Milliseconds slept after pass i: 1000, 2000, 4000, ..., and nothing after the last. */
  function Pause(i: nat, maxRetries: nat): real {
    if i + 1 < maxRetries then Pow2(i) as real * 1000.0 else 0.0
  }

  /** Time spent in the gateway in the first n passes. */
  function Delays(attempts: seq<Attempt>, n: nat): real
    requires n <= |attempts|
  {
    if n == 0 then 0.0 else Delays(attempts, n - 1) + attempts[n - 1].delay
  }

  /** The pauses double, starting with a second; nothing is slept after the last pass. */
  lemma PausesDouble(i: nat, maxRetries: nat)
    ensures i + 1 >= maxRetries ==> Pause(i, maxRetries) == 0.0
    ensures maxRetries >= 2 ==> Pause(0, maxRetries) == 1000.0
    ensures i + 2 < maxRetries ==> Pause(i + 1, maxRetries) == 2.0 * Pause(i, maxRetries)
    ensures i + 1 < maxRetries ==> Backoff(i + 1) == Backoff(i) + Pause(i, maxRetries)
    ensures Backoff(0) == 0.0
    ensures Backoff(2) == 3000.0 == Pause(0, 3) + Pause(1, 3) + Pause(2, 3)
  {
    assert Pow2(1) == 2 && Pow2(2) == 4;
  }

  /** The bound on the time spent in the gateway and in backoff. */
  function MaxElapsed(maxRetries: nat): real
    requires maxRetries >= 1
  {
    2000.0 * maxRetries as real + Backoff(maxRetries - 1)
  }

  /** Time spent after n passes, none of which returned. */
  function Spent(attempts: seq<Attempt>, n: nat): real
    requires n <= |attempts|
  {
    Delays(attempts, n) + Backoff(if n < |attempts| || n == 0 then n else n - 1)
  }

  lemma {:induction false} DelaysBounded(attempts: seq<Attempt>, n: nat)
    requires n <= |attempts| && forall i :: 0 <= i < |attempts| ==> 0.0 <= attempts[i].delay < 2000.0
    ensures 0.0 <= Delays(attempts, n) <= 2000.0 * n as real && (n > 0 ==> Delays(attempts, n) < 2000.0 * n as real)
  {
    if n > 0 {
      DelaysBounded(attempts, n - 1);
    }
  }

  /** Time spent in n passes; no pause follows one that returned. */
  predicate TimeIs(attempts: seq<Attempt>, n: nat, returned: bool, elapsed: real)
    requires n <= |attempts| && (returned ==> n > 0)
  {
    elapsed == if returned then Delays(attempts, n) + Backoff(n - 1) else Spent(attempts, n)
  }

  lemma TimeNext(attempts: seq<Attempt>, n: nat, elapsed: real, returned: bool)
    requires n < |attempts| && TimeIs(attempts, n, false, elapsed)
    ensures var pause := if returned then 0.0 else Pause(n, |attempts|);
            TimeIs(attempts, n + 1, returned, elapsed + attempts[n].delay + pause)
  {
    PausesDouble(n, |attempts|);
  }

  lemma TimeBounded(attempts: seq<Attempt>, n: nat)
    requires 0 < n <= |attempts| && forall i :: 0 <= i < |attempts| ==> 0.0 <= attempts[i].delay < 2000.0
    ensures Backoff(n - 1) <= Delays(attempts, n) + Backoff(n - 1) < MaxElapsed(|attempts|)
    ensures forall returned: bool, elapsed: real ::
              TimeIs(attempts, n, returned, elapsed) && (returned || n == |attempts|) ==>
                elapsed == Delays(attempts, n) + Backoff(n - 1)
  {
    DelaysBounded(attempts, n);
    BackoffGrows(n - 1, |attempts| - 1);
    assert 2000.0 * n as real <= 2000.0 * |attempts| as real;
  }

  lemma {:induction false} BackoffGrows(i: nat, j: nat)
    requires i <= j
    ensures 0.0 <= Backoff(i) <= Backoff(j)
    decreases j
  {
    if i < j {
      BackoffGrows(i, j - 1);
    } else if i > 0 {
      BackoffGrows(i - 1, i - 1);
    }
  }

  /** A ProcessPayment that runs into every retry fits order-service's deadline exactly for at most four
      retries: its bound is within the deadline, and with five or more the backoff alone uses it up. */
  lemma DeadlineFits(maxRetries: nat)
    requires maxRetries >= 1
    ensures MaxElapsed(maxRetries) <= PAYMENT_DEADLINE as real <==> maxRetries <= 4
    ensures Backoff(maxRetries - 1) >= PAYMENT_DEADLINE as real <==> maxRetries >= 5
  {
    assert Pow2(3) == 8 && Pow2(4) == 16;
    if maxRetries <= 4 {
      BackoffGrows(maxRetries - 1, 3);
    } else {
      BackoffGrows(4, maxRetries - 1);
    }
  }

  // ---- Accounting ----

  lemma {:induction false} CountsAddUp(attempts: seq<Attempt>)
    ensures Count(attempts, GatewayCharged) == Count(attempts, RowWritten) + Count(attempts, RecordingFailed)
    ensures Count(attempts, GatewayCharged) <= |attempts|
    ensures Count(attempts, RowWritten) == Count(attempts, PaymentReturned) + Count(attempts, CommitUnheard)
  {
    if attempts != [] {
      CountsAddUp(attempts[..|attempts| - 1]);
    }
  }

  lemma {:induction false} CountNone(attempts: seq<Attempt>, n: nat, k: Kind)
    requires n <= |attempts|
    ensures Count(attempts[..n], k) == 0 <==> forall i :: 0 <= i < n ==> !Is(attempts[i], k)
  {
    if n > 0 {
      CountNone(attempts, n - 1, k);
      CountNext(attempts, n - 1, k);
    }
  }

  lemma {:induction false} CountGrows(attempts: seq<Attempt>, m: nat, n: nat, k: Kind)
    requires m <= n <= |attempts|
    ensures Count(attempts[..m], k) <= Count(attempts[..n], k)
  {
    if m < n {
      CountGrows(attempts, m, n - 1, k);
      CountNext(attempts, n - 1, k);
    }
  }

  /** Every successful gateway charge is a charged row or a failed recording. At most one of the rows is the
      one returned; the others were committed without the caller hearing of it. */
  lemma ChargesAccounted(attempts: seq<Attempt>)
    requires attempts != []
    ensures var made := attempts[..Passes(attempts)];
            && Charges(attempts) == Count(made, RowWritten) + Count(made, RecordingFailed) <= |attempts|
            && Count(made, RowWritten) == Count(made, CommitUnheard) + if Returns(attempts) then 1 else 0
  {
    CountsAddUp(attempts[..Passes(attempts)]);
    ReturnedAtMostOnce(attempts);
  }

  lemma ReturnedAtMostOnce(attempts: seq<Attempt>)
    requires attempts != []
    ensures Count(attempts[..Passes(attempts)], PaymentReturned) == if Returns(attempts) then 1 else 0
  {
    var n := Passes(attempts);
    CountNone(attempts, n - 1, PaymentReturned);
    CountNext(attempts, n - 1, PaymentReturned);
  }

  /** "A row is always stored": it is if and only if the FAILED row can be inserted or some charge's
      recording took effect. There is exactly one if and only if no commit goes unheard, or precisely one
      when it has to stand in for a FAILED row that could not be inserted. */
  lemma RowIsStored(attempts: seq<Attempt>, failFault: Fault)
    requires attempts != []
    ensures RowsStored(attempts, failFault) >= 1
       <==> !failFault.RolledBack? || exists i :: 0 <= i < |attempts| && Is(attempts[i], RowWritten)
    ensures RowsStored(attempts, failFault) == 1
       <==> Count(attempts[..Passes(attempts)], CommitUnheard)
              == if failFault.RolledBack? && !Returns(attempts) then 1 else 0
  {
    ChargesAccounted(attempts);
    CountNone(attempts, Passes(attempts), RowWritten);
  }

  // ---- What the database decides, whatever the gateway does ----

  /** The recordings of a call would end like this. */
  ghost predicate WithFaults(attempts: seq<Attempt>, faults: seq<Fault>) {
    |attempts| == |faults| && forall i :: 0 <= i < |faults| ==> attempts[i].fault == faults[i]
  }

  /** The gateway charges in the passes named and declines in all others. */
  function Charging(faults: seq<Fault>, passes: set<nat>): (attempts: seq<Attempt>)
    ensures WithFaults(attempts, faults)
    ensures forall i :: 0 <= i < |faults| ==> attempts[i] == Attempt(0.0, i in passes, 0, [], faults[i])
  {
    seq(|faults|, i requires 0 <= i < |faults| => Attempt(0.0, i in passes, 0, [], faults[i]))
  }

  /** A payment is charged at most once, whatever the gateway answers, if and only if no recording but the
      last can fail. */
  lemma ChargedAtMostOnce(faults: seq<Fault>)
    requires faults != []
    ensures (forall attempts :: WithFaults(attempts, faults) ==> Charges(attempts) <= 1)
       <==> forall i :: 0 <= i < |faults| - 1 ==> faults[i].NoFault?
  {
    if i :| 0 <= i < |faults| - 1 && !faults[i].NoFault? {
      var attempts := Charging(faults, {i, i + 1});
      CountNext(attempts, i, GatewayCharged);
      CountNext(attempts, i + 1, GatewayCharged);
      CountGrows(attempts, i + 2, Passes(attempts), GatewayCharged);
      assert Charges(attempts) >= 2;
    } else {
      forall attempts | WithFaults(attempts, faults)
        ensures Charges(attempts) <= 1
      {
        var n := Passes(attempts);
        CountNone(attempts, n - 1, GatewayCharged);
        CountNext(attempts, n - 1, GatewayCharged);
      }
    }
  }

  /** When no pass returns a row, nothing has been charged, whatever the gateway answers, if and only if no
      recording can fail. */
  lemma FailedMeansUncharged(faults: seq<Fault>)
    requires faults != []
    ensures (forall attempts :: WithFaults(attempts, faults) && !Returns(attempts) ==> Charges(attempts) == 0)
       <==> forall i :: 0 <= i < |faults| ==> faults[i].NoFault?
  {
    if i :| 0 <= i < |faults| && !faults[i].NoFault? {
      var attempts := Charging(faults, {i});
      assert !Returns(attempts);
      CountNone(attempts, Passes(attempts), GatewayCharged);
      assert Charges(attempts) != 0;
    } else {
      forall attempts | WithFaults(attempts, faults) && !Returns(attempts)
        ensures Charges(attempts) == 0
      {
        CountNone(attempts, Passes(attempts), GatewayCharged);
      }
    }
  }

  /** A row is stored, whatever the gateway answers, if and only if the FAILED row's insert does not fail;
      and exactly one, if and only if in addition no commit's reply can be lost. */
  lemma StoredWhateverTheGatewayDoes(faults: seq<Fault>, failFault: Fault)
    requires faults != []
    ensures (forall attempts :: WithFaults(attempts, faults) ==> RowsStored(attempts, failFault) >= 1)
       <==> !failFault.RolledBack?
    ensures (forall attempts :: WithFaults(attempts, faults) ==> RowsStored(attempts, failFault) == 1)
       <==> !failFault.RolledBack? && forall i :: 0 <= i < |faults| ==> !faults[i].ReplyLost?
  {
    SomeRowWhateverTheGatewayDoes(faults, failFault);
    OneRowWhateverTheGatewayDoes(faults, failFault);
  }

  lemma SomeRowWhateverTheGatewayDoes(faults: seq<Fault>, failFault: Fault)
    requires faults != []
    ensures (forall attempts :: WithFaults(attempts, faults) ==> RowsStored(attempts, failFault) >= 1)
       <==> !failFault.RolledBack?
  {
    if failFault.RolledBack? {
      var attempts := Charging(faults, {});
      RowIsStored(attempts, failFault);
      assert RowsStored(attempts, failFault) == 0;
    } else {
      forall attempts | WithFaults(attempts, faults)
        ensures RowsStored(attempts, failFault) >= 1
      {
        RowIsStored(attempts, failFault);
      }
    }
  }

  lemma OneRowWhateverTheGatewayDoes(faults: seq<Fault>, failFault: Fault)
    requires faults != []
    ensures (forall attempts :: WithFaults(attempts, faults) ==> RowsStored(attempts, failFault) == 1)
       <==> !failFault.RolledBack? && forall i :: 0 <= i < |faults| ==> !faults[i].ReplyLost?
  {
    if failFault.RolledBack? {
      var attempts := Charging(faults, {});
      RowIsStored(attempts, failFault);
      assert RowsStored(attempts, failFault) == 0;
    } else if i :| 0 <= i < |faults| && faults[i].ReplyLost? {
      var attempts := Charging(faults, {i});
      RowIsStored(attempts, failFault);
      CountNone(attempts, Passes(attempts), CommitUnheard);
      assert RowsStored(attempts, failFault) != 1;
    } else {
      forall attempts | WithFaults(attempts, faults)
        ensures RowsStored(attempts, failFault) == 1
      {
        RowIsStored(attempts, failFault);
        CountNone(attempts, Passes(attempts), CommitUnheard);
      }
    }
  }

  // ---- Inputs on which the documented promises fail ----

  /** A declined payment whose FAILED row cannot be inserted: no row at all. */
  lemma NothingStored(tx: nat)
    ensures RowsStored([Attempt(0.0, false, tx, [], NoFault)], RolledBack) == 0
  {
    RowIsStored([Attempt(0.0, false, tx, [], NoFault)], RolledBack);
  }

  /** A charge recorded without the caller hearing of it: a charged row and a FAILED row, or, when the FAILED
      row cannot be inserted, exactly one row. */
  lemma StoredTwice(tx: nat)
    ensures RowsStored([Attempt(0.0, true, tx, [], ReplyLost)], NoFault) == 2
    ensures RowsStored([Attempt(0.0, true, tx, [], ReplyLost)], RolledBack) == 1
  {
    var attempts := [Attempt(0.0, true, tx, [], ReplyLost)];
    PassesIs(attempts, 1);
    CountNext(attempts, 0, RowWritten);
  }

  /** A charge whose recording fails in the only pass: nothing is returned, yet the gateway has charged. */
  lemma FailedYetCharged(tx: nat)
    ensures var attempts := [Attempt(0.0, true, tx, [], RolledBack)];
            !Returns(attempts) && Charges(attempts) == 1
  {
    var attempts := [Attempt(0.0, true, tx, [], RolledBack)];
    PassesIs(attempts, 1);
    CountNext(attempts, 0, GatewayCharged);
  }

  /** A charge whose recording fails is charged again: two gateway charges, one row. */
  lemma ChargedTwice(tx: nat, tx': nat)
    ensures var attempts := [Attempt(0.0, true, tx, [], RolledBack), Attempt(0.0, true, tx', [], NoFault)];
            Charges(attempts) == 2 && RowsStored(attempts, NoFault) == 1
  {
    var attempts := [Attempt(0.0, true, tx, [], RolledBack), Attempt(0.0, true, tx', [], NoFault)];
    PassesIs(attempts, 2);
    forall k: Kind
      ensures Count(attempts[..2], k) == (if Is(attempts[0], k) then 1 else 0) + (if Is(attempts[1], k) then 1 else 0)
    {
      CountNext(attempts, 0, k);
      CountNext(attempts, 1, k);
    }
  }

  // ---- RefundByOrderId and RefundPayment ----

  datatype RefundMessage = PaymentRefunded | NoPaymentYet | AlreadyRefunded | NoSuccessfulPayment

  /** refundByOrderId: asks for the refund and, when nothing was refunded, finds out why. A None reply is an
      error; after it the refund has been recorded all the same unless the transaction rolled back. */
  method RefundByOrderId(repository: PaymentRepository, orderId: OrderId, fault: Fault, meanwhile: seq<Action>,
                         readFails: bool)
    returns (reply: Option<(nat, RefundMessage)>)
    requires repository.Valid()
    modifies repository
    ensures repository.Valid() && Later(old(repository.tables), repository.tables)
    ensures !fault.RolledBack? ==> orderId in repository.tables.intents && Kept(repository.tables, orderId) == {}
    ensures repository.tables ==
              if fault.RolledBack? then old(repository.tables)
              else
                var t := Apply(old(repository.tables), RequestRefund(orderId));
                if fault.NoFault? && Kept(old(repository.tables), orderId) == {} then Meanwhile(t, meanwhile, {}) else t
    ensures reply.Some? ==> fault.NoFault? && reply.value.0 == |Kept(old(repository.tables), orderId)|
    ensures reply.None? <==> !fault.NoFault? || (readFails && Kept(old(repository.tables), orderId) == {})
    ensures reply.Some? ==>
              var payments := repository.tables.payments;
              var rows := set id | id in payments && payments[id].charge.orderId == orderId;
              match reply.value.1
              case PaymentRefunded => reply.value.0 > 0
              case NoPaymentYet => reply.value.0 == 0 && rows == {}
              case AlreadyRefunded => reply.value.0 == 0 && exists id :: id in rows && payments[id].status == REFUNDED
              case NoSuccessfulPayment =>
                reply.value.0 == 0 && rows != {} && forall id :: id in rows ==> payments[id].status == FAILED
  {
    ghost var t0 := repository.tables;
    var refunded := repository.RequestRefundByOrderId(orderId, fault);
    ghost var t1 := repository.tables;
    if fault.RolledBack? || refunded.None? {
      return None;
    }
    if |refunded.value| > 0 {
      return Some((|refunded.value|, PaymentRefunded));
    }
    repository.Await(meanwhile, {});
    LaterTransitive(t0, t1, repository.tables);
    if readFails {
      return None;
    }
    var existing := repository.FindByOrderId(orderId);
    if existing == {} {
      return Some((0, NoPaymentYet));
    }
    var refundedRows := set id | id in existing && repository.tables.payments[id].status == REFUNDED;
    if refundedRows != {} {
      var id :| id in refundedRows;
      return Some((0, AlreadyRefunded));
    }
    assert forall id :: id in existing && repository.tables.payments[id].status == REFUNDED ==> id in refundedRows;
    return Some((0, NoSuccessfulPayment));
  }

  predicate IsKept(t: Tables, id: PaymentId) {
    id in t.payments && t.payments[id].status == SUCCESS
  }

  datatype RefundError = NotFound | FailedPrecondition | Infrastructure

  /** refundPayment: look, sleep, act. Whatever runs during the sleep, the row the unguarded UPDATE marks is
      a charged one, and the call succeeds if and only if both statements did and the row was SUCCESS when it
      looked. It marks what
      the sleep has left: by StillKept a row still SUCCESS if and only if nobody else has refunded it. */
  method RefundPayment(repository: PaymentRepository, id: PaymentId, findFails: bool, sleeping: seq<Action>,
                       fault: Fault)
    returns (error: Option<RefundError>)
    requires repository.Valid()
    modifies repository
    ensures repository.Valid() && Later(old(repository.tables), repository.tables)
    ensures error == Some(NotFound) <==> !findFails && id !in old(repository.tables.payments)
    ensures error == Some(FailedPrecondition)
       <==> !findFails && id in old(repository.tables.payments) && old(repository.tables.payments[id].status) != SUCCESS
    ensures error.None? <==> !findFails && IsKept(old(repository.tables), id) && fault.NoFault?
    ensures error.None? ==> id in repository.tables.payments
                            && repository.tables.payments[id] == Refunded(old(repository.tables.payments[id]))
    ensures repository.tables ==
              if findFails || !IsKept(old(repository.tables), id) then old(repository.tables)
              else
                var slept := Meanwhile(old(repository.tables), sleeping, {});
                if fault.RolledBack? then slept else Apply(slept, MarkRefunded(id))
  {
    if findFails {
      return Some(Infrastructure);
    }
    var payment := if id in repository.tables.payments then Some(repository.tables.payments[id]) else None;
    if payment.None? {
      return Some(NotFound);
    }
    if payment.value.status != SUCCESS {
      return Some(FailedPrecondition);
    }
    ghost var t0 := repository.tables;
    repository.Await(sleeping, {});
    ghost var t1 := repository.tables;
    assert id in t1.payments && t1.payments[id].status != FAILED;
    AtomicStep(t1, MarkRefunded(id));
    var marked := repository.MarkRefunded(id, fault);
    LaterTransitive(t0, t1, repository.tables);
    error := if marked then None else Some(Infrastructure);
  }
}
