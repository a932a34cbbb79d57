/** The ledger's transactions never block each other for good, whatever the pool size and the lock hash. */
module LedgerLiveness {
  import opened Basics
  import opened PaymentTables
  import opened LedgerProtocol
  import opened LedgerSafety
  import opened LedgerRuns
  import opened LedgerReplies

  predicate Unfinished(s: State, t: CallId) {
    t in s.txns && !s.txns[t].phase.Done?
  }

  /** A step forward of an existing call, without any failure. */
  predicate Progress(l: Label) {
    && !l.Spawn? && !l.ConnectFail? && !l.Abort? && !l.Crash?
    && (l.Commit? || l.InsertFailure? ==> l.acked)
  }

  /** A call that holds a client and is not waiting for a lock can go on. */
  predicate NotWaiting(p: Phase) {
    HasClient(p) && !p.Begun? && !p.MarkConnected? && !(p.Updating? && p.todo != {})
  }

  lemma RunsOn(c: Config, s: State, t: CallId) returns (l: Label)
    requires t in s.txns && PhaseFits(s.txns[t]) && NotWaiting(s.txns[t].phase)
    ensures Progress(l) && Enabled(c, s, l)
  {
    var x := s.txns[t];
    match x.phase {
      case Connected => l := if x.call.FailureCall? then InsertFailure(t, true) else Begin(t);
      case Locked => l := if x.call.ChargeCall? then ReadIntents(t) else InsertIntent(t);
      case IntentsRead(_) => l := InsertRow(t);
      case RowInserted(_) => l := Commit(t, true);
      case IntentInserted => l := StartUpdate(t);
      case Updating(_, _) => l := Commit(t, true);
      case RowLocked => l := Commit(t, true);
      case _ => l := Release(t);
    }
  }

  /** Whoever holds a row that another call waits for is itself not waiting. */
  lemma RowHolderRuns(c: Config, s: State, t: CallId, id: PaymentId) returns (l: Label)
    requires Inv(c, s) && t in s.txns && s.txns[t].phase.Updating? && id in s.txns[t].phase.todo
    ensures Progress(l) && Enabled(c, s, l)
  {
    assert PhaseFits(s.txns[t]) && ViewOk(s, t);
    if RowFree(s, t, id) {
      l := UpdateRow(t, id);
    } else {
      var t' :| t' in s.txns && t' != t && HoldsRow(s.txns[t'], id);
      assert PhaseFits(s.txns[t']) && ViewOk(s, t');
      if s.txns[t'].phase.Updating? {
        // both rows belong to the same order, so both calls would hold its advisory lock
        LockExcludes(c, s, t, t');
        assert false;
      }
      l := RunsOn(c, s, t');
    }
  }

  /** A refund in the middle of its UPDATE, or one waiting to finish it, never blocks the system. */
  lemma LockHolderRuns(c: Config, s: State, t: CallId) returns (l: Label)
    requires Inv(c, s) && t in s.txns && HasLock(s.txns[t].phase)
    ensures Progress(l) && Enabled(c, s, l)
  {
    assert PhaseFits(s.txns[t]);
    if NotWaiting(s.txns[t].phase) {
      l := RunsOn(c, s, t);
    } else {
      var id :| id in s.txns[t].phase.todo;
      l := RowHolderRuns(c, s, t, id);
    }
  }

  lemma ClientHolderRuns(c: Config, s: State, t: CallId) returns (l: Label)
    requires Inv(c, s) && t in s.txns && HasClient(s.txns[t].phase)
    ensures Progress(l) && Enabled(c, s, l)
  {
    var x := s.txns[t];
    assert PhaseFits(x);
    if HasLock(x.phase) {
      l := LockHolderRuns(c, s, t);
    } else if x.phase.Begun? {
      var h := c.hash(OrderOf(x.call));
      if h in s.locks {
        l := LockHolderRuns(c, s, s.locks[h]);
      } else {
        l := Lock(t);
      }
    } else if x.phase.MarkConnected? {
      if RowFree(s, t, x.call.id) {
        l := LockRow(t);
      } else {
        var t' :| t' in s.txns && t' != t && HoldsRow(s.txns[t'], x.call.id);
        assert PhaseFits(s.txns[t']);
        if s.txns[t'].phase.Updating? {
          l := LockHolderRuns(c, s, t');
        } else {
          l := RunsOn(c, s, t');
        }
      }
    } else {
      l := RunsOn(c, s, t);
    }
  }

  /** Deadlock freedom: while any call is unfinished, some call can take a step that is not a failure, even
      when every pooled client is held by a call waiting for a lock. */
  lemma DeadlockFreedom(c: Config, s: State, t: CallId) returns (l: Label)
    requires Inv(c, s) && c.poolSize >= 1 && Unfinished(s, t)
    ensures Progress(l) && Enabled(c, s, l)
  {
    if s.clients != {} {
      var t' :| t' in s.clients;
      l := ClientHolderRuns(c, s, t');
    } else {
      assert !HasClient(s.txns[t].phase);
      l := if s.txns[t].phase.Waiting? && s.txns[t].call.RefundPaymentCall? then Find(t) else Connect(t);
    }
  }

  // ---- Termination ----

  /** How many statements a call is from its reply, counting an UPDATE as one. */
  function Level(p: Phase): nat {
    match p
    case Waiting => 12
    case Connected => 11
    case Begun => 10
    case Locked => 9
    case IntentsRead(_) => 8
    case RowInserted(_) => 7
    case IntentInserted => 6
    case Updating(_, _) => 5
    case Checked => 4
    case MarkConnected => 3
    case RowLocked => 2
    case RolledBack => 1
    case Committed(_) => 1
    case Done(_) => 0
  }

  /** The steps a call is from its reply; width bounds the number of rows of any UPDATE. */
  function Rank(p: Phase, width: nat): nat {
    Level(p) * (width + 1) + if p.Updating? then |p.todo| else 0
  }

  ghost function Remaining(txns: map<CallId, Txn>, ids: set<CallId>, width: nat): nat
    requires ids <= txns.Keys
  {
    if ids == {} then 0
    else
      var t := Pick(ids);
      Rank(txns[t].phase, width) + Remaining(txns, ids - {t}, width)
  }

  lemma {:induction false} RemainingUnchanged(txns: map<CallId, Txn>, txns': map<CallId, Txn>, ids: set<CallId>,
                                              width: nat)
    requires ids <= txns.Keys && ids <= txns'.Keys
    requires forall t :: t in ids ==> txns[t] == txns'[t]
    ensures Remaining(txns, ids, width) == Remaining(txns', ids, width)
  {
    if ids != {} {
      RemainingUnchanged(txns, txns', ids - {Pick(ids)}, width);
    }
  }

  lemma {:induction false} RemainingMoves(txns: map<CallId, Txn>, txns': map<CallId, Txn>, ids: set<CallId>,
                                          t: CallId, width: nat)
    requires ids <= txns.Keys && ids <= txns'.Keys && t in ids
    requires forall t' :: t' in ids && t' != t ==> txns[t'] == txns'[t']
    ensures Remaining(txns', ids, width) - Rank(txns'[t].phase, width)
         == Remaining(txns, ids, width) - Rank(txns[t].phase, width)
  {
    var first := Pick(ids);
    if first == t {
      RemainingUnchanged(txns, txns', ids - {t}, width);
    } else {
      RemainingMoves(txns, txns', ids - {first}, t, width);
    }
  }

  /** The work left in a state: an upper bound on the number of steps its calls can still take. */
  ghost function Work(s: State): nat {
    Remaining(s.txns, s.txns.Keys, |s.txns|)
  }

  lemma SubsetCardinality(a: set<CallId>, b: set<CallId>)
    requires a <= b
    ensures |a| <= |b|
  {
    assert b == a + (b - a);
  }

  lemma UpdateStarts(c: Config, s: State, t: CallId)
    requires Inv(c, s) && Enabled(c, s, StartUpdate(t))
    ensures |Kept(s.tables, s.txns[t].call.orderId)| <= |s.txns|
  {
    assert forall id :: id in s.tables.payments ==> RowOk(s, id);
    SubsetCardinality(Kept(s.tables, s.txns[t].call.orderId), s.txns.Keys);
    assert |s.txns.Keys| == |s.txns|;
  }

  lemma OneRowLess(todo: set<PaymentId>, id: PaymentId)
    requires id in todo
    ensures |todo - {id}| == |todo| - 1
  {
  }

  lemma LevelFalls(c: Config, s: State, l: Label)
    requires TxnsOk(s) && Enabled(c, s, l) && !l.Spawn? && !l.Crash? && !l.UpdateRow?
    ensures l.t in s.txns && l.t in Step(c, s, l).txns
    ensures Level(Step(c, s, l).txns[l.t].phase) < Level(s.txns[l.t].phase)
    ensures Step(c, s, l).txns[l.t].phase.Updating? ==> l.StartUpdate?
  {
    assert PhaseFits(s.txns[l.t]);
  }

  lemma LowerLevelLowerRank(p: Phase, p': Phase, width: nat)
    requires Level(p') < Level(p)
    requires p'.Updating? ==> |p'.todo| <= width
    ensures Rank(p', width) < Rank(p, width)
  {
    assert Level(p') * (width + 1) + (width + 1) <= Level(p) * (width + 1);
  }

  /** Every step of a call strictly lowers its rank, whether it succeeds or fails. */
  lemma RankFalls(c: Config, s: State, l: Label)
    requires Inv(c, s) && Enabled(c, s, l) && !l.Spawn? && !l.Crash?
    ensures l.t in s.txns && l.t in Step(c, s, l).txns
    ensures Rank(Step(c, s, l).txns[l.t].phase, |s.txns|) < Rank(s.txns[l.t].phase, |s.txns|)
  {
    if l.UpdateRow? {
      OneRowLess(s.txns[l.t].phase.todo, l.row);
    } else {
      LevelFalls(c, s, l);
      if l.StartUpdate? {
        UpdateStarts(c, s, l.t);
      }
      LowerLevelLowerRank(s.txns[l.t].phase, Step(c, s, l).txns[l.t].phase, |s.txns|);
    }
  }

  lemma WorkFalls(c: Config, s: State, l: Label)
    requires Inv(c, s) && Enabled(c, s, l) && !l.Spawn? && !l.Crash?
    ensures Work(Step(c, s, l)) < Work(s)
  {
    Shape(c, s, l);
    RankFalls(c, s, l);
    assert Step(c, s, l).txns.Keys == s.txns.Keys;
    assert |Step(c, s, l).txns| == |Step(c, s, l).txns.Keys| == |s.txns|;
    RemainingMoves(s.txns, Step(c, s, l).txns, s.txns.Keys, l.t, |s.txns|);
  }

  /** Without new calls every schedule ends: its length is at most the work it starts with. */
  lemma {:induction false} RunsAreBounded(c: Config, s: State, labels: seq<Label>)
    requires Inv(c, s) && IsRun(c, s, labels)
    requires forall i :: 0 <= i < |labels| ==> !labels[i].Spawn? && !labels[i].Crash?
    ensures |labels| + Work(End(c, s, labels)) <= Work(s)
    decreases |labels|
  {
    if labels != [] {
      StepInv(c, s, labels[0]);
      WorkFalls(c, s, labels[0]);
      RunsAreBounded(c, Step(c, s, labels[0]), labels[1..]);
    }
  }

  lemma NextProgress(c: Config, s: State, t: CallId) returns (l: Label)
    requires Inv(c, s) && c.poolSize >= 1 && Unfinished(s, t)
    ensures Progress(l) && Enabled(c, s, l) && Inv(c, Step(c, s, l)) && Work(Step(c, s, l)) < Work(s)
  {
    l := DeadlockFreedom(c, s, t);
    StepInv(c, s, l);
    WorkFalls(c, s, l);
  }

  /** Nothing but a look at a payment that may not be refunded can still make the call fail. */
  predicate OnTrack(s: State, t: CallId) {
    && t in s.txns && !Errored(s, t)
    && !(s.txns[t].call.RefundPaymentCall? && s.txns[t].phase.Waiting?)
  }

  lemma ProgressKeepsTrack(c: Config, s: State, l: Label, t: CallId)
    requires TxnsOk(s) && Enabled(c, s, l) && Progress(l) && OnTrack(s, t)
    ensures OnTrack(Step(c, s, l), t) && !FailsAt(s, l, t)
  {
    ErrorStep(c, s, l, t);
    if t != l.t {
      Shape(c, s, l);
    }
  }

  lemma {:induction false} ProgressSucceeds(c: Config, s: State, labels: seq<Label>, t: CallId)
    requires Inv(c, s) && IsRun(c, s, labels) && OnTrack(s, t)
    requires forall i :: 0 <= i < |labels| ==> Progress(labels[i])
    ensures !Fails(c, s, labels, t)
    decreases |labels|
  {
    if labels != [] {
      StepInv(c, s, labels[0]);
      ProgressKeepsTrack(c, s, labels[0], t);
      ProgressSucceeds(c, Step(c, s, labels[0]), labels[1..], t);
    }
  }

  /** From any reachable state the pending calls can all be driven to their answers without a failure: every
      call that has not failed yet ends with an answer that is no error, except that refundPayment still
      refuses a payment that it finds not to be SUCCESS. */
  lemma EveryCallCanFinish(c: Config, s: State) returns (labels: seq<Label>)
    requires Inv(c, s) && c.poolSize >= 1
    ensures IsRun(c, s, labels) && forall i :: 0 <= i < |labels| ==> Progress(labels[i])
    ensures forall t :: !Unfinished(End(c, s, labels), t)
    ensures forall t :: t in s.txns ==> t in End(c, s, labels).txns
    ensures forall t :: t in s.txns ==>
              (End(c, s, labels).txns[t].phase == Done(Error) <==> Errored(s, t) || Fails(c, s, labels, t))
    ensures forall t :: OnTrack(s, t) ==> !Fails(c, s, labels, t)
  {
    labels := AllCanFinish(c, s);
    CallsStay(c, s, labels);
    forall t | t in s.txns
      ensures End(c, s, labels).txns[t].phase == Done(Error) <==> Errored(s, t) || Fails(c, s, labels, t)
    {
      assert !Unfinished(End(c, s, labels), t);
      ErrorRun(c, s, labels, t);
    }
    forall t | OnTrack(s, t)
      ensures !Fails(c, s, labels, t)
    {
      ProgressSucceeds(c, s, labels, t);
    }
  }

  lemma {:induction false} CallsStay(c: Config, s: State, labels: seq<Label>)
    requires Inv(c, s) && IsRun(c, s, labels)
    ensures forall t :: t in s.txns ==> t in End(c, s, labels).txns
    decreases |labels|
  {
    if labels != [] {
      StepInv(c, s, labels[0]);
      CallsMove(c, s, labels[0]);
      CallsStay(c, Step(c, s, labels[0]), labels[1..]);
    }
  }

  lemma AllCanFinish(c: Config, s: State) returns (labels: seq<Label>)
    requires Inv(c, s) && c.poolSize >= 1
    ensures IsRun(c, s, labels) && forall i :: 0 <= i < |labels| ==> Progress(labels[i])
    ensures forall t :: !Unfinished(End(c, s, labels), t)
    decreases Work(s)
  {
    if t :| Unfinished(s, t) {
      var l := NextProgress(c, s, t);
      var rest := AllCanFinish(c, Step(c, s, l));
      labels := [l] + rest;
      assert labels[1..] == rest;
    } else {
      labels := [];
    }
  }
}
