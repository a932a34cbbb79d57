/** What a call of the ledger answers: an error exactly when something has gone wrong, and otherwise what its
    commit has done. */
module LedgerReplies {
  import opened PaymentTables
  import opened LedgerProtocol
  import opened LedgerSafety
  import opened LedgerRuns
  import opened LedgerRefunds

  /** This step makes call t fail: it gets no client, is rolled back, is cut off by a crash, is not told of its
      commit, or finds no payment that it may refund. */
  predicate FailsAt(s: State, l: Label, t: CallId) {
    || l == ConnectFail(t) || l == Abort(t) || l == Commit(t, false) || l == InsertFailure(t, false)
    || (l.Crash? && t in s.txns && !s.txns[t].phase.Done?)
    || (l == Find(t) && t in s.txns && s.txns[t].call.RefundPaymentCall? && !MayRefund(s.tables, s.txns[t].call.id))
  }

  predicate MayRefund(tables: Tables, id: PaymentId) {
    id in tables.payments && tables.payments[id].status == SUCCESS
  }

  /** Some step of the run makes call t fail. */
  ghost predicate Fails(c: Config, s: State, labels: seq<Label>, t: CallId)
    requires IsRun(c, s, labels)
    decreases |labels|
  {
    labels != [] && (FailsAt(s, labels[0], t) || Fails(c, Step(c, s, labels[0]), labels[1..], t))
  }

  /** The call's answer is an error, or is going to be one. */
  predicate Errored(s: State, t: CallId) {
    t in s.txns && s.txns[t].phase in {RolledBack, Committed(Error), Done(Error)}
  }

  lemma OwnErrorStep(c: Config, s: State, l: Label)
    requires Enabled(c, s, l) && !l.Crash? && (l.t in s.txns ==> PhaseFits(s.txns[l.t]))
    requires l.t in s.txns ==> s.txns[l.t].phase != Committed(Error)
    ensures Errored(Step(c, s, l), l.t) <==> Errored(s, l.t) || FailsAt(s, l, l.t)
  {
  }

  lemma ReleaseErrorStep(c: Config, s: State, l: Label)
    requires Enabled(c, s, l) && !l.Crash? && l.t in s.txns && s.txns[l.t].phase == Committed(Error)
    ensures Errored(Step(c, s, l), l.t)
  {
    assert l.Release?;
  }

  lemma CrashErrorStep(s: State, s': State, t: CallId)
    requires s'.txns == map t | t in s.txns :: Crashed(s.txns[t])
    ensures Errored(s', t) <==> Errored(s, t) || (t in s.txns && !s.txns[t].phase.Done?)
  {
  }

  lemma OtherErrorStep(s: State, s': State, l: Label, t: CallId)
    requires !l.Crash? && t != l.t && Moves(s, s', l.t)
    ensures Errored(s', t) <==> Errored(s, t)
    ensures !FailsAt(s, l, t)
  {
  }

  lemma ErrorStep(c: Config, s: State, l: Label, t: CallId)
    requires TxnsOk(s) && Enabled(c, s, l)
    ensures Errored(Step(c, s, l), t) <==> Errored(s, t) || FailsAt(s, l, t)
  {
    if l.Crash? {
      CrashErrorStep(s, Step(c, s, l), t);
    } else {
      if t != l.t {
        Shape(c, s, l);
        OtherErrorStep(s, Step(c, s, l), l, t);
      } else if t in s.txns && s.txns[t].phase == Committed(Error) {
        ReleaseErrorStep(c, s, l);
      } else {
        OwnErrorStep(c, s, l);
      }
    }
  }

  lemma {:induction false} ErrorRun(c: Config, s: State, labels: seq<Label>, t: CallId)
    requires Inv(c, s) && IsRun(c, s, labels)
    ensures Errored(End(c, s, labels), t) <==> Errored(s, t) || Fails(c, s, labels, t)
    decreases |labels|
  {
    if labels != [] {
      StepInv(c, s, labels[0]);
      ErrorStep(c, s, labels[0], t);
      ErrorRun(c, Step(c, s, labels[0]), labels[1..], t);
    }
  }

  /** In every run a call that has answered has answered with an error if and only if a step of the run made
      it fail. */
  lemma ErrorsHaveCause(c: Config, labels: seq<Label>, t: CallId)
    requires IsRun(c, INIT, labels)
    requires t in End(c, INIT, labels).txns && End(c, INIT, labels).txns[t].phase.Done?
    ensures End(c, INIT, labels).txns[t].phase == Done(Error) <==> Fails(c, INIT, labels, t)
  {
    InitInv(c);
    ErrorRun(c, INIT, labels, t);
  }

  // ---- Answers that are no errors ----

  /** The step commits call t and tells it so. */
  predicate Settles(l: Label, t: CallId) {
    l == Commit(t, true) || l == InsertFailure(t, true)
  }

  /** What the commit has done: a charge learns whether its row was committed as REFUNDED, a refund the rows
      that it moved from SUCCESS to REFUNDED. */
  ghost predicate IsTrue(c: Config, s: State, l: Label, t: CallId, r: Reply)
    requires Enabled(c, s, l) && Settles(l, t)
  {
    var s' := Step(c, s, l);
    match s.txns[t].call
    case ChargeCall(_, _) =>
      t in s'.tables.payments && r == Charged(s'.tables.payments[t].status == REFUNDED)
    case RefundCall(_) => r == RefundedRows(MovedBy(c, s, l))
    case FailureCall(_) => r == FailureRecorded
    case RefundPaymentCall(_) => r == Marked
  }

  predicate Answering(s: State, t: CallId, r: Reply) {
    t in s.txns && (s.txns[t].phase == Committed(r) || s.txns[t].phase == Done(r))
  }

  lemma SettlingIsTrue(c: Config, s: State, l: Label, t: CallId) returns (r: Reply)
    requires Inv(c, s) && Enabled(c, s, l) && Settles(l, t)
    ensures r != Error && IsTrue(c, s, l, t, r) && Answering(Step(c, s, l), t, r)
  {
    assert PhaseFits(s.txns[t]) && ViewOk(s, t);
    if s.txns[t].call.RefundCall? {
      CommitReportsMoved(c, s, l);
      assert s.txns[t].phase.locked == MovedBy(c, s, l);
    }
    r := Step(c, s, l).txns[t].phase.reply;
  }

  /** An answer stays what it is unless a crash comes before it is given. */
  lemma AnswerStays(c: Config, s: State, l: Label, t: CallId, r: Reply)
    requires Enabled(c, s, l) && Answering(s, t, r) && !FailsAt(s, l, t)
    ensures Answering(Step(c, s, l), t, r)
  {
    if !l.Crash? && t != l.t {
      Shape(c, s, l);
    }
  }

  lemma {:induction false} AnswerStaysAlong(c: Config, s: State, labels: seq<Label>, t: CallId, r: Reply)
    requires IsRun(c, s, labels) && Answering(s, t, r) && !Fails(c, s, labels, t)
    ensures Answering(End(c, s, labels), t, r)
    decreases |labels|
  {
    if labels != [] {
      AnswerStays(c, s, labels[0], t, r);
      AnswerStaysAlong(c, Step(c, s, labels[0]), labels[1..], t, r);
    }
  }

  /** A call that has been told of its commit goes on to answer what that commit has done, unless a crash
      comes first. */
  lemma HeardCommitsAreAnswered(c: Config, s: State, l: Label, later: seq<Label>, t: CallId)
    requires Inv(c, s) && Enabled(c, s, l) && Settles(l, t)
    requires IsRun(c, Step(c, s, l), later) && !Fails(c, Step(c, s, l), later, t)
    ensures var s' := End(c, Step(c, s, l), later);
            exists r :: r != Error && IsTrue(c, s, l, t, r) && Answering(s', t, r)
  {
    var r := SettlingIsTrue(c, s, l, t);
    AnswerStaysAlong(c, Step(c, s, l), later, t, r);
  }

  /** Call t has an answer that is no error. */
  predicate Succeeded(s: State, t: CallId) {
    t in s.txns && (s.txns[t].phase.Committed? || s.txns[t].phase.Done?) && !Errored(s, t)
  }

  lemma OnlyCommitsSucceed(c: Config, s: State, l: Label, t: CallId)
    requires TxnsOk(s) && Enabled(c, s, l) && Succeeded(Step(c, s, l), t) && !Succeeded(s, t)
    ensures Settles(l, t)
  {
    if !l.Crash? && t != l.t {
      Shape(c, s, l);
    } else if !l.Crash? && t in s.txns {
      assert PhaseFits(s.txns[t]);
    }
  }

  lemma EarnedAtOnce(c: Config, s: State, l: Label, later: seq<Label>, t: CallId)
    requires Inv(c, s) && Enabled(c, s, l) && Settles(l, t) && IsRun(c, Step(c, s, l), later)
    requires Succeeded(End(c, Step(c, s, l), later), t)
    ensures IsTrue(c, s, l, t, End(c, Step(c, s, l), later).txns[t].phase.reply)
  {
    var r := SettlingIsTrue(c, s, l, t);
    StepInv(c, s, l);
    ErrorRun(c, Step(c, s, l), later, t);
    AnswerStaysAlong(c, Step(c, s, l), later, t, r);
  }

  /** Every answer that is no error was earned: the run holds the commit that it reports. */
  lemma {:induction false} AnswersAreEarned(c: Config, s: State, labels: seq<Label>, t: CallId)
    returns (before: seq<Label>, l: Label, later: seq<Label>)
    requires Inv(c, s) && IsRun(c, s, labels) && !Succeeded(s, t) && Succeeded(End(c, s, labels), t)
    ensures labels == before + [l] + later && Settles(l, t)
    ensures IsRun(c, s, before) && Enabled(c, End(c, s, before), l)
    ensures IsTrue(c, End(c, s, before), l, t, End(c, s, labels).txns[t].phase.reply)
    decreases |labels|
  {
    var s' := Step(c, s, labels[0]);
    StepInv(c, s, labels[0]);
    if Succeeded(s', t) {
      OnlyCommitsSucceed(c, s, labels[0], t);
      before, l, later := [], labels[0], labels[1..];
      EarnedAtOnce(c, s, l, later, t);
    } else {
      before, l, later := AnswersAreEarned(c, s', labels[1..], t);
      before := [labels[0]] + before;
      assert before[1..] + [l] + later == labels[1..];
    }
  }

  /** Nothing stops a failure: a call that waits for a client may get none, an open transaction may be rolled
      back, the reply to any commit may be lost, and the service may crash at any time. */
  lemma FailuresCanStrike(c: Config, s: State, t: CallId)
    requires Inv(c, s) && t in s.txns
    ensures Enabled(c, s, Crash)
    ensures Enabled(c, s, ConnectFail(t)) <==> s.txns[t].phase.Waiting? || s.txns[t].phase.Checked?
    ensures Enabled(c, s, Abort(t)) <==> t in s.clients && !s.txns[t].phase.Committed? && !s.txns[t].phase.RolledBack?
    ensures Enabled(c, s, Commit(t, false)) <==> Enabled(c, s, Commit(t, true))
    ensures Enabled(c, s, InsertFailure(t, false)) <==> Enabled(c, s, InsertFailure(t, true))
  {
    AnyoneCanFail(c, s, t);
  }

  lemma AnyoneCanFail(c: Config, s: State, t: CallId)
    requires t in s.txns
    ensures Enabled(c, s, Crash)
    ensures Enabled(c, s, ConnectFail(t)) <==> s.txns[t].phase.Waiting? || s.txns[t].phase.Checked?
    ensures Enabled(c, s, Abort(t))
       <==> HasClient(s.txns[t].phase) && !s.txns[t].phase.Committed? && !s.txns[t].phase.RolledBack?
    ensures Enabled(c, s, Commit(t, false)) <==> Enabled(c, s, Commit(t, true))
    ensures Enabled(c, s, InsertFailure(t, false)) <==> Enabled(c, s, InsertFailure(t, true))
  {
  }
}
