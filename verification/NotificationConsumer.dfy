/** The notification consumer's message handler, as the protocol's Handle step.

    handleMessage awaits only the handler. What follows, from reading its outcome to the last frame, runs
    without interruption, so the broker, the publisher and a cut come before it or after it. */
module NotificationConsumer {
  import opened Basics
  import opened NotificationProtocol
  import opened NotificationSafety

  /** Everything in a schedule happens that can happen when its turn comes. */
  function Served(c: Config, s: State, schedule: seq<Label>): State
    decreases |schedule|
  {
    if schedule == [] then s
    else Served(c, if Enabled(c, s, schedule[0]) then Step(c, s, schedule[0]) else s, schedule[1..])
  }

  lemma {:induction false} ServedNext(c: Config, s: State, schedule: seq<Label>, i: nat)
    requires i < |schedule|
    ensures var t := Served(c, s, schedule[..i]);
            Served(c, s, schedule[..i + 1]) == if Enabled(c, t, schedule[i]) then Step(c, t, schedule[i]) else t
    decreases i
  {
    if i > 0 {
      var t := if Enabled(c, s, schedule[0]) then Step(c, s, schedule[0]) else s;
      ServedNext(c, t, schedule[1..], i - 1);
      assert schedule[..i][1..] == schedule[1..][..i - 1] && schedule[..i + 1][1..] == schedule[1..][..i];
    } else {
      assert schedule[..1][1..] == [];
    }
  }

  /** A schedule that is a run of the protocol happens step by step. */
  lemma {:induction false} ServedRun(c: Config, s: State, schedule: seq<Label>)
    requires IsRun(c, s, schedule)
    ensures Served(c, s, schedule) == End(c, s, schedule)
    decreases |schedule|
  {
    if schedule != [] {
      ServedRun(c, Step(c, s, schedule[0]), schedule[1..]);
    }
  }

  class Consumer {
    const config: Config
    var state: State              // the queues, the channel and the delivery being handled
    ghost var trace: seq<Label>   // every step taken so far, by whomever

    /** The state is the one that the recorded run has led to. */
    ghost predicate Valid()
      reads this
    {
      IsRun(config, INIT, trace) && End(config, INIT, trace) == state
    }

    constructor (config: Config)
      ensures Valid() && this.config == config && state == INIT && trace == []
    {
      this.config := config;
      state, trace := INIT, [];
    }

    /** A step of the publisher, the broker or the clock, or a cut of the channel. */
    method Happen(l: Label)
      requires Valid() && Enabled(config, state, l) && !l.Handle?
      modifies this
      ensures Valid() && trace == old(trace) + [l]
      ensures state == Step(config, old(state), l)
    {
      RunExtends(config, INIT, trace, l);
      state, trace := Step(config, state, l), trace + [l];
    }

    /** The handler runs on the delivery; of what it does only the outcome is modelled, and the history. */
    method Process(success: bool)
      requires state.unacked.Some?
      modifies this`state
      ensures var m := old(state.unacked.value.msg).(handled := old(state.unacked.value.msg.handled) + 1);
              state == old(state).(unacked := Some(Delivery(m, false)),
                                   succeeded := if success then old(state.succeeded) + {m.id} else old(state.succeeded),
                                   seen := old(state.seen)[m.id := SeenOf(old(state), m.id) + 1])
    {
      var msg := state.unacked.value.msg.(handled := state.unacked.value.msg.handled + 1);
      state := state.(unacked := Some(Delivery(msg, false)), seen := state.seen[msg.id := SeenOf(state, msg.id) + 1]);
      if success {
        state := state.(succeeded := state.succeeded + {msg.id});
      }
    }

    /** Frames reach the broker in the order they are written, if at all. */
    method Write(f: Frame)
      modifies this`state
      ensures state == old(state).(frames := old(state.frames) + [f])
    {
      state := state.(frames := state.frames + [f]);
    }

    /** sendToQueue may throw, and then nothing is written. */
    method SendToRetryQueue(msg: Msg, ok: bool) returns (threw: bool)
      modifies this`state
      ensures threw == !ok
      ensures state == if ok then old(state).(frames := old(state.frames) + [ToRetry(msg)]) else old(state)
    {
      if ok {
        Write(ToRetry(msg));
      }
      threw := !ok;
    }

    /** Publish first, acknowledge after; a publish that throws sends the original to the dead-letter queue. */
    method ScheduleRetry(msg: Msg, sendOk: bool)
      modifies this`state
      ensures state == old(state).(frames := old(state.frames) + if sendOk then [ToRetry(msg), Ack] else [Nack(true)])
    {
      var threw := SendToRetryQueue(msg, sendOk);
      if threw {
        Write(Nack(true));
      } else {
        Write(Ack);
      }
    }

    /** The frames for an outcome: acknowledge, give up, or schedule a retry. */
    method Settle(msg: Msg, outcome: Outcome)
      modifies this`state
      ensures state == old(state).(frames := old(state.frames) + Emit(config, msg, outcome))
    {
      var retries := RetryCountOf(msg);
      if outcome.Success? {
        Write(Ack);
        return;
      }
      if retries >= config.maxRetries {
        Write(Nack(false));
        return;
      }
      ScheduleRetry(msg, outcome.sendOk);
    }

    /** Handling a delivery, whatever its outcome, is one step of the protocol and keeps its invariant. */
    method HandleMessage(outcome: Outcome)
      requires Valid() && Enabled(config, state, Handle(outcome))
      modifies this
      ensures Valid() && trace == old(trace) + [Handle(outcome)] && Inv(config, state)
      ensures state == Step(config, old(state), Handle(outcome))
      ensures state.succeeded
           == old(state.succeeded) + if outcome.Success? then {old(state.unacked.value.msg.id)} else {}
      ensures var retries := RetryCountOf(old(state.unacked.value.msg));
              state.frames == old(state.frames) +
                match outcome
                case Success => [Ack]
                case Failure(sendOk) =>
                  if retries >= config.maxRetries then [Nack(false)]
                  else if sendOk then [ToRetry(state.unacked.value.msg), Ack]
                  else [Nack(true)]
    {
      RunExtends(config, INIT, trace, Handle(outcome));
      Process(outcome.Success?);
      Settle(state.unacked.value.msg, outcome);
      trace := trace + [Handle(outcome)];
      RunInv(config, INIT, trace);
    }

    /** The consumer at work while everything else happens in any order. The run it makes is a run of the
        protocol, so what is proved of those holds here: no message is lost on the way. */
    method Serve(schedule: seq<Label>)
      requires Valid()
      modifies this
      ensures Valid() && old(trace) <= trace
      ensures state == Served(config, old(state), schedule)
      ensures forall id :: id in state.published && id !in state.succeeded ==> HasCopy(state, id)
    {
      var i := 0;
      while i < |schedule|
        invariant 0 <= i <= |schedule|
        invariant Valid() && old(trace) <= trace
        invariant state == Served(config, old(state), schedule[..i])
      {
        ServedNext(config, old(state), schedule, i);
        if Enabled(config, state, schedule[i]) {
          if schedule[i].Handle? {
            HandleMessage(schedule[i].outcome);
          } else {
            Happen(schedule[i]);
          }
        }
        i := i + 1;
      }
      assert schedule[..i] == schedule;
      RunInv(config, INIT, trace);
    }
  }
}
