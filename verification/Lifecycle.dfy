/**
 * One call under every interleaving of the threads that drive it (engine/call.go): the INVITE goroutine,
 * hang-ups, the peer's BYE and the one thread that gets to finish it.
 */
module Lifecycle {

  datatype State = Calling | Ringing | Connected | Ended {
    function Rank(): nat {
      match this
      case Calling => 0
      case Ringing => 1
      case Connected => 2
      case Ended => 3
    }
  }

  /**
   * The fields behind the call's mutex. ringing, connected and done count how often each channel was closed:
   * closing one twice panics. answered is a non-zero answer time, rang a non-zero ring time.
   */
  datatype Core = Core(state: State, status: nat, rang: bool, answered: bool, ringing: nat, connected: nat, done: nat)

  const NEW_CALL := Core(Calling, 0, false, false, 0, 0, 0)

  function MarkedRinging(c: Core): Core {
    if c.state.Rank() >= 1 then c
    else c.(state := Ringing, rang := true, ringing := c.ringing + 1)
  }

  function MarkedConnected(c: Core): Core {
    if c.state.Rank() >= 2 then c
    else c.(state := Connected, status := 200, answered := true, connected := c.connected + 1,
            ringing := if c.state.Rank() < 1 then c.ringing + 1 else c.ringing)
  }

  /** The critical section of finish; whether it is the first one and whether the call was connected. */
  function FinishLocked(c: Core, status: nat): (Core, bool, bool) {
    if c.state == Ended then (c, false, false)
    else
      var was := c.state == Connected;
      (c.(state := Ended, status := if status != 0 && !was then status else c.status,
          ringing := if c.state.Rank() < 1 then c.ringing + 1 else c.ringing), true, was)
  }

  datatype Cause = Unset | Local | Remote | Error | Timeout

  /** The call object; its mutex makes each of these methods one atomic step. */
  class Call {
    var state: State
    var status: nat
    var rang: bool
    var answered: bool
    var ringing: nat
    var connected: nat
    var done: nat
    var endedBy: Cause
    var reason: string
    var ended: int

    ghost function View(): Core
      reads this
    {
      Core(state, status, rang, answered, ringing, connected, done)
    }

    constructor ()
      ensures View() == NEW_CALL
    {
      state, status, rang, answered, ringing, connected, done := Calling, 0, false, false, 0, 0, 0;
      endedBy, reason, ended := Unset, "", 0;
    }

    method MarkRinging()
      modifies this
      ensures View() == MarkedRinging(old(View()))
    {
      if state.Rank() >= Ringing.Rank() {
        return;
      }
      state := Ringing;
      rang := true;
      ringing := ringing + 1;
    }

    method MarkConnected()
      modifies this
      ensures View() == MarkedConnected(old(View()))
    {
      if state.Rank() >= Connected.Rank() {
        return;
      }
      if state.Rank() < Ringing.Rank() {
        ringing := ringing + 1;
      }
      state := Connected;
      status := 200;
      answered := true;
      connected := connected + 1;
    }

    method BeginFinish(cause: Cause, code: nat, text: string, now: int) returns (first: bool, wasConnected: bool)
      modifies this
      ensures (View(), first, wasConnected) == FinishLocked(old(View()), code)
      ensures (endedBy, reason, ended) == if first then (cause, text, now) else old((endedBy, reason, ended))
    {
      if state == Ended {
        return false, false;
      }
      wasConnected := state == Connected;
      if state.Rank() < Ringing.Rank() {
        ringing := ringing + 1;
      }
      state := Ended;
      if code != 0 && !wasConnected {
        status := code;
      }
      endedBy, reason, ended := cause, text, now;
      first := true;
    }
  }

  /* ---- The threads ---- */

  /** The thread that finished the call: releasing resources, reporting CallEnd, waking the waiters. */
  datatype Finisher = Nobody | Releasing(was: bool) | Reported(was: bool) | Finished(was: bool)

  /** runOutgoing: where it is after the result of the INVITE. An incoming call has no such thread. */
  datatype Outgoing =
    | Incoming
    | Inviting
    | Answered(cancelled: bool)                            // 2xx
    | Acked(cancelled: bool)
    | SetUp(cancelled: bool)                               // CallSetup reported
    | HangingUp                                            // confirmed although CANCEL was sent: bye
    | Ending(status: nat, acked: bool, cancelled: bool)    // finish is next
    | Over(acked: bool, cancelled: bool)

  /** Confirmed is the moment at which the INVITE goroutine marks the call connected. */
  datatype Emission = CallSetup(success: bool) | Ack | Confirmed | Bye | CallEnd

  /** waiting counts Hangup calls blocked in their select, byes the threads between BYE and finish. */
  datatype System = System(core: Core, fin: Finisher, out: Outgoing, waiting: nat, byes: nat, hungUp: nat,
                           log: seq<Emission>)

  datatype Event =
    | Ring                                     // an 18x, or our own 180
    | Connect                                  // the handler of an incoming call answered
    | Result(code: nat, cancelled: bool)       // final result of the INVITE, code 0 without a response
    | AckSent
    | AckFails
    | ReportSetup
    | OutgoingConnects
    | OutgoingBye
    | OutgoingFinishes
    | PeerEnds(status: nat)                    // BYE from the peer, or another end of an incoming call
    | HangupStarts
    | HangupSeesDone
    | HangupSeesConnected
    | HangupTimesOut
    | ByeFinishes(ok: bool)                    // Hangup after its BYE
    | Report
    | Wake

  function Start(incoming: bool): System {
    System(NEW_CALL, Nobody, if incoming then Incoming else Inviting, 0, 0, 0, [])
  }

  predicate IsSuccess(code: nat) { 200 <= code < 300 }

  predicate Enabled(s: System, e: Event) {
    match e
    case Ring => s.out.Incoming? || s.out.Inviting?
    case Connect => s.out.Incoming?
    case Result(_, _) => s.out.Inviting?
    case AckSent => s.out.Answered?
    case AckFails => s.out.Answered?
    case ReportSetup => s.out.Acked?
    case OutgoingConnects => s.out.SetUp?
    case OutgoingBye => s.out.HangingUp?
    case OutgoingFinishes => s.out.Ending?
    case PeerEnds(_) => true
    case HangupStarts => true
    case HangupSeesDone => s.waiting > 0 && s.core.done > 0
    case HangupSeesConnected => s.waiting > 0 && s.core.connected > 0
    case HangupTimesOut => s.waiting > 0
    case ByeFinishes(_) => s.byes > 0
    case Report => s.fin.Releasing?
    case Wake => s.fin.Reported?
  }

  /** finish up to the end of its critical section; only the first thread goes on from there. */
  function Finish(s: System, status: nat): System {
    var (core, first, was) := FinishLocked(s.core, status);
    s.(core := core, fin := if first then Releasing(was) else s.fin)
  }

  function Next(s: System, e: Event): System
    requires Enabled(s, e)
  {
    match e
    case Ring => s.(core := MarkedRinging(s.core))
    case Connect => s.(core := MarkedConnected(s.core))
    case Result(code, cancelled) =>
      if IsSuccess(code) then s.(out := Answered(cancelled))
      else s.(log := s.log + [CallSetup(false)], out := Ending(if cancelled then 487 else code, false, cancelled))
    case AckSent => s.(log := s.log + [Ack], out := Acked(s.out.cancelled))
    case AckFails => s.(log := s.log + [CallSetup(false)], out := Ending(0, false, s.out.cancelled))
    case ReportSetup => s.(log := s.log + [CallSetup(!s.out.cancelled)], out := SetUp(s.out.cancelled))
    case OutgoingConnects =>
      s.(log := s.log + [Confirmed], core := MarkedConnected(s.core),
         out := if s.out.cancelled then HangingUp else Over(true, false))
    case OutgoingBye => s.(log := s.log + [Bye], out := Ending(0, true, true))
    case OutgoingFinishes => Finish(s, s.out.status).(out := Over(s.out.acked, s.out.cancelled))
    case PeerEnds(status) => Finish(s, status)
    case HangupStarts =>
      if s.core.state == Ended then s.(hungUp := s.hungUp + 1)
      else if s.core.state == Connected then s.(log := s.log + [Bye], byes := s.byes + 1)
      else s.(waiting := s.waiting + 1)
    case HangupSeesDone => s.(waiting := s.waiting - 1, hungUp := s.hungUp + 1)
    case HangupSeesConnected => s.(waiting := s.waiting - 1, log := s.log + [Bye], byes := s.byes + 1)
    case HangupTimesOut => s.(waiting := s.waiting - 1)
    case ByeFinishes(ok) => Finish(s, 0).(byes := s.byes - 1, hungUp := if ok then s.hungUp + 1 else s.hungUp)
    case Report => s.(log := if s.fin.was then s.log + [CallEnd] else s.log, fin := Reported(s.fin.was))
    case Wake => s.(core := s.core.(done := s.core.done + 1), fin := Finished(s.fin.was))
  }

  predicate ValidRun(s: System, run: seq<Event>)
    decreases |run|
  {
    run == [] || (Enabled(s, run[0]) && ValidRun(Next(s, run[0]), run[1..]))
  }

  function After(s: System, run: seq<Event>): System
    requires ValidRun(s, run)
    decreases |run|
  {
    if run == [] then s else After(Next(s, run[0]), run[1..])
  }

  /* ---- The fields, the channels and the finishing thread ---- */

  function One(b: bool): nat { if b then 1 else 0 }

  /** The channels agree with the state and none is closed twice; an answered call keeps status 200. */
  ghost predicate CoreOk(c: Core) {
    && c.ringing == One(c.state.Rank() >= 1)
    && c.connected == One(c.answered)
    && (c.state == Connected ==> c.answered)
    && (c.answered ==> c.state.Rank() >= 2 && c.status == 200)
    && (c.rang ==> c.state.Rank() >= 1)
  }

  ghost predicate FinisherOk(s: System) {
    && (s.fin.Nobody? <==> s.core.state != Ended)
    && (!s.fin.Nobody? ==> s.fin.was == s.core.answered)
    && s.core.done == One(s.fin.Finished?)
    && (s.hungUp > 0 ==> s.core.state == Ended)
  }

  lemma CoreSteps(c: Core, status: nat)
    requires CoreOk(c)
    ensures CoreOk(MarkedRinging(c)) && CoreOk(MarkedConnected(c)) && CoreOk(FinishLocked(c, status).0)
    ensures MarkedRinging(c).state.Rank() >= c.state.Rank() && MarkedConnected(c).state.Rank() >= c.state.Rank()
    ensures c.answered ==> MarkedConnected(c) == c
  {}

  lemma StepKeepsFields(s: System, e: Event)
    requires CoreOk(s.core) && FinisherOk(s) && Enabled(s, e)
    ensures CoreOk(Next(s, e).core) && FinisherOk(Next(s, e))
    ensures Next(s, e).core.state.Rank() >= s.core.state.Rank()
    ensures s.core.answered ==> Next(s, e).core.answered
  {
    CoreSteps(s.core, 0);
  }

  /* ---- What the INVITE goroutine reports and sends ---- */

  function Count(log: seq<Emission>, e: Emission): nat {
    if log == [] then 0 else Count(log[..|log| - 1], e) + One(log[|log| - 1] == e)
  }

  function Setups(log: seq<Emission>): nat {
    Count(log, CallSetup(true)) + Count(log, CallSetup(false))
  }

  lemma CountMore(log: seq<Emission>, x: Emission, e: Emission)
    ensures Count(log + [x], e) == Count(log, e) + One(x == e)
  {
    assert (log + [x])[..|log|] == log;
  }

  predicate SetupReported(out: Outgoing) {
    out.SetUp? || out.HangingUp? || out.Ending? || out.Over?
  }

  predicate HasAcked(out: Outgoing) {
    out.Acked? || out.SetUp? || out.HangingUp? || (out.Ending? && out.acked) || (out.Over? && out.acked)
  }

  predicate Succeeded(out: Outgoing) {
    (out.SetUp? && !out.cancelled) || (out.Over? && out.acked && !out.cancelled)
  }

  ghost predicate Before(log: seq<Emission>, x: Emission, y: Emission) {
    exists i, j :: 0 <= i < j < |log| && log[i] == x && log[j] == y
  }

  ghost predicate AckFirst(log: seq<Emission>) {
    forall j :: 0 <= j < |log| && log[j] == Confirmed ==> Ack in log[..j]
  }

  ghost predicate LogOk(s: System) {
    && Setups(s.log) == One(SetupReported(s.out))
    && Count(s.log, CallSetup(true)) == One(Succeeded(s.out))
    && Count(s.log, CallEnd) == One((s.fin.Reported? || s.fin.Finished?) && s.fin.was)
    && (HasAcked(s.out) <==> Ack in s.log)
    && AckFirst(s.log)
    && (s.out.Over? && s.out.acked && s.out.cancelled ==> Before(s.log, Ack, Bye))
    && (s.out.Ending? && s.out.acked ==> s.out.cancelled && Before(s.log, Ack, Bye))
  }

  ghost predicate OutgoingOk(s: System) {
    && (s.core.answered ==>
          s.out.Incoming? || s.out.HangingUp? || (s.out.Ending? && s.out.acked) || (s.out.Over? && s.out.acked))
    && (s.out.Over? ==> s.core.state == Ended || (s.core.state == Connected && s.out.acked && !s.out.cancelled))
    && (s.out.HangingUp? || (s.out.Ending? && s.out.acked) ==> s.core.state.Rank() >= 2)
  }

  lemma StepKeepsOutgoing(s: System, e: Event)
    requires CoreOk(s.core) && FinisherOk(s) && OutgoingOk(s) && Enabled(s, e)
    ensures OutgoingOk(Next(s, e))
  {
    CoreSteps(s.core, 0);
  }

  lemma LogMore(log: seq<Emission>, x: Emission)
    ensures forall e :: Count(log + [x], e) == Count(log, e) + One(x == e)
    ensures Ack in log + [x] <==> Ack in log || x == Ack
    ensures AckFirst(log) && (x == Confirmed ==> Ack in log) ==> AckFirst(log + [x])
    ensures Before(log, Ack, Bye) || (Ack in log && x == Bye) ==> Before(log + [x], Ack, Bye)
  {
    var t := log + [x];
    forall e
      ensures Count(t, e) == Count(log, e) + One(x == e)
    {
      CountMore(log, x, e);
    }
    forall j | 0 <= j <= |log|
      ensures t[..j] == log[..j]
    {}
    assert log[..|log|] == log;
    if Before(log, Ack, Bye) {
      var i, j :| 0 <= i < j < |log| && log[i] == Ack && log[j] == Bye;
      assert t[i] == Ack && t[j] == Bye;
    }
    if Ack in log {
      var i :| 0 <= i < |log| && log[i] == Ack;
      assert t[i] == Ack && t[|log|] == x;
    }
  }

  lemma StepKeepsLog(s: System, e: Event)
    requires FinisherOk(s) && OutgoingOk(s) && LogOk(s) && Enabled(s, e)
    ensures LogOk(Next(s, e))
  {
    hide Count, Before, AckFirst, MarkedRinging, MarkedConnected;
    if |Next(s, e).log| > |s.log| {
      LogMore(s.log, Next(s, e).log[|s.log|]);
    }
  }

  ghost predicate Inv(s: System) {
    CoreOk(s.core) && FinisherOk(s) && OutgoingOk(s) && LogOk(s)
  }

  lemma {:induction false} RunKeepsInv(s: System, run: seq<Event>)
    requires Inv(s) && ValidRun(s, run)
    ensures Inv(After(s, run)) && After(s, run).core.state.Rank() >= s.core.state.Rank()
    ensures s.core.answered ==> After(s, run).core.answered
    decreases |run|
  {
    hide CoreOk, FinisherOk, OutgoingOk, LogOk, Next, Enabled;
    if run != [] {
      StepKeepsFields(s, run[0]);
      StepKeepsOutgoing(s, run[0]);
      StepKeepsLog(s, run[0]);
      RunKeepsInv(Next(s, run[0]), run[1..]);
    }
  }

  lemma StartOk(incoming: bool)
    ensures Inv(Start(incoming))
  {}

  /* ---- The theorems ---- */

  /**
   * Under every interleaving each channel is closed at most once and in step with the state, an answered call
   * keeps status 200, CallEnd is reported exactly once if the call was answered and never otherwise, and Hangup
   * has returned true only after the call has ended.
   */
  lemma CallLifecycle(incoming: bool, run: seq<Event>)
    requires ValidRun(Start(incoming), run)
    ensures var t := After(Start(incoming), run);
            && (t.core.state == Connected ==> t.core.answered)
            && (t.core.answered ==> t.core.status == 200)
            && t.core.ringing == One(t.core.state.Rank() >= 1) && t.core.connected == One(t.core.answered)
            && (t.core.done == 0 || (t.core.done == 1 && t.core.state == Ended))
            && Count(t.log, CallEnd) <= One(t.core.answered)
            && (t.core.done == 1 ==> Count(t.log, CallEnd) == One(t.core.answered))
            && (t.hungUp > 0 ==> t.core.state == Ended)
  {
    hide ValidRun, After, OutgoingOk, AckFirst, Before, Setups, Count, Next, Enabled;
    StartOk(incoming);
    RunKeepsInv(Start(incoming), run);
  }

  /** The state of a call that any run has led to never goes back, and having been answered is never undone. */
  lemma StateNeverGoesBack(incoming: bool, run: seq<Event>, more: seq<Event>)
    requires ValidRun(Start(incoming), run) && ValidRun(After(Start(incoming), run), more)
    ensures var s := After(Start(incoming), run);
            s.core.state.Rank() <= After(s, more).core.state.Rank()
            && (s.core.answered ==> After(s, more).core.answered)
  {
    hide Inv;
    StartOk(incoming);
    RunKeepsInv(Start(incoming), run);
    RunKeepsInv(After(Start(incoming), run), more);
  }

  /**
   * When runOutgoing is over it has reported exactly one CallSetup; nothing was confirmed before the ACK; an
   * acknowledged answer that CANCEL lost to was followed by BYE; and the call has ended, or it is connected
   * and was answered and acknowledged without CANCEL.
   */
  lemma OutgoingCall(run: seq<Event>)
    requires ValidRun(Start(false), run)
    ensures var s := After(Start(false), run);
            && Setups(s.log) <= 1
            && (forall j :: 0 <= j < |s.log| && s.log[j] == Confirmed ==> Ack in s.log[..j])
            && (s.out.Over? ==>
                 && Setups(s.log) == 1
                 && (Count(s.log, CallSetup(true)) == 1 <==> s.out.acked && !s.out.cancelled)
                 && (s.out.acked && s.out.cancelled ==> Before(s.log, Ack, Bye))
                 && (s.core.state == Ended || (s.core.state == Connected && s.out.acked && !s.out.cancelled)))
  {
    StartOk(false);
    RunKeepsInv(Start(false), run);
  }

  /** The two counts of a finished outgoing call, by the flags that the threads carry. */
  lemma CountsByFlags(run: seq<Event>)
    requires ValidRun(Start(false), run)
    ensures var s := After(Start(false), run);
            s.out.Over? && s.core.done == 1 ==>
              && Count(s.log, CallSetup(true)) == One(s.out.acked && !s.out.cancelled)
              && Count(s.log, CallEnd) == One(s.core.answered)
  {
    hide CoreOk, OutgoingOk, Count, Setups, AckFirst, Before, After, ValidRun, Next, Enabled;
    StartOk(false);
    RunKeepsInv(Start(false), run);
  }

  /* ---- Which events come first ---- */

  predicate Acknowledged(run: seq<Event>) {
    run != [] && (run[0].AckSent? || Acknowledged(run[1..]))
  }

  /** The INVITE's result says that CANCEL was sent. */
  predicate CancelSent(run: seq<Event>) {
    run != [] && ((run[0].Result? && run[0].cancelled) || CancelSent(run[1..]))
  }

  /** The call had ended, by a BYE of the peer say, before the INVITE goroutine came to mark it connected. */
  predicate Overtaken(s: System, run: seq<Event>)
    requires ValidRun(s, run)
    decreases |run|
  {
    run != [] && ((run[0].OutgoingConnects? && s.core.state == Ended) || Overtaken(Next(s, run[0]), run[1..]))
  }

  predicate KnowsCancelled(out: Outgoing) {
    match out
    case Incoming => false
    case Inviting => false
    case Answered(cancelled) => cancelled
    case Acked(cancelled) => cancelled
    case SetUp(cancelled) => cancelled
    case HangingUp => true
    case Ending(_, _, cancelled) => cancelled
    case Over(_, cancelled) => cancelled
  }

  predicate PastConfirming(out: Outgoing) {
    out.HangingUp? || (out.Ending? && out.acked) || (out.Over? && out.acked)
  }

  /** Where an outgoing call is, given what has happened in its run. */
  ghost predicate Traced(s: System, acked: bool, cancelled: bool, overtaken: bool) {
    && !s.out.Incoming?
    && (HasAcked(s.out) <==> acked)
    && (KnowsCancelled(s.out) <==> cancelled)
    && (s.core.state == Connected ==> s.core.answered)
    && if PastConfirming(s.out) then s.core.answered <==> !overtaken else !s.core.answered && !overtaken
  }

  lemma StepTraced(s: System, e: Event, acked: bool, cancelled: bool, overtaken: bool)
    requires Traced(s, acked, cancelled, overtaken) && Enabled(s, e) && OutgoingOk(s)
    ensures Traced(Next(s, e), acked || e.AckSent?, cancelled || (e.Result? && e.cancelled),
                   overtaken || (e.OutgoingConnects? && s.core.state == Ended))
  {}

  lemma {:induction false} RunTraced(s: System, run: seq<Event>, acked: bool, cancelled: bool, overtaken: bool)
    requires Traced(s, acked, cancelled, overtaken) && Inv(s) && ValidRun(s, run)
    ensures Traced(After(s, run), acked || Acknowledged(run), cancelled || CancelSent(run),
                   overtaken || Overtaken(s, run))
    decreases |run|
  {
    hide CoreOk, FinisherOk, OutgoingOk, LogOk, Next, Enabled, Traced;
    if run != [] {
      var e := run[0];
      StepTraced(s, e, acked, cancelled, overtaken);
      StepKeepsFields(s, e);
      StepKeepsOutgoing(s, e);
      StepKeepsLog(s, e);
      RunTraced(Next(s, e), run[1..], acked || e.AckSent?, cancelled || (e.Result? && e.cancelled),
                overtaken || (e.OutgoingConnects? && s.core.state == Ended));
    }
  }

  /**
   * Successful CallSetups and CallEnds of a finished outgoing call balance exactly when its answer, if it was
   * acknowledged, met both a CANCEL and an end of the call on its way to the confirmation, or neither.
   */
  lemma SetupAndEndBalance(run: seq<Event>)
    requires ValidRun(Start(false), run)
    ensures var s := After(Start(false), run);
            s.out.Over? && s.core.done == 1 ==>
              (Count(s.log, CallSetup(true)) == Count(s.log, CallEnd)
               <==> (Acknowledged(run) ==> (CancelSent(run) <==> Overtaken(Start(false), run))))
  {
    hide After, ValidRun, Count, Overtaken, Acknowledged, CancelSent;
    CountsByFlags(run);
    StartOk(false);
    RunTraced(Start(false), run, false, false, false);
  }

  /** The empty run, for building a concrete one from its end. */
  lemma NoMore(s: System) returns (run: seq<Event>)
    ensures run == [] && ValidRun(s, run) && After(s, run) == s
  {
    run := [];
  }

  lemma Preceded(s: System, e: Event, t: System, rest: seq<Event>) returns (run: seq<Event>)
    requires Enabled(s, e) && Next(s, e) == t && ValidRun(t, rest)
    ensures run == [e] + rest && ValidRun(s, run) && After(s, run) == After(t, rest)
  {
    run := [e] + rest;
    assert run[1..] == rest;
  }

  /** They do not balance when a 2xx overtakes CANCEL: the call ends although its setup did not succeed. */
  lemma AnswerDuringCancelEndsWithoutSetup()
    ensures exists run :: ValidRun(Start(false), run)
                          && After(Start(false), run).log == [Ack, CallSetup(false), Confirmed, Bye, CallEnd]
                          && After(Start(false), run).out.Over? && After(Start(false), run).core.done == 1
  {
    hide ValidRun, After, Count, Setups;
    var s0 := Start(false);
    var s1 := System(NEW_CALL, Nobody, Answered(true), 0, 0, 0, []);
    var s2 := System(NEW_CALL, Nobody, Acked(true), 0, 0, 0, [Ack]);
    var s3 := System(NEW_CALL, Nobody, SetUp(true), 0, 0, 0, [Ack, CallSetup(false)]);
    var s4 := System(Core(Connected, 200, false, true, 1, 1, 0), Nobody, HangingUp, 0, 0, 0,
                     [Ack, CallSetup(false), Confirmed]);
    var s5 := System(Core(Connected, 200, false, true, 1, 1, 0), Nobody, Ending(0, true, true), 0, 0, 0,
                     [Ack, CallSetup(false), Confirmed, Bye]);
    var s6 := System(Core(Ended, 200, false, true, 1, 1, 0), Releasing(true), Over(true, true), 0, 0, 0,
                     [Ack, CallSetup(false), Confirmed, Bye]);
    var s7 := System(Core(Ended, 200, false, true, 1, 1, 0), Reported(true), Over(true, true), 0, 0, 0,
                     [Ack, CallSetup(false), Confirmed, Bye, CallEnd]);
    var s8 := System(Core(Ended, 200, false, true, 1, 1, 1), Finished(true), Over(true, true), 0, 0, 0,
                     [Ack, CallSetup(false), Confirmed, Bye, CallEnd]);
    var r8 := NoMore(s8);
    var r7 := Preceded(s7, Wake, s8, r8);
    var r6 := Preceded(s6, Report, s7, r7);
    var r5 := Preceded(s5, OutgoingFinishes, s6, r6);
    var r4 := Preceded(s4, OutgoingBye, s5, r5);
    var r3 := Preceded(s3, OutgoingConnects, s4, r4);
    var r2 := Preceded(s2, ReportSetup, s3, r3);
    var r1 := Preceded(s1, AckSent, s2, r2);
    var r0 := Preceded(s0, Result(200, true), s1, r1);
  }

  /** Nor when the peer's BYE overtakes the confirmation: a successful setup is never ended. */
  lemma ByeBeforeConfirmationIsNotCounted()
    ensures exists run :: ValidRun(Start(false), run)
                          && After(Start(false), run).log == [Ack, CallSetup(true), Confirmed]
                          && After(Start(false), run).out.Over? && After(Start(false), run).core.done == 1
  {
    hide ValidRun, After, Count, Setups;
    var s0 := Start(false);
    var s1 := System(NEW_CALL, Nobody, Answered(false), 0, 0, 0, []);
    var s2 := System(NEW_CALL, Nobody, Acked(false), 0, 0, 0, [Ack]);
    var s3 := System(NEW_CALL, Nobody, SetUp(false), 0, 0, 0, [Ack, CallSetup(true)]);
    var s4 := System(Core(Ended, 0, false, false, 1, 0, 0), Releasing(false), SetUp(false), 0, 0, 0,
                     [Ack, CallSetup(true)]);
    var s5 := System(Core(Ended, 0, false, false, 1, 0, 0), Releasing(false), Over(true, false), 0, 0, 0,
                     [Ack, CallSetup(true), Confirmed]);
    var s6 := System(Core(Ended, 0, false, false, 1, 0, 0), Reported(false), Over(true, false), 0, 0, 0,
                     [Ack, CallSetup(true), Confirmed]);
    var s7 := System(Core(Ended, 0, false, false, 1, 0, 1), Finished(false), Over(true, false), 0, 0, 0,
                     [Ack, CallSetup(true), Confirmed]);
    var r7 := NoMore(s7);
    var r6 := Preceded(s6, Wake, s7, r7);
    var r5 := Preceded(s5, Report, s6, r6);
    var r4 := Preceded(s4, OutgoingConnects, s5, r5);
    var r3 := Preceded(s3, PeerEnds(0), s4, r4);
    var r2 := Preceded(s2, ReportSetup, s3, r3);
    var r1 := Preceded(s1, AckSent, s2, r2);
    var r0 := Preceded(s0, Result(200, false), s1, r1);
  }
}
