/**
 * What the INVITE client does with every response and event, in terms of what happened before in its run and not of
 * the loop's own variables (engine/uac.go, engine/prack.go).
 */
module UacHistory {
  import opened Options
  import opened Uac

  /* ---- What happened so far ---- */

  predicate IsChallenge(e: Event) { e.Response? && (e.code == 401 || e.code == 407) }

  /** 422 Session Interval Too Small. */
  predicate IsTooSmall(e: Event) { e.Response? && e.code == 422 }

  function Challenges(run: seq<Event>): nat {
    if run == [] then 0
    else Challenges(run[..|run| - 1]) + if IsChallenge(run[|run| - 1]) then 1 else 0
  }

  predicate HadTooSmall(run: seq<Event>) {
    run != [] && (IsTooSmall(run[|run| - 1]) || HadTooSmall(run[..|run| - 1]))
  }

  /** The call was to be cancelled: by the caller, or because nobody answered. */
  predicate Asked(run: seq<Event>) {
    run != [] && (run[|run| - 1].CancelRequested? || run[|run| - 1].NoAnswer? || Asked(run[..|run| - 1]))
  }

  /** The last response was a provisional one: any other leads to a new INVITE or to the end. */
  predicate Ringing(run: seq<Event>) {
    if run == [] then false
    else
      var e := run[|run| - 1];
      if e.Response? then IsProvisional(e.code) else Ringing(run[..|run| - 1])
  }

  predicate CancelDue(run: seq<Event>) { Asked(run) && Ringing(run) }

  /** The greatest RSeq of the provisional responses. */
  function HighestRSeq(run: seq<Event>): nat {
    if run == [] then 0
    else
      var e, before := run[|run| - 1], HighestRSeq(run[..|run| - 1]);
      if e.Response? && IsProvisional(e.code) && e.rseq > before then e.rseq else before
  }

  /** A provisional response other than 100. */
  predicate Rang(run: seq<Event>) {
    && run != []
    && var e := run[|run| - 1];
       (e.Response? && 100 < e.code < 200) || Rang(run[..|run| - 1])
  }

  /** A response that asks for another INVITE and may still get one. */
  predicate MayRepeat(run: seq<Event>, password: bool, e: Event) {
    && !CancelDue(run)
    && ((IsChallenge(e) && password && Challenges(run) < 2) || (IsTooSmall(e) && !HadTooSmall(run)))
  }

  /* ---- The loop remembers it ---- */

  ghost predicate Recorded(s: Loop, run: seq<Event>) {
    s.result.None? ==>
      && s.authAttempts == Challenges(run) && s.retried422 == HadTooSmall(run)
      && s.provisional == Ringing(run) && s.cancelOpen == !Asked(run)
      && s.lastRSeq == HighestRSeq(run) && s.rang == Rang(run)
      && s.cancelSent == CancelDue(run)
  }

  lemma More(run: seq<Event>, e: Event)
    ensures Challenges(run + [e]) == Challenges(run) + if IsChallenge(e) then 1 else 0
    ensures HadTooSmall(run + [e]) <==> HadTooSmall(run) || IsTooSmall(e)
    ensures Asked(run + [e]) <==> Asked(run) || e.CancelRequested? || e.NoAnswer?
    ensures Ringing(run + [e]) == if e.Response? then IsProvisional(e.code) else Ringing(run)
    ensures HighestRSeq(run + [e]) == if e.Response? && IsProvisional(e.code) && e.rseq > HighestRSeq(run) then e.rseq
                                      else HighestRSeq(run)
    ensures Rang(run + [e]) <==> Rang(run) || (e.Response? && 100 < e.code < 200)
  {
    assert (run + [e])[..|run|] == run;
  }

  lemma ResponseRecorded(s: Loop, run: seq<Event>, password: bool, e: Event)
    requires Recorded(s, run) && s.result.None? && e.Response?
    ensures Recorded(OnResponse(s, password, e.code, e.usable, e.rseq), run + [e])
  {
    More(run, e);
    hide Challenges, HadTooSmall, Asked, Ringing, HighestRSeq, Rang;
  }

  lemma StepRecorded(s: Loop, run: seq<Event>, password: bool, e: Event)
    requires Recorded(s, run) && Enabled(s, e)
    ensures Recorded(Step(s, password, e), run + [e])
  {
    if e.Response? {
      ResponseRecorded(s, run, password, e);
    } else {
      More(run, e);
      hide Challenges, HadTooSmall, Asked, Ringing, HighestRSeq, Rang;
    }
  }

  /** The last event of a run. */
  lemma {:induction false} LastStep(s: Loop, password: bool, run: seq<Event>, e: Event)
    requires ValidRun(s, password, run + [e])
    ensures ValidRun(s, password, run) && Enabled(After(s, password, run), e)
    ensures After(s, password, run + [e]) == Step(After(s, password, run), password, e)
    decreases |run|
  {
    hide Step, Enabled;
    if run == [] {
      assert [e][1..] == [] && run + [e] == [e];
    } else {
      assert (run + [e])[0] == run[0] && (run + [e])[1..] == run[1..] + [e];
      LastStep(Step(s, password, run[0]), password, run[1..], e);
    }
  }

  lemma {:induction false} RunRecorded(first: nat, password: bool, run: seq<Event>)
    requires ValidRun(Start(first), password, run)
    ensures Recorded(After(Start(first), password, run), run)
  {
    if run != [] {
      var before, e := run[..|run| - 1], run[|run| - 1];
      assert run == before + [e];
      hide Recorded, Step, Enabled;
      LastStep(Start(first), password, before, e);
      RunRecorded(first, password, before);
      StepRecorded(After(Start(first), password, before), before, password, e);
    }
  }

  /* ---- The laws ---- */

  /**
   * A step sends another INVITE exactly when no CANCEL is due, the response is usable, and it is one of the first two
   * challenges and there is a password, or the first 422. It carries the next CSeq.
   */
  lemma InviteSentAgainIff(first: nat, password: bool, run: seq<Event>, e: Event)
    requires ValidRun(Start(first), password, run + [e])
    ensures var s, t := After(Start(first), password, run), After(Start(first), password, run + [e]);
            if MayRepeat(run, password, e) && e.usable
            then t.sent == s.sent + [Invite(s.invite + 1)] && t.invite == s.invite + 1 && t.result.None?
            else Invites(t.sent) == Invites(s.sent)
  {
    LastStep(Start(first), password, run, e);
    RunRecorded(first, password, run);
    var s := After(Start(first), password, run);
    hide After, ValidRun, Recorded, MayRepeat;
    if e.Response? {
      ResponseRepeats(s, run, password, e);
    } else {
      OthersSendNoInvite(s, run, password, e);
    }
  }

  lemma ResponseRepeats(s: Loop, run: seq<Event>, password: bool, e: Event)
    requires Recorded(s, run) && s.result.None? && e.Response?
    ensures var t := OnResponse(s, password, e.code, e.usable, e.rseq);
            if MayRepeat(run, password, e) && e.usable
            then t.sent == s.sent + [Invite(s.invite + 1)] && t.invite == s.invite + 1 && t.result.None?
            else t.sent == s.sent
  {
    hide Challenges, HadTooSmall, Asked, Ringing, HighestRSeq, Rang;
  }

  lemma OthersSendNoInvite(s: Loop, run: seq<Event>, password: bool, e: Event)
    requires !e.Response?
    ensures Invites(Step(s, password, e).sent) == Invites(s.sent) && !MayRepeat(run, password, e)
  {
    hide Invites;
    if e.CancelStarts? {
      SentMore(s.sent, Cancel(s.invite));
    } else if e.PrackStarts? {
      SentMore(s.sent, Prack(s.cseq + 1));
    }
  }

  /**
   * What each response does to the outcome: a provisional one and one that is answered by another INVITE leave it
   * open, any other ends the run with its own code; as a failure exactly when another INVITE was due but could not
   * be made.
   */
  lemma ResponseDecides(first: nat, password: bool, run: seq<Event>, e: Event)
    requires ValidRun(Start(first), password, run + [e]) && e.Response?
    ensures var t := After(Start(first), password, run + [e]);
            t.result == if IsProvisional(e.code) || (MayRepeat(run, password, e) && e.usable) then None
                        else if MayRepeat(run, password, e) then Some(Result(Some(e.code), true, false))
                        else Some(Result(Some(e.code), false, CancelDue(run)))
  {
    LastStep(Start(first), password, run, e);
    RunRecorded(first, password, run);
    hide After, ValidRun, Challenges, HadTooSmall, Asked, Ringing, HighestRSeq, Rang;
  }

  /** Without a final response: the end of the transaction, or 32 seconds without an answer to CANCEL. */
  lemma EndsWithoutResponse(first: nat, password: bool, run: seq<Event>, e: Event)
    requires ValidRun(Start(first), password, run + [e]) && !e.Response?
    ensures var s, t := After(Start(first), password, run), After(Start(first), password, run + [e]);
            t.result == if e.TransactionDone? then Some(Result(None, true, CancelDue(run)))
                        else if e.CancelWaitOver? then Some(Result(None, true, true))
                        else s.result
  {
    LastStep(Start(first), password, run, e);
    RunRecorded(first, password, run);
    hide After, ValidRun, Challenges, HadTooSmall, Asked, Ringing, HighestRSeq, Rang;
  }

  /**
   * While the outcome is open: CANCEL has been decided on exactly when it was asked for and the last response was a
   * provisional one; it is sent at once when the second of the two comes about. The call rings once a
   * provisional response other than 100 has come.
   */
  lemma CancelSentIffDue(first: nat, password: bool, run: seq<Event>)
    requires ValidRun(Start(first), password, run)
    ensures var s := After(Start(first), password, run);
            s.result.None? ==>
              && (s.cancelSent <==> CancelDue(run))
              && Cancels(s.sent) + (if s.pendingCancel then 1 else 0) == (if CancelDue(run) then 1 else 0)
              && (s.rang <==> Rang(run))
  {
    RunRecorded(first, password, run);
    StartKeepsInv(first);
    RunKeepsInv(Start(first), password, run, first);
    hide After, ValidRun, Challenges, HadTooSmall, Asked, Ringing, HighestRSeq, Rang;
  }

  lemma StartKeepsInv(first: nat)
    ensures VarsOk(Start(first), first) && SentOk(Start(first), first)
  {
    SentMore([], Invite(first));
    assert [] + [Invite(first)] == [Invite(first)];
  }

  /** A PRACK is due for exactly the reliable provisional responses with an RSeq above all before. */
  lemma PrackDueIff(first: nat, password: bool, run: seq<Event>, e: Event)
    requires ValidRun(Start(first), password, run + [e]) && e.Response?
    ensures var s, t := After(Start(first), password, run), After(Start(first), password, run + [e]);
            t.pendingPracks == s.pendingPracks + if IsProvisional(e.code) && e.rseq > HighestRSeq(run) then 1 else 0
  {
    LastStep(Start(first), password, run, e);
    RunRecorded(first, password, run);
    hide After, ValidRun, Challenges, HadTooSmall, Asked, Ringing, HighestRSeq, Rang;
  }
}
