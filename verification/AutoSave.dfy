/**
 * Saving the recording of a call (engine/callmedia.go): finish and any number of MarkFailed calls race for it.
 */
module AutoSave {

  datatype Mode = Off | Always | OnFailure

  /** The fields autoSave reads and writes under the call's mutex. recorded: the call has media and a directory. */
  datatype Fields = Fields(mode: Mode, recorded: bool, ended: bool, answered: bool, byError: bool,
                           failed: bool, saved: bool) {
    predicate Wanted() {
      mode.Always? || (mode.OnFailure? && (failed || (byError && answered)))
    }

    /** autoSave decides to write: from then on the recording counts as saved. */
    predicate Due() {
      recorded && Wanted() && !saved && ended
    }
  }

  class Call {
    const mode: Mode
    const recorded: bool
    var ended: bool
    var answered: bool
    var byError: bool
    var failed: bool
    var saved: bool

    ghost function View(): Fields
      reads this
    {
      Fields(mode, recorded, ended, answered, byError, failed, saved)
    }

    constructor (mode: Mode, recorded: bool)
      ensures View() == Fields(mode, recorded, false, false, false, false, false)
    {
      this.mode, this.recorded := mode, recorded;
      ended, answered, byError, failed, saved := false, false, false, false, false;
    }

    /** autoSave up to the end of its critical section; write says whether this thread writes the file. */
    method ClaimSave() returns (write: bool)
      modifies this
      ensures write == old(View()).Due()
      ensures View() == if write then old(View()).(saved := true) else old(View())
    {
      if !recorded {
        return false;
      }
      var failure := failed || (byError && answered);
      var want := mode.Always? || (mode.OnFailure? && failure);
      if !want || saved || !ended {
        return false;
      }
      saved := true;
      write := true;
    }

    /** MarkFailed; the check whether the call has ended is a second step. */
    method SetFailed()
      modifies this
      ensures View() == old(View()).(failed := true)
    {
      failed := true;
    }
  }

  /** The finishing thread: not there yet, between its critical section and autoSave, writing, past it. */
  datatype Finisher = Nobody | Closing | Writing | Past

  /**
   * MarkFailed threads: those that have set the flag and not yet looked at the state, those that saw the call
   * ended, and those that write. errored records an end by error after the answer, and late a Hangup that wrote
   * the cause between that end and the finisher's own look at it.
   */
  datatype System = System(f: Fields, fin: Finisher, toCheck: nat, toSave: nat, writing: nat, files: nat,
                           errored: bool, late: bool)

  datatype Event =
    | Answer
    | End(byError: bool)
    | FinisherClaims
    | FinisherWrites
    | MarkFailed
    | Check
    | MarkerClaims
    | MarkerWrites
    | LateCancel     // requestCancel writes endedBy = local, also after the end

  function Start(mode: Mode, recorded: bool): System {
    System(Fields(mode, recorded, false, false, false, false, false), Nobody, 0, 0, 0, 0, false, false)
  }

  predicate Enabled(s: System, e: Event) {
    match e
    case Answer => !s.f.ended
    case End(_) => !s.f.ended
    case FinisherClaims => s.fin.Closing?
    case FinisherWrites => s.fin.Writing?
    case MarkFailed => true
    case Check => s.toCheck > 0
    case MarkerClaims => s.toSave > 0
    case MarkerWrites => s.writing > 0
    case LateCancel => true
  }

  function Next(s: System, e: Event): System
    requires Enabled(s, e)
  {
    var claimed := if s.f.Due() then s.f.(saved := true) else s.f;
    match e
    case Answer => s.(f := s.f.(answered := true))
    case End(byError) => s.(f := s.f.(ended := true, byError := byError), fin := Closing,
                            errored := byError && s.f.answered)
    case FinisherClaims => s.(f := claimed, fin := if s.f.Due() then Writing else Past)
    case FinisherWrites => s.(fin := Past, files := s.files + 1)
    case MarkFailed => s.(f := s.f.(failed := true), toCheck := s.toCheck + 1)
    case Check => s.(toCheck := s.toCheck - 1, toSave := if s.f.ended then s.toSave + 1 else s.toSave)
    case MarkerClaims => s.(f := claimed, toSave := s.toSave - 1,
                            writing := if s.f.Due() then s.writing + 1 else s.writing)
    case MarkerWrites => s.(writing := s.writing - 1, files := s.files + 1)
    case LateCancel => s.(f := s.f.(byError := false), late := s.late || s.fin.Closing?)
  }

  predicate ValidRun(s: System, run: seq<Event>)
    decreases |run|
  {
    run == [] || (Enabled(s, run[0]) && ValidRun(Next(s, run[0]), run[1..]))
  }

  function After(s: System, run: seq<Event>): System
    requires ValidRun(s, run)
    decreases |run|
  {
    if run == [] then s else After(Next(s, run[0]), run[1..])
  }

  ghost predicate Inv(s: System) {
    && s.files + s.writing + (if s.fin.Writing? then 1 else 0) == (if s.f.saved then 1 else 0)
    && (s.fin.Nobody? <==> !s.f.ended)
    && (s.toCheck > 0 || s.toSave > 0 ==> s.f.failed)
    && (s.errored ==> s.f.answered && s.f.ended)
    && (s.late ==> s.f.ended)
    && CauseOk(s) && SavedOk(s) && PassedOk(s)
  }

  /** While the finisher closes the call, the cause is an error unless a late Hangup wrote it. */
  ghost predicate CauseOk(s: System) {
    && (s.fin.Closing? && s.f.answered ==> (s.f.byError <==> s.errored && !s.late))
    && (s.f.ended && s.f.answered && s.f.byError ==> s.errored && !s.late)
  }

  /** Only what the mode asks for is saved; an end by error counts only while nobody has overwritten it. */
  ghost predicate SavedOk(s: System) {
    s.f.saved ==>
      && s.f.recorded && s.f.ended
      && (s.f.mode.Always? || (s.f.mode.OnFailure? && (s.f.failed || (s.errored && !s.late))))
      && (s.fin.Closing? && s.f.mode.OnFailure? ==> s.f.failed)
  }

  /** What is due once the finisher has passed: the file, or a MarkFailed thread still on its way to it. */
  ghost predicate PassedOk(s: System) {
    s.f.recorded && (s.fin.Writing? || s.fin.Past?) && !s.f.saved ==>
      && !s.f.mode.Always?
      && (s.f.mode.OnFailure? && s.f.failed ==> s.toCheck + s.toSave > 0)
      && (s.f.mode.OnFailure? && s.errored ==> s.late)
  }

  lemma StepKeepsInv(s: System, e: Event)
    requires Inv(s) && Enabled(s, e)
    ensures Inv(Next(s, e))
    ensures Next(s, e).f.mode == s.f.mode && Next(s, e).f.recorded == s.f.recorded
  {}

  lemma {:induction false} RunKeepsInv(s: System, run: seq<Event>)
    requires Inv(s) && ValidRun(s, run)
    ensures Inv(After(s, run)) && After(s, run).f.mode == s.f.mode && After(s, run).f.recorded == s.f.recorded
    decreases |run|
  {
    if run != [] {
      hide Inv, Next, Enabled;
      StepKeepsInv(s, run[0]);
      RunKeepsInv(Next(s, run[0]), run[1..]);
    }
  }

  /**
   * In every interleaving there is at most one file, never before the call has ended and never one that the mode
   * does not ask for. Once finish and all MarkFailed calls have returned, a recorded call has its file if it is
   * always saved or was marked failed, whichever of the two threads came first.
   */
  lemma SavedExactlyOnce(mode: Mode, recorded: bool, run: seq<Event>)
    requires ValidRun(Start(mode, recorded), run)
    ensures var s := After(Start(mode, recorded), run);
            && s.files <= 1
            && (s.files == 1 ==>
                  s.f.ended && recorded && (mode.Always? || (mode.OnFailure? && (s.f.failed || s.errored))))
            && (Settled(s) ==>
                  (recorded && (mode.Always? || (mode.OnFailure? && s.f.failed)) ==> s.files == 1))
  {
    RunKeepsInv(Start(mode, recorded), run);
  }

  /** finish and all MarkFailed calls have returned. */
  predicate Settled(s: System) {
    s.fin.Past? && s.toCheck == s.toSave == s.writing == 0
  }

  /**
   * Which settled calls have their file, exactly: every one that is always saved, and of those saved on failure
   * the ones marked failed and the ones that ended by error after the answer and kept that cause until the
   * finisher looked.
   */
  lemma SavedIff(mode: Mode, recorded: bool, run: seq<Event>)
    requires ValidRun(Start(mode, recorded), run)
    ensures var s := After(Start(mode, recorded), run);
            Settled(s) ==>
              (s.files == 1 <==>
                recorded && (mode.Always? || (mode.OnFailure? && (s.f.failed || (s.errored && !s.late)))))
  {
    RunKeepsInv(Start(mode, recorded), run);
  }

  /**
   * An end by error after the answer is lost exactly when a late Hangup overwrote its cause in time and nobody marked
   * the call failed.
   */
  lemma ErrorSavedUnlessOverwritten(mode: Mode, recorded: bool, run: seq<Event>)
    requires ValidRun(Start(mode, recorded), run)
    ensures var s := After(Start(mode, recorded), run);
            recorded && mode.OnFailure? && s.errored ==>
              && (Settled(s) ==> (s.files == 0 <==> s.late && !s.f.failed))
              && (s.fin.Past? && s.writing == 0 && s.files == 0 ==> s.late)
  {
    RunKeepsInv(Start(mode, recorded), run);
  }

  /** Such a Hangup read the state before the answer and writes the cause between the end and autoSave. */
  lemma LateHangupLosesRecording()
    ensures exists run :: ValidRun(Start(OnFailure, true), run)
                          && var s := After(Start(OnFailure, true), run);
                             s.errored && Settled(s) && s.files == 0
  {
    var s0 := Start(OnFailure, true);
    var r4: seq<Event> := [FinisherClaims];
    var s1 := Next(s0, Answer);
    var s2 := Next(s1, End(true));
    var s3 := Next(s2, LateCancel);
    var s4 := Next(s3, FinisherClaims);
    var r3 := [LateCancel] + r4;
    var r2 := [End(true)] + r3;
    var r1 := [Answer] + r2;
    assert r1[1..] == r2 && r2[1..] == r3 && r3[1..] == r4 && r4[1..] == [];
    assert ValidRun(s3, r4) && After(s3, r4) == s4;
    assert ValidRun(s2, r3) && After(s2, r3) == s4;
    assert ValidRun(s1, r2) && After(s1, r2) == s4;
    assert ValidRun(s0, r1) && After(s0, r1) == s4;
  }
}
