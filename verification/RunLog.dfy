/** The durable event log of one run (`agent/service.py`, `agent/events.py`): numbered events, one
    terminal outcome, and commits whose caller may be cancelled before it hears of them. */
module RunLog {
  import opened Wrappers

  const ACTIVITY: nat := 200
  const PAGE: nat := 201

  datatype Status = Running | Succeeded | Failed | Cancelled | TimedOut | Interrupted

  datatype Event = Event(sequence: nat, terminal: bool)

  /** Executing: the run's task may still emit. Closing: its body has ended, by itself or by an exception
      or a cancellation, and only `finish` follows. Inactive: the run is no longer registered. */
  datatype Phase = Executing | Closing | Inactive

  /** The database rows (`log`, `status`), the events the task remembers, and the statuses some
      reader has loaded without a lock and not yet written back. */
  datatype Run = Run(log: seq<Event>, status: Status, remembered: nat, phase: Phase, staleReader: bool)

  /** How a commit ends for its caller. */
  datatype Commit = Seen | Unseen | Refused

  datatype Choice =
    | Emit(commit: Commit) | Leave | Finish(outcome: Status, commit: Commit) | Deregister
    | Restart | ReadSnapshot | WriteSnapshot

  function LastSequence(log: seq<Event>): nat {
    if log == [] then 0 else Max(LastSequence(log[..|log| - 1]), log[|log| - 1].sequence)
  }

  function Max(a: nat, b: nat): nat { if a >= b then a else b }

  /** `emit`, and the checkpoint event of `save_files`: the number comes from the remembered events. */
  function Emitted(r: Run, commit: Commit): Run
    requires r.phase.Executing?
  {
    if r.remembered >= ACTIVITY || commit.Refused? || (exists e :: e in r.log && e.sequence == r.remembered + 1)
    then r.(phase := Closing)
    else
      var log := r.log + [Event(r.remembered + 1, false)];
      if commit.Seen? then r.(log := log, remembered := r.remembered + 1) else r.(log := log, phase := Closing)
  }

  /** `finish`: the number comes from the durable log, and only a running run has an outcome. */
  function Finished(r: Run, outcome: Status, commit: Commit): Run
    requires r.phase != Inactive && outcome != Running
  {
    if r.status != Running || commit.Refused? then r.(phase := Closing)
    else
      r.(log := r.log + [Event(LastSequence(r.log) + 1, true)], status := outcome, phase := Closing,
         remembered := if commit.Seen? then r.remembered + 1 else r.remembered)
  }

  function Next(r: Run, c: Choice): Run {
    match c
    case Emit(commit) => if r.phase.Executing? then Emitted(r, commit) else r
    case Leave => if r.phase.Executing? then r.(phase := Closing) else r
    case Finish(outcome, commit) => if r.phase != Inactive && outcome != Running then Finished(r, outcome, commit) else r
    case Deregister => if r.phase.Closing? then r.(phase := Inactive) else r
    case Restart =>
      r.(phase := Inactive, remembered := 0, staleReader := false, status := if r.status == Running then Interrupted else r.status)
    case ReadSnapshot => r.(staleReader := r.status == Running)
    case WriteSnapshot =>
      if r.staleReader && r.phase.Inactive? then r.(status := Interrupted, staleReader := false) else r.(staleReader := false)
  }

  /** `run_events`: the first page after a sequence number, which is never longer than `PAGE`. */
  function Page(log: seq<Event>, after: nat): (page: seq<Event>)
    ensures |page| <= PAGE
  {
    var rest := Later(log, after);
    if |rest| <= PAGE then rest else rest[..PAGE]
  }

  function Later(log: seq<Event>, after: nat): seq<Event> {
    if log == [] then []
    else Later(log[..|log| - 1], after) + (if log[|log| - 1].sequence > after then [log[|log| - 1]] else [])
  }

  // ----- What holds of every run -----------------------------------------------------------------------

  /** Numbered 1..n without gaps; a terminal event is the last one. */
  ghost predicate WellNumbered(log: seq<Event>) {
    && (forall i :: 0 <= i < |log| ==> log[i].sequence == i + 1)
    && (forall i :: 0 <= i < |log| - 1 ==> !log[i].terminal)
  }

  predicate HasTerminal(log: seq<Event>) {
    log != [] && log[|log| - 1].terminal
  }

  ghost predicate Inv(r: Run) {
    && WellNumbered(r.log)
    && (HasTerminal(r.log) ==> r.status != Running)
    && |r.log| <= (if HasTerminal(r.log) then PAGE else ACTIVITY)
    && (r.phase.Executing? ==> r.status == Running && r.remembered == |r.log|)
  }

  lemma {:induction false} LastOfWellNumbered(log: seq<Event>)
    requires WellNumbered(log)
    ensures LastSequence(log) == |log|
  {
    if log != [] {
      assert WellNumbered(log[..|log| - 1]);
      LastOfWellNumbered(log[..|log| - 1]);
    }
  }

  lemma NextKeepsInv(r: Run, c: Choice)
    requires Inv(r)
    ensures Inv(Next(r, c))
  {
    LastOfWellNumbered(r.log);
  }

  function RunAll(r: Run, choices: seq<Choice>): Run
    decreases |choices|
  {
    if choices == [] then r else RunAll(Next(r, choices[0]), choices[1..])
  }

  predicate Initial(r: Run) {
    r.log == [] && r.status == Running && r.remembered == 0 && r.phase.Executing? && !r.staleReader
  }

  lemma {:induction false} RunKeepsInv(r: Run, choices: seq<Choice>)
    requires Inv(r)
    ensures Inv(RunAll(r, choices))
    decreases |choices|
  {
    if choices != [] {
      NextKeepsInv(r, choices[0]);
      RunKeepsInv(Next(r, choices[0]), choices[1..]);
    }
  }

  /** The log theorem: in every state of every run, whatever commits went unseen, the events are numbered
      1..n, at most one is terminal and it is the last, and the first page holds all of them. */
  lemma LogsAreWellNumbered(r: Run, choices: seq<Choice>)
    requires Initial(r)
    ensures WellNumbered(RunAll(r, choices).log) && Inv(RunAll(r, choices))
    ensures |RunAll(r, choices).log| <= PAGE && Page(RunAll(r, choices).log, 0) == RunAll(r, choices).log
  {
    RunKeepsInv(r, choices);
    LaterThanNothing(RunAll(r, choices).log);
  }

  lemma {:induction false} LaterThanNothing(log: seq<Event>)
    requires WellNumbered(log)
    ensures Later(log, 0) == log
  {
    if log != [] {
      assert WellNumbered(log[..|log| - 1]);
      LaterThanNothing(log[..|log| - 1]);
      assert log == log[..|log| - 1] + [log[|log| - 1]];
    }
  }

  /** A page after any number holds the next events in order, up to 201 of them. */
  lemma {:induction false} PagesContinue(log: seq<Event>, after: nat)
    requires WellNumbered(log) && after <= |log|
    ensures Later(log, after) == log[after..]
    ensures Page(log, after) == if |log| - after <= 201 then log[after..] else log[after..after + 201]
  {
    if after == |log| {
      LaterThanAll(log, after);
    } else {
      var init := log[..|log| - 1];
      assert WellNumbered(init);
      PagesContinue(init, after);
      assert log[after..] == init[after..] + [log[|log| - 1]];
    }
  }

  lemma {:induction false} LaterThanAll(log: seq<Event>, after: nat)
    requires WellNumbered(log) && |log| <= after
    ensures Later(log, after) == []
  {
    if log != [] {
      assert WellNumbered(log[..|log| - 1]);
      LaterThanAll(log[..|log| - 1], after);
    }
  }

  // ----- What changes a run's outcome --------------------------------------------------------------------

  /** A status changes only by the first `finish` that commits, to the outcome it names and with one terminal event; by a
      restart, which interrupts what was running; and by a snapshot that finds no task. */
  lemma StatusMoves(r: Run, c: Choice)
    requires Inv(r)
    ensures var n := Next(r, c);
            if c.Finish? && c.outcome != Running && r.phase != Inactive && r.status == Running && !c.commit.Refused?
            then n.status == c.outcome && n.log == r.log + [Event(|r.log| + 1, true)]
            else if c.Restart? && r.status == Running then n.status == Interrupted && n.log == r.log
            else if c.WriteSnapshot? && r.staleReader && r.phase.Inactive? then n.status == Interrupted && n.log == r.log
            else n.status == r.status
  {
    LastOfWellNumbered(r.log);
  }

  /** The log grows by one numbered event at a time: by an emission that commits, seen or not, within the first 200, and by
      the finish. */
  lemma LogMoves(r: Run, c: Choice)
    requires Inv(r)
    ensures var n := Next(r, c);
            n.log == if c.Emit? && r.phase.Executing? && |r.log| < 200 && !c.commit.Refused? then r.log + [Event(|r.log| + 1, false)]
                     else if c.Finish? && c.outcome != Running && r.phase != Inactive && r.status == Running && !c.commit.Refused?
                     then r.log + [Event(|r.log| + 1, true)]
                     else r.log
    ensures c.Emit? && r.phase.Executing? ==> (Next(r, c).phase.Executing? <==> |r.log| < 200 && c.commit.Seen?)
  {
    LastOfWellNumbered(r.log);
    if c.Emit? && r.phase.Executing? { assert forall e :: e in r.log ==> e.sequence != r.remembered + 1; }
  }

  // ----- When a terminal status is final ---------------------------------------------------------------

  /** A terminal status survives a step, unless the step writes back a status read before the run
      finished: `snapshot` reads and writes without a lock. */
  lemma TerminalIsAbsorbingUnlessStale(r: Run, c: Choice)
    requires Inv(r) && r.status != Running
    ensures Next(r, c).status == r.status <==>
      !(c.WriteSnapshot? && r.staleReader && r.phase.Inactive? && r.status != Interrupted)
    ensures r.log <= Next(r, c).log && |Next(r, c).log| == |r.log|
  {
  }

  /** Reads that no write follows before the run ends cannot happen: every snapshot is one step. */
  predicate AtomicSnapshots(r: Run, choices: seq<Choice>)
    decreases |choices|
  {
    choices != [] ==>
      && (r.staleReader ==> choices[0].WriteSnapshot?)
      && AtomicSnapshots(Next(r, choices[0]), choices[1..])
  }

  /** With a snapshot that reads and writes in one step, terminal statuses are final. */
  lemma {:induction false} TerminalIsFinalWithAtomicSnapshots(r: Run, choices: seq<Choice>)
    requires Inv(r) && r.status != Running && !r.staleReader && AtomicSnapshots(r, choices)
    ensures RunAll(r, choices).status == r.status && RunAll(r, choices).log == r.log
    decreases |choices|
  {
    if choices != [] {
      NextKeepsInv(r, choices[0]);
      TerminalIsAbsorbingUnlessStale(r, choices[0]);
      TerminalIsFinalWithAtomicSnapshots(Next(r, choices[0]), choices[1..]);
    }
  }

  /** As written, a reader that loads the run just before it finishes turns its success into an interruption. */
  lemma SnapshotCanOverwriteSuccess(r: Run)
    requires Initial(r)
    ensures var finished := RunAll(r, [ReadSnapshot, Leave, Finish(Succeeded, Seen), Deregister]);
            finished.status == Succeeded && HasTerminal(finished.log) && Next(finished, WriteSnapshot).status == Interrupted
  {
    var r1 := Next(Next(r, ReadSnapshot), Leave);
    var r2 := Next(r1, Finish(Succeeded, Seen));
    var tail := [Finish(Succeeded, Seen), Deregister];
    assert [ReadSnapshot, Leave, Finish(Succeeded, Seen), Deregister][1..] == [Leave] + tail && ([Leave] + tail)[1..] == tail;
    assert tail[1..] == [Deregister] && [Deregister][1..] == [];
    assert RunAll(r2, [Deregister]) == Next(r2, Deregister);
    assert RunAll(r1, tail) == Next(r2, Deregister);
  }

  // ----- The methods -------------------------------------------------------------------------------------

  /** A run's rows and the task's memory of them, as `emit` and `finish` change them. */
  class LiveRun {
    var log: seq<Event>
    var status: Status
    var remembered: nat
    var phase: Phase
    ghost var staleReader: bool

    ghost function State(): Run
      reads this
    {
      Run(log, status, remembered, phase, staleReader)
    }

    /** False is an exception for the caller: the budget, a failed commit, or a cancellation. */
    method Emit(commit: Commit) returns (ok: bool)
      requires phase.Executing?
      modifies this`log, this`remembered, this`phase
      ensures State() == Emitted(old(State()), commit)
      ensures ok <==> phase.Executing?
      ensures ok ==> remembered == old(remembered) + 1 <= 200 && log == old(log) + [Event(remembered, false)]
      ensures !ok ==> remembered == old(remembered) && phase.Closing?
      ensures ok <==> commit.Seen? && old(remembered) < 200 && forall e :: e in old(log) ==> e.sequence != old(remembered) + 1
      ensures commit.Refused? ==> log == old(log)
    {
      if remembered >= ACTIVITY {
        phase := Closing;
        return false;
      }
      var event := Event(remembered + 1, false);
      // The primary key of an event is its run and its number.
      if commit.Refused? || (exists e :: e in log && e.sequence == event.sequence) {
        phase := Closing;
        return false;
      }
      log := log + [event];
      if commit.Unseen? {
        phase := Closing;
        return false;
      }
      remembered := remembered + 1;
      ok := true;
    }

    method Finish(outcome: Status, commit: Commit)
      requires phase != Inactive && outcome != Running
      modifies this`log, this`status, this`remembered, this`phase
      ensures State() == Finished(old(State()), outcome, commit)
      ensures old(status) == Running && !commit.Refused? ==>
        && status == outcome && |log| == |old(log)| + 1 && log[..|old(log)|] == old(log) && log[|old(log)|].terminal
        && forall e :: e in old(log) ==> e.sequence < log[|old(log)|].sequence
      ensures old(status) != Running || commit.Refused? ==> status == old(status) && log == old(log)
    {
      phase := Closing;
      if status != Running || commit.Refused? { return; }
      var last := HighestSequence();
      log := log + [Event(last + 1, true)];
      status := outcome;
      if commit.Seen? { remembered := remembered + 1; }
    }

    method HighestSequence() returns (last: nat)
      ensures last == LastSequence(log)
      ensures forall e :: e in log ==> e.sequence <= last
      ensures last == 0 || exists e :: e in log && e.sequence == last
    {
      last := 0;
      for i := 0 to |log|
        invariant last == LastSequence(log[..i])
        invariant forall e :: e in log[..i] ==> e.sequence <= last
        invariant last == 0 || exists e :: e in log[..i] && e.sequence == last
      {
        assert log[..i + 1][..i] == log[..i];
        last := Max(last, log[i].sequence);
      }
      assert log[..|log|] == log;
    }
  }
}
