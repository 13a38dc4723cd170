/** What the browser keeps of a chat's runs (`restoreRuns` and `handleWebSocketMessage` of
    `frontend/socket/handleChatEvent.ts`): snapshots replace the view, live events extend it. The final sort
    by creation time is not part of this model. */
module RunSession {
  import opened Wrappers
  import opened RunReplay
  import opened RunShown

  datatype Snapshot = Snapshot(id: string, status: RunStatus, events: seq<RunEvent>,
                               createdAt: Option<string>, reason: Option<string>)

  const UNREADABLE := "Could not read a progress update. Reconnect to reload run status."

  const EPOCH := "1970-01-01T00:00:00.000Z"

  function StatusName(s: RunStatus): string {
    match s
    case Running => "running"
    case Succeeded => "succeeded"
    case Failed => "failed"
    case Cancelled => "cancelled"
    case TimedOut => "timed_out"
    case Interrupted => "interrupted"
  }

  predicate HasFinish(es: seq<RunEvent>) {
    exists i :: 0 <= i < |es| && es[i].kind == RunFinished
  }

  /** The event that stands in for a missing `run_finished`. */
  function Closing(run: Snapshot): RunEvent {
    var last := if run.events == [] then "" else run.events[|run.events| - 1].createdAt;
    var at := if last != "" then last else OrElse(run.createdAt, EPOCH);
    RunEvent(RunFinished, run.id, run.id + ":terminal", at, None, None, false, Some(run.status),
             Some(OrElse(run.reason, "Run " + StatusName(run.status))), None, None, None, None, None)
  }

  function Undated(ms: seq<Message>, id: string): (r: seq<Message>)
    ensures |r| == |ms|
    ensures forall i :: 0 <= i < |ms| ==> r[i] == if ms[i].id == id then ms[i].(finishedAt := None) else ms[i]
  {
    seq(|ms|, i requires 0 <= i < |ms| => if ms[i].id == id then ms[i].(finishedAt := None) else ms[i])
  }

  function RestoredRun(ms: seq<Message>, run: Snapshot): seq<Message> {
    var shown := ApplyAll(ms, run.events);
    if run.status != Running && !HasFinish(run.events)
    then Undated(ApplyRunEvent(shown, Closing(run)), "run:" + run.id)
    else shown
  }

  function Restored(ms: seq<Message>, runs: seq<Snapshot>): seq<Message> {
    if runs == [] then ms else RestoredRun(Restored(ms, runs[..|runs| - 1]), runs[|runs| - 1])
  }

  /** `restoreRuns`. */
  method RestoreRuns(ms: seq<Message>, runs: seq<Snapshot>) returns (result: seq<Message>)
    ensures result == Restored(ms, runs)
  {
    result := ms;
    for r := 0 to |runs|
      invariant result == Restored(ms, runs[..r])
    {
      var run := runs[r];
      ghost var before := result;
      var finished := false;
      for i := 0 to |run.events|
        invariant result == ApplyAll(before, run.events[..i])
        invariant finished == HasFinish(run.events[..i])
      {
        assert run.events[..i + 1][..i] == run.events[..i];
        HasFinishOneMore(run.events, i);
        finished := finished || run.events[i].kind == RunFinished;
        result := ApplyRunEvent(result, run.events[i]);
      }
      assert run.events[..|run.events|] == run.events;
      if run.status != Running && !finished {
        result := Undated(ApplyRunEvent(result, Closing(run)), "run:" + run.id);
      }
      assert runs[..r + 1][..r] == runs[..r];
    }
    assert runs[..|runs|] == runs;
  }

  lemma HasFinishOneMore(es: seq<RunEvent>, i: nat)
    requires i < |es|
    ensures HasFinish(es[..i + 1]) <==> HasFinish(es[..i]) || es[i].kind == RunFinished
  {
    var a, b := es[..i], es[..i + 1];
    assert b[i] == es[i] && forall k :: 0 <= k < i ==> a[k] == b[k];
  }

  // ----- The session ------------------------------------------------------------------------------------------

  datatype View = View(messages: seq<Message>, terminal: set<string>, run: Option<string>, building: bool, url: Option<string>,
                       error: Option<string>)

  function FirstActive(runs: seq<Snapshot>): Option<string> {
    if runs == [] then None else if runs[0].status == Running then Some(runs[0].id) else FirstActive(runs[1..])
  }

  lemma {:induction false} FirstActiveIs(runs: seq<Snapshot>)
    ensures FirstActive(runs).None? <==> forall i :: 0 <= i < |runs| ==> runs[i].status != Running
    ensures FirstActive(runs).Some? ==>
      exists i :: 0 <= i < |runs| && runs[i].status == Running && FirstActive(runs) == Some(runs[i].id)
                  && forall j :: 0 <= j < i ==> runs[j].status != Running
  {
    if runs != [] && runs[0].status != Running {
      FirstActiveIs(runs[1..]);
      assert forall i :: 0 < i < |runs| ==> runs[i] == runs[1..][i - 1];
      if FirstActive(runs).Some? {
        var i :| 0 <= i < |runs[1..]| && runs[1..][i].status == Running && FirstActive(runs[1..]) == Some(runs[1..][i].id)
                 && forall j :: 0 <= j < i ==> runs[1..][j].status != Running;
        assert runs[i + 1] == runs[1..][i];
      }
    }
  }

  predicate Summarised(m: Message, runs: seq<Snapshot>) {
    m.eventType == Some("run_summary") && exists i :: 0 <= i < |runs| && runs[i].id == m.id
  }

  function Unsummarised(ms: seq<Message>, runs: seq<Snapshot>): seq<Message> {
    if ms == [] then []
    else (if Summarised(ms[0], runs) then [] else [ms[0]]) + Unsummarised(ms[1..], runs)
  }

  lemma {:induction false} UnsummarisedHolds(ms: seq<Message>, runs: seq<Snapshot>, m: Message)
    ensures m in Unsummarised(ms, runs) <==> m in ms && !Summarised(m, runs)
  {
    if ms != [] {
      UnsummarisedHolds(ms[1..], runs, m);
      assert m in ms <==> m == ms[0] || m in ms[1..];
    }
  }

  lemma {:induction false} UnsummarisedAppend(ms: seq<Message>, runs: seq<Snapshot>, rest: seq<Message>)
    ensures Unsummarised(ms + rest, runs) == Unsummarised(ms, runs) + Unsummarised(rest, runs)
  {
    if ms == [] {
      assert ms + rest == rest;
    } else {
      var all, head := ms + rest, if Summarised(ms[0], runs) then [] else [ms[0]];
      UnsummarisedAppend(ms[1..], runs, rest);
      assert all[0] == ms[0] && all[1..] == ms[1..] + rest;
      assert Unsummarised(all, runs) == head + Unsummarised(ms[1..] + rest, runs);
      assert Unsummarised(ms, runs) == head + Unsummarised(ms[1..], runs);
    }
  }

  /** Of the history, only the summaries of runs that come with it are left out; the rest keeps its order. */
  lemma LegacyHistoryIsKept(ms: seq<Message>, runs: seq<Snapshot>, rest: seq<Message>)
    ensures forall m :: m in Unsummarised(ms, runs) <==>
      m in ms && !(m.eventType == Some("run_summary") && exists i :: 0 <= i < |runs| && runs[i].id == m.id)
    ensures Unsummarised(ms + rest, runs) == Unsummarised(ms, runs) + Unsummarised(rest, runs)
  {
    forall m ensures m in Unsummarised(ms, runs) <==> m in ms && !Summarised(m, runs) { UnsummarisedHolds(ms, runs, m); }
    UnsummarisedAppend(ms, runs, rest);
  }

  function Ended(runs: seq<Snapshot>): set<string> {
    set i | 0 <= i < |runs| && runs[i].status != Running :: runs[i].id
  }

  /** The view after a history message. */
  function Synced(v: View, history: seq<Message>, runs: seq<Snapshot>, url: Option<string>): View {
    View(Restored(Unsummarised(history, runs), runs), v.terminal + Ended(runs), FirstActive(runs), FirstActive(runs).Some?,
         if Given(url) then url else None, None)
  }

  /** The address that a finish leaves: that of a success. */
  function FinishUrl(e: RunEvent): Option<string> {
    if e.status == Some(Succeeded) && Given(e.url) then e.url else None
  }

  /** The view after a live event. */
  function Received(v: View, e: RunEvent): View {
    if e.runId == "" || e.runId in v.terminal then v
    else
      var shown := v.(messages := ApplyRunEvent(v.messages, e));
      if e.kind == RunStarted || e.kind == Stage || e.kind == ToolStarted then shown.(run := Some(e.runId), building := true)
      else if e.kind == RunFinished then
        shown.(terminal := v.terminal + {e.runId}, run := None, building := false, error := None, url := FinishUrl(e))
      else shown
  }

  function ReceivedAll(v: View, es: seq<RunEvent>): View {
    if es == [] then v else Received(ReceivedAll(v, es[..|es| - 1]), es[|es| - 1])
  }

  /** The handlers that `handleWebSocketMessage` updates. */
  class Session {
    var messages: seq<Message>
    var terminalRuns: set<string>
    var runId: Option<string>
    var building: bool
    var appUrl: Option<string>
    var error: Option<string>

    function State(): View
      reads this
    {
      View(messages, terminalRuns, runId, building, appUrl, error)
    }

    method OnHistory(history: seq<Message>, runs: seq<Snapshot>, url: Option<string>)
      modifies this
      ensures State() == Synced(old(State()), history, runs, url)
      ensures forall id :: id in terminalRuns <==>
        id in old(terminalRuns) || exists i :: 0 <= i < |runs| && runs[i].status != Running && runs[i].id == id
      ensures runId.None? <==> forall i :: 0 <= i < |runs| ==> runs[i].status != Running
      ensures runId.Some? ==> exists i :: 0 <= i < |runs| && runs[i].status == Running && runId == Some(runs[i].id)
                                          && forall j :: 0 <= j < i ==> runs[j].status != Running
      ensures building <==> runId.Some?
      ensures error.None? && appUrl == if url.Some? && url.value != "" then url else None
    {
      var active: Option<string> := None;
      for i := 0 to |runs|
        invariant messages == old(messages)
        invariant terminalRuns == old(terminalRuns) + Ended(runs[..i])
        invariant FirstActive(runs) == if active.Some? then active else FirstActive(runs[i..])
      {
        assert Ended(runs[..i + 1]) == Ended(runs[..i]) + (if runs[i].status != Running then {runs[i].id} else {}) by {
          EndedOneMore(runs, i);
        }
        if runs[i].status != Running { terminalRuns := terminalRuns + {runs[i].id}; }
        else if active.None? { active := Some(runs[i].id); }
      }
      assert runs[..|runs|] == runs;
      FirstActiveIs(runs);
      messages := RestoreRuns(Unsummarised(history, runs), runs);
      runId, building := active, active.Some?;
      appUrl := if Given(url) then url else None;
      error := None;
    }

    /** A message that cannot be read changes nothing but the banner. */
    method OnUnreadable()
      modifies this`error
      ensures State() == old(State()).(error := Some(UNREADABLE))
    {
      error := Some(UNREADABLE);
    }

    method OnEvent(e: RunEvent)
      modifies this
      ensures State() == Received(old(State()), e)
      ensures e.runId == "" || e.runId in old(terminalRuns) ==> State() == old(State())
      ensures e.runId != "" && e.runId !in old(terminalRuns) ==>
        && messages == ApplyRunEvent(old(messages), e)
        && (e.kind == RunStarted || e.kind == Stage || e.kind == ToolStarted ==> runId == Some(e.runId) && building)
        && (e.kind == Verification || e.kind == ToolCompleted || e.kind == Other ==>
              runId == old(runId) && building == old(building))
        && (e.kind != RunFinished ==>
              terminalRuns == old(terminalRuns) && appUrl == old(appUrl) && error == old(error))
        && (e.kind == RunFinished ==>
              && terminalRuns == old(terminalRuns) + {e.runId} && runId.None? && !building && error.None?
              && appUrl == if e.status == Some(Succeeded) && e.url.Some? && e.url.value != "" then e.url else None)
    {
      if e.runId == "" { return; }
      if e.runId in terminalRuns { return; }
      messages := ApplyRunEvent(messages, e);
      if e.kind == RunStarted || e.kind == Stage || e.kind == ToolStarted {
        runId, building := Some(e.runId), true;
      }
      if e.kind == RunFinished {
        terminalRuns := terminalRuns + {e.runId};
        runId, building, error := None, false, None;
        if e.status == Some(Succeeded) && Given(e.url) { appUrl := e.url; } else { appUrl := None; }
      }
    }
  }

  lemma EndedOneMore(runs: seq<Snapshot>, i: nat)
    requires i < |runs|
    ensures Ended(runs[..i + 1]) == Ended(runs[..i]) + (if runs[i].status != Running then {runs[i].id} else {})
  {
    var a, b := runs[..i], runs[..i + 1];
    assert b[i] == runs[i];
    forall x | x in Ended(a) ensures x in Ended(b) {
      var k :| 0 <= k < |a| && a[k].status != Running && a[k].id == x;
      assert b[k] == a[k];
    }
    forall x | x in Ended(b) ensures x in Ended(a) || (runs[i].status != Running && x == runs[i].id) {
      var k :| 0 <= k < |b| && b[k].status != Running && b[k].id == x;
      assert k < i ==> a[k] == b[k];
    }
  }

  // ----- What the view shows ------------------------------------------------------------------------------------

  predicate NothingOpen(m: Message) {
    m.status.Some? && m.status != Some(Running) && forall i :: 0 <= i < |m.calls| ==> m.calls[i].status != InProgress
  }

  lemma {:induction false} FindUndated(ms: seq<Message>, id: string)
    ensures var f := Find(ms, id);
            Find(Undated(ms, id), id) == if f.Some? then Some(f.value.(finishedAt := None)) else None
  {
    if ms != [] && ms[0].id != id {
      assert Undated(ms, id)[1..] == Undated(ms[1..], id);
      FindUndated(ms[1..], id);
    }
  }

  /** A finished run's snapshot leaves nothing running on the screen, with or without its last event. */
  lemma EndedRunsShowNothingOpen(ms: seq<Message>, run: Snapshot)
    requires OfRun(run.id, run.events) && FinishesLast(run.events) && run.status != Running
    requires forall i :: 0 <= i < |run.events| ==> run.events[i].status != Some(Running)
    ensures var m := Find(RestoredRun(ms, run), "run:" + run.id);
            && m.Some? && NothingOpen(m.value)
            && (!HasFinish(run.events) ==> m.value.status == Some(run.status) && m.value.finishedAt.None?)
  {
    var es := run.events;
    ApplyAllIs(ms, run.id, es);
    if HasFinish(es) {
      assert es[|es| - 1].kind == RunFinished;
      FinishCloses(Fold(Find(ms, "run:" + run.id), es[..|es| - 1]), es[|es| - 1]);
    } else {
      ClosingCloses(ApplyAll(ms, es), run);
    }
  }

  lemma FinishCloses(m: Option<Message>, e: RunEvent)
    requires e.kind == RunFinished && e.status != Some(Running)
    ensures Step(m, e).Some? && NothingOpen(Step(m, e).value)
    ensures e.status.Some? ==> Step(m, e).value.status == e.status
  {
  }

  lemma ClosingCloses(shown: seq<Message>, run: Snapshot)
    requires run.id != "" && run.status != Running
    ensures var m := Find(Undated(ApplyRunEvent(shown, Closing(run)), "run:" + run.id), "run:" + run.id);
            m.Some? && NothingOpen(m.value) && m.value.status == Some(run.status) && m.value.finishedAt.None?
  {
    var id, e := "run:" + run.id, Closing(run);
    var m := Step(Find(shown, id), e);
    FinishCloses(Find(shown, id), e);
    FindPut(shown, id, m.value);
    FindUndated(ApplyRunEvent(shown, e), id);
  }

  /** The message of a run on its own: what its log shows, closed by the snapshot's status where the finish is missing. */
  function ShownRun(run: Snapshot): Option<Message> {
    var m := Fold(None, run.events);
    if run.status != Running && !HasFinish(run.events) then
      var closed := Step(m, Closing(run));
      if closed.Some? then Some(closed.value.(finishedAt := None)) else None
    else m
  }

  lemma RestoredRunShows(ms: seq<Message>, run: Snapshot)
    requires OfRun(run.id, run.events) && Find(ms, "run:" + run.id).None?
    ensures Find(RestoredRun(ms, run), "run:" + run.id) == ShownRun(run)
  {
    var id, shown := "run:" + run.id, ApplyAll(ms, run.events);
    ApplyAllIs(ms, run.id, run.events);
    if run.status != Running && !HasFinish(run.events) {
      var m := Step(Find(shown, id), Closing(run));
      FindPut(shown, id, m.value);
      FindUndated(ApplyRunEvent(shown, Closing(run)), id);
    }
  }

  lemma RestoringIsOwn(ms: seq<Message>, run: Snapshot)
    requires OfRun(run.id, run.events)
    ensures OnlyOwn(ms, RestoredRun(ms, run), "run:" + run.id)
  {
    var id, shown := "run:" + run.id, ApplyAll(ms, run.events);
    OthersAreUntouched(ms, run.id, run.events);
    if run.status != Running && !HasFinish(run.events) {
      var m := Step(Find(shown, id), Closing(run)).value;
      PutIsOwn(shown, id, m);
      if |ms| < |shown| && Find(shown, id).None? { FindLast(shown, id, m); }
    }
  }

  /** Distinct runs, none of which the chat's own messages show already. */
  predicate Separate(ms: seq<Message>, runs: seq<Snapshot>) {
    && (forall i :: 0 <= i < |runs| ==> OfRun(runs[i].id, runs[i].events) && Find(ms, "run:" + runs[i].id).None?)
    && (forall i, j :: 0 <= i < j < |runs| ==> runs[i].id != runs[j].id)
  }

  lemma {:induction false} OtherRunsAreNotShown(ms: seq<Message>, runs: seq<Snapshot>, id: string)
    requires forall i :: 0 <= i < |runs| ==> OfRun(runs[i].id, runs[i].events) && runs[i].id != id
    ensures Find(Restored(ms, runs), "run:" + id) == Find(ms, "run:" + id)
  {
    if runs != [] {
      var init, last := runs[..|runs| - 1], runs[|runs| - 1];
      OtherRunsAreNotShown(ms, init, id);
      RestoringIsOwn(Restored(ms, init), last);
      DifferentIds(last.id, id);
      FindAfterOwn(Restored(ms, init), RestoredRun(Restored(ms, init), last), "run:" + last.id, "run:" + id);
    }
  }

  lemma DifferentIds(a: string, b: string)
    requires a != b
    ensures "run:" + a != "run:" + b
  {
    assert ("run:" + a)[4..] == a && ("run:" + b)[4..] == b;
  }

  /** After a history message each run shows its own log, whatever the others are. */
  lemma {:induction false} EveryRunIsShown(ms: seq<Message>, runs: seq<Snapshot>, k: nat)
    requires Separate(ms, runs) && k < |runs|
    ensures Find(Restored(ms, runs), "run:" + runs[k].id) == ShownRun(runs[k])
  {
    var init, last := runs[..|runs| - 1], runs[|runs| - 1];
    if k == |runs| - 1 {
      OtherRunsAreNotShown(ms, init, last.id);
      RestoredRunShows(Restored(ms, init), last);
    } else {
      EveryRunIsShown(ms, init, k);
      RestoringIsOwn(Restored(ms, init), last);
      DifferentIds(last.id, runs[k].id);
      FindAfterOwn(Restored(ms, init), RestoredRun(Restored(ms, init), last), "run:" + last.id, "run:" + runs[k].id);
    }
  }

  /** A run that ended without a finish in its log shows the snapshot's status and reason, no time of its end, and its
      open calls failed. */
  lemma ClosedRunsShowTheirStatus(run: Snapshot)
    requires run.status != Running && !HasFinish(run.events) && OfRun(run.id, run.events)
    ensures var log, shown := Fold(None, run.events), ShownRun(run);
            && shown.Some? && shown.value.status == Some(run.status) && shown.value.finishedAt.None?
            && shown.value.content == (if run.reason.Some? && run.reason.value != "" then run.reason.value
                                       else "Run " + StatusName(run.status))
            && shown.value.activity == (if log.Some? then log.value.activity else [])
            && |shown.value.calls| == (if log.Some? then |log.value.calls| else 0)
            && forall i :: 0 <= i < |shown.value.calls| ==>
                 var c := log.value.calls[i];
                 shown.value.calls[i] == if c.status == InProgress
                                         then c.(status := Error, output := Some("Run ended before this operation completed."))
                                         else c
  {
  }

  /** Live events of a new run show its log. */
  lemma LiveLogIsShown(v: View, run: string, log: seq<RunEvent>)
    requires OfRun(run, log) && FinishesLast(log) && run !in v.terminal && Find(v.messages, "run:" + run).None?
    ensures Find(ReceivedAll(v, log).messages, "run:" + run) == Fold(None, log)
    ensures OnlyOwn(v.messages, ReceivedAll(v, log).messages, "run:" + run)
  {
    LiveEventsAreApplied(v, run, log);
    ApplyAllIs(v.messages, run, log);
    OthersAreUntouched(v.messages, run, log);
  }

  /** Once a run is known to be over, no event of it changes the view. */
  lemma {:induction false} LateEventsChangeNothing(v: View, run: string, es: seq<RunEvent>)
    requires OfRun(run, es) && run in v.terminal
    ensures ReceivedAll(v, es) == v
  {
    if es != [] {
      LateEventsChangeNothing(v, run, es[..|es| - 1]);
    }
  }

  /** Live events of a run that is not over are all applied, up to and including its finish. */
  lemma {:induction false} LiveEventsAreApplied(v: View, run: string, es: seq<RunEvent>)
    requires OfRun(run, es) && run !in v.terminal && FinishesLast(es)
    ensures var w := ReceivedAll(v, es);
            && w.messages == ApplyAll(v.messages, es)
            && w.terminal == v.terminal + (if HasFinish(es) then {run} else {})
            && w.url == (if HasFinish(es) then FinishUrl(es[|es| - 1]) else v.url)
            && w.error == (if HasFinish(es) then None else v.error)
            && (HasFinish(es) ==> w.run == None && !w.building)
            && (!HasFinish(es) && v.run == Some(run) && v.building ==> w.run == Some(run) && w.building)
  {
    if es != [] {
      var ys, x := es[..|es| - 1], es[|es| - 1];
      LiveEventsAreApplied(v, run, ys);
      assert x.runId == run;
      assert !HasFinish(ys);
      assert HasFinish(es) <==> x.kind == RunFinished by {
        if HasFinish(es) {
          var i :| 0 <= i < |es| && es[i].kind == RunFinished;
          assert i == |es| - 1;
        }
      }
    }
  }

  /** The address that the server gives on a reload: that of the finish, once there is one. */
  function UrlAfter(log: seq<RunEvent>, url: Option<string>): Option<string> {
    if HasFinish(log) then FinishUrl(log[|log| - 1]) else url
  }

  /** A history with any earlier runs, in which one run's snapshot was taken after `k` events, and that run's live
      events from any `j <= k` on show exactly what a reload after the last of them shows. */
  lemma LiveShowsWhatAReloadShows(v: View, history: seq<Message>, earlier: seq<Snapshot>, run: string, log: seq<RunEvent>,
                                  j: nat, k: nat, status: RunStatus, at: Option<string>, why: Option<string>, url: Option<string>)
    requires OfRun(run, log) && FinishesLast(log) && j <= k <= |log|
    requires forall i :: 0 <= i < |earlier| ==> earlier[i].id != run && earlier[i].status != Running
    requires run !in v.terminal && (status == Running <==> !HasFinish(log)) && (HasFinish(log) ==> j < |log|)
    ensures var snap, full := Snapshot(run, Running, log[..k], at, why), Snapshot(run, status, log, at, why);
            ReceivedAll(Synced(v, history, earlier + [snap], url), log[j..])
            == Synced(v, history, earlier + [full], UrlAfter(log, url))
  {
    var snap, full := Snapshot(run, Running, log[..k], at, why), Snapshot(run, status, log, at, why);
    var s, reload := Synced(v, history, earlier + [snap], url), Synced(v, history, earlier + [full], UrlAfter(log, url));
    var base := Restored(Unsummarised(history, earlier + [full]), earlier);
    LastOfSeveral(v, history, earlier, snap, url);
    LastOfSeveral(v, history, earlier, full, UrlAfter(log, url));
    SameIdsSummarised(history, earlier, snap, full);
    assert run !in Ended(earlier);
    FinishInTail(log, j);
    LiveEventsAreApplied(s, run, log[j..]);
    ResyncConverges(base, run, log, j, k);
  }

  /** The newest run comes last in a history: it is restored over the others, and is the active one if it runs. */
  lemma LastOfSeveral(v: View, history: seq<Message>, earlier: seq<Snapshot>, last: Snapshot, url: Option<string>)
    requires forall i :: 0 <= i < |earlier| ==> earlier[i].status != Running
    ensures var w := Synced(v, history, earlier + [last], url);
            && w.messages == RestoredRun(Restored(Unsummarised(history, earlier + [last]), earlier), last)
            && w.terminal == v.terminal + Ended(earlier) + (if last.status != Running then {last.id} else {})
            && w.run == (if last.status == Running then Some(last.id) else None) && w.building == w.run.Some?
  {
    var runs := earlier + [last];
    assert runs[..|runs| - 1] == earlier;
    EndedOneMore(runs, |earlier|);
    assert runs[..|earlier|] == earlier && runs[..|earlier| + 1] == runs;
    ActiveIsLast(earlier, last);
  }

  lemma {:induction false} ActiveIsLast(earlier: seq<Snapshot>, last: Snapshot)
    requires forall i :: 0 <= i < |earlier| ==> earlier[i].status != Running
    ensures FirstActive(earlier + [last]) == if last.status == Running then Some(last.id) else None
  {
    var runs := earlier + [last];
    if earlier == [] {
      assert runs[1..] == [];
    } else {
      assert runs[1..] == earlier[1..] + [last];
      ActiveIsLast(earlier[1..], last);
    }
  }

  lemma FinishInTail(log: seq<RunEvent>, j: nat)
    requires FinishesLast(log) && j <= |log| && (HasFinish(log) ==> j < |log|)
    ensures HasFinish(log[j..]) <==> HasFinish(log)
    ensures HasFinish(log) ==> log[j..][|log[j..]| - 1] == log[|log| - 1]
    ensures FinishesLast(log[j..])
  {
    if HasFinish(log) {
      assert log[|log| - 1].kind == RunFinished;
      assert log[j..][|log| - 1 - j].kind == RunFinished;
    }
    if HasFinish(log[j..]) {
      var i :| 0 <= i < |log[j..]| && log[j..][i].kind == RunFinished;
      assert log[j + i].kind == RunFinished;
    }
  }

  lemma {:induction false} SameIdsSummarised(ms: seq<Message>, earlier: seq<Snapshot>, a: Snapshot, b: Snapshot)
    requires a.id == b.id
    ensures Unsummarised(ms, earlier + [a]) == Unsummarised(ms, earlier + [b])
  {
    if ms != [] {
      SameIdsSummariseOne(ms[0], earlier, a, b);
      SameIdsSummarised(ms[1..], earlier, a, b);
    }
  }

  lemma SameIdsSummariseOne(m: Message, earlier: seq<Snapshot>, a: Snapshot, b: Snapshot)
    requires a.id == b.id
    ensures Summarised(m, earlier + [a]) == Summarised(m, earlier + [b])
  {
    var x, y := earlier + [a], earlier + [b];
    assert forall i :: 0 <= i < |x| ==> x[i].id == y[i].id;
  }
}
