/** What the reducer of `frontend/socket/handleChatEvent.ts` shows of a run's log, read off the log itself: which calls,
    in which state, which activity, which text and which outcome. */
module RunShown {
  import opened Wrappers
  import opened RunReplay

  predicate Mentions(e: RunEvent, c: string) {
    (e.kind == ToolStarted || e.kind == ToolCompleted) && e.callId == Some(c) && c != ""
  }

  predicate Completes(e: RunEvent, c: string) {
    Mentions(e, c) && e.kind == ToolCompleted
  }

  /** The event replaces the text of the message. */
  predicate Speaks(e: RunEvent) {
    e.kind != ToolStarted && e.kind != ToolCompleted && e.kind != Stage && e.kind != Verification
    && e.message.Some? && e.message.value != ""
  }

  /** The call that the message shows under the id. */
  function Shown(m: Message, c: string): ToolCall
    requires HasCall(m, c)
  {
    m.calls[CallIndex(m.calls, c)]
  }

  /** What an event says of its call. */
  function Told(e: RunEvent, c: string, status: CallStatus, output: Option<string>): ToolCall {
    ToolCall(c, if e.name.Some? && e.name.value != "" then e.name.value else "Tool", status, output, e.details, e.duration,
             e.runId, e.eventId)
  }

  // ----- One event ---------------------------------------------------------------------------------------------

  lemma PutCallShows(calls: seq<ToolCall>, call: ToolCall, c: string)
    ensures var r := PutCall(calls, call); var i := CallIndex(r, c);
            if c == call.id then i < |r| && r[i] == call
            else if CallIndex(calls, c) < |calls| then i == CallIndex(calls, c) && r[i] == calls[i]
            else i == |r|
  {
    var r := PutCall(calls, call);
    PutCallKeepsIds(calls, call);
    FirstCall(calls, call.id);
    CallIndexIs(r, call.id, CallIndex(calls, call.id));
    if c != call.id {
      if CallIndex(calls, c) < |calls| { SameIdsSameIndex(calls, r, c); } else { StillMissing(calls, r, call, c); }
    }
  }

  lemma StillMissing(calls: seq<ToolCall>, r: seq<ToolCall>, call: ToolCall, c: string)
    requires r == PutCall(calls, call) && c != call.id && CallIndex(calls, c) == |calls|
    ensures CallIndex(r, c) == |r|
  {
    FirstCall(calls, c);
    MissingIs(r, c);
  }

  lemma {:induction false} MissingIs(calls: seq<ToolCall>, c: string)
    requires forall i :: 0 <= i < |calls| ==> calls[i].id != c
    ensures CallIndex(calls, c) == |calls|
  {
    if calls != [] { MissingIs(calls[1..], c); }
  }

  lemma EndCallsShows(calls: seq<ToolCall>, c: string)
    ensures CallIndex(EndCalls(calls), c) == CallIndex(calls, c)
  {
    SameIdsSameIndex(calls, EndCalls(calls), c);
  }

  /** An event of another kind or another call leaves the call alone, unless it is the finish. */
  lemma OthersLeaveTheCall(m: Message, e: RunEvent, c: string)
    requires HasCall(m, c) && !Completes(e, c)
    ensures var n := Step(Some(m), e);
            && n.Some? && HasCall(n.value, c)
            && Shown(n.value, c) == if e.kind == RunFinished then EndCall(Shown(m, c)) else Shown(m, c)
  {
    var n := Step(Some(m), e).value;
    if !Ignored(Some(m), e) {
      if IsTool(e) { PutCallShows(m.calls, CallOf(e), c); }
      else if e.kind == RunFinished { EndCallsShows(m.calls, c); }
    }
  }

  lemma CompletionShows(m: Option<Message>, e: RunEvent, c: string)
    requires Completes(e, c)
    ensures var n := Step(m, e);
            n.Some? && HasCall(n.value, c) && Shown(n.value, c) == Told(e, c, if e.ok then Success else Error, e.output)
  {
    var before := if m.Some? then m.value else NewMessage(e);
    PutCallShows(before.calls, CallOf(e), c);
  }

  lemma StartShows(m: Option<Message>, e: RunEvent, c: string)
    requires Mentions(e, c) && e.kind == ToolStarted && (m.Some? ==> !HasCall(m.value, c))
    ensures var n := Step(m, e); n.Some? && HasCall(n.value, c) && Shown(n.value, c) == Told(e, c, InProgress, e.output)
  {
    var before := if m.Some? then m.value else NewMessage(e);
    PutCallShows(before.calls, CallOf(e), c);
  }

  lemma NotMentionedNotShown(m: Option<Message>, e: RunEvent, c: string)
    requires !Mentions(e, c) && c != "" && (m.Some? ==> !HasCall(m.value, c))
    ensures Step(m, e).Some? ==> !HasCall(Step(m, e).value, c)
  {
    if !Ignored(m, e) {
      var before := if m.Some? then m.value else NewMessage(e);
      if IsTool(e) { PutCallShows(before.calls, CallOf(e), c); }
      else if e.kind == RunFinished { EndCallsShows(before.calls, c); }
    }
  }

  // ----- The calls of a log ------------------------------------------------------------------------------------

  /** A call that was never mentioned is not shown. */
  lemma {:induction false} UnmentionedCallsAreNotShown(log: seq<RunEvent>, c: string)
    requires c != "" && forall i :: 0 <= i < |log| ==> !Mentions(log[i], c)
    ensures Fold(None, log).Some? ==> !HasCall(Fold(None, log).value, c)
  {
    if log != [] {
      UnmentionedCallsAreNotShown(log[..|log| - 1], c);
      NotMentionedNotShown(Fold(None, log[..|log| - 1]), log[|log| - 1], c);
    }
  }

  /** A completed call shows its last completion: success or error as it says, with its output, details and duration.
      No later start, finish or other event changes that. */
  lemma {:induction false} CompletedCallsShowTheirCompletion(log: seq<RunEvent>, c: string, i: nat)
    requires i < |log| && Completes(log[i], c) && forall j :: i < j < |log| ==> !Completes(log[j], c)
    ensures var m := Fold(None, log);
            && m.Some? && HasCall(m.value, c)
            && Shown(m.value, c) == Told(log[i], c, if log[i].ok then Success else Error, log[i].output)
  {
    var init, e := log[..|log| - 1], log[|log| - 1];
    if i == |log| - 1 {
      CompletionShows(Fold(None, init), e, c);
    } else {
      assert init[i] == log[i] && forall j :: i < j < |init| ==> init[j] == log[j];
      CompletedCallsShowTheirCompletion(init, c, i);
      OthersLeaveTheCall(Fold(None, init).value, e, c);
    }
  }

  /** A call that was only started shows its first start: in progress until the run's finish, and then failed with the
      fixed text. */
  lemma {:induction false} OpenCallsShowTheirStart(log: seq<RunEvent>, c: string, i: nat)
    requires i < |log| && Mentions(log[i], c) && (forall j :: 0 <= j < i ==> !Mentions(log[j], c))
    requires (forall j :: 0 <= j < |log| ==> !Completes(log[j], c)) && FinishesLast(log)
    ensures var m := Fold(None, log);
            && m.Some? && HasCall(m.value, c)
            && Shown(m.value, c)
               == if log[|log| - 1].kind == RunFinished
                  then Told(log[i], c, Error, Some("Run ended before this operation completed."))
                  else Told(log[i], c, InProgress, log[i].output)
  {
    var init, e := log[..|log| - 1], log[|log| - 1];
    if i == |log| - 1 {
      UnmentionedCallsAreNotShown(init, c);
      StartShows(Fold(None, init), e, c);
    } else {
      assert init[i] == log[i] && forall j :: 0 <= j < |init| ==> init[j] == log[j];
      OpenCallsShowTheirStart(init, c, i);
      OthersLeaveTheCall(Fold(None, init).value, e, c);
    }
  }

  /** The mentioned calls, each where it was first mentioned. */
  function FirstMentions(log: seq<RunEvent>): seq<string> {
    if log == [] then []
    else
      var init, e := FirstMentions(log[..|log| - 1]), log[|log| - 1];
      if e.callId.Some? && Mentions(e, e.callId.value) && e.callId.value !in init then init + [e.callId.value] else init
  }

  function Ids(calls: seq<ToolCall>): (ids: seq<string>)
    ensures |ids| == |calls| && forall i :: 0 <= i < |calls| ==> ids[i] == calls[i].id
  {
    seq(|calls|, i requires 0 <= i < |calls| => calls[i].id)
  }

  lemma IndexIsMembership(calls: seq<ToolCall>, c: string)
    ensures CallIndex(calls, c) < |calls| <==> c in Ids(calls)
  {
    FirstCall(calls, c);
    if CallIndex(calls, c) < |calls| { assert Ids(calls)[CallIndex(calls, c)] == c; }
  }

  /** The calls stand in the order in which they were first mentioned, each once. */
  lemma {:induction false} CallsAreInOrder(log: seq<RunEvent>)
    ensures var m := Fold(None, log); Ids(if m.Some? then m.value.calls else []) == FirstMentions(log)
    ensures forall i, j :: 0 <= i < j < |FirstMentions(log)| ==> FirstMentions(log)[i] != FirstMentions(log)[j]
  {
    if log != [] {
      var init, e := log[..|log| - 1], log[|log| - 1];
      CallsAreInOrder(init);
      OneCallOn(Fold(None, init), e);
    }
  }

  lemma OneCallOn(m: Option<Message>, e: RunEvent)
    ensures var ids := Ids(if m.Some? then m.value.calls else []);
            var n := Step(m, e);
            Ids(if n.Some? then n.value.calls else [])
            == if e.callId.Some? && Mentions(e, e.callId.value) && e.callId.value !in ids then ids + [e.callId.value] else ids
  {
    var calls := if m.Some? then m.value.calls else [];
    if e.callId.Some? && Mentions(e, e.callId.value) { OneMentionOn(m, e, calls); }
  }

  lemma OneMentionOn(m: Option<Message>, e: RunEvent, calls: seq<ToolCall>)
    requires e.callId.Some? && Mentions(e, e.callId.value) && calls == if m.Some? then m.value.calls else []
    ensures var n := Step(m, e);
            n.Some? && Ids(n.value.calls) == if e.callId.value in Ids(calls) then Ids(calls) else Ids(calls) + [e.callId.value]
  {
    IndexIsMembership(calls, e.callId.value);
    var r := PutCall(calls, CallOf(e));
    assert Ids(r) == if e.callId.value in Ids(calls) then Ids(calls) else Ids(calls) + [e.callId.value];
  }

  // ----- Text, outcome and activity ----------------------------------------------------------------------------

  lemma {:induction false} NothingSaidNothingShown(log: seq<RunEvent>)
    requires forall j :: 0 <= j < |log| ==> !Speaks(log[j])
    ensures Fold(None, log).Some? ==> Fold(None, log).value.content == ""
  {
    if log != [] { NothingSaidNothingShown(log[..|log| - 1]); }
  }

  /** The text is the last one that an event other than a call or an activity brought. */
  lemma {:induction false} TheLastTextIsShown(log: seq<RunEvent>, i: nat)
    requires i < |log| && Speaks(log[i]) && forall j :: i < j < |log| ==> !Speaks(log[j])
    ensures var m := Fold(None, log); m.Some? && m.value.content == log[i].message.value
  {
    if i < |log| - 1 {
      var init := log[..|log| - 1];
      assert init[i] == log[i] && forall j :: i < j < |init| ==> init[j] == log[j];
      TheLastTextIsShown(init, i);
    }
  }

  /** Before its finish a run is running; after it, it has the status that the finish names, or was interrupted. */
  lemma {:induction false} TheFinishIsShown(log: seq<RunEvent>)
    requires FinishesLast(log)
    ensures var m := Fold(None, log);
            && (log != [] && log[|log| - 1].kind == RunFinished ==> m.Some?)
            && (m.Some? ==>
                  if log != [] && log[|log| - 1].kind == RunFinished
                  then var e := log[|log| - 1];
                       m.value.status == (if e.status.Some? then e.status else Some(Interrupted)) && m.value.finishedAt == Some(e.createdAt)
                  else m.value.status == Some(Running) && m.value.finishedAt == None)
  {
    if log != [] {
      var init := log[..|log| - 1];
      assert forall i :: 0 <= i < |init| ==> init[i] == log[i];
      TheFinishIsShown(init);
    }
  }

  /** An activity goes by its event's id, or by kind, time and text where there is none. */
  function NameOf(e: RunEvent): string {
    if e.eventId != "" then e.eventId
    else (if e.kind == Stage then "stage" else "verification") + ":" + e.createdAt + ":"
         + if e.message.Some? then e.message.value else "undefined"
  }

  /** The stages and verifications, each where its name first came. */
  function FirstActivities(log: seq<RunEvent>): seq<RunEvent> {
    if log == [] then []
    else
      var init, e := FirstActivities(log[..|log| - 1]), log[|log| - 1];
      if (e.kind == Stage || e.kind == Verification) && (forall x :: x in init ==> NameOf(x) != NameOf(e)) then init + [e] else init
  }

  /** The activity list shows exactly the first event of each name, in order. */
  lemma {:induction false} ActivityIsShown(log: seq<RunEvent>)
    ensures var m := Fold(None, log);
            var shown := if m.Some? then m.value.activity else [];
            && |shown| == |FirstActivities(log)|
            && forall i :: 0 <= i < |shown| ==>
                 shown[i] == Listed(FirstActivities(log)[i])
  {
    if log != [] {
      var init, e := log[..|log| - 1], log[|log| - 1];
      ActivityIsShown(init);
      OneActivityOn(Fold(None, init), e, FirstActivities(init));
    }
  }

  function Listed(e: RunEvent): Activity {
    Activity(NameOf(e), e.kind, e.createdAt, e.message, e.ok, e.checks)
  }

  lemma OneActivityOn(m: Option<Message>, e: RunEvent, firsts: seq<RunEvent>)
    requires var shown := if m.Some? then m.value.activity else [];
             |shown| == |firsts| && forall i :: 0 <= i < |shown| ==> shown[i] == Listed(firsts[i])
    ensures var shown, n := if m.Some? then m.value.activity else [], Step(m, e);
            (if n.Some? then n.value.activity else [])
            == if IsActivity(e) && (forall x :: x in firsts ==> NameOf(x) != NameOf(e)) then shown + [Listed(e)] else shown
  {
    var shown := if m.Some? then m.value.activity else [];
    assert NameOf(e) == ActivityId(e);
    if exists x :: x in firsts && NameOf(x) == NameOf(e) {
      var i :| 0 <= i < |firsts| && NameOf(firsts[i]) == NameOf(e);
      assert shown[i].id == NameOf(e);
    } else {
      assert forall i :: 0 <= i < |shown| ==> shown[i].id == NameOf(firsts[i]) && firsts[i] in firsts;
    }
  }

  /** The message is the run's own, dated by the first event that shows anything; without such an event there is none. */
  lemma {:induction false} TheMessageIsTheRuns(log: seq<RunEvent>, run: string)
    requires OfRun(run, log)
    ensures var m := Fold(None, log);
            && (m.None? <==> forall i :: 0 <= i < |log| ==> IsTool(log[i]) && !Given(log[i].callId))
            && (m.Some? ==> m.value.id == "run:" + run && !m.value.fromUser && m.value.eventType == Some("run")
                            && exists i :: 0 <= i < |log| && Fold(None, log[..i]).None? && m.value.createdAt == log[i].createdAt)
  {
    if log != [] {
      var init, e := log[..|log| - 1], log[|log| - 1];
      assert forall i :: 0 <= i < |init| ==> init[i] == log[i];
      TheMessageIsTheRuns(init, run);
      var m := Fold(None, init);
      if m.Some? {
        var i :| 0 <= i < |init| && Fold(None, init[..i]).None? && m.value.createdAt == init[i].createdAt;
        assert log[..i] == init[..i];
      } else {
        assert log[..|init|] == init;
      }
    }
  }

  // ----- The list of messages ----------------------------------------------------------------------------------

  /** At most one message is added, at the end, and only the run's own is replaced. */
  predicate OnlyOwn(before: seq<Message>, after: seq<Message>, id: string) {
    && |before| <= |after| <= |before| + 1
    && (forall i :: 0 <= i < |before| ==> after[i].id == before[i].id && (before[i].id != id ==> after[i] == before[i]))
    && (|after| > |before| ==> after[|before|].id == id && forall i :: 0 <= i < |before| ==> before[i].id != id)
  }

  lemma PutIsOwn(ms: seq<Message>, id: string, m: Message)
    requires m.id == id
    ensures OnlyOwn(ms, Put(ms, id, m), id)
  {
    if Find(ms, id).None? { FindLast(ms, id, m); }
  }

  lemma OthersAreUntouched(ms: seq<Message>, run: string, es: seq<RunEvent>)
    requires OfRun(run, es)
    ensures OnlyOwn(ms, ApplyAll(ms, es), "run:" + run)
  {
    ApplyAllIs(ms, run, es);
    if Touches(Find(ms, "run:" + run), es) { PutIsOwn(ms, "run:" + run, Fold(Find(ms, "run:" + run), es).value); }
  }

  lemma {:induction false} FindAfterOwn(before: seq<Message>, after: seq<Message>, id: string, other: string)
    requires OnlyOwn(before, after, id) && other != id
    ensures Find(after, other) == Find(before, other)
  {
    if before == [] {
      if after != [] { assert after[1..] == []; }
    } else {
      assert forall i :: 0 <= i < |before| - 1 ==> after[1..][i] == after[i + 1] && before[1..][i] == before[i + 1];
      FindAfterOwn(before[1..], after[1..], id, other);
    }
  }
}
