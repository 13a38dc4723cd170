/** The client's event reducer (`frontend/socket/handleChatEvent.ts`): overlapping live events, resyncs
    and full replays all lead to the same messages. An undefined string is `None`; an undefined list is empty. */
module RunReplay {
  import opened Wrappers

  datatype Kind = RunStarted | Stage | Verification | ToolStarted | ToolCompleted | RunFinished | Other

  datatype RunStatus = Running | Succeeded | Failed | Cancelled | TimedOut | Interrupted

  datatype CallStatus = InProgress | Success | Error

  datatype RunEvent = RunEvent(
    kind: Kind, runId: string, eventId: string, createdAt: string, name: Option<string>, callId: Option<string>,
    ok: bool, status: Option<RunStatus>, message: Option<string>, output: Option<string>, details: Option<string>,
    duration: Option<int>, url: Option<string>, checks: Option<string>)

  datatype ToolCall = ToolCall(id: string, name: string, status: CallStatus, output: Option<string>,
                               details: Option<string>, duration: Option<int>, runId: string, eventId: string)

  datatype Activity = Activity(id: string, kind: Kind, createdAt: string, message: Option<string>, ok: bool,
                               checks: Option<string>)

  datatype Message = Message(
    id: string, fromUser: bool, content: string, createdAt: string, eventType: Option<string>,
    calls: seq<ToolCall>, activity: seq<Activity>, status: Option<RunStatus>, finishedAt: Option<string>)

  predicate Given(s: Option<string>) {
    s.Some? && s.value != ""
  }

  function OrElse(s: Option<string>, d: string): string {
    if Given(s) then s.value else d
  }

  function KindName(kind: Kind): string {
    if kind == Stage then "stage" else "verification"
  }

  function ActivityId(e: RunEvent): string {
    if e.eventId != "" then e.eventId
    else KindName(e.kind) + ":" + e.createdAt + ":" + (if e.message.Some? then e.message.value else "undefined")
  }

  /** `findIndex` over the calls; the length when there is none. */
  function CallIndex(calls: seq<ToolCall>, id: string): (i: nat)
    ensures i <= |calls|
    ensures i < |calls| ==> calls[i].id == id
  {
    if calls == [] then 0 else if calls[0].id == id then 0 else 1 + CallIndex(calls[1..], id)
  }

  predicate IsActivity(e: RunEvent) { e.kind == Stage || e.kind == Verification }
  predicate IsTool(e: RunEvent) { e.kind == ToolStarted || e.kind == ToolCompleted }

  predicate HasActivity(m: Message, id: string) {
    exists i :: 0 <= i < |m.activity| && m.activity[i].id == id
  }

  predicate HasCall(m: Message, id: string) {
    CallIndex(m.calls, id) < |m.calls|
  }

  function CallOf(e: RunEvent): ToolCall
    requires Given(e.callId)
  {
    ToolCall(e.callId.value, OrElse(e.name, "Tool"),
             if e.kind == ToolStarted then InProgress else if e.ok then Success else Error,
             e.output, e.details, e.duration, e.runId, e.eventId)
  }

  function EndCall(c: ToolCall): ToolCall {
    if c.status == InProgress then c.(status := Error, output := Some("Run ended before this operation completed.")) else c
  }

  function EndCalls(calls: seq<ToolCall>): (r: seq<ToolCall>)
    ensures |r| == |calls| && forall i :: 0 <= i < |calls| ==> r[i] == EndCall(calls[i])
  {
    seq(|calls|, i requires 0 <= i < |calls| => EndCall(calls[i]))
  }

  function NewMessage(e: RunEvent): Message {
    Message("run:" + e.runId, false, "", e.createdAt, Some("run"), [], [], Some(Running), None)
  }

  /** The event is dropped: already shown, or a tool event without a call. */
  predicate Ignored(existing: Option<Message>, e: RunEvent) {
    || (IsActivity(e) && existing.Some? && HasActivity(existing.value, ActivityId(e)))
    || (IsTool(e) && !Given(e.callId))
    || (e.kind == ToolStarted && existing.Some? && HasCall(existing.value, e.callId.value))
  }

  function PutCall(calls: seq<ToolCall>, call: ToolCall): seq<ToolCall> {
    var i := CallIndex(calls, call.id);
    if i < |calls| then calls[i := call] else calls + [call]
  }

  /** The run's message once the event, which is not ignored, is applied. */
  function Updated(m: Message, e: RunEvent): Message
    requires IsTool(e) ==> Given(e.callId)
  {
    if IsTool(e) then m.(calls := PutCall(m.calls, CallOf(e)))
    else if IsActivity(e) then m.(activity := m.activity + [Activity(ActivityId(e), e.kind, e.createdAt, e.message, e.ok, e.checks)])
    else
      var spoken := if Given(e.message) then m.(content := e.message.value) else m;
      if e.kind == RunFinished
      then spoken.(status := Some(if e.status.Some? then e.status.value else Interrupted), finishedAt := Some(e.createdAt),
                   calls := EndCalls(m.calls))
      else spoken
  }

  function Step(existing: Option<Message>, e: RunEvent): Option<Message> {
    if Ignored(existing, e) then existing
    else Some(Updated(if existing.Some? then existing.value else NewMessage(e), e))
  }

  // ----- The list of messages ----------------------------------------------------------------------------

  function Find(ms: seq<Message>, id: string): (r: Option<Message>)
    ensures r.Some? ==> r.value.id == id
  {
    if ms == [] then None else if ms[0].id == id then Some(ms[0]) else Find(ms[1..], id)
  }

  /** Every message with the id is replaced; a new one goes to the end. */
  function Put(ms: seq<Message>, id: string, m: Message): seq<Message> {
    if Find(ms, id).Some? then seq(|ms|, i requires 0 <= i < |ms| => if ms[i].id == id then m else ms[i])
    else ms + [m]
  }

  /** `applyRunEvent`. */
  function ApplyRunEvent(ms: seq<Message>, e: RunEvent): seq<Message> {
    var id := "run:" + e.runId;
    if e.runId == "" || Ignored(Find(ms, id), e) then ms
    else Put(ms, id, Step(Find(ms, id), e).value)
  }

  function ApplyAll(ms: seq<Message>, es: seq<RunEvent>): seq<Message> {
    if es == [] then ms else ApplyRunEvent(ApplyAll(ms, es[..|es| - 1]), es[|es| - 1])
  }

  function Fold(m: Option<Message>, es: seq<RunEvent>): Option<Message> {
    if es == [] then m else Step(Fold(m, es[..|es| - 1]), es[|es| - 1])
  }

  // ----- One run's message --------------------------------------------------------------------------------

  /** What the event would insert is there already, so that applying it can only overwrite. */
  predicate Settled(m: Message, e: RunEvent) {
    && (IsActivity(e) ==> HasActivity(m, ActivityId(e)))
    && (IsTool(e) && Given(e.callId) ==> HasCall(m, e.callId.value))
  }

  lemma {:induction false} FirstCall(calls: seq<ToolCall>, id: string)
    ensures forall j :: 0 <= j < CallIndex(calls, id) ==> calls[j].id != id
  {
    if calls != [] && calls[0].id != id {
      FirstCall(calls[1..], id);
      assert forall j :: 0 < j < |calls| ==> calls[j] == calls[1..][j - 1];
    }
  }

  lemma {:induction false} CallIndexIs(calls: seq<ToolCall>, id: string, i: nat)
    requires i < |calls| && calls[i].id == id && forall j :: 0 <= j < i ==> calls[j].id != id
    ensures CallIndex(calls, id) == i
  {
    if i > 0 {
      CallIndexIs(calls[1..], id, i - 1);
    }
  }

  /** Lists of calls with the same ids find them in the same places. */
  lemma {:induction false} SameIdsSameIndex(a: seq<ToolCall>, b: seq<ToolCall>, id: string)
    requires |a| <= |b| && forall i :: 0 <= i < |a| ==> a[i].id == b[i].id
    requires |a| == |b| || CallIndex(a, id) < |a|
    ensures CallIndex(a, id) == CallIndex(b, id)
  {
    if a != [] && a[0].id != id {
      SameIdsSameIndex(a[1..], b[1..], id);
    }
  }

  lemma PutCallKeepsIds(calls: seq<ToolCall>, call: ToolCall)
    ensures var r := PutCall(calls, call);
            |calls| <= |r| && (forall i :: 0 <= i < |calls| ==> r[i].id == calls[i].id) && CallIndex(r, call.id) < |r|
  {
    var r := PutCall(calls, call);
    var i := CallIndex(calls, call.id);
    FirstCall(calls, call.id);
    CallIndexIs(r, call.id, i);
  }

  /** Nothing settled is ever unsettled, and an applied event is settled. */
  lemma StepSettles(m: Message, x: RunEvent, y: RunEvent)
    ensures var n := Step(Some(m), x); n.Some? && Settled(n.value, x) && (Settled(m, y) ==> Settled(n.value, y))
  {
    var n := Step(Some(m), x).value;
    if !Ignored(Some(m), x) {
      if IsTool(x) {
        PutCallKeepsIds(m.calls, CallOf(x));
      } else if IsActivity(x) {
        assert n.activity[|m.activity|].id == ActivityId(x);
      }
      assert forall i :: 0 <= i < |m.activity| ==> n.activity[i] == m.activity[i];
      if IsTool(y) && Given(y.callId) && HasCall(m, y.callId.value) {
        SameIdsSameIndex(m.calls, n.calls, y.callId.value);
      }
    }
  }

  /** An update that keeps the id keeps every index. */
  lemma IndexKept(calls: seq<ToolCall>, call: ToolCall, i: nat, id: string)
    requires i < |calls| && calls[i].id == call.id
    ensures CallIndex(calls[i := call], id) == CallIndex(calls, id)
  {
    SameIdsSameIndex(calls, calls[i := call], id);
  }

  /** Putting a call over a list that has it is one update at its index. */
  lemma PutCallAt(calls: seq<ToolCall>, call: ToolCall, i: nat)
    requires i == CallIndex(calls, call.id) && i < |calls|
    ensures PutCall(calls, call) == calls[i := call]
  {
  }

  /** Writing a call over another and then the first again is the second write alone. */
  lemma PutCallTwice(calls: seq<ToolCall>, x: ToolCall, y: ToolCall)
    requires CallIndex(calls, y.id) < |calls|
    ensures PutCall(PutCall(PutCall(calls, x), y), x) == PutCall(PutCall(calls, y), x)
  {
    var i, j := CallIndex(calls, x.id), CallIndex(calls, y.id);
    if i < |calls| {
      PutCallPresent(calls, x, y, i, j);
    } else {
      PutCallMissing(calls, x, y, j);
    }
  }

  lemma PutTwo(calls: seq<ToolCall>, x: ToolCall, y: ToolCall, i: nat, j: nat)
    requires i == CallIndex(calls, x.id) && i < |calls| && j == CallIndex(calls, y.id) && j < |calls|
    ensures PutCall(PutCall(calls, x), y) == calls[i := x][j := y]
    ensures CallIndex(calls[i := x][j := y], x.id) == i
  {
    IndexKept(calls, x, i, y.id);
    PutCallAt(calls[i := x], y, j);
    IndexKept(calls, x, i, x.id);
    IndexKept(calls[i := x], y, j, x.id);
  }

  lemma PutCallPresent(calls: seq<ToolCall>, x: ToolCall, y: ToolCall, i: nat, j: nat)
    requires i == CallIndex(calls, x.id) && i < |calls| && j == CallIndex(calls, y.id) && j < |calls|
    ensures PutCall(PutCall(PutCall(calls, x), y), x) == PutCall(PutCall(calls, y), x)
  {
    var c := calls[i := x][j := y];
    PutTwo(calls, x, y, i, j);
    PutTwo(calls, y, x, j, i);
    PutCallAt(c, x, i);
    Overwritten(calls, x, y, i, j);
  }

  lemma Overwritten(calls: seq<ToolCall>, x: ToolCall, y: ToolCall, i: nat, j: nat)
    requires i < |calls| && j < |calls|
    ensures calls[i := x][j := y][i := x] == calls[j := y][i := x]
  {
  }

  lemma AppendedIs(calls: seq<ToolCall>, x: ToolCall, y: ToolCall)
    requires CallIndex(calls, y.id) < |calls| && CallIndex(calls, x.id) == |calls|
    ensures CallIndex(calls + [x], y.id) == CallIndex(calls, y.id) && CallIndex(calls + [x], x.id) == |calls|
    ensures PutCall(calls, x) == calls + [x]
  {
    var cx := calls + [x];
    assert forall i :: 0 <= i < |calls| ==> cx[i] == calls[i];
    SameIdsSameIndex(calls, cx, y.id);
    FirstCall(calls, x.id);
    CallIndexIs(cx, x.id, |calls|);
  }

  lemma PutCallMissing(calls: seq<ToolCall>, x: ToolCall, y: ToolCall, j: nat)
    requires j == CallIndex(calls, y.id) && j < |calls| && CallIndex(calls, x.id) == |calls|
    ensures PutCall(PutCall(PutCall(calls, x), y), x) == PutCall(PutCall(calls, y), x)
  {
    var cy := calls[j := y];
    PutOverAppended(calls, x, y, j);
    PutCallAt(calls, y, j);
    IndexKept(calls, y, j, x.id);
    IndexKept(calls, y, j, y.id);
    PutAppended(cy, x, y);
  }

  lemma PutOverAppended(calls: seq<ToolCall>, x: ToolCall, y: ToolCall, j: nat)
    requires j == CallIndex(calls, y.id) && j < |calls| && CallIndex(calls, x.id) == |calls|
    ensures PutCall(PutCall(calls, x), y) == calls[j := y] + [x]
  {
    AppendedIs(calls, x, y);
    PutCallAt(calls + [x], y, j);
  }

  lemma PutAppended(calls: seq<ToolCall>, x: ToolCall, y: ToolCall)
    requires CallIndex(calls, y.id) < |calls| && CallIndex(calls, x.id) == |calls|
    ensures PutCall(calls, x) == calls + [x] && PutCall(calls + [x], x) == calls + [x]
  {
    AppendedIs(calls, x, y);
    PutCallAt(calls + [x], x, |calls|);
  }

  lemma EndCallsThenPut(calls: seq<ToolCall>, y: ToolCall)
    requires CallIndex(calls, y.id) < |calls|
    ensures EndCalls(PutCall(EndCalls(calls), y)) == EndCalls(PutCall(calls, y))
  {
    SameIdsSameIndex(calls, EndCalls(calls), y.id);
  }

  /** A settled event other than a completion changes nothing but perhaps the text. */
  lemma SettledChangesNoCall(m: Message, y: RunEvent)
    requires Settled(m, y) && y.kind != RunFinished && !(y.kind == ToolCompleted && Given(y.callId))
    ensures Step(Some(m), y) == Some(m.(content := if !IsActivity(y) && !IsTool(y) && Given(y.message) then y.message.value else m.content))
  {
  }

  lemma LaterToolWins(m: Message, x: RunEvent, y: RunEvent)
    requires IsTool(x) && Given(x.callId) && Settled(m, y) && y.kind != RunFinished
    ensures Step(Step(Step(Some(m), x), y), x) == Step(Step(Some(m), y), x)
  {
    StepSettles(m, x, y);
    var mx := Step(Some(m), x).value;
    if y.kind == ToolCompleted && Given(y.callId) {
      if x.kind == ToolStarted {
        StartedIsInserted(m, x, y);
        StepSettles(mx, y, x);
      } else {
        PutCallTwice(m.calls, CallOf(x), CallOf(y));
      }
    } else {
      SettledChangesNoCall(m, y);
      SettledChangesNoCall(mx, y);
      PutCallKeepsIds(m.calls, CallOf(x));
      if x.kind == ToolCompleted {
        PutSame(m.calls, CallOf(x));
      }
    }
  }

  lemma PutSame(calls: seq<ToolCall>, x: ToolCall)
    ensures PutCall(PutCall(calls, x), x) == PutCall(calls, x)
  {
    PutCallKeepsIds(calls, x);
    var i := CallIndex(calls, x.id);
    FirstCall(calls, x.id);
    CallIndexIs(PutCall(calls, x), x.id, i);
  }

  /** A start inserts its call once; a settled completion of another call then writes elsewhere. */
  lemma StartedIsInserted(m: Message, x: RunEvent, y: RunEvent)
    requires x.kind == ToolStarted && Given(x.callId) && y.kind == ToolCompleted && Given(y.callId)
    requires HasCall(m, y.callId.value)
    ensures Step(Step(Some(m), x), y) == Step(Step(Some(m), y), x)
  {
    var cx, cy := CallOf(x), CallOf(y);
    var j := CallIndex(m.calls, cy.id);
    PutCallAt(m.calls, cy, j);
    IndexKept(m.calls, cy, j, cx.id);
    if !HasCall(m, cx.id) {
      var calls := m.calls + [cx];
      SameIdsSameIndex(m.calls, calls, cy.id);
      PutCallAt(calls, cy, j);
      assert calls[j := cy] == m.calls[j := cy] + [cx];
    }
  }

  /** A finish makes the same of two messages that differ in calls it ends alike and in what it overwrites. */
  lemma FinishForgets(a: Message, b: Message, x: RunEvent)
    requires x.kind == RunFinished && EndCalls(a.calls) == EndCalls(b.calls)
    requires a == b.(calls := a.calls, status := a.status, finishedAt := a.finishedAt, content := a.content)
    requires Given(x.message) || a.content == b.content
    ensures Step(Some(a), x) == Step(Some(b), x)
  {
  }

  lemma EndCallsTwice(calls: seq<ToolCall>)
    ensures EndCalls(EndCalls(calls)) == EndCalls(calls)
  {
  }

  lemma LaterFinishWins(m: Message, x: RunEvent, y: RunEvent)
    requires x.kind == RunFinished && Settled(m, y) && y.kind != RunFinished
    ensures Step(Step(Step(Some(m), x), y), x) == Step(Step(Some(m), y), x)
  {
    StepSettles(m, x, y);
    var mx := Step(Some(m), x).value;
    var a, b := Step(Some(mx), y).value, Step(Some(m), y).value;
    EndCallsTwice(m.calls);
    if y.kind == ToolCompleted && Given(y.callId) {
      EndCallsThenPut(m.calls, CallOf(y));
    } else {
      SettledChangesNoCall(m, y);
      SettledChangesNoCall(mx, y);
    }
    FinishForgets(a, b, x);
  }

  lemma LaterActivityWins(m: Message, x: RunEvent, y: RunEvent)
    requires IsActivity(x) && Settled(m, y) && y.kind != RunFinished
    ensures Step(Step(Step(Some(m), x), y), x) == Step(Step(Some(m), y), x)
  {
    StepSettles(m, x, y);
    StepSettles(Step(Some(m), x).value, y, x);
  }

  /** Applying an event before a settled one makes no difference if it is applied again after it. */
  lemma LaterWriteWins(m: Message, x: RunEvent, y: RunEvent)
    requires Settled(m, y) && y.kind != RunFinished
    ensures Step(Step(Step(Some(m), x), y), x) == Step(Step(Some(m), y), x)
  {
    if IsTool(x) {
      if Given(x.callId) { LaterToolWins(m, x, y); }
    }
    else if IsActivity(x) { LaterActivityWins(m, x, y); }
    else if x.kind == RunFinished { LaterFinishWins(m, x, y); }
  }

  lemma StepTwice(m: Message, x: RunEvent)
    ensures Step(Step(Some(m), x), x) == Step(Some(m), x)
  {
    var nothing := x.(kind := Other, message := None);
    assert Step(Some(m), nothing) == Some(m);
    var n := Step(Some(m), x).value;
    assert Step(Some(n), nothing) == Some(n);
    LaterWriteWins(m, x, nothing);
  }

  // ----- Whole logs -----------------------------------------------------------------------------------------

  /** The run's finish, if it is there at all, is its last event. */
  predicate FinishesLast(es: seq<RunEvent>) {
    forall i :: 0 <= i < |es| - 1 ==> es[i].kind != RunFinished
  }

  predicate AllSettled(m: Message, es: seq<RunEvent>) {
    forall i :: 0 <= i < |es| ==> Settled(m, es[i])
  }

  lemma {:induction false} FoldAppend(m: Option<Message>, a: seq<RunEvent>, b: seq<RunEvent>)
    ensures Fold(m, a + b) == Fold(Fold(m, a), b)
    decreases |b|
  {
    if b == [] {
      assert a + b == a;
    } else {
      var c := b[..|b| - 1];
      assert (a + b)[..|a + b| - 1] == a + c;
      FoldAppend(m, a, c);
    }
  }

  /** Folding never loses a message, nor unsettles an event. */
  lemma {:induction false} FoldKeepsSettled(m: Message, es: seq<RunEvent>)
    ensures Fold(Some(m), es).Some?
    ensures forall y :: Settled(m, y) ==> Settled(Fold(Some(m), es).value, y)
  {
    if es != [] {
      var ys := es[..|es| - 1];
      FoldKeepsSettled(m, ys);
      var n := Fold(Some(m), ys).value;
      forall y | Settled(m, y)
        ensures Settled(Fold(Some(m), es).value, y)
      {
        StepSettles(n, es[|es| - 1], y);
      }
    }
  }

  /** After a log has been applied, every event of it is settled. */
  lemma {:induction false} FoldSettles(m: Option<Message>, es: seq<RunEvent>)
    ensures Fold(m, es).Some? ==> AllSettled(Fold(m, es).value, es)
    ensures Fold(m, es).None? ==> m.None? && forall i :: 0 <= i < |es| ==> IsTool(es[i]) && !Given(es[i].callId)
  {
    if es != [] {
      var ys, x := es[..|es| - 1], es[|es| - 1];
      FoldSettles(m, ys);
      var p := Fold(m, ys);
      if p.Some? {
        forall i | 0 <= i < |es|
          ensures Settled(Step(p, x).value, es[i])
        {
          assert i < |ys| ==> ys[i] == es[i];
          StepSettles(p.value, x, es[i]);
        }
      } else if !Ignored(p, x) {
        FirstStepSettles(x);
        forall i | 0 <= i < |es|
          ensures Settled(Step(p, x).value, es[i])
        {
          assert i < |ys| ==> ys[i] == es[i];
        }
      } else {
        forall i | 0 <= i < |es|
          ensures IsTool(es[i]) && !Given(es[i].callId)
        {
          assert i < |ys| ==> ys[i] == es[i];
        }
      }
    }
  }

  lemma FirstStepSettles(x: RunEvent)
    requires !Ignored(None, x)
    ensures Settled(Step(None, x).value, x)
  {
    assert Step(None, x) == Step(Some(NewMessage(x)), x);
    StepSettles(NewMessage(x), x, x);
  }

  /** An event that comes again after a settled stretch might as well not have come before it. */
  lemma {:induction false} LastWriteWins(m: Message, x: RunEvent, zs: seq<RunEvent>)
    requires AllSettled(m, zs) && forall i :: 0 <= i < |zs| ==> zs[i].kind != RunFinished
    ensures Step(Fold(Step(Some(m), x), zs), x) == Step(Fold(Some(m), zs), x)
  {
    StepSettles(m, x, x);
    var mx := Step(Some(m), x).value;
    if zs == [] {
      StepTwice(m, x);
    } else {
      var ys, z := zs[..|zs| - 1], zs[|zs| - 1];
      LastWriteWins(m, x, ys);
      FoldKeepsSettled(m, ys);
      FoldKeepsSettled(mx, ys);
      StepSettles(m, x, z);
      LaterWriteWins(Fold(Some(mx), ys).value, x, z);
      LaterWriteWins(Fold(Some(m), ys).value, x, z);
    }
  }

  lemma {:induction false} FoldNoCalls(m: Option<Message>, es: seq<RunEvent>)
    requires forall i :: 0 <= i < |es| ==> IsTool(es[i]) && !Given(es[i].callId)
    ensures Fold(m, es) == m
  {
    if es != [] {
      FoldNoCalls(m, es[..|es| - 1]);
    }
  }

  /** Applying a log that finishes last once more changes nothing. */
  lemma {:induction false} ReplayingChangesNothing(m: Option<Message>, es: seq<RunEvent>)
    requires FinishesLast(es)
    ensures Fold(Fold(m, es), es) == Fold(m, es)
  {
    if es != [] {
      var ys, x := es[..|es| - 1], es[|es| - 1];
      ReplayingChangesNothing(m, ys);
      FoldSettles(m, ys);
      var p := Fold(m, ys);
      if p.Some? {
        LastWriteWins(p.value, x, ys);
      } else {
        FoldNoCalls(Step(p, x), ys);
        if !Ignored(p, x) {
          assert Step(p, x) == Step(Some(NewMessage(x)), x);
          StepTwice(NewMessage(x), x);
        }
      }
    }
  }

  /** Overlapping pieces of a run's log make the message that the log makes. */
  lemma OverlapChangesNothing(m: Option<Message>, log: seq<RunEvent>, j: nat, k: nat)
    requires FinishesLast(log) && j <= k <= |log|
    ensures Fold(Fold(m, log[..k]), log[j..]) == Fold(m, log)
  {
    var a, b, c := log[..j], log[j..k], log[k..];
    assert log[..k] == a + b && log[j..] == b + c && log == log[..k] + c;
    FoldAppend(m, a, b);
    FoldAppend(Fold(m, log[..k]), b, c);
    FoldAppend(m, log[..k], c);
    ReplayingChangesNothing(Fold(m, a), b);
  }

  // ----- The same on the list of messages ---------------------------------------------------------------------

  predicate OfRun(run: string, es: seq<RunEvent>) {
    run != "" && forall i :: 0 <= i < |es| ==> es[i].runId == run
  }

  /** Some event of the log is not ignored. */
  predicate Touches(m: Option<Message>, es: seq<RunEvent>) {
    es != [] && (Touches(m, es[..|es| - 1]) || !Ignored(Fold(m, es[..|es| - 1]), es[|es| - 1]))
  }

  lemma {:induction false} FindPut(ms: seq<Message>, id: string, m: Message)
    requires m.id == id
    ensures Find(Put(ms, id, m), id) == Some(m)
  {
    if Find(ms, id).None? {
      FindLast(ms, id, m);
    } else if ms[0].id != id {
      FindPut(ms[1..], id, m);
      assert Put(ms, id, m)[1..] == Put(ms[1..], id, m);
    }
  }

  lemma {:induction false} FindLast(ms: seq<Message>, id: string, m: Message)
    requires m.id == id && Find(ms, id).None?
    ensures Find(ms + [m], id) == Some(m)
    ensures forall i :: 0 <= i < |ms| ==> ms[i].id != id
  {
    if ms != [] {
      assert (ms + [m])[1..] == ms[1..] + [m];
      FindLast(ms[1..], id, m);
      forall i | 0 <= i < |ms| ensures ms[i].id != id {
        if i > 0 { assert ms[i] == ms[1..][i - 1]; }
      }
    }
  }

  lemma PutPut(ms: seq<Message>, id: string, m: Message, n: Message)
    requires m.id == id && n.id == id
    ensures Put(Put(ms, id, m), id, n) == Put(ms, id, n)
  {
    FindPut(ms, id, m);
    if Find(ms, id).None? {
      FindLast(ms, id, m);
    }
  }

  lemma {:induction false} ApplyAllIs(ms: seq<Message>, run: string, es: seq<RunEvent>)
    requires OfRun(run, es)
    ensures var id := "run:" + run; var m := Find(ms, id);
            && (Touches(m, es) ==> Fold(m, es).Some? && Fold(m, es).value.id == id)
            && (!Touches(m, es) ==> Fold(m, es) == m)
            && ApplyAll(ms, es) == (if Touches(m, es) then Put(ms, id, Fold(m, es).value) else ms)
            && Find(ApplyAll(ms, es), id) == Fold(m, es)
  {
    if es != [] {
      var id, ys, e := "run:" + run, es[..|es| - 1], es[|es| - 1];
      var m := Find(ms, id);
      ApplyAllIs(ms, run, ys);
      assert e.runId == run;
      var p := Fold(m, ys);
      if !Ignored(p, e) {
        var n := Step(p, e).value;
        assert n.id == id;
        FindPut(ApplyAll(ms, ys), id, n);
        if Touches(m, ys) {
          PutPut(ms, id, p.value, n);
        }
      }
    }
  }

  lemma {:induction false} ApplyAllAppend(ms: seq<Message>, a: seq<RunEvent>, b: seq<RunEvent>)
    ensures ApplyAll(ms, a + b) == ApplyAll(ApplyAll(ms, a), b)
    decreases |b|
  {
    if b == [] {
      assert a + b == a;
    } else {
      var c := b[..|b| - 1];
      assert (a + b)[..|a + b| - 1] == a + c;
      ApplyAllAppend(ms, a, c);
    }
  }

  lemma {:induction false} TouchesAppend(m: Option<Message>, a: seq<RunEvent>, b: seq<RunEvent>)
    ensures Touches(m, a + b) <==> Touches(m, a) || Touches(Fold(m, a), b)
    decreases |b|
  {
    if b == [] {
      assert a + b == a;
    } else {
      var c := b[..|b| - 1];
      assert (a + b)[..|a + b| - 1] == a + c;
      TouchesAppend(m, a, c);
      FoldAppend(m, a, c);
    }
  }

  /** A prefix up to `k` and then everything from `j <= k` on is as good as the log once, over any messages. */
  lemma ResyncConverges(ms: seq<Message>, run: string, log: seq<RunEvent>, j: nat, k: nat)
    requires OfRun(run, log) && FinishesLast(log) && j <= k <= |log|
    ensures ApplyAll(ApplyAll(ms, log[..k]), log[j..]) == ApplyAll(ms, log)
  {
    var id := "run:" + run;
    var m := Find(ms, id);
    var first, rest := log[..k], log[j..];
    ApplyAllIs(ms, run, first);
    assert log == first + log[k..];
    if Touches(m, first) {
      ResyncTouched(ms, run, log, j, k);
    } else {
      assert first == log[..j] + log[j..k] && log == log[..j] + rest;
      TouchesAppend(m, log[..j], log[j..k]);
      ApplyAllIs(ms, run, log[..j]);
      ApplyAllAppend(ms, log[..j], rest);
    }
  }

  lemma ResyncTouched(ms: seq<Message>, run: string, log: seq<RunEvent>, j: nat, k: nat)
    requires OfRun(run, log) && FinishesLast(log) && j <= k <= |log|
    requires Touches(Find(ms, "run:" + run), log[..k])
    ensures ApplyAll(ApplyAll(ms, log[..k]), log[j..]) == ApplyAll(ms, log)
  {
    var id := "run:" + run;
    var m := Find(ms, id);
    var first, rest := log[..k], log[j..];
    var mid := Fold(m, first);
    ApplyAllIs(ms, run, first);
    ApplyAllIs(ms, run, log);
    ApplyAllIs(ApplyAll(ms, first), run, rest);
    OverlapChangesNothing(m, log, j, k);
    TouchesAppend(m, first, log[k..]);
    assert log == first + log[k..];
    assert ApplyAll(ms, log) == Put(ms, id, Fold(m, log).value);
    if Touches(mid, rest) {
      PutPut(ms, id, mid.value, Fold(m, log).value);
    }
  }

  /** A call that starts after the finish stays open. */
  lemma StartAfterFinish(finish: RunEvent, start: RunEvent)
    requires finish.kind == RunFinished && start.kind == ToolStarted && Given(start.callId)
    ensures var m := Step(Step(None, finish), start); m.Some? && m.value.calls == [CallOf(start)]
  {
    var m := Step(None, finish).value;
    assert m.calls == [] && CallIndex(m.calls, start.callId.value) == 0;
    assert !Ignored(Some(m), start);
  }

  /** The second pass ends it, and its start does not open it again. */
  lemma FinishAgain(m: Message, finish: RunEvent, start: RunEvent)
    requires finish.kind == RunFinished && start.kind == ToolStarted && Given(start.callId) && m.calls == [CallOf(start)]
    ensures var n := Step(Step(Some(m), finish), start); n.Some? && n.value.calls == [EndCall(CallOf(start))]
  {
    var n := Step(Some(m), finish).value;
    assert n.calls == [EndCall(CallOf(start))];
    assert CallIndex(n.calls, start.callId.value) == 0;
  }

  /** With an event after the finish the same need not hold: the second pass ends a call that the first left open. */
  lemma FinishMustBeLast(e: RunEvent)
    requires e.runId != ""
    ensures var log := [e.(kind := RunFinished), e.(kind := ToolStarted, callId := Some("c"))];
            OfRun(e.runId, log) && !FinishesLast(log) && ApplyAll(ApplyAll([], log), log) != ApplyAll([], log)
  {
    var finish, start := e.(kind := RunFinished), e.(kind := ToolStarted, callId := Some("c"));
    var log := [finish, start];
    assert log[0].kind == RunFinished;
    ApplyAllIs([], e.runId, log);
    ApplyAllIs(ApplyAll([], log), e.runId, log);
    FoldTwo(None, finish, start);
    StartAfterFinish(finish, start);
    var m := Fold(None, log);
    FoldTwo(m, finish, start);
    FinishAgain(m.value, finish, start);
    assert EndCall(CallOf(start)) != CallOf(start);
    assert Fold(m, log).value.calls[0] != m.value.calls[0];
  }

  lemma FoldTwo(m: Option<Message>, x: RunEvent, y: RunEvent)
    ensures Fold(m, [x, y]) == Step(Step(m, x), y)
  {
    assert [x, y][..1] == [x] && [x][..0] == [];
    assert Fold(m, [x]) == Step(m, x);
  }
}
