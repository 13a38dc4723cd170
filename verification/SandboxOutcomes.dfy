/** What the operations on a sandbox lead to: when a sandbox is kept and when it is replaced, and the exact state that
    each operation leaves when every answer is heard. */
module SandboxOutcomes {
  import opened Wrappers
  import opened SandboxRuntime
  import opened SandboxSafety
  import opened SandboxRuns

  /** `n` steps that all succeed. */
  function Again(n: nat): (choices: seq<Choice>)
    ensures |choices| == n
  {
    if n == 0 then [] else Again(n - 1) + [Proceed]
  }

  lemma RunOne(p: Project, c: Choice)
    ensures Run(p, [c]) == Next(p, c)
  {
    assert [c][1..] == [];
  }

  lemma {:induction false} AgainAdds(a: nat, b: nat)
    ensures Again(a + b) == Again(a) + Again(b)
  {
    if b > 0 { AgainAdds(a, b - 1); }
  }

  /** Steps that all succeed lead from one state to the other. */
  ghost predicate Leads(p: Project, q: Project) {
    exists n :: Run(p, Again(n)) == q
  }

  lemma LeadsOn(p: Project, q: Project, r: Project)
    requires Leads(p, q) && Leads(q, r)
    ensures Leads(p, r)
  {
    var a :| Run(p, Again(a)) == q;
    var b :| Run(q, Again(b)) == r;
    AgainAdds(a, b);
    RunAppend(p, Again(a), Again(b));
  }

  lemma StepLeads(p: Project)
    ensures Leads(p, Next(p, Proceed))
  {
    assert Again(0) == [];
    assert Again(1) == [Proceed];
    RunOne(p, Proceed);
  }

  lemma TwoStepsLead(p: Project, q: Project, r: Project)
    requires Next(p, Proceed) == q && Next(q, Proceed) == r
    ensures Leads(p, r)
  {
    StepLeads(p);
    StepLeads(q);
    LeadsOn(p, q, r);
  }

  lemma StartThenLeads(p: Project, c: Choice, q: Project) returns (n: nat)
    requires Leads(Next(p, c), q)
    ensures Run(p, [c] + Again(n)) == q
  {
    n :| Run(Next(p, c), Again(n)) == q;
    RunAppend(p, [c], Again(n));
    RunOne(p, c);
  }

  // ----- A sandbox is kept -------------------------------------------------------------------------------------

  /** What the row's sandbox must be to be handed out as it is: it holds the current revision under the current
      template and generation, runs or is paused, and is marked reusable. */
  predicate UpToDate(p: Project) {
    && p.row.Some?
    && var row := p.row.value;
    && row.reusable && row.sandbox.Some? && (row.state == Running || row.state == Paused)
    && row.revision == p.latest && row.generation == p.generation
    && row.template == (if p.latest.Some? && p.latest.value < |p.archive| then p.archive[p.latest.value].template else p.baseTemplate)
  }

  /** Its sandbox is there, and its entry, if it has one, is live unless the sandbox is paused. */
  predicate Resumable(p: Project) {
    && UpToDate(p) && p.row.value.sandbox.value in p.machines
    && (p.machines[p.row.value.sandbox.value].running && p.row.value.spend.Some? ==> p.row.value.spend.value in p.reserved)
  }

  function SpendOf(p: Project): set<SpendId> {
    if p.row.Some? && p.row.value.spend.Some? then {p.row.value.spend.value} else {}
  }

  /** The same sandbox, running, in hand and under a new lease; nothing else has changed. */
  function Kept(p: Project, goal: Goal): Project
    requires Resumable(p)
  {
    var id := p.row.value.sandbox.value;
    p.(row := Some(p.row.value.(state := Running, spend := Some(p.spends))), handle := Some(id),
       machines := p.machines[id := p.machines[id].(running := true)],
       reserved := (p.reserved - SpendOf(p)) + {p.spends}, spends := p.spends + 1, stage := Held(goal, p.latest, false))
  }

  /** About to lease, once the state of the sandbox is known: a paused one has given up its entry. */
  function Known(p: Project, goal: Goal): Project
    requires Resumable(p)
  {
    var row := p.row.value;
    if p.machines[row.sandbox.value].running then p.(row := Some(row.(state := Running))).Do(Lease(goal, p.latest))
    else p.(row := Some(row.(state := Paused, spend := None)), handle := None, reserved := p.reserved - SpendOf(p)).Do(Lease(goal, p.latest))
  }

  lemma AsksForItsState(p: Project, goal: Goal)
    requires Resumable(p)
    ensures Leads(p.Do(Looking(goal)), p.Do(NoteState(!p.machines[p.row.value.sandbox.value].running, Resume(goal, p.latest))))
  {
    TwoStepsLead(p.Do(Looking(goal)), p.Do(AskState(Resume(goal, p.latest))),
                 p.Do(NoteState(!p.machines[p.row.value.sandbox.value].running, Resume(goal, p.latest))));
  }

  lemma StateIsKnown(p: Project, goal: Goal)
    requires Resumable(p)
    ensures Leads(p.Do(Looking(goal)), Known(p, goal))
  {
    AsksForItsState(p, goal);
    if p.machines[p.row.value.sandbox.value].running { RunningIsKnown(p, Resume(goal, p.latest)); }
    else { PausedIsSettled(p, Resume(goal, p.latest)); }
    LeadsOn(p.Do(Looking(goal)), p.Do(NoteState(!p.machines[p.row.value.sandbox.value].running, Resume(goal, p.latest))), Known(p, goal));
  }

  function After(p: Project, next: Then): Project {
    p.Do(if next.Resume? then Lease(next.goal, next.target) else Idle)
  }

  lemma RunningIsKnown(p: Project, next: Then)
    requires p.row.Some?
    ensures Leads(p.Do(NoteState(false, next)), After(p.(row := Some(p.row.value.(state := Running))), next))
  {
    StepLeads(p.Do(NoteState(false, next)));
  }

  /** Without a lease, and known to be paused. */
  function Released(p: Project): Project
    requires p.row.Some?
  {
    p.(row := Some(p.row.value.(state := Paused, spend := None)), handle := None, reserved := p.reserved - SpendOf(p))
  }

  /** A paused sandbox holds nothing: its entry is settled, its row says so and its handle is forgotten. */
  lemma PausedIsSettled(p: Project, next: Then)
    requires p.row.Some?
    ensures Leads(p.Do(NoteState(true, next)), After(Released(p), next))
  {
    var noted := p.(row := Some(p.row.value.(state := Paused))).Do(SettlePaused(next));
    assert Next(p.Do(NoteState(true, next)), Proceed) == noted;
    StepLeads(p.Do(NoteState(true, next)));
    NotedIsSettled(p, noted, next);
    LeadsOn(p.Do(NoteState(true, next)), noted, After(Released(p), next));
  }

  lemma NotedIsSettled(p: Project, noted: Project, next: Then)
    requires p.row.Some? && noted == p.(row := Some(p.row.value.(state := Paused))).Do(SettlePaused(next))
    ensures Leads(noted, After(Released(p), next))
  {
    TwoStepsLead(noted, noted.(reserved := p.reserved - SpendOf(p), stage := ClearPaused(next)), After(Released(p), next));
  }

  /** About to connect, under the new lease. */
  function Leased(p: Project, goal: Goal): Project
    requires Resumable(p)
  {
    Kept(p, goal).(handle := Known(p, goal).handle, machines := p.machines, stage := Connect(goal, p.latest))
  }

  lemma KnownIsLeased(p: Project, goal: Goal)
    requires Resumable(p)
    ensures Leads(Known(p, goal), Leased(p, goal))
  {
    var q := Known(p, goal);
    assert (q.reserved - SpendOf(q)) + {p.spends} == (p.reserved - SpendOf(p)) + {p.spends};
    LeaseIsTaken(q, goal, p.latest);
  }

  /** The old entry is settled with the reservation of the new one, which the row then names. */
  lemma LeaseIsTaken(p: Project, goal: Goal, target: Option<RevisionId>)
    requires p.row.Some? && p.stage == Lease(goal, target)
    requires p.row.value.spend.Some? ==> p.row.value.spend.value in p.reserved
    ensures Leads(p, p.(row := Some(p.row.value.(state := Running, spend := Some(p.spends))),
                        reserved := (p.reserved - SpendOf(p)) + {p.spends}, spends := p.spends + 1, stage := Connect(goal, target)))
  {
    var leased := p.(reserved := (p.reserved - SpendOf(p)) + {p.spends}, spends := p.spends + 1,
                     stage := TakeLease(goal, target, p.spends));
    assert Next(p, Proceed) == leased;
    TwoStepsLead(p, leased, leased.(row := Some(p.row.value.(state := Running, spend := Some(p.spends))), stage := Connect(goal, target)));
  }

  lemma LeasedIsKept(p: Project, goal: Goal)
    requires Resumable(p)
    ensures Leads(Leased(p, goal), Kept(p, goal))
  {
    TwoStepsLead(Leased(p, goal), Kept(p, goal).Do(Confirm(goal, p.latest, false)), Kept(p, goal));
  }

  /** An acquisition keeps an up-to-date sandbox, running or paused: it ends with that sandbox in hand, running, under a
      new lease, its files as they were, and without a restore. */
  lemma UpToDateIsKept(p: Project, goal: Goal)
    requires Resumable(p)
    ensures Leads(p.Do(Looking(goal)), Kept(p, goal))
  {
    StateIsKnown(p, goal);
    KnownIsLeased(p, goal);
    LeasedIsKept(p, goal);
    LeadsOn(p.Do(Looking(goal)), Known(p, goal), Leased(p, goal));
    LeadsOn(p.Do(Looking(goal)), Leased(p, goal), Kept(p, goal));
  }

  /** The same from the request: opening the preview of a saved project, or starting a build. */
  lemma StartKeepsUpToDate(p: Project, c: Choice) returns (n: nat)
    requires p.stage.Idle? && p.exists_ && Resumable(p) && (c == StartBuild || (c == StartOpen && p.latest.Some?))
    ensures Run(p, [c] + Again(n)) == Kept(p, if c == StartBuild then Build else Open(p.latest.value))
    ensures Kept(p, Build).handle == p.row.value.sandbox && Kept(p, Build).machines.Keys == p.machines.Keys
  {
    var goal := if c == StartBuild then Build else Open(p.latest.value);
    assert Next(p, c) == p.Do(Looking(goal));
    UpToDateIsKept(p, goal);
    n := StartThenLeads(p, c, Kept(p, goal));
  }

  // ----- A sandbox is replaced ---------------------------------------------------------------------------------

  /** Of a row that is not up to date, the acquisition has not kept the sandbox `id`. */
  predicate Replacing(q: Project, id: SandboxId) {
    && id < q.sandboxes
    && match q.stage
       case Idle => true
       case MarkRetiring(after) => after.Replace? && q.row.Some? && q.row.value.sandbox == Some(id)
       case Killing(ids, after) => id in ids || id !in q.machines
       case SettleRemoved(after) => id !in q.machines
       case DeleteRow(after) => id !in q.machines
       case FreshLease(_, _) => id !in q.machines && q.handle != Some(id)
       case InsertRow(_, _, _) => id !in q.machines && q.handle != Some(id)
       case SendCreate(_, _) => id !in q.machines && q.handle != Some(id)
       case AwaitCreate(_, _) => id !in q.machines && q.handle != Some(id)
       case RecordSandbox(_, _) => id !in q.machines && q.handle != Some(id)
       case Confirm(_, _, restore) => restore && id !in q.machines && q.handle != Some(id)
       case Held(_, _, _) => id !in q.machines && q.handle != Some(id)
       case Editing => id !in q.machines && q.handle != Some(id)
       case Saved(_) => id !in q.machines && q.handle != Some(id)
       case _ => false
  }

  lemma ReplacingGoesOn(q: Project, id: SandboxId)
    requires Replacing(q, id) && !q.stage.Idle?
    ensures Replacing(Effect(q), id)
  {
    if q.stage.MarkRetiring? { assert id in KnownIds(SetRow(q, q.row.value.(state := Retiring, reusable := false))); }
  }

  lemma ReplacingStaysByAnswers(q: Project, c: Choice, id: SandboxId)
    requires Replacing(q, id) && !q.stage.Idle? && !FromEnvironment(c) && !c.Proceed?
    ensures Replacing(Next(q, c), id)
  {
  }

  lemma ReplacingStaysOutside(q: Project, c: Choice, id: SandboxId)
    requires Replacing(q, id) && !q.stage.Idle? && FromEnvironment(c)
    ensures Replacing(Next(q, c), id)
  {
  }

  lemma ReplacingStays(q: Project, c: Choice, id: SandboxId)
    requires Replacing(q, id) && !q.stage.Idle?
    ensures Replacing(Next(q, c), id)
  {
    if FromEnvironment(c) { ReplacingStaysOutside(q, c, id); }
    else if c.Proceed? { ReplacingGoesOn(q, id); }
    else { ReplacingStaysByAnswers(q, c, id); }
  }

  /** No state on the way is idle: it is one acquisition, and the work that follows it. */
  predicate Unbroken(p: Project, choices: seq<Choice>)
    decreases |choices|
  {
    !p.stage.Idle? && (choices != [] ==> Unbroken(Next(p, choices[0]), choices[1..]))
  }

  lemma {:induction false} ReplacingOverARun(q: Project, choices: seq<Choice>, id: SandboxId)
    requires Replacing(q, id) && Unbroken(q, choices)
    ensures Replacing(Run(q, choices), id)
    decreases |choices|
  {
    if choices != [] {
      ReplacingStays(q, choices[0], id);
      ReplacingOverARun(Next(q, choices[0]), choices[1..], id);
    }
  }

  /** An acquisition never hands out the sandbox of a row that is not up to date: one of another revision, template or
      generation, one that is not marked reusable, or one that is being created or retired. Whatever the answers and the
      provider, by the time a sandbox is in hand the old one is gone. */
  lemma OutdatedIsNeverHandedOut(p: Project, choices: seq<Choice>, id: SandboxId)
    requires p.stage.Looking? && p.row.Some? && p.row.value.sandbox == Some(id) && id < p.sandboxes && !UpToDate(p)
    requires Unbroken(Next(p, Proceed), choices)
    ensures var q := Run(Next(p, Proceed), choices);
            q.stage.Held? ==> q.handle != Some(id) && id !in q.machines
  {
    assert Next(p, Proceed) == p.Do(MarkRetiring(Replace(p.stage.goal, p.latest)));
    ReplacingOverARun(Next(p, Proceed), choices, id);
  }

  /** Without the row and the sandboxes that it and the handle named. */
  function Removed(p: Project, id: SandboxId): Project {
    p.(row := None, handle := None, machines := p.machines - {id}, reserved := p.reserved - SpendOf(p))
  }

  /** The one sandbox that the row and the handle name. */
  predicate Names(p: Project, id: SandboxId) {
    && p.row.Some? && (p.row.value.sandbox == Some(id) || (p.row.value.sandbox.None? && p.handle == Some(id)))
    && (p.handle.Some? ==> p.handle == Some(id))
  }

  /** A removal marks the row before it kills, and settles before it deletes. */
  lemma NamedIsRemoved(p: Project, id: SandboxId, after: After)
    requires Names(p, id)
    ensures Run(p.Do(MarkRetiring(after)), [Proceed, Kill(id), Proceed, Proceed])
            == Removed(p, id).Do(if after.Replace? then FreshLease(after.goal, after.target) else Idle)
  {
    NamedIsMarked(p, id, after);
    KilledIsRemoved(Marked(p, id, after), id, after);
    FourSteps(p.Do(MarkRetiring(after)), Proceed, Kill(id), Proceed, Proceed);
  }

  function Marked(p: Project, id: SandboxId, after: After): Project
    requires p.row.Some?
  {
    p.(row := Some(p.row.value.(state := Retiring, reusable := false))).Do(Killing({id}, after))
  }

  lemma NamedIsMarked(p: Project, id: SandboxId, after: After)
    requires Names(p, id)
    ensures Next(p.Do(MarkRetiring(after)), Proceed) == Marked(p, id, after)
  {
    assert KnownIds(p.(row := Some(p.row.value.(state := Retiring, reusable := false)))) == {id};
  }

  lemma FourSteps(p: Project, a: Choice, b: Choice, c: Choice, d: Choice)
    ensures Run(p, [a, b, c, d]) == Next(Next(Next(Next(p, a), b), c), d)
  {
    var q := Next(Next(p, a), b);
    assert [a, b, c, d][1..] == [b, c, d] && [b, c, d][1..] == [c, d] && [c, d][1..] == [d];
    assert Run(p, [a, b, c, d]) == Run(Next(p, a), [b, c, d]) == Run(q, [c, d]) == Run(Next(q, c), [d]);
    RunOne(Next(q, c), d);
  }

  lemma KilledIsRemoved(p: Project, id: SandboxId, after: After)
    requires p.row.Some? && p.stage == Killing({id}, after)
    ensures Next(Next(Next(p, Kill(id)), Proceed), Proceed)
            == Removed(p, id).Do(if after.Replace? then FreshLease(after.goal, after.target) else Idle)
  {
    assert {id} - {id} == {};
    assert Next(p, Kill(id)) == p.(machines := p.machines - {id}).Do(SettleRemoved(after));
    GoneIsRemoved(p.(machines := p.machines - {id}), after);
  }

  /** The entry is settled before the row goes. */
  lemma GoneIsRemoved(p: Project, after: After)
    requires p.row.Some?
    ensures Next(Next(p.Do(SettleRemoved(after)), Proceed), Proceed)
            == p.(row := None, handle := None, reserved := p.reserved - SpendOf(p)).Do(
                 if after.Replace? then FreshLease(after.goal, after.target) else Idle)
  {
    assert Next(p.Do(SettleRemoved(after)), Proceed) == p.(reserved := p.reserved - SpendOf(p)).Do(DeleteRow(after));
  }

  /** Without an id it kills what the provider lists under the row's own tag, and nothing else. */
  lemma ListedAreKilled(p: Project, after: After)
    requires p.row.Some? && p.row.value.sandbox.None? && p.handle.None?
    ensures var ids := set id | id in p.machines && p.machines[id].operation == p.row.value.operation;
            Next(Next(p.Do(MarkRetiring(after)), Proceed), Proceed)
            == p.(row := Some(p.row.value.(state := Retiring, reusable := false))).Do(if ids == {} then Idle else Killing(ids, after))
  {
    var marked := p.(row := Some(p.row.value.(state := Retiring, reusable := false))).Do(Listing(after));
    assert Next(p.Do(MarkRetiring(after)), Proceed) == marked;
  }

  // ----- A sandbox is created ----------------------------------------------------------------------------------

  /** The row of a new sandbox: a fresh tag, the template of the revision that it is for, not reusable. */
  function NewRow(p: Project, target: Option<RevisionId>): Row {
    Row(p.operations, Some(p.sandboxes),
        if target.Some? && target.value < |p.archive| then p.archive[target.value].template else p.baseTemplate,
        p.generation, None, false, Running, Some(p.spends))
  }

  /** One more sandbox, under its own tag, in hand, leased, and still to be filled. */
  function Created(p: Project, goal: Goal, target: Option<RevisionId>, files: Files): Project {
    p.(row := Some(NewRow(p, target)), handle := Some(p.sandboxes),
       machines := p.machines[p.sandboxes := Machine(p.operations, true, files)],
       reserved := p.reserved + {p.spends}, spends := p.spends + 1, operations := p.operations + 1, sandboxes := p.sandboxes + 1,
       stage := Held(goal, target, true))
  }

  /** Lease and row are durable before the request is sent. */
  lemma IntentComesFirst(p: Project, goal: Goal, target: Option<RevisionId>)
    requires p.exists_ && p.row.None?
    ensures Next(Next(p.Do(FreshLease(goal, target)), Proceed), Proceed)
            == p.(row := Some(NewRow(p, target).(sandbox := None, state := Creating)), reserved := p.reserved + {p.spends},
                  spends := p.spends + 1, operations := p.operations + 1, stage := SendCreate(goal, target))
  {
    var leased := p.(reserved := p.reserved + {p.spends}, spends := p.spends + 1, stage := InsertRow(goal, target, p.spends));
    assert Next(p.Do(FreshLease(goal, target)), Proceed) == leased;
  }

  /** For a removed project nothing is requested; the lease stays reserved. */
  lemma RemovedProjectsGetNone(p: Project, goal: Goal, target: Option<RevisionId>)
    requires !p.exists_ && p.row.None?
    ensures Next(Next(p.Do(FreshLease(goal, target)), Proceed), Proceed)
            == p.(reserved := p.reserved + {p.spends}, spends := p.spends + 1, stage := Idle)
  {
    var leased := p.(reserved := p.reserved + {p.spends}, spends := p.spends + 1, stage := InsertRow(goal, target, p.spends));
    assert Next(p.Do(FreshLease(goal, target)), Proceed) == leased;
  }

  /** What a request that was answered leaves. */
  function Answered(p: Project, files: Files): Project
    requires p.row.Some? && p.stage.SendCreate?
  {
    p.(row := Some(p.row.value.(sandbox := Some(p.sandboxes), state := Running)), handle := Some(p.sandboxes),
       machines := p.machines[p.sandboxes := Machine(p.row.value.operation, true, files)], sandboxes := p.sandboxes + 1,
       stage := Confirm(p.stage.goal, p.stage.target, true))
  }

  function Landed(p: Project, files: Files): Project
    requires p.row.Some? && p.stage.SendCreate?
  {
    p.(machines := p.machines[p.sandboxes := Machine(p.row.value.operation, true, files)], sandboxes := p.sandboxes + 1,
       stage := AwaitCreate(p.stage.goal, p.stage.target))
  }

  /** The request lands and its reply names the sandbox. */
  lemma RequestIsAnswered(p: Project, files: Files)
    requires p.row.Some? && p.creating == {} && p.stage.SendCreate?
    ensures Run(p, [Proceed, Land(p.row.value.operation, files), Reply(p.sandboxes), Proceed]) == Answered(p, files)
  {
    RequestLands(p, files);
    ReplyIsRecorded(Landed(p, files), p.sandboxes);
    Joined(p, [Proceed, Land(p.row.value.operation, files)], Landed(p, files), [Reply(p.sandboxes), Proceed], Answered(p, files));
  }

  lemma Joined(p: Project, a: seq<Choice>, q: Project, b: seq<Choice>, r: Project)
    requires Run(p, a) == q && Run(q, b) == r
    ensures Run(p, a + b) == r
  {
    RunAppend(p, a, b);
  }

  lemma RequestLands(p: Project, files: Files)
    requires p.row.Some? && p.creating == {} && p.stage.SendCreate?
    ensures Run(p, [Proceed, Land(p.row.value.operation, files)]) == Landed(p, files)
  {
    RequestIsSent(p);
    SentLands(p, files);
    TwoSteps(p, Proceed, Land(p.row.value.operation, files));
  }

  function Sent(p: Project): Project
    requires p.row.Some? && p.stage.SendCreate?
  {
    p.(creating := {p.row.value.operation}, stage := AwaitCreate(p.stage.goal, p.stage.target))
  }

  lemma RequestIsSent(p: Project)
    requires p.row.Some? && p.creating == {} && p.stage.SendCreate?
    ensures Next(p, Proceed) == Sent(p)
  {
  }

  lemma SentLands(p: Project, files: Files)
    requires p.row.Some? && p.creating == {} && p.stage.SendCreate?
    ensures Next(Sent(p), Land(p.row.value.operation, files)) == Landed(p, files)
  {
    var tag := p.row.value.operation;
    assert {tag} - {tag} == {};
  }

  lemma ReplyIsRecorded(p: Project, id: SandboxId)
    requires p.row.Some? && p.stage.AwaitCreate? && id in p.machines && p.machines[id].operation == p.row.value.operation
    ensures Run(p, [Reply(id), Proceed])
            == p.(row := Some(p.row.value.(sandbox := Some(id), state := Running)), handle := Some(id),
                  stage := Confirm(p.stage.goal, p.stage.target, true))
  {
    assert Next(p, Reply(id)) == p.(handle := Some(id), stage := RecordSandbox(p.stage.goal, p.stage.target));
    TwoSteps(p, Reply(id), Proceed);
  }

  function CreateChoices(p: Project, files: Files): seq<Choice> {
    [Proceed, Proceed] + [Proceed, Land(p.operations, files), Reply(p.sandboxes), Proceed] + [Proceed]
  }

  /** Without a row, an acquisition creates exactly one sandbox and asks for a restore. */
  lemma CreationMakesOne(p: Project, goal: Goal, target: Option<RevisionId>, files: Files)
    requires p.exists_ && p.row.None? && p.creating == {}
    ensures Run(p.Do(FreshLease(goal, target)), CreateChoices(p, files)) == Created(p, goal, target, files)
  {
    var start := p.Do(FreshLease(goal, target));
    IntentComesFirst(p, goal, target);
    var sending := Next(Next(start, Proceed), Proceed);
    RequestIsAnswered(sending, files);
    var answer := [Proceed, Land(p.operations, files), Reply(p.sandboxes), Proceed];
    RunAppend(start, [Proceed, Proceed] + answer, [Proceed]);
    RunAppend(start, [Proceed, Proceed], answer);
    TwoSteps(start, Proceed, Proceed);
    RunOne(Run(sending, answer), Proceed);
  }

  /** An acquisition over a row that is not up to date removes its sandbox and creates another, to be restored. */
  lemma OutdatedIsReplaced(p: Project, goal: Goal, id: SandboxId, files: Files)
    requires p.exists_ && p.creating == {} && Names(p, id) && !UpToDate(p)
    ensures Run(p.Do(Looking(goal)), [Proceed] + [Proceed, Kill(id), Proceed, Proceed] + CreateChoices(p, files))
            == Created(Removed(p, id), goal, p.latest, files)
  {
    var start, kill := p.Do(Looking(goal)), [Proceed, Kill(id), Proceed, Proceed];
    var after := Replace(goal, p.latest);
    assert Next(start, Proceed) == p.Do(MarkRetiring(after));
    RunOne(start, Proceed);
    RunAppend(start, [Proceed] + kill, CreateChoices(p, files));
    RunAppend(start, [Proceed], kill);
    NamedIsRemoved(p, id, after);
    assert CreateChoices(Removed(p, id), files) == CreateChoices(p, files);
    CreationMakesOne(Removed(p, id), goal, p.latest, files);
  }

  /** An explicit rejection takes back the lease and the row. */
  lemma RejectionUndoes(p: Project, goal: Goal, target: Option<RevisionId>)
    requires p.row.Some? && p.creating == {p.row.value.operation}
    ensures Run(p.Do(AwaitCreate(goal, target)), [Reject, Proceed, Proceed])
            == p.(row := None, handle := None, creating := {}, reserved := p.reserved - SpendOf(p), stage := Idle)
  {
    var start := p.Do(AwaitCreate(goal, target));
    assert Next(start, Reject) == p.(creating := {}).Do(SettleRemoved(Stop));
    GoneIsRemoved(p.(creating := {}), Stop);
    ThreeSteps(start, Reject, Proceed, Proceed);
  }

  // ----- What is done with a sandbox ---------------------------------------------------------------------------

  /** The sandbox in hand is the row's, and runs. */
  predicate Holding(p: Project, id: SandboxId) {
    p.row.Some? && p.row.value.sandbox == Some(id) && p.row.value.state == Running && p.handle == Some(id) && id in p.machines
  }

  function WithFiles(p: Project, id: SandboxId, files: Files): Project
    requires id in p.machines
  {
    p.(machines := p.machines[id := p.machines[id].(files := files)])
  }

  /** A restore leaves the files of the revision that was asked for. */
  lemma RestoreFills(p: Project, id: SandboxId, goal: Goal, revision: RevisionId)
    requires Holding(p, id) && revision < |p.archive|
    ensures Next(p.Do(Held(goal, Some(revision), true)), Proceed)
            == WithFiles(p, id, p.archive[revision].files).Do(Held(goal, Some(revision), false))
    ensures Next(p.Do(Held(goal, None, true)), Proceed) == p.Do(Held(goal, None, false))
  {
  }

  /** An opened preview is published for the revision that was seen if that is still the latest, and only then. */
  lemma OpeningPublishes(p: Project, id: SandboxId, seen: RevisionId, target: Option<RevisionId>)
    requires Holding(p, id)
    ensures Next(p.Do(Held(Open(seen), target, false)), Proceed)
            == (if p.latest == Some(seen) then p.(row := Some(p.row.value.(reusable := true, revision := Some(seen)))) else p).Do(Idle)
  {
  }

  /** A build first takes the mark away, so that a sandbox it leaves half changed is not handed out. */
  lemma BuildInvalidatesFirst(p: Project, id: SandboxId, target: Option<RevisionId>)
    requires Holding(p, id)
    ensures Next(p.Do(Held(Build, target, false)), Proceed)
            == p.(row := Some(p.row.value.(reusable := false)), stage := Editing)
    ensures forall c :: !UpToDate(p.(row := Some(p.row.value.(reusable := false)), stage := c))
  {
  }

  /** The files that a finished build leaves are saved as the latest revision, and its sandbox is published for it. */
  lemma BuildSavesAndPublishes(p: Project, id: SandboxId, files: Files)
    requires Holding(p, id) && p.stage.Editing?
    requires p.latest.Some? && p.latest.value < |p.archive| ==> p.archive[p.latest.value].files != files
    ensures Run(p, [Write(files), Save(true), Proceed])
            == WithFiles(p, id, files).(
                 archive := p.archive + [Revision(files, p.TemplateOf(p.latest))], latest := Some(|p.archive|),
                 row := Some(p.row.value.(reusable := true, revision := Some(|p.archive|))), stage := Idle)
  {
    assert Next(p, Write(files)) == WithFiles(p, id, files);
    EditIsSaved(WithFiles(p, id, files), id);
    ThreeSteps(p, Write(files), Save(true), Proceed);
  }

  /** The last save of a build, of files that are not saved yet. */
  lemma EditIsSaved(p: Project, id: SandboxId)
    requires Holding(p, id) && p.stage.Editing?
    requires p.latest.Some? && p.latest.value < |p.archive| ==> p.archive[p.latest.value].files != p.machines[id].files
    ensures Next(Next(p, Save(true)), Proceed)
            == p.(archive := p.archive + [Revision(p.machines[id].files, p.TemplateOf(p.latest))], latest := Some(|p.archive|),
                  row := Some(p.row.value.(reusable := true, revision := Some(|p.archive|))), stage := Idle)
  {
    assert Next(p, Save(true)) == p.(archive := p.archive + [Revision(p.machines[id].files, p.TemplateOf(p.latest))],
                                     latest := Some(|p.archive|), stage := Saved(|p.archive|));
  }

  lemma TwoSteps(p: Project, a: Choice, b: Choice)
    ensures Run(p, [a, b]) == Next(Next(p, a), b)
  {
    assert [a, b][1..] == [b];
    RunOne(Next(p, a), b);
  }

  lemma ThreeSteps(p: Project, a: Choice, b: Choice, c: Choice)
    ensures Run(p, [a, b, c]) == Next(Next(Next(p, a), b), c)
  {
    assert [a, b, c][1..] == [b, c] && [b, c][1..] == [c];
    assert Run(p, [a, b, c]) == Run(Next(p, a), [b, c]) == Run(Next(Next(p, a), b), [c]);
    RunOne(Next(Next(p, a), b), c);
  }

  /** A build without edits adds no revision and publishes the one it began with. */
  lemma UneditedBuildKeepsTheRevision(p: Project, id: SandboxId)
    requires Holding(p, id) && p.stage.Editing?
    requires p.latest.Some? && p.latest.value < |p.archive| && p.archive[p.latest.value].files == p.machines[id].files
    ensures Next(Next(p, Save(true)), Proceed)
            == p.(row := Some(p.row.value.(reusable := true, revision := p.latest)), stage := Idle)
  {
    assert Next(p, Save(true)) == p.Do(Saved(p.latest.value));
  }

  /** A pause stops the sandbox, settles its entry and forgets the handle; the row stays reusable. */
  lemma PauseReleases(p: Project, id: SandboxId) returns (n: nat)
    requires Holding(p, id) && p.stage.Idle? && p.row.value.reusable
    ensures Run(p, [StartPause] + Again(n))
            == p.(row := Some(p.row.value.(state := Paused, spend := None)), handle := None,
                  machines := p.machines[id := p.machines[id].(running := false)], reserved := p.reserved - SpendOf(p))
  {
    var paused := p.(machines := p.machines[id := p.machines[id].(running := false)]);
    PauseStops(p, id, paused);
    PausedIsSettled(paused, Report);
    LeadsOn(p.Do(AskPause), paused.Do(NoteState(true, Report)), After(Released(paused), Report));
    n := StartThenLeads(p, StartPause, After(Released(paused), Report));
  }

  lemma PauseStops(p: Project, id: SandboxId, paused: Project)
    requires Holding(p, id) && p.stage.Idle? && p.row.value.reusable
    requires paused == p.(machines := p.machines[id := p.machines[id].(running := false)])
    ensures Next(p, StartPause) == p.Do(AskPause)
    ensures Leads(p.Do(AskPause), paused.Do(NoteState(true, Report)))
  {
    StepLeads(p.Do(AskPause));
  }

  /** A paused row is what the next acquisition keeps, if nothing was saved meanwhile. */
  lemma PausedIsResumable(p: Project, id: SandboxId) returns (n: nat)
    requires Holding(p, id) && p.stage.Idle? && UpToDate(p)
    ensures Resumable(Run(p, [StartPause] + Again(n)))
  {
    n := PauseReleases(p, id);
  }

  /** A status query over a sandbox that is gone removes the row and settles its entry. */
  lemma MissingIsRemoved(p: Project, next: Then)
    requires p.row.Some? && p.row.value.sandbox.Some? && p.row.value.sandbox.value !in p.machines
    ensures Next(Next(Next(p.Do(AskState(next)), Proceed), Proceed), Proceed)
            == p.(row := None, handle := None, reserved := p.reserved - SpendOf(p)).Do(
                 if next.Resume? then FreshLease(next.goal, next.target) else Idle)
  {
    var after := if next.Resume? then Replace(next.goal, next.target) else Stop;
    assert Next(p.Do(AskState(next)), Proceed) == p.Do(SettleRemoved(after));
    GoneIsRemoved(p, after);
  }

  /** One over a running sandbox only notes that it runs. */
  lemma RunningIsNoted(p: Project)
    requires p.row.Some? && p.row.value.sandbox.Some? && p.row.value.sandbox.value in p.machines
    requires p.machines[p.row.value.sandbox.value].running
    ensures Next(Next(p.Do(AskState(Report)), Proceed), Proceed) == p.(row := Some(p.row.value.(state := Running)), stage := Idle)
  {
    var start := p.Do(AskState(Report));
    assert Next(start, Proceed) == p.Do(NoteState(false, Report));
  }

  /** A retirement from rest leaves neither row, handle, sandbox nor lease. */
  lemma RetirementRemoves(p: Project, id: SandboxId)
    requires p.stage.Idle? && Names(p, id)
    ensures Run(p, [StartRetire] + [Proceed, Kill(id), Proceed, Proceed]) == Removed(p, id)
  {
    assert Next(p, StartRetire) == p.Do(MarkRetiring(Stop));
    RunOne(p, StartRetire);
    RunAppend(p, [StartRetire], [Proceed, Kill(id), Proceed, Proceed]);
    NamedIsRemoved(p, id, Stop);
  }

  /** A refused step ends the operation and changes nothing else; an unheard one differs from a success only in what
      its caller remembers. */
  lemma CutStepsEndTheOperation(p: Project)
    ensures Next(p, Fail) == p.Do(Idle)
    ensures Next(p, Lost) == Next(p, Proceed).(handle := p.handle).Do(Idle)
  {
  }

  /** A kept sandbox that turns out to be gone is replaced; a new one that is gone again ends the acquisition. */
  lemma GoneIsReplaced(p: Project, goal: Goal, target: Option<RevisionId>)
    requires p.row.Some? && p.row.value.sandbox.Some? && p.row.value.sandbox.value !in p.machines
    requires p.handle.Some? ==> p.handle == p.row.value.sandbox
    ensures Next(p.Do(Connect(goal, target)), Proceed) == p.Do(MarkRetiring(Replace(goal, target)))
    ensures Next(p.Do(Confirm(goal, target, false)), Proceed) == p.Do(MarkRetiring(Replace(goal, target)))
    ensures Next(p.Do(Confirm(goal, target, true)), Proceed) == p.Do(Idle)
  {
  }

  /** An entry that was settled meanwhile can not be rolled forward, so that nothing is connected without a lease. */
  lemma SettledLeasesEndTheAcquisition(p: Project, goal: Goal, target: Option<RevisionId>)
    requires p.row.Some? && p.row.value.spend.Some? && p.row.value.spend.value !in p.reserved
    ensures Next(p.Do(Lease(goal, target)), Proceed) == p.Do(Idle)
  {
  }

  /** A preview is opened only of a saved project, a build started only in one that exists; status queries and pauses
      are for reusable sandboxes. */
  lemma WhatStarts(p: Project)
    requires p.stage.Idle?
    ensures Next(p, StartOpen) == if p.exists_ && p.latest.Some? then p.Do(Looking(Open(p.latest.value))) else p
    ensures Next(p, StartBuild) == if p.exists_ then p.Do(Looking(Build)) else p
    ensures Next(p, StartStatus).stage == AskState(Report) <==>
      p.row.Some? && p.row.value.reusable && p.row.value.sandbox.Some? && (p.row.value.state == Running || p.row.value.state == Paused)
    ensures Next(p, StartPause).stage.AskPause? <==>
      p.row.Some? && p.row.value.reusable && p.row.value.sandbox.Some? && p.row.value.state == Running
    ensures Next(p, StartRetire).stage.Idle? <==> p.row.None? && p.handle.None?
  {
  }

  /** While a build goes on, each batch is saved if it changed anything, and the build stays the only writer. */
  lemma BatchesAreSaved(p: Project, id: SandboxId)
    requires Holding(p, id) && p.stage.Editing?
    ensures Next(p, Save(false))
            == if p.latest.Some? && p.latest.value < |p.archive| && p.archive[p.latest.value].files == p.machines[id].files then p
               else p.(archive := p.archive + [Revision(p.machines[id].files, p.TemplateOf(p.latest))], latest := Some(|p.archive|))
    ensures forall saved :: p.latest.Some? ==> Next(p, Recover(saved)) == p
  {
  }

  /** A revision that is recovered or imported is the latest from then on, unless a build of a saved project is under way. */
  lemma RecoveredIsTheLatest(p: Project, saved: Revision)
    ensures Next(p, Recover(saved))
            == if Asker(p.stage) == Some(Build) && p.latest.Some? then p
               else p.(archive := p.archive + [saved], latest := Some(|p.archive|))
    ensures p.row.Some? && p.row.value.revision.Some? && p.row.value.revision.value < |p.archive| && Next(p, Recover(saved)) != p
      ==> !UpToDate(Next(p, Recover(saved)))
  {
  }

  /** A crash forgets what was in memory and nothing else; a restart under a new generation outdates the row. */
  lemma CrashForgets(p: Project, generation: nat)
    ensures Next(p, Crash(generation)) == p.(handle := None, stage := Idle, generation := generation)
    ensures p.row.Some? && p.row.value.generation != generation ==> !UpToDate(Next(p, Crash(generation)))
  {
  }
}
