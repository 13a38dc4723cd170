/** The two gaps in the ownership protocol, as runs that the code can take, and the exact conditions under which
    a step is safe from them. */
module SandboxFaults {
  import opened Wrappers
  import opened SandboxRuntime
  import opened SandboxSafety
  import opened SandboxRuns

  // ----- Runs that admission allows ---------------------------------------------------------------------------

  /** Nothing is started over a row that is being created or retired. */
  predicate Startable(p: Project, c: Choice) {
    (c.StartOpen? || c.StartBuild?) && p.row.Some? ==> p.row.value.state != Creating && p.row.value.state != Retiring
  }

  predicate StartableRun(p: Project, choices: seq<Choice>)
    decreases |choices|
  {
    choices != [] ==> Startable(p, choices[0]) && StartableRun(Next(p, choices[0]), choices[1..])
  }

  ghost predicate Reaches(p: Project, q: Project) {
    exists choices :: StartableRun(p, choices) && Run(p, choices) == q
  }

  lemma ReachesItself(p: Project)
    ensures Reaches(p, p)
  {
    assert StartableRun(p, []) && Run(p, []) == p;
  }

  lemma {:induction false} RunOneMore(p: Project, choices: seq<Choice>, c: Choice)
    requires StartableRun(p, choices) && Startable(Run(p, choices), c)
    ensures StartableRun(p, choices + [c]) && Run(p, choices + [c]) == Next(Run(p, choices), c)
    decreases |choices|
  {
    var longer := choices + [c];
    if choices == [] {
      assert longer[0] == c && longer[1..] == [];
      assert Run(Next(p, c), []) == Next(p, c);
    } else {
      assert longer[0] == choices[0] && longer[1..] == choices[1..] + [c];
      RunOneMore(Next(p, choices[0]), choices[1..], c);
    }
  }

  /** One step further. */
  lemma StepOn(p: Project, q: Project, c: Choice)
    requires Reaches(p, q) && Startable(q, c)
    ensures Reaches(p, Next(q, c))
  {
    var choices :| StartableRun(p, choices) && Run(p, choices) == q;
    RunOneMore(p, choices, c);
  }

  lemma {:induction false} StartableAppend(p: Project, a: seq<Choice>, b: seq<Choice>)
    requires StartableRun(p, a) && StartableRun(Run(p, a), b)
    ensures StartableRun(p, a + b)
    decreases |a|
  {
    if a == [] {
      assert a + b == b;
    } else {
      assert (a + b)[0] == a[0] && (a + b)[1..] == a[1..] + b;
      StartableAppend(Next(p, a[0]), a[1..], b);
    }
  }

  lemma ReachesOn(p: Project, q: Project, r: Project)
    requires Reaches(p, q) && Reaches(q, r)
    ensures Reaches(p, r)
  {
    var a :| StartableRun(p, a) && Run(p, a) == q;
    var b :| StartableRun(q, b) && Run(q, b) == r;
    RunAppend(p, a, b);
    StartableAppend(p, a, b);
  }

  // ----- A first build --------------------------------------------------------------------------------------------

  /** The row, the handle and the sandbox of a new project's first build. */
  function FirstRow(p: Project): Row {
    Row(p.operations, Some(p.sandboxes), p.baseTemplate, p.generation, None, false, Running, Some(p.spends))
  }

  function Provisioned(p: Project): Project {
    p.(row := Some(FirstRow(p)), handle := Some(p.sandboxes),
       machines := map[p.sandboxes := Machine(p.operations, true, map[])], reserved := {p.spends},
       spends := p.spends + 1, operations := p.operations + 1, sandboxes := p.sandboxes + 1,
       stage := Held(Build, None, true))
  }

  function Requesting(p: Project): Project {
    p.(row := Some(FirstRow(p).(sandbox := None, state := Creating)), reserved := {p.spends}, spends := p.spends + 1,
       operations := p.operations + 1, stage := SendCreate(Build, None))
  }

  lemma BuildStarts(p: Project)
    requires p.stage.Idle? && p.row.None? && p.latest.None? && p.exists_
    ensures Reaches(p, p.Do(FreshLease(Build, None)))
  {
    ReachesItself(p);
    assert p.Do(Looking(Build)) == Next(p, StartBuild);
    StepOn(p, p, StartBuild);
    assert p.Do(FreshLease(Build, None)) == Next(p.Do(Looking(Build)), Proceed);
    StepOn(p, p.Do(Looking(Build)), Proceed);
  }

  lemma BuildRequests(p: Project)
    requires Initial(p) && p.exists_
    ensures Reaches(p, Requesting(p))
  {
    BuildStarts(p);
    var leased := p.(reserved := {p.spends}, spends := p.spends + 1, stage := InsertRow(Build, None, p.spends));
    assert leased == Next(p.Do(FreshLease(Build, None)), Proceed);
    StepOn(p, p.Do(FreshLease(Build, None)), Proceed);
    assert Requesting(p) == Next(leased, Proceed);
    StepOn(p, leased, Proceed);
  }

  function Landed(p: Project): Project {
    Requesting(p).(machines := map[p.sandboxes := Machine(p.operations, true, map[])], sandboxes := p.sandboxes + 1,
                   stage := AwaitCreate(Build, None))
  }

  lemma CreateLands(p: Project)
    requires Initial(p) && p.exists_
    ensures Reaches(p, Landed(p))
  {
    BuildRequests(p);
    var q := Requesting(p);
    var sent := q.(creating := {p.operations}, stage := AwaitCreate(Build, None));
    assert sent == Next(q, Proceed);
    StepOn(p, q, Proceed);
    assert Landed(p) == Next(sent, Land(p.operations, map[])) by { assert sent.creating - {p.operations} == {}; }
    StepOn(p, sent, Land(p.operations, map[]));
  }

  lemma FirstBuildIsProvisioned(p: Project)
    requires Initial(p) && p.exists_
    ensures Reaches(p, Provisioned(p))
  {
    CreateLands(p);
    var q, id := Landed(p), p.sandboxes;
    var heard := q.(handle := Some(id), stage := RecordSandbox(Build, None));
    assert heard == Next(q, Reply(id));
    StepOn(p, q, Reply(id));
    var bound := Provisioned(p).Do(Confirm(Build, None, true));
    assert bound == Next(heard, Proceed);
    StepOn(p, heard, Proceed);
    assert Provisioned(p) == Next(bound, Proceed);
    StepOn(p, bound, Proceed);
  }

  // ----- A stale handle -------------------------------------------------------------------------------------------

  /** The create succeeded unseen, and a handle of an earlier, dead sandbox is still held. */
  ghost predicate Stranded(p: Project) {
    && p.stage.Idle? && p.row.Some? && p.row.value.sandbox.None? && p.handle.Some? && p.machines != map[]
    && p.handle.value !in p.machines
  }

  /** Retiring a stranded row kills the sandbox the handle names, finds it gone, and goes on to
      settle and remove the row. */
  lemma RetireStranded(p: Project) returns (q: Project)
    requires Stranded(p)
    ensures Reaches(p, q) && q.row.Some? && q.machines == p.machines && q.stage == SettleRemoved(Stop)
  {
    var id := p.handle.value;
    var marked := SetRow(p, p.row.value.(state := Retiring, reusable := false)).Do(Killing({id}, Stop));
    ReachesItself(p);
    StepOn(p, p, StartRetire);
    assert KnownIds(marked) == {id};
    assert marked == Next(p.Do(MarkRetiring(Stop)), Proceed);
    StepOn(p, p.Do(MarkRetiring(Stop)), Proceed);
    assert p.machines - {id} == p.machines && {id} - {id} == {};
    q := Next(marked, Kill(id));
    StepOn(p, marked, Kill(id));
  }

  lemma StrandedIsLost(p: Project) returns (q: Project)
    requires Stranded(p)
    ensures Reaches(p, q) && q.row.None? && q.handle.None? && q.stage.Idle? && q.machines == p.machines
  {
    var removed := RetireStranded(p);
    var settled := Next(removed, Proceed);
    assert settled.stage == DeleteRow(Stop) && settled.machines == removed.machines;
    StepOn(p, removed, Proceed);
    q := Next(settled, Proceed);
    StepOn(p, settled, Proceed);
  }

  /** About to record a create while a handle of an earlier sandbox is still held. */
  ghost predicate OverStaleHandle(p: Project) {
    && p.stage.InsertRow? && p.exists_ && p.row.None? && p.machines == map[] && p.creating == {}
    && p.handle.Some? && p.handle.value < p.sandboxes
  }

  lemma LostCreateStrands(p: Project) returns (q: Project)
    requires OverStaleHandle(p)
    ensures Stranded(q) && Reaches(p, q) && q.SomeRunning()
  {
    var inserted := Next(p, Proceed);
    assert inserted.stage.SendCreate? && inserted.row.Some? && inserted.row.value.operation == p.operations;
    ReachesItself(p);
    StepOn(p, p, Proceed);
    var sent := Next(inserted, Proceed);
    assert sent.stage.AwaitCreate? && sent.creating == {p.operations} && sent.machines == map[];
    StepOn(p, inserted, Proceed);
    q := LostReply(p, sent, p.operations);
  }

  lemma LostReply(start: Project, p: Project, operation: nat) returns (q: Project)
    requires Reaches(start, p) && p.stage.AwaitCreate? && p.row.Some? && p.row.value.sandbox.None?
    requires p.creating == {operation} && p.machines == map[] && p.handle.Some? && p.handle.value < p.sandboxes
    ensures Reaches(start, q) && Stranded(q) && q.SomeRunning()
  {
    var landed := Next(p, Land(operation, map[]));
    assert landed.machines == map[p.sandboxes := Machine(operation, true, map[])] && landed.stage == p.stage;
    StepOn(start, p, Land(operation, map[]));
    q := Next(landed, Lost);
    assert q.machines[p.sandboxes].running;
    StepOn(start, landed, Lost);
  }

  /** Recording a create is safe exactly when no handle is held: over a stale one, a lost reply leads
      to a state with a live sandbox and no row. */
  lemma CreateIsSafeWithoutAHandle(p: Project)
    requires Inv(p) && p.stage.InsertRow? && p.exists_
    ensures p.handle.None? ==> forall choices :: CleanRun(Next(p, Proceed), choices) ==> Safe(Run(Next(p, Proceed), choices))
    ensures p.handle.Some? ==> exists q :: Reaches(p, q) && !SingleOwner(q)
  {
    if p.handle.None? {
      NextKeepsInv(p, Proceed);
      forall choices | CleanRun(Next(p, Proceed), choices)
        ensures Safe(Run(Next(p, Proceed), choices))
      {
        CleanRunsAreSafe(Next(p, Proceed), choices);
      }
    } else {
      var stranded := LostCreateStrands(p);
      var q := StrandedIsLost(stranded);
      ReachesOn(p, stranded, q);
      assert Reaches(p, q);
    }
  }

  /** Its retirement is cancelled right after the row is deleted. */
  lemma CutRemoval(start: Project, p: Project) returns (q: Project)
    requires Reaches(start, p) && p.stage.Idle? && p.row.Some? && p.handle.Some?
    requires p.row.value.sandbox == p.handle && p.machines.Keys == {p.handle.value}
    ensures Reaches(start, q)
    ensures q == p.(row := None, machines := map[], reserved := Settled(p, p.row.value.spend).reserved)
  {
    StepOn(start, p, StartRetire);
    var killed := KnownIsKilled(start, p.Do(MarkRetiring(Stop)));
    q := CutDeletion(start, killed);
  }

  lemma KnownIsKilled(start: Project, p: Project) returns (q: Project)
    requires Reaches(start, p) && p.stage == MarkRetiring(Stop) && p.row.Some? && p.handle.Some?
    requires p.row.value.sandbox == p.handle && p.machines.Keys == {p.handle.value}
    ensures Reaches(start, q)
    ensures q == SetRow(p, p.row.value.(state := Retiring, reusable := false)).(machines := map[], stage := SettleRemoved(Stop))
  {
    var id := p.handle.value;
    var marked := SetRow(p, p.row.value.(state := Retiring, reusable := false)).Do(Killing({id}, Stop));
    assert KnownIds(marked) == {id};
    assert marked == Next(p, Proceed);
    StepOn(start, p, Proceed);
    q := marked.(machines := map[], stage := SettleRemoved(Stop));
    assert p.machines - {id} == map[] && {id} - {id} == {};
    assert q == Next(marked, Kill(id));
    StepOn(start, marked, Kill(id));
  }

  lemma CutDeletion(start: Project, p: Project) returns (q: Project)
    requires Reaches(start, p) && p.stage == SettleRemoved(Stop) && p.row.Some?
    ensures Reaches(start, q) && q == p.(row := None, reserved := Settled(p, p.row.value.spend).reserved, stage := Idle)
  {
    var settled := Settled(p, p.row.value.spend).Do(DeleteRow(Stop));
    assert settled == Next(p, Proceed);
    StepOn(start, p, Proceed);
    q := Next(settled, Lost);
    StepOn(start, settled, Lost);
  }

  /** The unsafe create is reachable from a new project: a removal is cut short, so its handle stays, and the next
      build records its create over it. It leads to a sandbox that runs without a row, a handle or a busy project. */
  lemma StaleCreateIsReachable(p: Project) returns (q: Project, bad: Project)
    requires Initial(p) && p.exists_
    ensures Reaches(p, q) && OverStaleHandle(q)
    ensures Reaches(p, bad) && !SingleOwner(bad)
    ensures bad.SomeRunning() && bad.row.None? && bad.handle.None? && bad.stage.Idle?
  {
    FirstBuildIsProvisioned(p);
    var built := Provisioned(p);
    StepOn(p, built, Fail);
    var cut := CutRemoval(p, built.Do(Idle));
    StepOn(p, cut, StartBuild);
    StepOn(p, cut.Do(Looking(Build)), Proceed);
    var again := cut.Do(FreshLease(Build, None));
    assert again == Next(cut.Do(Looking(Build)), Proceed);
    q := Next(again, Proceed);
    StepOn(p, again, Proceed);
    var stranded := LostCreateStrands(q);
    bad := StrandedIsLost(stranded);
    ReachesOn(q, stranded, bad);
    ReachesOn(p, q, bad);
  }

  // ----- A connect that lands late ------------------------------------------------------------------------------

  /** Believing "paused" is safe exactly when no connect is outstanding: otherwise the sandbox can wake under a row
      that says paused, and without a reserved entry if the row's was the newest. */
  lemma PausedIsTrueWithoutAConnect(p: Project)
    requires Inv(p) && AnswersPaused(p)
    ensures !p.Waking() ==> forall choices :: CleanRun(Next(p, Proceed), choices) ==> Safe(Run(Next(p, Proceed), choices))
    ensures p.Waking() ==> exists q :: Reaches(p, q) && q.SomeRunning() && q.row.Some? && q.row.value.state == Paused
    ensures p.Waking() && p.row.Some? && p.row.value.spend == Some(p.spends - 1) && p.spends > 0
      ==> exists q :: Reaches(p, q) && q.SomeRunning() && !Backed(q)
  {
    if p.Waking() {
      var id :| id in p.waking && id in p.machines;
      var q := WakesUnderPausedRow(p, id);
      if p.row.value.spend == Some(p.spends - 1) { var r := WakesUnpaid(p, id); }
    } else {
      NextKeepsInv(p, Proceed);
      forall choices | CleanRun(Next(p, Proceed), choices)
        ensures Safe(Run(Next(p, Proceed), choices))
      {
        CleanRunsAreSafe(Next(p, Proceed), choices);
      }
    }
  }

  /** The answer, and the row that follows it. */
  lemma PausedIsNoted(p: Project, id: SandboxId) returns (q: Project)
    requires AnswersPaused(p) && p.row.Some? && id in p.waking && id in p.machines
    ensures Reaches(p, q) && q.stage.SettlePaused? && id in q.waking && id in q.machines
    ensures q.row == Some(p.row.value.(state := Paused)) && q.spends == p.spends
  {
    var noted := Next(p, Proceed);
    assert noted.stage.NoteState? && noted.stage.paused && noted.row == p.row && id in noted.machines;
    ReachesItself(p);
    StepOn(p, p, Proceed);
    q := Next(noted, Proceed);
    StepOn(p, noted, Proceed);
  }

  lemma Wakes(start: Project, p: Project, id: SandboxId) returns (q: Project)
    requires Reaches(start, p) && id in p.waking && id in p.machines
    ensures Reaches(start, q) && q.SomeRunning() && q.row == p.row && q.spends == p.spends && q.reserved == p.reserved
  {
    q := Next(p, Wake(id));
    assert q.machines[id].running;
    StepOn(start, p, Wake(id));
  }

  lemma WakesUnderPausedRow(p: Project, id: SandboxId) returns (q: Project)
    requires AnswersPaused(p) && p.row.Some? && id in p.waking && id in p.machines
    ensures Reaches(p, q) && q.SomeRunning() && q.row.Some? && q.row.value.state == Paused
  {
    var noted := PausedIsNoted(p, id);
    q := Wakes(p, noted, id);
  }

  lemma WakesUnpaid(p: Project, id: SandboxId) returns (q: Project)
    requires AnswersPaused(p) && p.row.Some? && id in p.waking && id in p.machines
    requires p.spends > 0 && p.row.value.spend == Some(p.spends - 1)
    ensures Reaches(p, q) && q.SomeRunning() && !Backed(q)
  {
    var noted := PausedIsNoted(p, id);
    var settled := Next(noted, Proceed);
    assert settled.waking == noted.waking && settled.machines == noted.machines && settled.spends == p.spends;
    assert p.spends - 1 !in settled.reserved;
    StepOn(p, noted, Proceed);
    q := Wakes(p, settled, id);
  }

  // ----- It is reachable ------------------------------------------------------------------------------------------

  /** A build that ends well, after which its sandbox falls asleep. */
  function Sleeping(p: Project): Project {
    Provisioned(p).(
      row := Some(FirstRow(p).(reusable := true, revision := Some(|p.archive|))),
      machines := map[p.sandboxes := Machine(p.operations, false, map[])],
      archive := p.archive + [Revision(map[], p.baseTemplate)], latest := Some(|p.archive|), stage := Idle)
  }

  function SavedFirst(p: Project): Project {
    Provisioned(p).(archive := p.archive + [Revision(map[], p.baseTemplate)], latest := Some(|p.archive|),
                    stage := Saved(|p.archive|))
  }

  lemma BuildSaves(p: Project)
    requires Initial(p) && p.exists_
    ensures Reaches(p, SavedFirst(p))
  {
    FirstBuildIsProvisioned(p);
    var built := Provisioned(p);
    StepOn(p, built, Proceed);
    var ready, editing := built.Do(Held(Build, None, false)), built.Do(Editing);
    assert editing == Next(ready, Proceed);
    StepOn(p, ready, Proceed);
    assert SavedFirst(p) == Next(editing, Save(true));
    StepOn(p, editing, Save(true));
  }

  lemma BuildEndsWell(p: Project)
    requires Initial(p) && p.exists_
    ensures Reaches(p, Sleeping(p))
  {
    BuildSaves(p);
    var published := SavedFirst(p).(row := Some(FirstRow(p).(reusable := true, revision := Some(|p.archive|))), stage := Idle);
    assert published == Next(SavedFirst(p), Proceed);
    StepOn(p, SavedFirst(p), Proceed);
    assert Sleeping(p) == Next(published, Sleep(p.sandboxes));
    StepOn(p, published, Sleep(p.sandboxes));
  }

  /** An open finds the sandbox paused, settles its entry, and asks for a new lease. */
  function Leasing(p: Project): Project {
    Sleeping(p).(
      row := Some(FirstRow(p).(reusable := true, revision := Some(|p.archive|), state := Paused, spend := None)),
      handle := None, reserved := {}, stage := Lease(Open(|p.archive|), Some(|p.archive|)))
  }

  lemma OpenFindsItPaused(p: Project)
    requires Initial(p) && p.exists_
    ensures Reaches(p, Leasing(p))
  {
    BuildEndsWell(p);
    var q, n := Sleeping(p), |p.archive|;
    var resume := Resume(Open(n), Some(n));
    StepOn(p, q, StartOpen);
    assert q.TemplateOf(Some(n)) == p.baseTemplate;
    assert q.Do(AskState(resume)) == Next(q.Do(Looking(Open(n))), Proceed);
    StepOn(p, q.Do(Looking(Open(n))), Proceed);
    assert q.Do(NoteState(true, resume)) == Next(q.Do(AskState(resume)), Proceed);
    StepOn(p, q.Do(AskState(resume)), Proceed);
    PausedIsSettled(p, q, resume);
  }

  lemma PausedIsSettled(p: Project, q: Project, resume: Then)
    requires q == Sleeping(p) && resume == Resume(Open(|p.archive|), Some(|p.archive|))
    requires Reaches(p, q.Do(NoteState(true, resume)))
    ensures Reaches(p, Leasing(p))
  {
    var paused := SetRow(q, q.row.value.(state := Paused));
    assert paused.Do(SettlePaused(resume)) == Next(q.Do(NoteState(true, resume)), Proceed);
    StepOn(p, q.Do(NoteState(true, resume)), Proceed);
    var settled := paused.(reserved := {}, stage := ClearPaused(resume));
    assert {p.spends} - {p.spends} == {};
    assert settled == Next(paused.Do(SettlePaused(resume)), Proceed);
    StepOn(p, paused.Do(SettlePaused(resume)), Proceed);
    assert Leasing(p) == Next(settled, Proceed);
    StepOn(p, settled, Proceed);
  }

  /** The connect for the new lease is given up; it may still wake the sandbox. */
  function GivenUp(p: Project): Project {
    Leasing(p).(
      row := Some(FirstRow(p).(reusable := true, revision := Some(|p.archive|), spend := Some(p.spends + 1))),
      reserved := {p.spends + 1}, spends := p.spends + 2, waking := {p.sandboxes}, stage := Idle)
  }

  lemma ConnectIsGivenUp(p: Project)
    requires Initial(p) && p.exists_
    ensures Reaches(p, GivenUp(p))
  {
    OpenFindsItPaused(p);
    var q, goal, target, lease := Leasing(p), Open(|p.archive|), Some(|p.archive|), p.spends + 1;
    var leased := q.(reserved := {lease}, spends := lease + 1, stage := TakeLease(goal, target, lease));
    assert leased == Next(q, Proceed);
    StepOn(p, q, Proceed);
    var taken := GivenUp(p).(waking := {}, stage := Connect(goal, target));
    assert taken == Next(leased, Proceed);
    StepOn(p, leased, Proceed);
    assert GivenUp(p) == Next(taken, Late) by { assert {} + {p.sandboxes} == {p.sandboxes}; }
    StepOn(p, taken, Late);
  }

  /** From a new project: the next status query believes "paused", settles the entry that the outstanding connect
      relies on, and the sandbox then runs unpaid under a row that says paused. */
  lemma LateConnectIsReachable(p: Project) returns (q: Project, bad: Project)
    requires Initial(p) && p.exists_
    ensures Reaches(p, q) && AnswersPaused(q) && q.Waking()
    ensures Reaches(p, bad) && bad.SomeRunning() && !Backed(bad)
  {
    ConnectIsGivenUp(p);
    var idle, id := GivenUp(p), p.sandboxes;
    q := idle.Do(AskState(Report));
    assert q == Next(idle, StartStatus);
    StepOn(p, idle, StartStatus);
    assert id in q.waking && id in q.machines && !q.machines[id].running;
    bad := WakesUnpaid(q, id);
    ReachesOn(p, q, bad);
  }
}
