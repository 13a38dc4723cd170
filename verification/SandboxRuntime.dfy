/** `agent/sandbox_runtime.py`: durable ownership of one remote sandbox per project, against a provider
    that may lose replies, refuse calls, or answer a list with nothing. The calls of one project are
    serialized, so a project is one sequence of steps: every `await` that changes the database or the
    provider is a step of its own, and the process may crash, or the caller be cancelled, between any two. */
module SandboxRuntime {
  import opened Wrappers

  type SandboxId = nat
  type RevisionId = nat
  type SpendId = nat
  type Files = map<string, string>

  datatype RowState = Creating | Running | Paused | Retiring

  /** The durable row. `operation` tags the provider's create request. */
  datatype Row = Row(operation: nat, sandbox: Option<SandboxId>, template: nat, generation: nat,
                     revision: Option<RevisionId>, reusable: bool, state: RowState, spend: Option<SpendId>)

  /** A sandbox as the provider knows it. */
  datatype Machine = Machine(operation: nat, running: bool, files: Files)

  datatype Revision = Revision(files: Files, template: nat)

  /** Who asked for the sandbox: an opened preview that has seen a revision, or a build. */
  datatype Goal = Open(seen: RevisionId) | Build

  /** What follows a state query: the rest of `acquire`, or nothing. */
  datatype Then = Resume(goal: Goal, target: Option<RevisionId>) | Report

  /** What follows the removal of a row: a replacement, or nothing. */
  datatype After = Replace(goal: Goal, target: Option<RevisionId>) | Stop

  /** The step about to be taken. */
  datatype Stage =
    | Idle
    | Looking(goal: Goal)
    | AskState(next: Then)
    | NoteState(paused: bool, next: Then)
    | SettlePaused(next: Then)
    | ClearPaused(next: Then)
    | Lease(goal: Goal, target: Option<RevisionId>)
    | TakeLease(goal: Goal, target: Option<RevisionId>, lease: SpendId)
    | Connect(goal: Goal, target: Option<RevisionId>)
    | Confirm(goal: Goal, target: Option<RevisionId>, restore: bool)
    | MarkRetiring(after: After)
    | Listing(after: After)
    | Killing(ids: set<SandboxId>, after: After)
    | SettleRemoved(after: After)
    | DeleteRow(after: After)
    | FreshLease(goal: Goal, target: Option<RevisionId>)
    | InsertRow(goal: Goal, target: Option<RevisionId>, lease: SpendId)
    | SendCreate(goal: Goal, target: Option<RevisionId>)
    | AwaitCreate(goal: Goal, target: Option<RevisionId>)
    | RecordSandbox(goal: Goal, target: Option<RevisionId>)
    | Held(goal: Goal, target: Option<RevisionId>, restore: bool)
    | Editing
    | Saved(revision: RevisionId)
    | AskPause

  /** One project: its row and in-memory handle, the provider's machines, its unanswered create requests and
      the connects that have been given up and may still wake a sandbox, the ledger entries of the project still reserved, and its saved revisions. */
  datatype Project = Project(
    row: Option<Row>, handle: Option<SandboxId>, stage: Stage,
    machines: map<SandboxId, Machine>, creating: set<nat>, waking: set<SandboxId>,
    reserved: set<SpendId>, spends: nat, operations: nat, sandboxes: nat,
    exists_: bool, latest: Option<RevisionId>, archive: seq<Revision>, generation: nat, baseTemplate: nat) {

    function Do(stage: Stage): Project {
      this.(stage := stage)
    }

    predicate SomeRunning() {
      exists id :: id in machines && machines[id].running
    }

    /** A connect is outstanding for a sandbox that is still there. */
    predicate Waking() {
      exists id :: id in waking && id in machines
    }

    function TemplateOf(target: Option<RevisionId>): nat {
      if target.Some? && target.value < |archive| then archive[target.value].template else baseTemplate
    }
  }

  /** What the environment decides: events of its own, the operation to start, and the outcome of
      the current step. `Fail` has no effect; `Lost` has its effect but is never seen to finish; a `Late` connect
      may have its effect at any later time, or never. */
  datatype Choice =
    | Land(operation: nat, files: Files) | Drop | Sleep(id: SandboxId) | Vanish(id: SandboxId)
    | Wake(id: SandboxId) | Doze | Recover(saved: Revision) | DeleteProject | Crash(generation: nat)
    | StartOpen | StartBuild | StartRetire | StartStatus | StartPause
    | Proceed | Fail | Lost | Late
    | Reply(id: SandboxId) | ListNothing | Kill(id: SandboxId) | KillLost(id: SandboxId) | Reject
    | Garble(files: Files) | Write(files: Files) | Save(final: bool) | SaveLost

  // ----- The steps -------------------------------------------------------------------------------

  function SetRow(p: Project, row: Row): Project {
    p.(row := Some(row))
  }

  function SetFiles(p: Project, id: SandboxId, files: Files): Project {
    if id in p.machines then p.(machines := p.machines[id := p.machines[id].(files := files)]) else p
  }

  function SetRunning(p: Project, id: SandboxId, running: bool): Project {
    if id in p.machines then p.(machines := p.machines[id := p.machines[id].(running := running)]) else p
  }

  function Settled(p: Project, spend: Option<SpendId>): Project {
    if spend.Some? then p.(reserved := p.reserved - {spend.value}) else p
  }

  predicate Compatible(p: Project, row: Row, target: Option<RevisionId>) {
    && row.reusable && row.sandbox.Some? && row.revision == target
    && row.template == p.TemplateOf(target) && row.generation == p.generation
    && (row.state == Running || row.state == Paused)
  }

  /** `acquire` up to its first call. */
  function BeginAcquire(p: Project, goal: Goal): Project {
    if p.row.None? then p.Do(FreshLease(goal, p.latest))
    else if Compatible(p, p.row.value, p.latest) then p.Do(AskState(Resume(goal, p.latest)))
    else p.Do(MarkRetiring(Replace(goal, p.latest)))
  }

  function Continue(p: Project, next: Then): Project {
    match next
    case Resume(goal, target) => p.Do(Lease(goal, target))
    case Report => p.Do(Idle)
  }

  /** The ids `retire` kills without asking the provider. */
  function KnownIds(p: Project): set<SandboxId> {
    (if p.row.Some? && p.row.value.sandbox.Some? then {p.row.value.sandbox.value} else {})
    + (if p.handle.Some? then {p.handle.value} else {})
  }

  /** `publish`: the row is marked reusable if the handle is still the running sandbox it names. */
  function MarkReusable(p: Project, revision: RevisionId): Project {
    if p.row.Some? && p.handle.Some? && p.row.value.sandbox == p.handle && p.row.value.state == Running
    then SetRow(p, p.row.value.(reusable := true, revision := Some(revision)))
    else p
  }

  function Killed(p: Project, ids: set<SandboxId>, after: After, id: SandboxId): Project {
    var q := p.(machines := p.machines - {id});
    if ids - {id} != {} then q.Do(Killing(ids - {id}, after))
    else if q.row.Some? then q.Do(SettleRemoved(after))
    else q.(handle := None).Do(Idle)
  }

  /** The revision `save_revision` returns: the previous one when nothing changed. */
  function SaveFiles(p: Project, files: Files): Project {
    if p.latest.Some? && p.latest.value < |p.archive| && p.archive[p.latest.value].files == files then p
    else p.(archive := p.archive + [Revision(files, p.TemplateOf(p.latest))], latest := Some(|p.archive|))
  }

  /** Effect of the current step when it succeeds. A lost outcome has the same effect on everything
      but the stage and the handle. */
  function Effect(p: Project): Project {
    match p.stage
    case Looking(goal) => BeginAcquire(p, goal)
    case AskState(next) =>
      if p.row.None? || p.row.value.sandbox.None? then p.Do(Idle)
      else
        var id := p.row.value.sandbox.value;
        if id !in p.machines then p.Do(SettleRemoved(if next.Resume? then Replace(next.goal, next.target) else Stop))
        else p.Do(NoteState(!p.machines[id].running, next))
    case NoteState(paused, next) =>
      if p.row.None? then p.Do(Idle)
      else
        var q := SetRow(p, p.row.value.(state := if paused then Paused else Running));
        if paused then q.Do(SettlePaused(next)) else Continue(q, next)
    case SettlePaused(next) =>
      if p.row.None? then p.Do(Idle) else Settled(p, p.row.value.spend).Do(ClearPaused(next))
    case ClearPaused(next) =>
      if p.row.None? then p.Do(Idle) else Continue(SetRow(p, p.row.value.(spend := None)).(handle := None), next)
    case Lease(goal, target) =>
      if p.row.None? || (p.row.value.spend.Some? && p.row.value.spend.value !in p.reserved) then p.Do(Idle)
      else
        var q := Settled(p, p.row.value.spend);
        q.(reserved := q.reserved + {p.spends}, spends := p.spends + 1).Do(TakeLease(goal, target, p.spends))
    case TakeLease(goal, target, lease) =>
      if p.row.None? then p.Do(Idle)
      else SetRow(p, p.row.value.(state := Running, spend := Some(lease))).Do(Connect(goal, target))
    case Connect(goal, target) =>
      if p.row.None? || p.row.value.sandbox.None? then p.Do(Idle)
      else
        var id := p.row.value.sandbox.value;
        if id !in p.machines then p.Do(MarkRetiring(Replace(goal, target)))
        else SetRunning(p, id, true).(handle := Some(id)).Do(Confirm(goal, target, false))
    case Confirm(goal, target, restore) =>
      if p.handle.Some? && p.handle.value in p.machines then p.Do(Held(goal, target, restore))
      else if restore then p.Do(Idle)
      else p.Do(MarkRetiring(Replace(goal, target)))
    case MarkRetiring(after) =>
      if p.row.None? then p.Do(Idle)
      else
        var q := SetRow(p, p.row.value.(state := Retiring, reusable := false));
        if KnownIds(q) == {} then q.Do(Listing(after)) else q.Do(Killing(KnownIds(q), after))
    case Listing(after) =>
      if p.row.None? then p.Do(Idle)
      else
        var ids := set id | id in p.machines && p.machines[id].operation == p.row.value.operation;
        if ids == {} then p.Do(Idle) else p.Do(Killing(ids, after))
    case SettleRemoved(after) =>
      if p.row.None? then p.Do(Idle) else Settled(p, p.row.value.spend).Do(DeleteRow(after))
    case DeleteRow(after) =>
      var q := p.(row := None, handle := None);
      (match after case Replace(goal, target) => q.Do(FreshLease(goal, target)) case Stop => q.Do(Idle))
    case FreshLease(goal, target) =>
      p.(reserved := p.reserved + {p.spends}, spends := p.spends + 1).Do(InsertRow(goal, target, p.spends))
    case InsertRow(goal, target, lease) =>
      if !p.exists_ || p.row.Some? then p.Do(Idle)
      else
        SetRow(p, Row(p.operations, None, p.TemplateOf(target), p.generation, None, false, Creating, Some(lease)))
        .(operations := p.operations + 1).Do(SendCreate(goal, target))
    case SendCreate(goal, target) =>
      if p.row.None? then p.Do(Idle)
      else p.(creating := p.creating + {p.row.value.operation}).Do(AwaitCreate(goal, target))
    case RecordSandbox(goal, target) =>
      if p.row.None? then p.Do(Idle)
      else SetRow(p, p.row.value.(sandbox := p.handle, state := Running)).Do(Confirm(goal, target, true))
    case Held(goal, target, true) =>
      if target.Some? && target.value < |p.archive| && p.handle.Some? then
        SetFiles(p, p.handle.value, p.archive[target.value].files).Do(Held(goal, target, false))
      else p.Do(Held(goal, target, false))
    case Held(Open(seen), _, false) =>
      (if p.latest == Some(seen) then MarkReusable(p, seen) else p).Do(Idle)
    case Held(Build, _, false) =>
      if p.row.None? then p.Do(Idle) else SetRow(p, p.row.value.(reusable := false)).Do(Editing)
    case Saved(revision) => MarkReusable(p, revision).Do(Idle)
    case AskPause =>
      if p.row.None? || p.row.value.sandbox.None? then p.Do(Idle)
      else
        var id := p.row.value.sandbox.value;
        if id !in p.machines then p.Do(SettleRemoved(Stop))
        else SetRunning(p, id, false).Do(NoteState(true, Report))
    case _ => p
  }

  /** Who is waiting for the sandbox, while an open or a build is in progress. */
  function Asker(stage: Stage): Option<Goal> {
    match stage
    case Looking(goal) => Some(goal)
    case AskState(next) => AskerOfState(next)
    case NoteState(_, next) => AskerOfState(next)
    case SettlePaused(next) => AskerOfState(next)
    case ClearPaused(next) => AskerOfState(next)
    case Lease(goal, _) => Some(goal)
    case TakeLease(goal, _, _) => Some(goal)
    case Connect(goal, _) => Some(goal)
    case Confirm(goal, _, _) => Some(goal)
    case MarkRetiring(after) => AskerOfRemoval(after)
    case Listing(after) => AskerOfRemoval(after)
    case Killing(_, after) => AskerOfRemoval(after)
    case SettleRemoved(after) => AskerOfRemoval(after)
    case DeleteRow(after) => AskerOfRemoval(after)
    case FreshLease(goal, _) => Some(goal)
    case InsertRow(goal, _, _) => Some(goal)
    case SendCreate(goal, _) => Some(goal)
    case AwaitCreate(goal, _) => Some(goal)
    case RecordSandbox(goal, _) => Some(goal)
    case Held(goal, _, _) => Some(goal)
    case Editing => Some(Build)
    case Saved(_) => Some(Build)
    case Idle => None
    case AskPause => None
  }

  function AskerOfState(next: Then): Option<Goal> {
    if next.Resume? then Some(next.goal) else None
  }

  function AskerOfRemoval(after: After): Option<Goal> {
    if after.Replace? then Some(after.goal) else None
  }

  predicate Building(stage: Stage) {
    Asker(stage) == Some(Build)
  }

  function Environment(p: Project, c: Choice): Project {
    match c
    case Land(operation, files) =>
      if operation !in p.creating then p
      else
        p.(creating := p.creating - {operation}, sandboxes := p.sandboxes + 1,
           machines := p.machines[p.sandboxes := Machine(operation, true, files)])
    case Drop => p.(creating := {})
    case Sleep(id) => SetRunning(p, id, false)
    case Vanish(id) => p.(machines := p.machines - {id})
    case Wake(id) =>
      if id in p.waking then SetRunning(p, id, true).(waking := p.waking - {id}) else p
    case Doze => p.(waking := {})
    case Recover(saved) =>
      // Recovery is deferred during a build; an import only ever makes the first revision.
      if Building(p.stage) && p.latest.Some? then p else p.(archive := p.archive + [saved], latest := Some(|p.archive|))
    case DeleteProject => if p.stage.Idle? then p.(exists_ := false) else p
    case Crash(generation) => p.(handle := None, generation := generation).Do(Idle)
    case _ => p
  }

  function Start(p: Project, c: Choice): Project
    requires p.stage.Idle?
  {
    match c
    case StartOpen => if p.exists_ && p.latest.Some? then p.Do(Looking(Open(p.latest.value))) else p
    case StartBuild => if p.exists_ then p.Do(Looking(Build)) else p
    case StartRetire =>
      if p.row.Some? then p.Do(MarkRetiring(Stop))
      else if p.handle.Some? then p.Do(Killing({p.handle.value}, Stop))
      else p
    case StartStatus =>
      if p.row.Some? && p.row.value.reusable && p.row.value.sandbox.Some?
         && (p.row.value.state == Running || p.row.value.state == Paused) then p.Do(AskState(Report))
      else p
    case StartPause =>
      if p.row.Some? && p.row.value.reusable && p.row.value.sandbox.Some? && p.row.value.state == Running then p.Do(AskPause)
      else p
    case _ => p
  }

  function Next(p: Project, c: Choice): Project {
    match c
    case Land(_, _) => Environment(p, c)
    case Drop => Environment(p, c)
    case Sleep(_) => Environment(p, c)
    case Vanish(_) => Environment(p, c)
    case Wake(_) => Environment(p, c)
    case Doze => Environment(p, c)
    case Recover(_) => Environment(p, c)
    case DeleteProject => Environment(p, c)
    case Crash(_) => Environment(p, c)
    case Proceed => Effect(p)
    case Fail => p.Do(Idle)
    case Lost => Effect(p).(handle := p.handle).Do(Idle)
    case Late =>
      if p.stage.Connect? && p.row.Some? && p.row.value.sandbox.Some?
      then p.(waking := p.waking + {p.row.value.sandbox.value}).Do(Idle)
      else p
    case Reply(id) =>
      if p.stage.AwaitCreate? && p.row.Some? && id in p.machines && p.machines[id].operation == p.row.value.operation
      then p.(handle := Some(id)).Do(RecordSandbox(p.stage.goal, p.stage.target))
      else p
    case ListNothing => if p.stage.Listing? then p.Do(Idle) else p
    case Kill(id) => if p.stage.Killing? && id in p.stage.ids then Killed(p, p.stage.ids, p.stage.after, id) else p
    case KillLost(id) => if p.stage.Killing? && id in p.stage.ids then p.(machines := p.machines - {id}).Do(Idle) else p
    case Reject =>
      if p.stage.AwaitCreate? && p.row.Some? && p.row.value.operation in p.creating
      then p.(creating := p.creating - {p.row.value.operation}).Do(SettleRemoved(Stop))
      else p
    case Garble(files) =>
      if p.stage.Held? && p.stage.restore && p.handle.Some? then SetFiles(p, p.handle.value, files).Do(Idle) else p
    case Write(files) =>
      if p.stage.Editing? && p.handle.Some? then SetFiles(p, p.handle.value, files) else p
    case Save(final) =>
      if p.stage.Editing? && p.handle.Some? && p.handle.value in p.machines then
        var q := SaveFiles(p, p.machines[p.handle.value].files);
        if final && q.latest.Some? then q.Do(Saved(q.latest.value)) else q
      else p
    case SaveLost =>
      if p.stage.Editing? && p.handle.Some? && p.handle.value in p.machines
      then SaveFiles(p, p.machines[p.handle.value].files).Do(Idle)
      else p
    case _ => if p.stage.Idle? then Start(p, c) else p
  }
}
