/** Safety of the sandbox protocol over every run: one owned sandbox per project, always paid for,
    and reused only for the revision it really holds. */
module SandboxSafety {
  import opened Wrappers
  import opened SandboxRuntime

  // ----- What is promised -------------------------------------------------------------------------

  /** At most one sandbox is alive or still being created, and it carries the operation id of the
      ownership row; so there is a row as long as a sandbox may exist. */
  ghost predicate SingleOwner(p: Project) {
    && (p.machines != map[] || p.creating != {} ==> p.row.Some?)
    && (forall id :: id in p.machines ==> p.row.Some? && p.machines[id].operation == p.row.value.operation)
    && (forall operation :: operation in p.creating ==> p.row.Some? && operation == p.row.value.operation)
    && (forall a, b :: a in p.machines && b in p.machines ==> a == b)
    && (p.machines == map[] || p.creating == {})
  }

  /** A sandbox runs, or a request that is on its way may still make one run. */
  ghost predicate MayRun(p: Project) {
    p.creating != {} || p.SomeRunning() || p.Waking()
  }

  /** Whatever may be running is paid for by the project's newest ledger entry, still reserved. */
  ghost predicate Backed(p: Project) {
    MayRun(p) ==> p.spends > 0 && p.spends - 1 in p.reserved
  }

  predicate Holds(p: Project, id: SandboxId, revision: RevisionId) {
    revision < |p.archive| && (id in p.machines ==> p.machines[id].files == p.archive[revision].files)
  }

  /** A reusable row names a revision whose files are those of its sandbox. */
  ghost predicate ReusableMatches(p: Project) {
    p.row.Some? && p.row.value.reusable ==>
      && p.row.value.sandbox.Some? && p.row.value.revision.Some?
      && Holds(p, p.row.value.sandbox.value, p.row.value.revision.value)
  }

  /** A sandbox handed out without a restore already holds the revision asked for. */
  ghost predicate SkipsRestoreSoundly(p: Project) {
    p.stage.Held? && !p.stage.restore && p.stage.target.Some? ==>
      p.handle.Some? && Holds(p, p.handle.value, p.stage.target.value)
  }

  /** A row that says paused names a reusable sandbox that does not run and is not about to. */
  ghost predicate PausedIsStill(p: Project) {
    p.row.Some? && p.row.value.state == Paused ==>
      p.row.value.sandbox.Some? && p.row.value.reusable && !p.SomeRunning() && !p.Waking()
  }

  ghost predicate Safe(p: Project) {
    SingleOwner(p) && Backed(p) && PausedIsStill(p) && ReusableMatches(p) && SkipsRestoreSoundly(p)
  }

  // ----- Why it holds -------------------------------------------------------------------------------

  /** Every identifier handed out so far is below its counter. */
  ghost predicate Fresh(p: Project) {
    && (forall id :: id in p.machines ==> id < p.sandboxes)
    && (forall id :: id in p.waking ==> id < p.sandboxes)
    && (p.handle.Some? ==> p.handle.value < p.sandboxes)
    && (forall spend :: spend in p.reserved ==> spend < p.spends)
    && (p.row.Some? ==>
         && p.row.value.operation < p.operations
         && (p.row.value.sandbox.Some? ==> p.row.value.sandbox.value < p.sandboxes)
         && (p.row.value.spend.Some? ==> p.row.value.spend.value < p.spends))
    && (p.latest.Some? ==> p.latest.value < |p.archive|)
  }

  /** The recorded sandbox, and the held handle, are the only machine there can be. */
  ghost predicate Known(p: Project) {
    p.row.Some? ==>
      && (p.row.value.sandbox.Some? ==> p.creating == {} && p.machines.Keys <= {p.row.value.sandbox.value})
      && (p.handle.Some? ==> p.creating == {} && p.machines.Keys <= {p.handle.value})
      && (p.handle.Some? && p.row.value.sandbox.Some? ==> p.handle == p.row.value.sandbox)
  }

  ghost predicate GoalInv(p: Project, goal: Goal, target: Option<RevisionId>) {
    && (target.Some? ==> target.value < |p.archive|)
    && match goal
       case Open(seen) => target.Some? && p.latest.Some? && seen <= target.value <= p.latest.value
       case Build => target == p.latest || target.None?
  }

  ghost predicate NextInv(p: Project, next: Then) {
    && p.row.Some? && p.row.value.sandbox.Some? && p.row.value.reusable
    && (p.row.value.state == Running || p.row.value.state == Paused)
    && (next.Resume? ==> GoalInv(p, next.goal, next.target) && p.row.value.revision == next.target)
  }

  ghost predicate AfterInv(p: Project, after: After) {
    after.Replace? ==> GoalInv(p, after.goal, after.target)
  }

  ghost predicate Newest(p: Project, lease: SpendId) {
    lease + 1 == p.spends && lease in p.reserved
  }

  /** The sandbox is in hand: the handle is the recorded, running sandbox, paid for. */
  ghost predicate InHand(p: Project) {
    && p.row.Some? && p.row.value.sandbox.Some? && p.handle == p.row.value.sandbox
    && p.row.value.state == Running
  }

  /** Steps that work on a recorded, reusable sandbox. */
  ghost predicate ReuseInv(p: Project) {
    match p.stage
    case AskState(next) => NextInv(p, next)
    case NoteState(paused, next) => NextInv(p, next) && (if paused then !p.SomeRunning() && !p.Waking() else p.row.value.state == Running)
    case SettlePaused(next) => NextInv(p, next) && p.row.value.state == Paused
    case ClearPaused(next) => NextInv(p, next) && p.row.value.state == Paused
    case Lease(goal, target) => NextInv(p, Resume(goal, target))
    case TakeLease(goal, target, lease) => NextInv(p, Resume(goal, target)) && Newest(p, lease)
    case Connect(goal, target) =>
      NextInv(p, Resume(goal, target)) && p.row.value.state == Running && p.spends > 0 && Newest(p, p.spends - 1)
    case AskPause => p.row.Some? && p.row.value.sandbox.Some? && p.row.value.reusable && p.row.value.state == Running
    case _ => true
  }

  /** Steps that retire a sandbox, or look for one. */
  ghost predicate RetireInv(p: Project) {
    match p.stage
    case Looking(goal) => goal.Open? ==> p.latest.Some? && goal.seen <= p.latest.value
    case MarkRetiring(after) => p.row.Some? && AfterInv(p, after)
    case Listing(after) => p.row.Some? && AfterInv(p, after)
    case Killing(ids, after) =>
      && AfterInv(p, after) && ids != {}
      && (if p.row.Some? then p.creating == {} && p.machines.Keys <= ids else after.Stop?)
    case SettleRemoved(after) => p.row.Some? && p.machines == map[] && p.creating == {} && AfterInv(p, after)
    case DeleteRow(after) => p.row.Some? && p.machines == map[] && p.creating == {} && AfterInv(p, after)
    case _ => true
  }

  /** A row whose create request is about to be sent, or has not been answered. */
  ghost predicate Unanswered(p: Project) {
    p.row.Some? && p.row.value.sandbox.None? && !p.row.value.reusable && p.row.value.state == Creating
  }

  /** Steps that create a sandbox. */
  ghost predicate CreateInv(p: Project) {
    match p.stage
    case FreshLease(goal, target) => p.row.None? && GoalInv(p, goal, target)
    case InsertRow(goal, target, lease) => p.row.None? && GoalInv(p, goal, target) && Newest(p, lease)
    case SendCreate(goal, target) =>
      && Unanswered(p) && p.handle.None? && GoalInv(p, goal, target)
      && p.machines == map[] && p.creating == {} && p.spends > 0 && Newest(p, p.spends - 1)
    case AwaitCreate(goal, target) => Unanswered(p) && p.handle.None? && GoalInv(p, goal, target)
    case RecordSandbox(goal, target) => Unanswered(p) && p.handle.Some? && GoalInv(p, goal, target)
    case _ => true
  }

  /** Steps with the sandbox in hand. */
  ghost predicate HandInv(p: Project) {
    match p.stage
    case Confirm(goal, target, restore) =>
      InHand(p) && GoalInv(p, goal, target) && (if restore then !p.row.value.reusable else NextInv(p, Resume(goal, target)))
    case Held(goal, target, restore) => InHand(p) && GoalInv(p, goal, target) && (restore ==> !p.row.value.reusable)
    case Editing => InHand(p) && !p.row.value.reusable
    case Saved(revision) => InHand(p) && !p.row.value.reusable && Holds(p, p.handle.value, revision)
    case _ => true
  }

  ghost predicate StageInv(p: Project) {
    ReuseInv(p) && RetireInv(p) && CreateInv(p) && HandInv(p)
  }

  /** The part of the invariant that does not depend on the step about to be taken. */
  ghost predicate Core(p: Project) {
    SingleOwner(p) && Backed(p) && ReusableMatches(p) && Fresh(p) && Known(p) && PausedIsStill(p)
  }

  ghost predicate Inv(p: Project) {
    Core(p) && SkipsRestoreSoundly(p) && StageInv(p)
  }

  /** The provider is about to answer that the sandbox is paused, asked for its state or asked to pause it. */
  predicate AnswersPaused(p: Project) {
    (p.stage.AskState? || p.stage.AskPause?) && Effect(p).stage.NoteState? && Effect(p).stage.paused
  }

  /** A create request is recorded only while no handle of an earlier sandbox is still held, and "paused" is
      believed only while no connect is outstanding. */
  predicate Clean(p: Project, c: Choice) {
    && (p.stage.InsertRow? && (c.Proceed? || c.Lost?) && p.exists_ ==> p.handle.None?)
    && (AnswersPaused(p) && c.Proceed? ==> !p.Waking())
  }

  // ----- Frames: what a step touches is all that has to be shown again -----------------------------------------

  lemma DoKeepsCore(p: Project, stage: Stage)
    requires Core(p)
    ensures Core(p.Do(stage))
  {
  }

  /** The ledger moved on, and what may run is still paid for. */
  lemma SpendFrame(p: Project, reserved: set<SpendId>, spends: nat)
    requires Core(p) && p.spends <= spends && Backed(p.(reserved := reserved, spends := spends))
    requires forall spend :: spend in reserved ==> spend < spends
    ensures Core(p.(reserved := reserved, spends := spends))
  {
  }

  /** The same sandbox under a row that promises no more than it did. */
  lemma RowFrame(p: Project, row: Row)
    requires Core(p) && p.row.Some? && row.operation == p.row.value.operation && row.sandbox == p.row.value.sandbox
    requires row.spend.Some? ==> row.spend.value < p.spends
    requires row.reusable ==> p.row.value.reusable && row.revision == p.row.value.revision
    requires row.state == Paused ==> p.row.value.state == Paused && row.reusable
    ensures Core(SetRow(p, row))
  {
  }

  /** A row that is paused, of a sandbox that does not run. */
  lemma PausedFrame(p: Project)
    requires Core(p) && p.row.Some? && p.row.value.sandbox.Some? && p.row.value.reusable && !p.SomeRunning() && !p.Waking()
    ensures Core(SetRow(p, p.row.value.(state := Paused)))
  {
  }

  lemma ForgettingKeepsCore(p: Project)
    requires Core(p)
    ensures Core(p.(handle := None))
  {
  }

  /** No sandbox is left. */
  lemma NoRowKeepsCore(p: Project)
    requires Core(p) && p.machines == map[] && p.creating == {}
    ensures Core(p.(row := None, handle := None))
  {
  }

  lemma ConnectKeepsCore(p: Project, id: SandboxId)
    requires Core(p) && p.row.Some? && p.row.value.sandbox == Some(id) && id in p.machines && p.row.value.state == Running
    requires p.spends > 0 && Newest(p, p.spends - 1)
    ensures Core(SetRunning(p, id, true)) && Core(SetRunning(p, id, true).(handle := Some(id)))
  {
    assert SetRunning(p, id, true).machines.Keys == p.machines.Keys;
  }

  lemma SetFilesKeepsCore(p: Project, id: SandboxId, files: Files)
    requires Core(p) && (p.row.Some? ==> !p.row.value.reusable)
    ensures Core(SetFiles(p, id, files))
  {
  }

  lemma SleepKeepsCore(p: Project, id: SandboxId)
    requires Core(p)
    ensures Core(SetRunning(p, id, false)) && (SetRunning(p, id, false).SomeRunning() ==> p.SomeRunning())
    ensures SetRunning(p, id, false).machines.Keys == p.machines.Keys
  {
  }

  lemma RemovingKeepsCore(p: Project, id: SandboxId)
    requires Core(p)
    ensures Core(p.(machines := p.machines - {id}))
  {
  }

  lemma MarkReusableKeepsCore(p: Project, revision: RevisionId)
    requires Core(p) && InHand(p) && Holds(p, p.handle.value, revision)
    ensures Core(MarkReusable(p, revision))
  {
  }

  lemma SaveFilesKeepsCore(p: Project, files: Files)
    requires Core(p)
    ensures Core(SaveFiles(p, files))
    ensures var q := SaveFiles(p, files); q.latest.Some? && q.latest.value < |q.archive| && q.archive[q.latest.value].files == files
  {
  }

  // ----- Looking for a sandbox to reuse -----------------------------------------------------------------------

  lemma LookingKeepsInv(p: Project)
    requires Inv(p) && p.stage.Looking?
    ensures Inv(Effect(p))
  {
    var goal, target := p.stage.goal, p.latest;
    var next := if p.row.None? then FreshLease(goal, target)
                else if Compatible(p, p.row.value, target) then AskState(Resume(goal, target))
                else MarkRetiring(Replace(goal, target));
    DoKeepsCore(p, next);
    assert GoalInv(p.Do(next), goal, target);
    assert Effect(p) == p.Do(next);
  }

  lemma AskStateKeepsInv(p: Project)
    requires Inv(p) && p.stage.AskState? && (AnswersPaused(p) ==> !p.Waking())
    ensures Inv(Effect(p))
  {
    var id, asked := p.row.value.sandbox.value, p.stage.next;
    var next := if id in p.machines then NoteState(!p.machines[id].running, asked)
                else SettleRemoved(if asked.Resume? then Replace(asked.goal, asked.target) else Stop);
    DoKeepsCore(p, next);
    assert Effect(p) == p.Do(next);
  }

  lemma NoteStateKeepsInv(p: Project)
    requires Inv(p) && p.stage.NoteState?
    ensures Inv(Effect(p))
  {
    if p.stage.paused {
      var q := SetRow(p, p.row.value.(state := Paused));
      PausedFrame(p);
      DoKeepsCore(q, SettlePaused(p.stage.next));
    } else {
      var q := SetRow(p, p.row.value.(state := Running));
      RowFrame(p, p.row.value.(state := Running));
      DoKeepsCore(q, Continue(q, p.stage.next).stage);
    }
  }

  lemma SettlePausedKeepsInv(p: Project)
    requires Inv(p) && p.stage.SettlePaused?
    ensures Inv(Effect(p))
  {
    assert !MayRun(p) by { assert p.creating == {}; }
    SettlingKeepsCore(p, p.row.value.spend);
    DoKeepsCore(Settled(p, p.row.value.spend), ClearPaused(p.stage.next));
  }

  lemma ClearPausedKeepsInv(p: Project)
    requires Inv(p) && p.stage.ClearPaused?
    ensures Inv(Effect(p))
  {
    var q := SetRow(p, p.row.value.(spend := None));
    RowFrame(p, p.row.value.(spend := None));
    ForgettingKeepsCore(q);
    DoKeepsCore(q.(handle := None), Continue(q.(handle := None), p.stage.next).stage);
  }

  /** A new entry takes over from the row's old one. */
  lemma LeasingKeepsCore(p: Project, spend: Option<SpendId>)
    requires Core(p)
    ensures var q := Settled(p, spend); Core(p.(reserved := q.reserved + {p.spends}, spends := p.spends + 1))
  {
    SpendFrame(p, Settled(p, spend).reserved + {p.spends}, p.spends + 1);
  }

  lemma LeasedStage(p: Project, reserved: set<SpendId>, goal: Goal, target: Option<RevisionId>)
    requires NextInv(p, Resume(goal, target)) && p.spends in reserved
    ensures var q := p.(reserved := reserved, spends := p.spends + 1, stage := TakeLease(goal, target, p.spends));
            StageInv(q) && SkipsRestoreSoundly(q)
  {
  }

  lemma LeaseKeepsInv(p: Project)
    requires Inv(p) && p.stage.Lease?
    ensures Inv(Effect(p))
  {
    var spend, goal, target := p.row.value.spend, p.stage.goal, p.stage.target;
    if spend.Some? && spend.value !in p.reserved {
      IdleKeepsInv(p);
    } else {
      var reserved := Settled(p, spend).reserved + {p.spends};
      var q := p.(reserved := reserved, spends := p.spends + 1);
      LeasingKeepsCore(p, spend);
      DoKeepsCore(q, TakeLease(goal, target, p.spends));
      LeasedStage(p, reserved, goal, target);
      assert Effect(p) == q.Do(TakeLease(goal, target, p.spends));
    }
  }

  lemma TakeLeaseKeepsInv(p: Project)
    requires Inv(p) && p.stage.TakeLease?
    ensures Inv(Effect(p))
  {
    var row := p.row.value.(state := Running, spend := Some(p.stage.lease));
    RowFrame(p, row);
    DoKeepsCore(SetRow(p, row), Connect(p.stage.goal, p.stage.target));
  }

  lemma ConnectedStage(p: Project, goal: Goal, target: Option<RevisionId>)
    requires NextInv(p, Resume(goal, target)) && InHand(p)
    ensures StageInv(p.Do(Confirm(goal, target, false))) && SkipsRestoreSoundly(p.Do(Confirm(goal, target, false)))
  {
  }

  lemma ConnectIs(p: Project, id: SandboxId)
    requires p.stage.Connect? && p.row.Some? && p.row.value.sandbox == Some(id) && id in p.machines
    ensures Effect(p) == SetRunning(p, id, true).(handle := Some(id)).Do(Confirm(p.stage.goal, p.stage.target, false))
  {
  }

  lemma ConnectKeepsInv(p: Project)
    requires Inv(p) && p.stage.Connect?
    ensures Inv(Effect(p))
  {
    var id, goal, target := p.row.value.sandbox.value, p.stage.goal, p.stage.target;
    if id in p.machines {
      var q := SetRunning(p, id, true).(handle := Some(id));
      ConnectKeepsCore(p, id);
      DoKeepsCore(q, Confirm(goal, target, false));
      ConnectedStage(q, goal, target);
      ConnectIs(p, id);
    } else {
      DoKeepsCore(p, MarkRetiring(Replace(goal, target)));
    }
  }

  lemma ConfirmKeepsInv(p: Project)
    requires Inv(p) && p.stage.Confirm?
    ensures Inv(Effect(p))
  {
    DoKeepsCore(p, Effect(p).stage);
    if p.handle.value in p.machines {
      assert Effect(p).stage == Held(p.stage.goal, p.stage.target, p.stage.restore);
    }
  }

  // ----- Retiring a sandbox -------------------------------------------------------------------------------------

  lemma MarkRetiringKeepsInv(p: Project)
    requires Inv(p) && p.stage.MarkRetiring?
    ensures Inv(Effect(p))
  {
    var after := p.stage.after;
    var next := if KnownIds(p) == {} then Listing(after) else Killing(KnownIds(p), after);
    var row := p.row.value.(state := Retiring, reusable := false);
    RowFrame(p, row);
    DoKeepsCore(SetRow(p, row), next);
    assert Effect(p) == SetRow(p, row).Do(next);
  }

  lemma ListingKeepsInv(p: Project)
    requires Inv(p) && p.stage.Listing?
    ensures Inv(Effect(p))
  {
    var ids, after := p.machines.Keys, p.stage.after;
    ListedIs(p);
    if ids == {} {
      IdleKeepsInv(p);
    } else {
      DoKeepsCore(p, Killing(ids, after));
    }
  }

  /** Every sandbox there is carries the row's operation. */
  lemma ListedIs(p: Project)
    requires SingleOwner(p) && p.row.Some? && p.stage.Listing?
    ensures Effect(p) == p.Do(if p.machines.Keys == {} then Idle else Killing(p.machines.Keys, p.stage.after))
    ensures p.machines.Keys != {} ==> p.creating == {}
  {
    var ids := set id | id in p.machines && p.machines[id].operation == p.row.value.operation;
    assert Effect(p) == p.Do(if ids == {} then Idle else Killing(ids, p.stage.after));
    assert ids == p.machines.Keys;
    assert p.machines == map[] ==> p.machines.Keys == {};
  }

  lemma SettlingKeepsCore(p: Project, spend: Option<SpendId>)
    requires Core(p) && !MayRun(p)
    ensures Core(Settled(p, spend))
  {
    if spend.Some? { SpendFrame(p, p.reserved - {spend.value}, p.spends); }
  }

  lemma SettleRemovedKeepsInv(p: Project)
    requires Inv(p) && p.stage.SettleRemoved?
    ensures Inv(Effect(p))
  {
    assert !MayRun(p);
    SettlingKeepsCore(p, p.row.value.spend);
    DoKeepsCore(Settled(p, p.row.value.spend), DeleteRow(p.stage.after));
  }

  lemma DeleteRowKeepsInv(p: Project)
    requires Inv(p) && p.stage.DeleteRow?
    ensures Inv(Effect(p))
  {
    var after := p.stage.after;
    var next := if after.Replace? then FreshLease(after.goal, after.target) else Idle;
    NoRowKeepsCore(p);
    DoKeepsCore(p.(row := None, handle := None), next);
    assert Effect(p) == p.(row := None, handle := None).Do(next);
  }

  // ----- Creating one -------------------------------------------------------------------------------------------

  lemma FreshLeaseKeepsInv(p: Project)
    requires Inv(p) && p.stage.FreshLease?
    ensures Inv(Effect(p))
  {
    var q := p.(reserved := p.reserved + {p.spends}, spends := p.spends + 1);
    LeasingKeepsCore(p, None);
    DoKeepsCore(q, InsertRow(p.stage.goal, p.stage.target, p.spends));
  }

  lemma InsertingKeepsCore(p: Project, row: Row)
    requires Core(p) && p.row.None? && p.handle.None? && row.operation == p.operations && row.sandbox.None? && !row.reusable
    requires row.state == Creating && (row.spend.Some? ==> row.spend.value < p.spends)
    ensures Core(SetRow(p, row).(operations := p.operations + 1))
  {
  }

  lemma InsertRowKeepsInv(p: Project)
    requires Inv(p) && p.stage.InsertRow? && (p.exists_ ==> p.handle.None?)
    ensures Inv(Effect(p))
  {
    if p.exists_ {
      var row := Row(p.operations, None, p.TemplateOf(p.stage.target), p.generation, None, false, Creating, Some(p.stage.lease));
      InsertingKeepsCore(p, row);
      DoKeepsCore(SetRow(p, row).(operations := p.operations + 1), SendCreate(p.stage.goal, p.stage.target));
    } else {
      DoKeepsCore(p, Idle);
    }
  }

  lemma SendingKeepsCore(p: Project)
    requires Core(p) && Unanswered(p) && p.handle.None? && p.machines == map[] && p.creating == {}
    requires p.spends > 0 && Newest(p, p.spends - 1)
    ensures Core(p.(creating := p.creating + {p.row.value.operation}))
  {
  }

  lemma SendCreateKeepsInv(p: Project)
    requires Inv(p) && p.stage.SendCreate?
    ensures Inv(Effect(p))
  {
    SendingKeepsCore(p);
    DoKeepsCore(p.(creating := p.creating + {p.row.value.operation}), AwaitCreate(p.stage.goal, p.stage.target));
  }

  lemma RecordingKeepsCore(p: Project)
    requires Core(p) && Unanswered(p) && p.handle.Some?
    ensures Core(SetRow(p, p.row.value.(sandbox := p.handle, state := Running)))
  {
  }

  lemma RecordSandboxKeepsInv(p: Project)
    requires Inv(p) && p.stage.RecordSandbox?
    ensures Inv(Effect(p))
  {
    RecordingKeepsCore(p);
    DoKeepsCore(SetRow(p, p.row.value.(sandbox := p.handle, state := Running)), Confirm(p.stage.goal, p.stage.target, true));
  }

  // ----- Using it -----------------------------------------------------------------------------------------------

  lemma HeldRestoreKeepsInv(p: Project)
    requires Inv(p) && p.stage.Held? && p.stage.restore
    ensures Inv(Effect(p))
  {
    var next := Held(p.stage.goal, p.stage.target, false);
    if p.stage.target.Some? {
      var q := SetFiles(p, p.handle.value, p.archive[p.stage.target.value].files);
      SetFilesKeepsCore(p, p.handle.value, p.archive[p.stage.target.value].files);
      DoKeepsCore(q, next);
      assert Effect(p) == q.Do(next);
    } else {
      DoKeepsCore(p, next);
    }
  }

  lemma HeldOpenKeepsInv(p: Project)
    requires Inv(p) && p.stage.Held? && !p.stage.restore && p.stage.goal.Open?
    ensures Inv(Effect(p))
  {
    var seen := p.stage.goal.seen;
    if p.latest == Some(seen) {
      assert p.stage.target == Some(seen);
      MarkReusableKeepsCore(p, seen);
      DoKeepsCore(MarkReusable(p, seen), Idle);
    } else {
      DoKeepsCore(p, Idle);
    }
  }

  lemma HeldBuildKeepsInv(p: Project)
    requires Inv(p) && p.stage.Held? && !p.stage.restore && p.stage.goal.Build?
    ensures Inv(Effect(p))
  {
    RowFrame(p, p.row.value.(reusable := false));
    DoKeepsCore(SetRow(p, p.row.value.(reusable := false)), Editing);
  }

  lemma SavedKeepsInv(p: Project)
    requires Inv(p) && p.stage.Saved?
    ensures Inv(Effect(p))
  {
    MarkReusableKeepsCore(p, p.stage.revision);
    DoKeepsCore(MarkReusable(p, p.stage.revision), Idle);
  }

  lemma PausedStage(p: Project)
    requires NextInv(p, Report) && !p.SomeRunning() && !p.Waking()
    ensures StageInv(p.Do(NoteState(true, Report))) && SkipsRestoreSoundly(p.Do(NoteState(true, Report)))
  {
  }

  lemma AskPauseKeepsInv(p: Project)
    requires Inv(p) && p.stage.AskPause? && (AnswersPaused(p) ==> !p.Waking())
    ensures Inv(Effect(p))
  {
    var id := p.row.value.sandbox.value;
    if id in p.machines {
      var q := SetRunning(p, id, false);
      assert Effect(p) == q.Do(NoteState(true, Report));
      SleepKeepsCore(p, id);
      DoKeepsCore(q, NoteState(true, Report));
      PausedOneIsStill(p, id);
      PausedStage(q);
    } else {
      assert p.machines == map[];
      DoKeepsCore(p, SettleRemoved(Stop));
    }
  }

  lemma PausedOneIsStill(p: Project, id: SandboxId)
    requires p.machines.Keys <= {id}
    ensures !SetRunning(p, id, false).SomeRunning() && (SetRunning(p, id, false).Waking() ==> p.Waking())
  {
  }

  lemma HeldKeepsInv(p: Project)
    requires Inv(p) && p.stage.Held?
    ensures Inv(Effect(p))
  {
    if p.stage.restore { HeldRestoreKeepsInv(p); }
    else if p.stage.goal.Open? { HeldOpenKeepsInv(p); }
    else { HeldBuildKeepsInv(p); }
  }

  // ----- A step that succeeds ---------------------------------------------------------------------------------

  /** The steps of `acquire` that look for a sandbox to reuse. */
  predicate Reusing(stage: Stage) {
    stage.Looking? || stage.AskState? || stage.Lease? || stage.TakeLease? || stage.Connect? || Noting(stage)
  }

  predicate Noting(stage: Stage) {
    stage.NoteState? || stage.SettlePaused? || stage.ClearPaused?
  }

  predicate Removing(stage: Stage) {
    stage.MarkRetiring? || stage.Listing? || stage.SettleRemoved? || stage.DeleteRow?
  }

  predicate Making(stage: Stage) {
    stage.FreshLease? || stage.InsertRow? || stage.SendCreate? || stage.RecordSandbox? || stage.Confirm?
  }

  lemma NotingKeepsInv(p: Project)
    requires Inv(p) && Noting(p.stage)
    ensures Inv(Effect(p))
  {
    if p.stage.NoteState? { NoteStateKeepsInv(p); }
    else if p.stage.SettlePaused? { SettlePausedKeepsInv(p); }
    else { ClearPausedKeepsInv(p); }
  }

  lemma ReusingKeepsInv(p: Project)
    requires Inv(p) && Clean(p, Proceed) && Reusing(p.stage)
    ensures Inv(Effect(p))
  {
    if p.stage.Looking? { LookingKeepsInv(p); }
    else if p.stage.AskState? { AskStateKeepsInv(p); }
    else if p.stage.Lease? { LeaseKeepsInv(p); }
    else if p.stage.TakeLease? { TakeLeaseKeepsInv(p); }
    else if p.stage.Connect? { ConnectKeepsInv(p); }
    else { NotingKeepsInv(p); }
  }

  lemma RemovalKeepsInv(p: Project)
    requires Inv(p) && Removing(p.stage)
    ensures Inv(Effect(p))
  {
    if p.stage.MarkRetiring? { MarkRetiringKeepsInv(p); }
    else if p.stage.Listing? { ListingKeepsInv(p); }
    else if p.stage.SettleRemoved? { SettleRemovedKeepsInv(p); }
    else { DeleteRowKeepsInv(p); }
  }

  lemma MakingKeepsInv(p: Project)
    requires Inv(p) && Clean(p, Proceed) && Making(p.stage)
    ensures Inv(Effect(p))
  {
    if p.stage.FreshLease? { FreshLeaseKeepsInv(p); }
    else if p.stage.InsertRow? { InsertRowKeepsInv(p); }
    else if p.stage.SendCreate? { SendCreateKeepsInv(p); }
    else if p.stage.RecordSandbox? { RecordSandboxKeepsInv(p); }
    else { ConfirmKeepsInv(p); }
  }

  lemma EffectKeepsInv(p: Project)
    requires Inv(p) && Clean(p, Proceed)
    ensures Inv(Effect(p))
  {
    if Reusing(p.stage) { ReusingKeepsInv(p); }
    else if Removing(p.stage) { RemovalKeepsInv(p); }
    else if Making(p.stage) { MakingKeepsInv(p); }
    else if p.stage.Held? { HeldKeepsInv(p); }
    else if p.stage.Saved? { SavedKeepsInv(p); }
    else if p.stage.AskPause? { AskPauseKeepsInv(p); }
    else { assert Effect(p) == p; }
  }

  // ----- A step whose end is not seen ---------------------------------------------------------------------------

  lemma IdleKeepsInv(p: Project)
    requires Core(p)
    ensures Inv(p.Do(Idle))
  {
    DoKeepsCore(p, Idle);
  }

  /** The held handle changes only with the row's own sandbox in hand, or with the row gone. */
  lemma HandleChanges(p: Project)
    requires !(p.stage.ClearPaused? || p.stage.Connect? || p.stage.DeleteRow?)
    ensures Effect(p).handle == p.handle
  {
    if !Reusing(p.stage) { OtherHandleChanges(p); }
  }

  lemma OtherHandleChanges(p: Project)
    requires !Reusing(p.stage) && !p.stage.DeleteRow?
    ensures Effect(p).handle == p.handle
  {
  }

  /** Nothing was in hand, or it was the recorded sandbox, which stays the only one. */
  lemma OldHandleKeepsCore(p: Project, q: Project)
    requires Core(p) && Core(q) && p.row.Some? && q.machines.Keys == p.machines.Keys && q.creating == p.creating
    requires q.sandboxes == p.sandboxes && (q.row.Some? ==> q.row.value.sandbox == p.row.value.sandbox)
    ensures Core(q.(handle := p.handle))
  {
  }

  lemma LostConnect(p: Project)
    requires Core(p) && p.stage.Connect? && p.row.Some? && p.row.value.sandbox.Some? && p.row.value.state == Running
    requires p.spends > 0 && Newest(p, p.spends - 1)
    ensures Inv(Next(p, Lost))
  {
    var id := p.row.value.sandbox.value;
    LostConnectIs(p);
    if id in p.machines {
      ConnectKeepsCore(p, id);
      IdleKeepsInv(SetRunning(p, id, true));
    } else {
      IdleKeepsInv(p);
    }
  }

  lemma LostConnectIs(p: Project)
    requires p.stage.Connect? && p.row.Some? && p.row.value.sandbox.Some?
    ensures Next(p, Lost) == SetRunning(p, p.row.value.sandbox.value, true).Do(Idle)
  {
  }

  lemma LostClear(p: Project)
    requires Inv(p) && p.stage.ClearPaused?
    ensures Inv(Next(p, Lost))
  {
    RowFrame(p, p.row.value.(spend := None));
    IdleKeepsInv(SetRow(p, p.row.value.(spend := None)));
  }

  lemma LostDelete(p: Project)
    requires Inv(p) && p.stage.DeleteRow?
    ensures Inv(Next(p, Lost))
  {
    NoRowKeepsCore(p);
    OldHandleKeepsCore(p, p.(row := None, handle := None));
    IdleKeepsInv(p.(row := None));
  }

  /** An answer nobody hears leaves only what the question did. */
  lemma LostPause(p: Project)
    requires Core(p) && p.stage.AskPause? && p.row.Some? && p.row.value.sandbox.Some?
    ensures Inv(Next(p, Lost))
  {
    LostPauseIs(p);
    SleepKeepsCore(p, p.row.value.sandbox.value);
    IdleKeepsInv(SetRunning(p, p.row.value.sandbox.value, false));
  }

  lemma LostPauseIs(p: Project)
    requires p.stage.AskPause? && p.row.Some? && p.row.value.sandbox.Some?
    ensures Next(p, Lost) == SetRunning(p, p.row.value.sandbox.value, false).Do(Idle)
  {
  }

  lemma LostState(p: Project)
    requires Core(p) && p.stage.AskState?
    ensures Inv(Next(p, Lost))
  {
    IdleKeepsInv(p);
  }

  lemma EffectKeepsCore(p: Project)
    requires Inv(p) && Clean(p, Proceed)
    ensures Core(Effect(p))
  {
    EffectKeepsInv(p);
  }

  lemma LostKeepsInv(p: Project)
    requires Inv(p) && Clean(p, Lost)
    ensures Inv(Next(p, Lost))
  {
    if p.stage.Connect? { LostConnect(p); }
    else if p.stage.ClearPaused? { LostClear(p); }
    else if p.stage.DeleteRow? { LostDelete(p); }
    else if p.stage.AskState? { LostState(p); }
    else if p.stage.AskPause? { LostPause(p); }
    else {
      EffectKeepsCore(p);
      HandleChanges(p);
      IdleKeepsInv(Effect(p));
      assert Next(p, Lost) == Effect(p).Do(Idle);
    }
  }

  /** A connect that may still wake its sandbox is paid for by the lease taken for it. */
  lemma LateKeepsInv(p: Project)
    requires Inv(p)
    ensures Inv(Next(p, Late))
  {
    if p.stage.Connect? {
      LateKeepsCore(p, p.row.value.sandbox.value);
      IdleKeepsInv(p.(waking := p.waking + {p.row.value.sandbox.value}));
    }
  }

  lemma LateKeepsCore(p: Project, id: SandboxId)
    requires Core(p) && p.row.Some? && p.row.value.sandbox == Some(id) && p.row.value.state == Running
    requires p.spends > 0 && Newest(p, p.spends - 1)
    ensures Core(p.(waking := p.waking + {id}))
  {
  }

  // ----- Kills, replies and edits -------------------------------------------------------------------------------

  lemma KillKeepsInv(p: Project, id: SandboxId)
    requires Inv(p) && p.stage.Killing? && id in p.stage.ids
    ensures Inv(Killed(p, p.stage.ids, p.stage.after, id))
  {
    var q, left, after := p.(machines := p.machines - {id}), p.stage.ids - {id}, p.stage.after;
    RemovingKeepsCore(p, id);
    if left != {} {
      DoKeepsCore(q, Killing(left, after));
    } else if p.row.Some? {
      DoKeepsCore(q, SettleRemoved(after));
      assert q.machines == map[];
    } else {
      ForgettingKeepsCore(q);
      IdleKeepsInv(q.(handle := None));
    }
  }

  lemma KillLostKeepsInv(p: Project, id: SandboxId)
    requires Inv(p)
    ensures Inv(Next(p, KillLost(id)))
  {
    if p.stage.Killing? {
      RemovingKeepsCore(p, id);
      IdleKeepsInv(p.(machines := p.machines - {id}));
    }
  }

  lemma ReplyKeepsCore(p: Project, id: SandboxId)
    requires Core(p) && Unanswered(p) && p.handle.None? && id in p.machines
    ensures Core(p.(handle := Some(id)))
  {
  }

  lemma ReplyKeepsInv(p: Project, id: SandboxId)
    requires Inv(p)
    ensures Inv(Next(p, Reply(id)))
  {
    if p.stage.AwaitCreate? && id in p.machines {
      ReplyKeepsCore(p, id);
      DoKeepsCore(p.(handle := Some(id)), RecordSandbox(p.stage.goal, p.stage.target));
    }
  }

  lemma DroppingKeepsCore(p: Project, operation: nat)
    requires Core(p)
    ensures Core(p.(creating := p.creating - {operation}))
  {
  }

  lemma RejectKeepsInv(p: Project)
    requires Inv(p)
    ensures Inv(Next(p, Reject))
  {
    if p.stage.AwaitCreate? {
      DroppingKeepsCore(p, p.row.value.operation);
      DoKeepsCore(p.(creating := p.creating - {p.row.value.operation}), SettleRemoved(Stop));
    }
  }

  lemma WriteKeepsInv(p: Project, files: Files)
    requires Inv(p)
    ensures Inv(Next(p, Write(files)))
  {
    if p.stage.Editing? {
      SetFilesKeepsCore(p, p.handle.value, files);
    }
  }

  lemma GarbleKeepsInv(p: Project, files: Files)
    requires Inv(p)
    ensures Inv(Next(p, Garble(files)))
  {
    if p.stage.Held? && p.stage.restore {
      GarbledKeepsInv(p, p.handle.value, files);
    }
  }

  lemma GarbledKeepsInv(p: Project, id: SandboxId, files: Files)
    requires Core(p) && (p.row.Some? ==> !p.row.value.reusable)
    ensures Inv(SetFiles(p, id, files).Do(Idle))
  {
    SetFilesKeepsCore(p, id, files);
    IdleKeepsInv(SetFiles(p, id, files));
  }

  lemma SaveKeepsInv(p: Project, final: bool)
    requires Inv(p)
    ensures Inv(Next(p, Save(final)))
  {
    if p.stage.Editing? && p.handle.value in p.machines {
      var files := p.machines[p.handle.value].files;
      SaveFilesKeepsCore(p, files);
      DoKeepsCore(SaveFiles(p, files), Next(p, Save(final)).stage);
    }
  }

  lemma SaveLostKeepsInv(p: Project)
    requires Inv(p)
    ensures Inv(Next(p, SaveLost))
  {
    if p.stage.Editing? && p.handle.value in p.machines {
      SaveFilesKeepsCore(p, p.machines[p.handle.value].files);
      IdleKeepsInv(SaveFiles(p, p.machines[p.handle.value].files));
    }
  }

  lemma StartKeepsInv(p: Project, c: Choice)
    requires Inv(p) && p.stage.Idle?
    ensures Inv(Start(p, c))
  {
    DoKeepsCore(p, Start(p, c).stage);
  }

  // ----- The provider's own events ------------------------------------------------------------------------------

  lemma LandingKeepsCore(p: Project, operation: nat, files: Files)
    requires Core(p) && operation in p.creating
    ensures Core(p.(creating := p.creating - {operation}, sandboxes := p.sandboxes + 1,
                    machines := p.machines[p.sandboxes := Machine(operation, true, files)]))
  {
    assert p.creating - {operation} == {};
    assert p.machines == map[];
  }

  lemma LandKeepsInv(p: Project, operation: nat, files: Files)
    requires Inv(p)
    ensures Inv(Environment(p, Land(operation, files)))
  {
    if operation in p.creating {
      LandingKeepsCore(p, operation, files);
    }
  }

  lemma DropKeepsInv(p: Project)
    requires Inv(p)
    ensures Inv(Environment(p, Drop))
  {
    assert Core(p.(creating := {}));
  }

  lemma SleepKeepsInv(p: Project, id: SandboxId)
    requires Inv(p)
    ensures Inv(Environment(p, Sleep(id)))
  {
    SleepKeepsCore(p, id);
    StageSurvives(p, SetRunning(p, id, false));
  }

  lemma VanishKeepsInv(p: Project, id: SandboxId)
    requires Inv(p)
    ensures Inv(Environment(p, Vanish(id)))
  {
    RemovingKeepsCore(p, id);
    StageSurvives(p, p.(machines := p.machines - {id}));
  }

  lemma WakingKeepsCore(p: Project, id: SandboxId)
    requires Core(p) && id in p.waking
    ensures Core(SetRunning(p, id, true).(waking := p.waking - {id}))
    ensures SetRunning(p, id, true).machines.Keys == p.machines.Keys
  {
  }

  lemma WakeKeepsInv(p: Project, id: SandboxId)
    requires Inv(p)
    ensures Inv(Environment(p, Wake(id)))
  {
    if id in p.waking {
      WakingKeepsCore(p, id);
      StageSurvives(p, SetRunning(p, id, true).(waking := p.waking - {id}));
    }
  }

  lemma DozeKeepsInv(p: Project)
    requires Inv(p)
    ensures Inv(Environment(p, Doze))
  {
    assert Core(p.(waking := {}));
    StageSurvives(p, p.(waking := {}));
  }

  /** Sandboxes that sleep, vanish, or wake as they were asked to disturb no step in progress. */
  ghost predicate Calmer(p: Project, q: Project) {
    && q == p.(machines := q.machines, waking := q.waking) && q.machines.Keys <= p.machines.Keys
    && (forall id :: id in q.machines ==> q.machines[id].files == p.machines[id].files)
    && (q.SomeRunning() || q.Waking() ==> p.SomeRunning() || p.Waking())
  }

  lemma StageSurvives(p: Project, q: Project)
    requires Inv(p) && Core(q) && Calmer(p, q)
    ensures Inv(q)
  {
    ReusingSurvives(p, q);
    RetiringSurvives(p, q);
    CreatingSurvives(p, q);
    HandSurvives(p, q);
  }

  lemma ReusingSurvives(p: Project, q: Project)
    requires ReuseInv(p) && Calmer(p, q)
    ensures ReuseInv(q)
  {
  }

  lemma RetiringSurvives(p: Project, q: Project)
    requires RetireInv(p) && Calmer(p, q)
    ensures RetireInv(q)
  {
    assert p.machines == map[] ==> q.machines == map[];
  }

  lemma CreatingSurvives(p: Project, q: Project)
    requires CreateInv(p) && Calmer(p, q)
    ensures CreateInv(q)
  {
    assert p.machines == map[] ==> q.machines == map[];
  }

  lemma HandSurvives(p: Project, q: Project)
    requires HandInv(p) && SkipsRestoreSoundly(p) && Calmer(p, q)
    ensures HandInv(q) && SkipsRestoreSoundly(q)
  {
  }

  // ----- New revisions, crashes ---------------------------------------------------------------------------------

  ghost predicate Grown(p: Project, q: Project) {
    && q == p.(archive := q.archive, latest := q.latest) && p.archive <= q.archive
    && q.latest.Some? && q.latest.value == |p.archive| && q.latest.value < |q.archive|
  }

  lemma GrowingKeepsCore(p: Project, q: Project)
    requires Core(p) && Grown(p, q)
    ensures Core(q)
  {
  }

  /** A waiting open has seen an earlier revision; a waiting build has seen none. */
  lemma GrowingKeepsGoal(p: Project, q: Project, goal: Goal, target: Option<RevisionId>)
    requires GoalInv(p, goal, target) && Grown(p, q) && (goal.Build? ==> p.latest.None?)
    requires p.latest.Some? ==> p.latest.value < |p.archive|
    ensures GoalInv(q, goal, target)
  {
  }

  lemma RecoverKeepsInv(p: Project, saved: Revision)
    requires Inv(p)
    ensures Inv(Environment(p, Recover(saved)))
  {
    var q := p.(archive := p.archive + [saved], latest := Some(|p.archive|));
    if !Building(p.stage) || p.latest.None? {
      GrowingKeepsCore(p, q);
      GrowingKeepsReuse(p, q);
      GrowingKeepsRemoval(p, q);
      GrowingKeepsCreate(p, q);
      GrowingKeepsHand(p, q);
    }
  }

  ghost predicate MayGrow(p: Project, q: Project) {
    Grown(p, q) && (Building(p.stage) ==> p.latest.None?) && (p.latest.Some? ==> p.latest.value < |p.archive|)
  }

  lemma GrowingKeepsNext(p: Project, q: Project, next: Then)
    requires NextInv(p, next) && Grown(p, q) && (next.Resume? && next.goal.Build? ==> p.latest.None?)
    requires p.latest.Some? ==> p.latest.value < |p.archive|
    ensures NextInv(q, next)
  {
    if next.Resume? { GrowingKeepsGoal(p, q, next.goal, next.target); }
  }

  lemma GrowingKeepsReuse(p: Project, q: Project)
    requires ReuseInv(p) && MayGrow(p, q)
    ensures ReuseInv(q)
  {
    match p.stage
    case AskState(next) => GrowingKeepsNext(p, q, next);
    case NoteState(_, next) => GrowingKeepsNext(p, q, next);
    case SettlePaused(next) => GrowingKeepsNext(p, q, next);
    case ClearPaused(next) => GrowingKeepsNext(p, q, next);
    case Lease(goal, target) => GrowingKeepsNext(p, q, Resume(goal, target));
    case TakeLease(goal, target, _) => GrowingKeepsNext(p, q, Resume(goal, target));
    case Connect(goal, target) => GrowingKeepsNext(p, q, Resume(goal, target));
    case _ =>
  }

  lemma GrowingKeepsRemoval(p: Project, q: Project)
    requires RetireInv(p) && MayGrow(p, q)
    ensures RetireInv(q)
  {
  }

  lemma GrowingKeepsCreate(p: Project, q: Project)
    requires CreateInv(p) && MayGrow(p, q)
    ensures CreateInv(q)
  {
  }

  lemma GrowingKeepsHand(p: Project, q: Project)
    requires HandInv(p) && SkipsRestoreSoundly(p) && MayGrow(p, q)
    ensures HandInv(q) && SkipsRestoreSoundly(q)
  {
  }

  lemma CrashKeepsInv(p: Project, generation: nat)
    requires Inv(p)
    ensures Inv(Environment(p, Crash(generation)))
  {
    ForgettingKeepsCore(p);
    assert Core(p.(handle := None, generation := generation));
    IdleKeepsInv(p.(handle := None, generation := generation));
  }

  lemma DeletingKeepsInv(p: Project)
    requires Inv(p)
    ensures Inv(Environment(p, DeleteProject))
  {
  }

  predicate FromEnvironment(c: Choice) {
    c.Land? || c.Drop? || c.Sleep? || c.Vanish? || c.Wake? || c.Doze? || c.Recover? || c.DeleteProject? || c.Crash?
  }

  lemma SandboxEventKeepsInv(p: Project, c: Choice)
    requires Inv(p) && (c.Land? || c.Drop? || c.Sleep? || c.Vanish? || c.Wake? || c.Doze?)
    ensures Inv(Environment(p, c))
  {
    if c.Land? { LandKeepsInv(p, c.operation, c.files); }
    else if c.Drop? { DropKeepsInv(p); }
    else if c.Sleep? { SleepKeepsInv(p, c.id); }
    else if c.Vanish? { VanishKeepsInv(p, c.id); }
    else if c.Wake? { WakeKeepsInv(p, c.id); }
    else { DozeKeepsInv(p); }
  }

  lemma EnvironmentKeepsInv(p: Project, c: Choice)
    requires Inv(p) && FromEnvironment(c)
    ensures Inv(Environment(p, c))
  {
    if c.Recover? { RecoverKeepsInv(p, c.saved); }
    else if c.DeleteProject? { DeletingKeepsInv(p); }
    else if c.Crash? { CrashKeepsInv(p, c.generation); }
    else { SandboxEventKeepsInv(p, c); }
  }

  predicate Edits(c: Choice) {
    c.Garble? || c.Write? || c.Save? || c.SaveLost?
  }

  lemma EditingKeepsInv(p: Project, c: Choice)
    requires Inv(p) && Edits(c)
    ensures Inv(Next(p, c))
  {
    if c.Write? { WriteKeepsInv(p, c.files); }
    else if c.Garble? { GarbleKeepsInv(p, c.files); }
    else if c.Save? { SaveKeepsInv(p, c.final); }
    else { SaveLostKeepsInv(p); }
  }

  predicate Answers(c: Choice) {
    c.Reply? || c.ListNothing? || c.Kill? || c.KillLost? || c.Reject?
  }

  lemma AnswerKeepsInv(p: Project, c: Choice)
    requires Inv(p) && Answers(c)
    ensures Inv(Next(p, c))
  {
    if c.Reply? { ReplyKeepsInv(p, c.id); }
    else if c.ListNothing? { IdleKeepsInv(p); }
    else if c.Kill? { if p.stage.Killing? && c.id in p.stage.ids { KillKeepsInv(p, c.id); } }
    else if c.KillLost? { KillLostKeepsInv(p, c.id); }
    else { RejectKeepsInv(p); }
  }

  lemma OutcomeKeepsInv(p: Project, c: Choice)
    requires Inv(p) && Clean(p, c) && (c.Proceed? || c.Fail? || c.Lost? || c.Late?)
    ensures Inv(Next(p, c))
  {
    if c.Proceed? { EffectKeepsInv(p); }
    else if c.Fail? { IdleKeepsInv(p); }
    else if c.Lost? { LostKeepsInv(p); }
    else { LateKeepsInv(p); }
  }

  /** One step of a project, whatever the provider and the process do, keeps the invariant. */
  lemma NextKeepsInv(p: Project, c: Choice)
    requires Inv(p) && Clean(p, c)
    ensures Inv(Next(p, c))
  {
    if FromEnvironment(c) { EnvironmentKeepsInv(p, c); }
    else if c.Proceed? || c.Fail? || c.Lost? || c.Late? { OutcomeKeepsInv(p, c); }
    else if Answers(c) { AnswerKeepsInv(p, c); }
    else if Edits(c) { EditingKeepsInv(p, c); }
    else if p.stage.Idle? { StartKeepsInv(p, c); }
  }
}
