/** The methods of `SandboxRuntimes`, written as the code writes them and proved to take only steps of the machine in
    `SandboxRuntime`, whatever the database and the provider answer. Calls for one project are serialized, so a
    method's steps are interleaved only with the provider's own (`World`). */
module SandboxCode {
  import opened Wrappers
  import opened SandboxRuntime
  import opened SandboxSafety
  import opened SandboxRuns
  import opened SandboxOutcomes

  /** What became of a commit or a call: done, refused, or done without its caller hearing of it. */
  datatype Answer = Done | Refused | Unheard

  /** How a create request ends for its caller. */
  datatype Reply = Heard | Silent | Rejected(removed: Answer)

  datatype Reported = Unknown | Missing | InState(paused: bool)

  /** All that happened in between is that calls were answered. */
  predicate Smooth(before: seq<Choice>, after: seq<Choice>) {
    |before| <= |after| && forall i :: |before| <= i < |after| ==> after[i].Proceed?
  }

  lemma SmoothParts(a: seq<Choice>, b: seq<Choice>, c: seq<Choice>)
    requires a <= b <= c && Smooth(a, c)
    ensures Smooth(a, b) && Smooth(b, c)
  {
  }

  lemma OneRoughStep(a: seq<Choice>, b: seq<Choice>, c: Choice)
    requires b == a + [c] && !c.Proceed?
    ensures !Smooth(a, b)
  {
    assert b[|a|] == c;
  }

  /** One project's row, handle and sandboxes; `rest` is everything else. */
  class Runtimes {
    var row: Option<Row>
    var handle: Option<SandboxId>
    var machines: map<SandboxId, Machine>
    var reserved: set<SpendId>
    var rest: Project
    ghost var stage: Stage
    /** Where the machine started, and the steps it has taken to here. */
    ghost const origin: Project
    ghost var steps: seq<Choice>
    ghost var trail: seq<Project>

    ghost function State(): Project
      reads this
    {
      rest.(row := row, handle := handle, machines := machines, reserved := reserved, stage := stage)
    }

    ghost predicate Valid()
      reads this
    {
      Follows(trail, steps) && trail[0] == origin && trail[|steps|] == State()
    }

    constructor (p: Project)
      ensures Valid() && origin == p && steps == [] && State() == p
    {
      row, handle, machines, reserved, rest, stage := p.row, p.handle, p.machines, p.reserved, p, p.stage;
      origin, steps, trail := p, [], [p];
    }

    /** The state has moved on by one step. */
    ghost method Took(before: Project, c: Choice)
      requires Follows(trail, steps) && trail[0] == origin && trail[|steps|] == before && State() == Next(before, c)
      modifies this`steps, this`trail
      ensures Valid() && steps == old(steps) + [c]
    {
      FollowsOn(trail, steps, c);
      trail := trail + [State()];
      steps := steps + [c];
    }

    method Ask() returns (r: Answer)
    {
      var i: int := *;
      r := if i == 0 then Done else if i == 1 then Refused else Unheard;
    }

    // ----- The provider's own events -------------------------------------------------------------------------

    /** Sandboxes fall asleep, vanish or wake; requests land or are dropped. */
    method World()
      requires Valid()
      modifies this`machines, this`rest, this`steps, this`trail
      ensures Valid() && old(steps) <= steps
      ensures Smooth(old(steps), steps) ==> machines == old(machines) && rest == old(rest)
    {
      var more: bool, turns: nat := *, *;
      while more && turns > 0
        invariant Valid() && old(steps) <= steps
        invariant Smooth(old(steps), steps) ==> machines == old(machines) && rest == old(rest)
        decreases turns
      {
        ghost var earlier := steps;
        var id: SandboxId, operation: nat, kind: int, files: Files := *, *, *, *;
        if kind == 0 { FallAsleep(id); }
        else if kind == 1 { Vanishes(id); }
        else if kind == 2 { WakesUp(id); }
        else if kind == 3 { RequestsAreDropped(); }
        else { Appears(operation, files); }
        if Smooth(old(steps), steps) { SmoothParts(old(steps), earlier, steps); }
        more := *;
        turns := turns - 1;
      }
    }

    method FallAsleep(id: SandboxId)
      requires Valid()
      modifies this`machines, this`steps, this`trail
      ensures Valid() && old(steps) <= steps && !Smooth(old(steps), steps)
    {
      ghost var before := State();
      if id in machines { machines := machines[id := machines[id].(running := false)]; }
      Took(before, Sleep(id));
      OneRoughStep(old(steps), steps, Sleep(id));
    }

    method Vanishes(id: SandboxId)
      requires Valid()
      modifies this`machines, this`steps, this`trail
      ensures Valid() && old(steps) <= steps && !Smooth(old(steps), steps)
    {
      ghost var before := State();
      machines := machines - {id};
      Took(before, Vanish(id));
      OneRoughStep(old(steps), steps, Vanish(id));
    }

    /** A connect that was given up takes effect. */
    method WakesUp(id: SandboxId)
      requires Valid()
      modifies this`machines, this`rest, this`steps, this`trail
      ensures Valid() && old(steps) <= steps && !Smooth(old(steps), steps)
    {
      ghost var before := State();
      if id in rest.waking {
        if id in machines { machines := machines[id := machines[id].(running := true)]; }
        rest := rest.(waking := rest.waking - {id});
      }
      Took(before, Wake(id));
      OneRoughStep(old(steps), steps, Wake(id));
    }

    method RequestsAreDropped()
      requires Valid()
      modifies this`rest, this`steps, this`trail
      ensures Valid() && old(steps) <= steps && !Smooth(old(steps), steps)
    {
      ghost var before := State();
      rest := rest.(creating := {});
      Took(before, Drop);
      OneRoughStep(old(steps), steps, Drop);
      before := State();
      rest := rest.(waking := {});
      ghost var earlier := steps;
      Took(before, Doze);
      if Smooth(old(steps), steps) { SmoothParts(old(steps), earlier, steps); }
    }

    method Appears(operation: nat, files: Files)
      requires Valid()
      modifies this`machines, this`rest, this`steps, this`trail
      ensures Valid() && old(steps) <= steps && !Smooth(old(steps), steps)
    {
      ghost var before := State();
      if operation in rest.creating {
        machines := machines[rest.sandboxes := Machine(operation, true, files)];
        rest := rest.(creating := rest.creating - {operation}, sandboxes := rest.sandboxes + 1);
      }
      Took(before, Land(operation, files));
      OneRoughStep(old(steps), steps, Land(operation, files));
    }

    // ----- remove ------------------------------------------------------------------------------------------------

    /** `remove`, for callers that know the sandbox to be gone. */
    method Remove(after: After) returns (r: Answer)
      requires Valid() && row.Some? && stage == SettleRemoved(after)
      modifies this`row, this`handle, this`reserved, this`stage, this`steps, this`trail
      ensures Valid() && old(steps) <= steps
      ensures if r.Done? then row.None? && handle.None? else handle == old(handle)
      ensures row.None? ==> !Paid(old(row), reserved)
      ensures stage == if r.Done? then Following(after) else Idle
    {
      r := Settle(after);
      if r.Done? { r := DropRow(after); }
    }

    method Settle(after: After) returns (r: Answer)
      requires Valid() && row.Some? && stage == SettleRemoved(after)
      modifies this`reserved, this`stage, this`steps, this`trail
      ensures Valid() && old(steps) <= steps && stage == if r.Done? then DeleteRow(after) else Idle
      ensures r.Done? ==> !Paid(row, reserved)
    {
      ghost var before := State();
      r := Ask();
      if !r.Refused? && row.value.spend.Some? { reserved := reserved - {row.value.spend.value}; }
      stage := if r.Done? then DeleteRow(after) else Idle;
      Took(before, Chosen(r));
    }

    /** The row goes with the commit, the handle only when the commit is heard of. */
    method DropRow(after: After) returns (r: Answer)
      requires Valid() && stage == DeleteRow(after)
      modifies this`row, this`handle, this`stage, this`steps, this`trail
      ensures Valid() && old(steps) <= steps && stage == if r.Done? then Following(after) else Idle
      ensures row == if r.Refused? then old(row) else None
      ensures handle == if r.Done? then None else old(handle)
    {
      ghost var before := State();
      r := Ask();
      if !r.Refused? { row := None; }
      if r.Done? { handle := None; }
      stage := if r.Done? then Following(after) else Idle;
      Took(before, Chosen(r));
    }

    // ----- retire ------------------------------------------------------------------------------------------------

    /** `change(row, state='retiring', reusable=False)`. */
    method Mark(after: After) returns (r: Answer, ids: set<SandboxId>)
      requires Valid() && stage == MarkRetiring(after) && row.Some?
      modifies this`row, this`stage, this`steps, this`trail
      ensures Valid() && old(steps) <= steps && ids == Named(old(row), handle)
      ensures row == if r.Refused? then old(row) else Some(old(row).value.(state := Retiring, reusable := false))
      ensures r.Done? ==> stage == if ids != {} then Killing(ids, after) else Listing(after)
      ensures !r.Done? ==> stage.Idle?
    {
      ghost var before := State();
      MarkEffect(before, after);
      ids := Named(row, handle);
      r := Ask();
      if !r.Refused? { row := Some(row.value.(state := Retiring, reusable := false)); }
      stage := if !r.Done? then Idle else if ids != {} then Killing(ids, after) else Listing(after);
      Took(before, Chosen(r));
    }

    /** `retire`: true only when the row and the handle are gone and the sandboxes they named were killed. An error is
        a refused or unheard commit. */
    method Retire() returns (r: Result<bool, Answer>)
      requires Valid() && stage.Idle?
      modifies this
      ensures Valid() && old(steps) <= steps && stage.Idle?
      ensures r == Ok(true) ==> row.None? && handle.None? && forall id :: id in old(Named(row, handle)) ==> id !in machines
      ensures row.None? ==> !Paid(old(row), reserved) || old(row).None?
    {
      if row.None? && handle.None? { return Ok(true); }
      ghost var before := State();
      if row.Some? {
        stage := MarkRetiring(Stop);
        Took(before, StartRetire);
        r := RetireRow(Stop);
      } else {
        stage := Killing({handle.value}, Stop);
        Took(before, StartRetire);
        var killed := KillHandle();
        r := Ok(killed.Done?);
      }
    }

    /** A handle without a row. */
    method KillHandle() returns (r: Answer)
      requires Valid() && row.None? && handle.Some? && stage == Killing({handle.value}, Stop)
      modifies this`machines, this`handle, this`stage, this`steps, this`trail
      ensures Valid() && old(steps) <= steps && stage.Idle?
      ensures r.Done? ==> handle.None? && old(handle).value !in machines
    {
      ghost var before := State();
      KillEffect(before, {handle.value}, Stop, handle.value);
      var id := handle.value;
      r := Ask();
      assert {id} - {id} == {};
      if !r.Refused? { machines := machines - {id}; }
      if r.Done? { handle := None; }
      stage := Idle;
      Took(before, if r.Refused? then Fail else if r.Unheard? then KillLost(id) else Kill(id));
    }

    /** The same for a row, which a replacement may follow. */
    method RetireRow(after: After) returns (r: Result<bool, Answer>)
      requires Valid() && stage == MarkRetiring(after) && row.Some?
      modifies this
      ensures Valid() && old(steps) <= steps
      ensures r == Ok(true) ==> row.None? && handle.None? && forall id :: id in old(Named(row, handle)) ==> id !in machines
      ensures row.None? ==> !Paid(old(row), reserved)
      ensures stage == if r == Ok(true) then Following(after) else Idle
    {
      var found := Targets(after);
      if found.Err? { return Err(found.error); }
      if found.value == {} { return Ok(false); }
      r := Discard(found.value, after);
    }

    /** Every sandbox named by the row is killed before the row is removed. */
    method Discard(ids: set<SandboxId>, after: After) returns (r: Result<bool, Answer>)
      requires Valid() && row.Some? && ids != {} && stage == Killing(ids, after)
      modifies this
      ensures Valid() && old(steps) <= steps
      ensures r == Ok(true) ==> row.None? && handle.None? && ids !! machines.Keys
      ensures row.None? ==> !Paid(old(row), reserved)
      ensures stage == if r == Ok(true) then Following(after) else Idle
    {
      var killed := KillAll(ids, after);
      if !killed { return Ok(false); }
      var removed := Remove(after);
      r := if removed.Done? then Ok(true) else Err(removed);
    }

    /** The ids to kill: those that are known, or those that the provider lists. */
    method Targets(after: After) returns (r: Result<set<SandboxId>, Answer>)
      requires Valid() && stage == MarkRetiring(after) && row.Some?
      modifies this`row, this`machines, this`rest, this`stage, this`steps, this`trail
      ensures Valid() && old(steps) <= steps && row.Some? && row.value.spend == old(row).value.spend
      ensures r.Ok? && r.value != {} ==> stage == Killing(r.value, after) && old(Named(row, handle)) <= r.value
      ensures r.Err? || r.value == {} ==> stage.Idle?
    {
      var marked, ids := Mark(after);
      if !marked.Done? { return Err(marked); }
      if ids == {} { ids := Find(after); }
      r := Ok(ids);
    }

    method Find(after: After) returns (ids: set<SandboxId>)
      requires Valid() && stage == Listing(after) && row.Some?
      modifies this`machines, this`rest, this`stage, this`steps, this`trail
      ensures Valid() && old(steps) <= steps
      ensures stage == if ids == {} then Idle else Killing(ids, after)
    {
      World();
      ids := List(after);
    }

    /** The provider's answer, which may be empty or missing although a sandbox exists. */
    method List(after: After) returns (ids: set<SandboxId>)
      requires Valid() && stage == Listing(after) && row.Some?
      modifies this`stage, this`steps, this`trail
      ensures Valid() && old(steps) <= steps
      ensures stage == if ids == {} then Idle else Killing(ids, after)
    {
      ghost var before := State();
      ListEffect(before, after);
      var answered: bool, empty: bool := *, *;
      if !answered {
        stage := Idle;
        Took(before, Fail);
        return {};
      }
      if empty {
        stage := Idle;
        Took(before, ListNothing);
        return {};
      }
      ids := set id | id in machines && machines[id].operation == row.value.operation;
      stage := if ids == {} then Idle else Killing(ids, after);
      Took(before, Proceed);
    }

    /** The loop over the ids; a failure leaves the rest of them for another try. */
    method KillAll(ids: set<SandboxId>, after: After) returns (ok: bool)
      requires Valid() && row.Some? && ids != {} && stage == Killing(ids, after)
      modifies this`machines, this`stage, this`steps, this`trail
      ensures Valid() && old(steps) <= steps
      ensures ok ==> machines == old(machines) - ids
      ensures stage == if ok then SettleRemoved(after) else Idle
    {
      var todo := ids;
      while todo != {}
        invariant Valid() && old(steps) <= steps && todo <= ids
        invariant machines == old(machines) - (ids - todo)
        invariant stage == if todo != {} then Killing(todo, after) else SettleRemoved(after)
        decreases todo
      {
        var id :| id in todo;
        var answer := KillOne(todo, after, id);
        if !answer.Done? { return false; }
        todo := todo - {id};
      }
      ok := true;
    }

    method KillOne(todo: set<SandboxId>, after: After, id: SandboxId) returns (r: Answer)
      requires Valid() && row.Some? && id in todo && stage == Killing(todo, after)
      modifies this`machines, this`stage, this`steps, this`trail
      ensures Valid() && old(steps) <= steps
      ensures machines == if r.Refused? then old(machines) else old(machines) - {id}
      ensures stage == if !r.Done? then Idle else if todo != {id} then Killing(todo - {id}, after) else SettleRemoved(after)
    {
      ghost var before := State();
      KillEffect(before, todo, after, id);
      r := Ask();
      var left := todo - {id};
      assert left == {} <==> todo == {id};
      if !r.Refused? { machines := machines - {id}; }
      stage := if !r.Done? then Idle else if left != {} then Killing(left, after) else SettleRemoved(after);
      Took(before, if r.Refused? then Fail else if r.Unheard? then KillLost(id) else Kill(id));
    }

    // ----- state and pause -----------------------------------------------------------------------------------

    /** `state`: the row follows what the provider says; a missing sandbox is removed, a paused one settled. */
    method Query(next: Then) returns (r: Result<Reported, Answer>)
      requires Valid() && row.Some? && stage == AskState(next)
      modifies this
      ensures Valid() && old(steps) <= steps
      ensures r.Ok? && r.value.InState? ==> row.Some? && row.value.sandbox == old(row).value.sandbox
      ensures r.Ok? && r.value.InState? ==> row.value.state == if r.value.paused then Paused else Running
      ensures r == Ok(InState(true)) ==> row.value.spend.None? && handle.None? && !Paid(old(row), reserved)
      ensures r == Ok(Missing) ==> row.None? && handle.None?
      ensures r == Ok(Unknown) ==> row == old(row) && handle == old(handle) && reserved == old(reserved)
      ensures stage == if r.Err? || r.value.Unknown? then Idle
                       else if r.value.Missing? then Following(Afterwards(next)) else Onward(next)
      ensures Smooth(old(steps), steps) && old(row).value.sandbox.Some? && old(row).value.sandbox.value in old(machines) ==>
        r == Ok(InState(!old(machines)[old(row).value.sandbox.value].running)) && machines == old(machines)
      ensures r == Ok(InState(false)) ==> reserved == old(reserved) && row.value.spend == old(row).value.spend
    {
      World();
      ghost var met := steps;
      r := Learn(next);
      if Smooth(old(steps), steps) { SmoothParts(old(steps), met, steps); }
    }

    method Learn(next: Then) returns (r: Result<Reported, Answer>)
      requires Valid() && row.Some? && stage == AskState(next)
      modifies this
      ensures Valid() && old(steps) <= steps
      ensures r.Ok? && r.value.InState? ==> row.Some? && row.value.sandbox == old(row).value.sandbox
      ensures r.Ok? && r.value.InState? ==> row.value.state == if r.value.paused then Paused else Running
      ensures r == Ok(InState(true)) ==> row.value.spend.None? && handle.None? && !Paid(old(row), reserved)
      ensures r == Ok(Missing) ==> row.None? && handle.None?
      ensures r == Ok(Unknown) ==> row == old(row) && handle == old(handle) && reserved == old(reserved)
      ensures stage == if r.Err? || r.value.Unknown? then Idle
                       else if r.value.Missing? then Following(Afterwards(next)) else Onward(next)
      ensures Smooth(old(steps), steps) && old(row).value.sandbox.Some? && old(row).value.sandbox.value in old(machines) ==>
        r == Ok(InState(!old(machines)[old(row).value.sandbox.value].running)) && machines == old(machines)
      ensures r == Ok(InState(false)) ==> reserved == old(reserved) && row.value.spend == old(row).value.spend
    {
      var found := Info(next);
      ghost var told := steps;
      if found.Err? || found.value.Unknown? { return found; }
      if found.value.Missing? {
        var removed := Remove(Afterwards(next));
        if Smooth(old(steps), steps) { SmoothParts(old(steps), told, steps); }
        return if removed.Done? then Ok(Missing) else Err(removed);
      }
      var absorbed := Absorb(found.value.paused, next);
      r := if absorbed.Done? then found else Err(absorbed);
      if Smooth(old(steps), steps) { SmoothParts(old(steps), told, steps); }
    }

    /** What a paused sandbox held is settled before the row forgets it. */
    method Absorb(paused: bool, next: Then) returns (r: Answer)
      requires Valid() && row.Some? && stage == NoteState(paused, next)
      modifies this`row, this`handle, this`reserved, this`stage, this`steps, this`trail
      ensures Valid() && old(steps) <= steps && stage == if r.Done? then Onward(next) else Idle
      ensures r.Done? ==> row.Some? && row.value.sandbox == old(row).value.sandbox
      ensures r.Done? ==> row.value.state == if paused then Paused else Running
      ensures r.Done? && paused ==> row.value.spend.None? && handle.None? && !Paid(old(row), reserved)
      ensures Smooth(old(steps), steps) ==> r.Done?
      ensures r.Done? && !paused ==> reserved == old(reserved) && row.value.spend == old(row).value.spend
    {
      r := Note(paused, next);
      ghost var noted := steps;
      if r.Done? && paused { r := SettleAndClear(next); }
      if Smooth(old(steps), steps) { SmoothParts(old(steps), noted, steps); }
    }

    method SettleAndClear(next: Then) returns (r: Answer)
      requires Valid() && row.Some? && stage == SettlePaused(next)
      modifies this`row, this`handle, this`reserved, this`stage, this`steps, this`trail
      ensures Valid() && old(steps) <= steps && stage == if r.Done? then Onward(next) else Idle
      ensures r.Done? ==> row == Some(old(row).value.(spend := None)) && handle.None? && !Paid(old(row), reserved)
      ensures Smooth(old(steps), steps) ==> r.Done?
    {
      r := SettlePause(next);
      ghost var settled := steps;
      if r.Done? { r := Clear(next); }
      if Smooth(old(steps), steps) { SmoothParts(old(steps), settled, steps); }
    }

    method Info(next: Then) returns (r: Result<Reported, Answer>)
      requires Valid() && row.Some? && stage == AskState(next)
      modifies this`stage, this`steps, this`trail
      ensures Valid() && old(steps) <= steps && (r.Ok? && r.value != Unknown ==> row.value.sandbox.Some?)
      ensures stage == if r.Err? || r.value.Unknown? then Idle else if r.value.Missing? then SettleRemoved(Afterwards(next))
                       else NoteState(r.value.paused, next)
      ensures Smooth(old(steps), steps) && row.value.sandbox.Some? && row.value.sandbox.value in machines ==>
        r == Ok(InState(!machines[row.value.sandbox.value].running))
    {
      ghost var before := State();
      if row.value.sandbox.Some? { InfoEffect(before, next); }
      var answered: bool, known: bool := *, *;
      if row.value.sandbox.None? || !answered || !known {
        stage := Idle;
        Took(before, Fail);
        OneRoughStep(old(steps), steps, Fail);
        return if row.value.sandbox.Some? && !answered then Err(Refused) else Ok(Unknown);
      }
      var id := row.value.sandbox.value;
      if id !in machines {
        stage := SettleRemoved(Afterwards(next));
        r := Ok(Missing);
      } else {
        stage := NoteState(!machines[id].running, next);
        r := Ok(InState(!machines[id].running));
      }
      Took(before, Proceed);
    }

    method Note(paused: bool, next: Then) returns (r: Answer)
      requires Valid() && row.Some? && stage == NoteState(paused, next)
      modifies this`row, this`stage, this`steps, this`trail
      ensures Valid() && old(steps) <= steps
      ensures row == if r.Refused? then old(row) else Some(old(row).value.(state := if paused then Paused else Running))
      ensures stage == if !r.Done? then Idle else if paused then SettlePaused(next) else Onward(next)
      ensures Smooth(old(steps), steps) ==> r.Done?
    {
      ghost var before := State();
      NoteEffect(before, paused, next);
      r := Ask();
      if !r.Refused? { row := Some(row.value.(state := if paused then Paused else Running)); }
      stage := if !r.Done? then Idle else if paused then SettlePaused(next) else Onward(next);
      Took(before, Chosen(r));
      if !r.Done? { OneRoughStep(old(steps), steps, Chosen(r)); }
    }

    method SettlePause(next: Then) returns (r: Answer)
      requires Valid() && row.Some? && stage == SettlePaused(next)
      modifies this`reserved, this`stage, this`steps, this`trail
      ensures Valid() && old(steps) <= steps && stage == if r.Done? then ClearPaused(next) else Idle
      ensures r.Done? ==> !Paid(row, reserved)
      ensures Smooth(old(steps), steps) ==> r.Done?
    {
      ghost var before := State();
      r := Ask();
      if !r.Refused? && row.value.spend.Some? { reserved := reserved - {row.value.spend.value}; }
      stage := if r.Done? then ClearPaused(next) else Idle;
      Took(before, Chosen(r));
      if !r.Done? { OneRoughStep(old(steps), steps, Chosen(r)); }
    }

    method Clear(next: Then) returns (r: Answer)
      requires Valid() && row.Some? && stage == ClearPaused(next)
      modifies this`row, this`handle, this`stage, this`steps, this`trail
      ensures Valid() && old(steps) <= steps
      ensures row == if r.Refused? then old(row) else Some(old(row).value.(spend := None))
      ensures handle == if r.Done? then None else old(handle)
      ensures stage == if r.Done? then Onward(next) else Idle
      ensures Smooth(old(steps), steps) ==> r.Done?
    {
      ghost var before := State();
      r := Ask();
      if !r.Refused? { row := Some(row.value.(spend := None)); }
      if r.Done? { handle := None; }
      stage := if r.Done? then Onward(next) else Idle;
      Took(before, Chosen(r));
      if !r.Done? { OneRoughStep(old(steps), steps, Chosen(r)); }
    }

    /** `pause`: a row that is not reusable is retired; otherwise true only when the provider confirmed the pause or
        the sandbox is gone. Either way nothing is held for it any more. */
    method Pause() returns (r: Result<bool, Answer>)
      requires Valid() && stage.Idle? && row.Some?
      requires row.value.reusable ==> row.value.sandbox.Some? && row.value.state == Running
      modifies this
      ensures Valid() && old(steps) <= steps && stage.Idle?
      ensures r == Ok(true) ==> handle.None? && !Paid(old(row), reserved)
      ensures r == Ok(true) ==> row.None? || (old(row).value.reusable && row.value.state == Paused && row.value.spend.None?)
    {
      if !row.value.reusable {
        r := Retire();
      } else {
        ghost var before := State();
        stage := AskPause;
        Took(before, StartPause);
        r := PauseReusable();
      }
    }

    method PauseReusable() returns (r: Result<bool, Answer>)
      requires Valid() && row.Some? && row.value.sandbox.Some? && stage.AskPause?
      modifies this
      ensures Valid() && old(steps) <= steps && stage.Idle?
      ensures r == Ok(true) ==> handle.None? && (row.Some? ==> row.value.state == Paused && row.value.spend.None?)
      ensures r == Ok(true) ==> !Paid(old(row), reserved)
    {
      World();
      r := PauseNow();
    }

    method PauseNow() returns (r: Result<bool, Answer>)
      requires Valid() && row.Some? && row.value.sandbox.Some? && stage.AskPause?
      modifies this
      ensures Valid() && old(steps) <= steps && stage.Idle?
      ensures r == Ok(true) ==> handle.None? && (row.Some? ==> row.value.state == Paused && row.value.spend.None?)
      ensures r == Ok(true) ==> !Paid(old(row), reserved)
    {
      var asked := SendPause();
      if asked.Err? { return Ok(false); }
      if !asked.value {
        var removed := Remove(Stop);
        return if removed.Done? then Ok(true) else Err(removed);
      }
      var absorbed := Absorb(true, Report);
      r := if absorbed.Done? then Ok(true) else Unfinished(absorbed);
    }

    /** False when there is no such sandbox. */
    method SendPause() returns (r: Result<bool, Answer>)
      requires Valid() && row.Some? && row.value.sandbox.Some? && stage.AskPause?
      modifies this`machines, this`stage, this`steps, this`trail
      ensures Valid() && old(steps) <= steps
      ensures stage == if r.Err? then Idle else if r.value then NoteState(true, Report) else SettleRemoved(Stop)
    {
      ghost var before := State();
      var id := row.value.sandbox.value;
      var answer := Ask();
      if answer.Refused? {
        stage := Idle;
        Took(before, Fail);
        return Err(answer);
      }
      PauseEffect(before, id);
      var there := id in machines;
      if there { machines := machines[id := machines[id].(running := false)]; }
      stage := if answer.Unheard? then Idle else if there then NoteState(true, Report) else SettleRemoved(Stop);
      r := if answer.Unheard? then Err(answer) else Ok(there);
      Took(before, Chosen(answer));
    }

    // ----- acquire ---------------------------------------------------------------------------------------------

    /** `acquire`: a held sandbox, and whether its sources are still to be restored. */
    method Acquire(goal: Goal) returns (r: Result<bool, Answer>)
      requires Valid() && stage == Looking(goal)
      modifies this
      ensures Valid() && old(steps) <= steps
      ensures if r.Ok? then stage.Held? && stage.goal == goal && stage.restore == r.value else stage.Idle?
      ensures r.Ok? ==> handle.Some? && Paid(row, reserved) && row.value.sandbox == handle
      ensures r == Ok(false) ==> UpToDate(old(State())) && handle == old(row).value.sandbox
      ensures Smooth(old(steps), steps) && Resumable(old(State())) ==>
        r == Ok(false) && handle == old(row).value.sandbox && machines.Keys == old(machines).Keys
    {
      var looked, compatible := Look(goal);
      ghost var seen := steps;
      if !looked.Done? { return Err(looked); }
      if compatible { r := KeepOrRenew(goal, rest.latest); } else { r := Renew(goal, rest.latest); }
      if Smooth(old(steps), steps) { SmoothParts(old(steps), seen, steps); }
    }

    /** A compatible sandbox that turns out to be gone is replaced like any other. */
    method KeepOrRenew(goal: Goal, target: Option<RevisionId>) returns (r: Result<bool, Answer>)
      requires Valid() && row.Some? && row.value.sandbox.Some? && stage == AskState(Resume(goal, target))
      modifies this
      ensures Valid() && old(steps) <= steps
      ensures stage == if r.Ok? then Held(goal, target, r.value) else Idle
      ensures r.Ok? ==> handle.Some? && Paid(row, reserved) && row.value.sandbox == handle
      ensures r == Ok(false) ==> handle == old(row).value.sandbox
      ensures Smooth(old(steps), steps) && Live(old(row).value, old(machines), old(reserved)) ==>
        r == Ok(false) && machines.Keys == old(machines).Keys
    {
      var kept := Keep(goal, target);
      ghost var tried := steps;
      if kept.Err? { return Err(kept.error); }
      if kept.value { return Ok(false); }
      r := Renew(goal, target);
      if Smooth(old(steps), steps) { SmoothParts(old(steps), tried, steps); }
    }

    /** The row's sandbox, if there is one, goes before a new one is made. */
    method Renew(goal: Goal, target: Option<RevisionId>) returns (r: Result<bool, Answer>)
      requires Valid() && stage == if row.Some? then MarkRetiring(Replace(goal, target)) else FreshLease(goal, target)
      modifies this
      ensures Valid() && old(steps) <= steps && r != Ok(false)
      ensures stage == if r.Ok? then Held(goal, target, true) else Idle
      ensures r.Ok? ==> handle.Some? && Paid(row, reserved) && row.value.sandbox == handle
    {
      if row.Some? {
        var retired := RetireRow(Replace(goal, target));
        if retired != Ok(true) { return Err(Refused); }
      }
      var made := Create(goal, target);
      r := if made.Done? then Ok(true) else Err(made);
    }

    /** A compatible sandbox is reused if it is still there. */
    method Keep(goal: Goal, target: Option<RevisionId>) returns (r: Result<bool, Answer>)
      requires Valid() && row.Some? && row.value.sandbox.Some? && stage == AskState(Resume(goal, target))
      modifies this
      ensures Valid() && old(steps) <= steps
      ensures r == Ok(true) ==> Paid(row, reserved) && handle.Some? && handle == row.value.sandbox
      ensures stage == if r.Err? then Idle else if r.value then Held(goal, target, false)
                       else if row.Some? then MarkRetiring(Replace(goal, target)) else FreshLease(goal, target)
      ensures r == Ok(true) ==> handle == old(row).value.sandbox
      ensures Smooth(old(steps), steps) && Live(old(row).value, old(machines), old(reserved)) ==>
        r == Ok(true) && machines.Keys == old(machines).Keys
    {
      var asked := Query(Resume(goal, target));
      ghost var known := steps;
      if asked.Err? { return Err(asked.error); }
      if asked.value.Unknown? { return Err(Refused); }
      if asked.value.Missing? { return Ok(false); }
      r := Reuse(goal, target);
      if Smooth(old(steps), steps) { SmoothParts(old(steps), known, steps); }
    }

    method Look(goal: Goal) returns (r: Answer, compatible: bool)
      requires Valid() && stage == Looking(goal)
      modifies this`stage, this`steps, this`trail
      ensures Valid() && old(steps) <= steps
      ensures compatible ==> row.Some? && row.value.sandbox.Some?
      ensures stage == if !r.Done? then Idle else if compatible then AskState(Resume(goal, rest.latest))
                       else if row.Some? then MarkRetiring(Replace(goal, rest.latest)) else FreshLease(goal, rest.latest)
      ensures r.Done? ==> (compatible <==> UpToDate(old(State())))
      ensures Smooth(old(steps), steps) ==> r.Done?
    {
      ghost var before := State();
      compatible := false;
      var answered: bool := *;
      if !answered {
        stage := Idle;
        Took(before, Fail);
        OneRoughStep(old(steps), steps, Fail);
        return Refused, false;
      }
      compatible := row.Some? && Compatible(rest, row.value, rest.latest);
      stage := if compatible then AskState(Resume(goal, rest.latest))
               else if row.Some? then MarkRetiring(Replace(goal, rest.latest)) else FreshLease(goal, rest.latest);
      Took(before, Proceed);
      r := Done;
    }

    /** A lease first, then the connect that may wake the sandbox; false when it turns out to be gone. */
    method Reuse(goal: Goal, target: Option<RevisionId>) returns (r: Result<bool, Answer>)
      requires Valid() && row.Some? && row.value.sandbox.Some? && stage == Lease(goal, target)
      modifies this
      ensures Valid() && old(steps) <= steps && (r == Ok(false) ==> row.Some?)
      ensures r.Ok? ==> Paid(row, reserved) && row.value.sandbox == old(row).value.sandbox
      ensures r == Ok(true) ==> handle.Some? && handle == row.value.sandbox
      ensures stage == if r.Err? then Idle else if r.value then Held(goal, target, false) else MarkRetiring(Replace(goal, target))
      ensures Smooth(old(steps), steps) && old(row).value.sandbox.value in old(machines)
              && (old(row).value.spend.Some? ==> old(row).value.spend.value in old(reserved)) ==>
        r == Ok(true) && machines.Keys == old(machines).Keys
    {
      var rented := Rent(goal, target);
      ghost var leased := steps;
      if !rented.Done? { return Err(rented); }
      r := Return(goal, target);
      if Smooth(old(steps), steps) { SmoothParts(old(steps), leased, steps); }
    }

    method Return(goal: Goal, target: Option<RevisionId>) returns (r: Result<bool, Answer>)
      requires Valid() && row.Some? && row.value.sandbox.Some? && stage == Connect(goal, target)
      modifies this`machines, this`handle, this`rest, this`stage, this`steps, this`trail
      ensures Valid() && old(steps) <= steps && (r == Ok(true) ==> handle == row.value.sandbox)
      ensures stage == if r.Err? then Idle else if r.value then Held(goal, target, false) else MarkRetiring(Replace(goal, target))
      ensures Smooth(old(steps), steps) && row.value.sandbox.value in old(machines) ==>
        r == Ok(true) && machines.Keys == old(machines).Keys
    {
      World();
      ghost var met := steps;
      r := Rejoin(goal, target);
      if Smooth(old(steps), steps) { SmoothParts(old(steps), met, steps); }
    }

    method Rejoin(goal: Goal, target: Option<RevisionId>) returns (r: Result<bool, Answer>)
      requires Valid() && row.Some? && row.value.sandbox.Some? && stage == Connect(goal, target)
      modifies this`machines, this`handle, this`rest, this`stage, this`steps, this`trail
      ensures Valid() && old(steps) <= steps && (r == Ok(true) ==> handle == row.value.sandbox)
      ensures stage == if r.Err? then Idle else if r.value then Held(goal, target, false) else MarkRetiring(Replace(goal, target))
      ensures Smooth(old(steps), steps) && row.value.sandbox.value in old(machines) ==>
        r == Ok(true) && machines.Keys == old(machines).Keys
    {
      r := Reconnect(goal, target);
      ghost var connected := steps;
      if r == Ok(true) { r := ConfirmLease(goal, target, false); }
      if Smooth(old(steps), steps) { SmoothParts(old(steps), connected, steps); }
    }

    method Rent(goal: Goal, target: Option<RevisionId>) returns (r: Answer)
      requires Valid() && row.Some? && stage == Lease(goal, target)
      modifies this`row, this`reserved, this`rest, this`stage, this`steps, this`trail
      ensures Valid() && old(steps) <= steps && stage == if r.Done? then Connect(goal, target) else Idle
      ensures r.Done? ==> Paid(row, reserved) && row.value.sandbox == old(row).value.sandbox
      ensures Smooth(old(steps), steps) && (old(row).value.spend.Some? ==> old(row).value.spend.value in old(reserved)) ==> r.Done?
    {
      var leased := RollLease(goal, target);
      ghost var rolled := steps;
      r := if leased.Err? then leased.error else Done;
      if leased.Ok? { r := TakeOver(goal, target, leased.value); }
      if Smooth(old(steps), steps) { SmoothParts(old(steps), rolled, steps); }
    }

    /** `reserve_runtime` with the row's entry as the one to replace, which must still be reserved. */
    method RollLease(goal: Goal, target: Option<RevisionId>) returns (r: Result<SpendId, Answer>)
      requires Valid() && row.Some? && stage == Lease(goal, target)
      modifies this`reserved, this`rest, this`stage, this`steps, this`trail
      ensures Valid() && old(steps) <= steps && stage == if r.Ok? then TakeLease(goal, target, r.value) else Idle
      ensures if r.Ok? then r.value in reserved else !r.error.Done?
      ensures Smooth(old(steps), steps) && (row.value.spend.Some? ==> row.value.spend.value in old(reserved)) ==> r.Ok?
    {
      var answer := Ask();
      if answer.Refused? || (row.value.spend.Some? && row.value.spend.value !in reserved) {
        ghost var before := State();
        stage := Idle;
        Took(before, Fail);
        OneRoughStep(old(steps), steps, Fail);
        return Err(Refused);
      }
      var lease := Replaced(goal, target, answer);
      r := if answer.Done? then Ok(lease) else Err(answer);
    }

    /** The new entry takes over from the row's old one in one transaction. */
    method Replaced(goal: Goal, target: Option<RevisionId>, answer: Answer) returns (lease: SpendId)
      requires Valid() && row.Some? && stage == Lease(goal, target) && !answer.Refused?
      requires row.value.spend.Some? ==> row.value.spend.value in reserved
      modifies this`reserved, this`rest, this`stage, this`steps, this`trail
      ensures Valid() && old(steps) <= steps && stage == if answer.Done? then TakeLease(goal, target, lease) else Idle
      ensures lease in reserved
      ensures Smooth(old(steps), steps) ==> answer.Done?
    {
      ghost var before := State();
      RollLeaseEffect(before, goal, target);
      lease := rest.spends;
      if row.value.spend.Some? { reserved := reserved - {row.value.spend.value}; }
      reserved := reserved + {lease};
      rest := rest.(spends := lease + 1);
      stage := if answer.Done? then TakeLease(goal, target, lease) else Idle;
      Took(before, Chosen(answer));
      if !answer.Done? { OneRoughStep(old(steps), steps, Chosen(answer)); }
    }

    /** Durable before the connect. */
    method TakeOver(goal: Goal, target: Option<RevisionId>, lease: SpendId) returns (r: Answer)
      requires Valid() && row.Some? && stage == TakeLease(goal, target, lease)
      modifies this`row, this`stage, this`steps, this`trail
      ensures Valid() && old(steps) <= steps && stage == if r.Done? then Connect(goal, target) else Idle
      ensures row == if r.Refused? then old(row) else Some(old(row).value.(state := Running, spend := Some(lease)))
      ensures Smooth(old(steps), steps) ==> r.Done?
    {
      ghost var before := State();
      r := Ask();
      if !r.Refused? { row := Some(row.value.(state := Running, spend := Some(lease))); }
      stage := if r.Done? then Connect(goal, target) else Idle;
      Took(before, Chosen(r));
      if !r.Done? { OneRoughStep(old(steps), steps, Chosen(r)); }
    }

    /** A connect that is given up may still take effect later. */
    method Reconnect(goal: Goal, target: Option<RevisionId>) returns (r: Result<bool, Answer>)
      requires Valid() && row.Some? && row.value.sandbox.Some? && stage == Connect(goal, target)
      modifies this`machines, this`handle, this`rest, this`stage, this`steps, this`trail
      ensures Valid() && old(steps) <= steps && (r == Ok(true) ==> handle == row.value.sandbox)
      ensures stage == if r.Err? then Idle else if r.value then Confirm(goal, target, false) else MarkRetiring(Replace(goal, target))
      ensures Smooth(old(steps), steps) && row.value.sandbox.value in old(machines) ==>
        r == Ok(true) && machines.Keys == old(machines).Keys
    {
      var answer := Ask();
      if !answer.Done? {
        var late: bool := *;
        if answer.Unheard? && late { GiveUp(goal, target); } else { Disconnect(goal, target, answer); }
        return Err(answer);
      }
      r := Ok(row.value.sandbox.value in machines);
      Join(goal, target);
    }

    method Join(goal: Goal, target: Option<RevisionId>)
      requires Valid() && row.Some? && row.value.sandbox.Some? && stage == Connect(goal, target)
      modifies this`machines, this`handle, this`stage, this`steps, this`trail
      ensures Valid() && old(steps) <= steps && machines.Keys == old(machines).Keys
      ensures var there := row.value.sandbox.value in old(machines);
        && (there ==> handle == row.value.sandbox)
        && stage == if there then Confirm(goal, target, false) else MarkRetiring(Replace(goal, target))
    {
      ghost var before := State();
      ConnectEffect(before, goal, target);
      var id := row.value.sandbox.value;
      if id in machines {
        machines := machines[id := machines[id].(running := true)];
        handle := Some(id);
        stage := Confirm(goal, target, false);
      } else {
        stage := MarkRetiring(Replace(goal, target));
      }
      Took(before, Proceed);
    }

    method Disconnect(goal: Goal, target: Option<RevisionId>, answer: Answer)
      requires Valid() && row.Some? && row.value.sandbox.Some? && stage == Connect(goal, target) && !answer.Done?
      modifies this`machines, this`stage, this`steps, this`trail
      ensures Valid() && old(steps) <= steps && stage.Idle?
      ensures !Smooth(old(steps), steps)
    {
      ghost var before := State();
      LostConnectEffect(before);
      var id := row.value.sandbox.value;
      if answer.Unheard? && id in machines { machines := machines[id := machines[id].(running := true)]; }
      stage := Idle;
      Took(before, Chosen(answer));
      OneRoughStep(old(steps), steps, Chosen(answer));
    }

    method GiveUp(goal: Goal, target: Option<RevisionId>)
      requires Valid() && row.Some? && row.value.sandbox.Some? && stage == Connect(goal, target)
      modifies this`rest, this`stage, this`steps, this`trail
      ensures Valid() && old(steps) <= steps && stage.Idle?
      ensures !Smooth(old(steps), steps)
    {
      ghost var before := State();
      LostConnectEffect(before);
      rest := rest.(waking := rest.waking + {row.value.sandbox.value});
      stage := Idle;
      Took(before, Late);
      OneRoughStep(old(steps), steps, Late);
    }

    /** The size and deadline of the sandbox in hand are confirmed; a reused one that is gone is replaced. */
    method ConfirmLease(goal: Goal, target: Option<RevisionId>, restore: bool) returns (r: Result<bool, Answer>)
      requires Valid() && stage == Confirm(goal, target, restore) && handle.Some?
      modifies this`stage, this`steps, this`trail
      ensures Valid() && old(steps) <= steps
      ensures stage == if r.Err? then Idle else if r.value then Held(goal, target, restore) else MarkRetiring(Replace(goal, target))
      ensures restore ==> r != Ok(false)
      ensures Smooth(old(steps), steps) && handle.value in machines ==> r == Ok(true)
    {
      ghost var before := State();
      var answered: bool := *;
      if !answered {
        stage := Idle;
        Took(before, Fail);
        OneRoughStep(old(steps), steps, Fail);
        return Err(Refused);
      }
      var there := handle.value in machines;
      stage := if there then Held(goal, target, restore) else if restore then Idle else MarkRetiring(Replace(goal, target));
      Took(before, Proceed);
      r := if !there && restore then Err(Refused) else Ok(there);
    }

    /** A lease and a row, both durable, before the request; only an explicit rejection undoes them. */
    method Create(goal: Goal, target: Option<RevisionId>) returns (r: Answer)
      requires Valid() && stage == FreshLease(goal, target)
      modifies this
      ensures Valid() && old(steps) <= steps
      ensures if r.Done? then stage == Held(goal, target, true) else stage.Idle?
      ensures r.Done? ==> handle.Some? && Paid(row, reserved) && row.value.sandbox == handle
    {
      var leased := NewLease(goal, target);
      if leased.Err? { return leased.error; }
      r := Insert(goal, target, leased.value);
      if r.Done? { r := Provision(goal, target); }
    }

    method Provision(goal: Goal, target: Option<RevisionId>) returns (r: Answer)
      requires Valid() && row.Some? && stage == SendCreate(goal, target)
      modifies this
      ensures Valid() && old(steps) <= steps
      ensures if r.Done? then stage == Held(goal, target, true) else stage.Idle?
      ensures r.Done? ==> reserved == old(reserved) && handle.Some? && row == Some(old(row).value.(sandbox := handle, state := Running))
    {
      var reply := Request(goal, target);
      r := if reply.Heard? then Done else if reply.Silent? then Unheard else Refused;
      if r.Done? { r := Accept(goal, target); }
    }

    method Request(goal: Goal, target: Option<RevisionId>) returns (r: Reply)
      requires Valid() && row.Some? && stage == SendCreate(goal, target)
      modifies this
      ensures Valid() && old(steps) <= steps && stage == if r.Heard? then RecordSandbox(goal, target) else Idle
      ensures r.Heard? ==> handle.Some?
      ensures !r.Rejected? ==> row == old(row) && reserved == old(reserved)
    {
      Send(goal, target);
      World();
      r := AwaitReply(goal, target);
    }

    /** The new sandbox is recorded, then confirmed. */
    method Accept(goal: Goal, target: Option<RevisionId>) returns (r: Answer)
      requires Valid() && row.Some? && handle.Some? && stage == RecordSandbox(goal, target)
      modifies this`row, this`stage, this`steps, this`trail
      ensures Valid() && old(steps) <= steps && stage == if r.Done? then Held(goal, target, true) else Idle
      ensures r.Done? ==> row == Some(old(row).value.(sandbox := handle, state := Running))
    {
      r := Bind(goal, target);
      if !r.Done? { return; }
      var confirmed := ConfirmLease(goal, target, true);
      r := if confirmed.Ok? then Done else Refused;
    }

    method NewLease(goal: Goal, target: Option<RevisionId>) returns (r: Result<SpendId, Answer>)
      requires Valid() && stage == FreshLease(goal, target)
      modifies this`reserved, this`rest, this`stage, this`steps, this`trail
      ensures Valid() && old(steps) <= steps && stage == if r.Ok? then InsertRow(goal, target, r.value) else Idle
      ensures if r.Err? then !r.error.Done? else r.value in reserved
    {
      ghost var before := State();
      NewLeaseEffect(before, goal, target);
      var answer := Ask();
      var lease := rest.spends;
      if !answer.Refused? {
        reserved := reserved + {lease};
        rest := rest.(spends := lease + 1);
      }
      stage := if answer.Done? then InsertRow(goal, target, lease) else Idle;
      Took(before, Chosen(answer));
      r := if answer.Done? then Ok(lease) else Err(answer);
    }

    method Insert(goal: Goal, target: Option<RevisionId>, lease: SpendId) returns (r: Answer)
      requires Valid() && stage == InsertRow(goal, target, lease)
      modifies this`row, this`rest, this`stage, this`steps, this`trail
      ensures Valid() && old(steps) <= steps && stage == if r.Done? then SendCreate(goal, target) else Idle
      ensures r.Done? ==> row.Some? && row.value.spend == Some(lease) && row.value.sandbox.None? && row.value.state == Creating
    {
      ghost var before := State();
      InsertEffect(before, goal, target, lease);
      r := Ask();
      if !rest.exists_ || row.Some? {
        stage := Idle;
        Took(before, Chosen(r));
        return Refused;
      }
      if !r.Refused? {
        row := Some(Row(rest.operations, None, rest.TemplateOf(target), rest.generation, None, false, Creating, Some(lease)));
        rest := rest.(operations := rest.operations + 1);
      }
      stage := if r.Done? then SendCreate(goal, target) else Idle;
      Took(before, Chosen(r));
    }

    method Send(goal: Goal, target: Option<RevisionId>)
      requires Valid() && row.Some? && stage == SendCreate(goal, target)
      modifies this`rest, this`stage, this`steps, this`trail
      ensures Valid() && old(steps) <= steps && stage == AwaitCreate(goal, target)
    {
      ghost var before := State();
      rest := rest.(creating := rest.creating + {row.value.operation});
      stage := AwaitCreate(goal, target);
      Took(before, Proceed);
    }

    /** The reply, an explicit rejection, which removes the row, or neither, which leaves the row as it is. */
    method AwaitReply(goal: Goal, target: Option<RevisionId>) returns (r: Reply)
      requires Valid() && row.Some? && stage == AwaitCreate(goal, target)
      modifies this`row, this`handle, this`reserved, this`rest, this`stage, this`steps, this`trail
      ensures Valid() && old(steps) <= steps && stage == if r.Heard? then RecordSandbox(goal, target) else Idle
      ensures r.Heard? ==> handle.Some?
      ensures !r.Rejected? ==> row == old(row) && reserved == old(reserved)
      ensures r.Rejected? && r.removed.Done? ==> row.None? && handle.None?
      ensures r.Rejected? && row.None? ==> !Paid(old(row), reserved)
    {
      var operation := row.value.operation;
      var rejected: bool, heard: bool := *, *;
      if rejected && operation in rest.creating {
        var removed := Refuse(goal, target);
        return Rejected(removed);
      }
      if heard && exists id :: id in machines && machines[id].operation == operation {
        var id :| id in machines && machines[id].operation == operation;
        Hear(goal, target, id);
        return Heard;
      }
      ghost var before := State();
      stage := Idle;
      Took(before, Fail);
      r := Silent;
    }

    method Refuse(goal: Goal, target: Option<RevisionId>) returns (removed: Answer)
      requires Valid() && row.Some? && stage == AwaitCreate(goal, target) && row.value.operation in rest.creating
      modifies this`row, this`handle, this`reserved, this`rest, this`stage, this`steps, this`trail
      ensures Valid() && old(steps) <= steps && stage.Idle?
      ensures removed.Done? ==> row.None? && handle.None?
      ensures row.None? ==> !Paid(old(row), reserved)
    {
      TakeBack(goal, target);
      removed := Remove(Stop);
    }

    method TakeBack(goal: Goal, target: Option<RevisionId>)
      requires Valid() && row.Some? && stage == AwaitCreate(goal, target) && row.value.operation in rest.creating
      modifies this`rest, this`stage, this`steps, this`trail
      ensures Valid() && old(steps) <= steps && stage == SettleRemoved(Stop)
    {
      ghost var before := State();
      RejectEffect(before);
      rest := rest.(creating := rest.creating - {row.value.operation});
      stage := SettleRemoved(Stop);
      Took(before, Choice.Reject);
    }

    method Hear(goal: Goal, target: Option<RevisionId>, id: SandboxId)
      requires Valid() && row.Some? && stage == AwaitCreate(goal, target)
      requires id in machines && machines[id].operation == row.value.operation
      modifies this`handle, this`stage, this`steps, this`trail
      ensures Valid() && old(steps) <= steps && stage == RecordSandbox(goal, target) && handle == Some(id)
    {
      ghost var before := State();
      ReplyEffect(before, goal, target, id);
      handle := Some(id);
      stage := RecordSandbox(goal, target);
      Took(before, Choice.Reply(id));
    }

    method Bind(goal: Goal, target: Option<RevisionId>) returns (r: Answer)
      requires Valid() && row.Some? && stage == RecordSandbox(goal, target)
      modifies this`row, this`stage, this`steps, this`trail
      ensures Valid() && old(steps) <= steps && stage == if r.Done? then Confirm(goal, target, true) else Idle
      ensures row == if r.Refused? then old(row) else Some(old(row).value.(sandbox := handle, state := Running))
    {
      ghost var before := State();
      BindEffect(before, goal, target);
      r := Ask();
      if !r.Refused? { row := Some(row.value.(sandbox := handle, state := Running)); }
      stage := if r.Done? then Confirm(goal, target, true) else Idle;
      Took(before, Chosen(r));
    }

    // ----- invalidate and mark_reusable --------------------------------------------------------------------------

    /** Durable before the build's first change. */
    method Invalidate(target: Option<RevisionId>) returns (r: Answer)
      requires Valid() && stage == Held(Build, target, false)
      modifies this`row, this`stage, this`steps, this`trail
      ensures Valid() && old(steps) <= steps && stage == if r.Done? then Editing else Idle
      ensures r.Done? ==> old(row).Some? && row == Some(old(row).value.(reusable := false))
    {
      ghost var before := State();
      InvalidateEffect(before, target);
      r := Ask();
      if !r.Refused? && row.Some? { row := Some(row.value.(reusable := false)); }
      stage := if r.Done? && row.Some? then Editing else Idle;
      Took(before, Chosen(r));
      if row.None? { r := Refused; }
    }

    /** A build's revision is published only for the running sandbox that is still in hand. */
    method Publish(revision: RevisionId) returns (r: Answer)
      requires Valid() && stage == Saved(revision)
      modifies this`row, this`stage, this`steps, this`trail
      ensures Valid() && old(steps) <= steps && stage.Idle?
      ensures r.Done? ==> && handle.Some? && old(row).Some? && old(row).value.sandbox == handle && old(row).value.state == Running
                          && row == Some(old(row).value.(reusable := true, revision := Some(revision)))
      ensures r.Refused? ==> row == old(row)
    {
      ghost var before := State();
      r := Ask();
      var owned := row.Some? && handle.Some? && row.value.sandbox == handle && row.value.state == Running;
      if !r.Refused? && owned { row := Some(row.value.(reusable := true, revision := Some(revision))); }
      stage := Idle;
      Took(before, Chosen(r));
      if !owned { r := Refused; }
    }
  }

  /** The row's sandbox is there, and the entry of a running one is live. */
  predicate Live(row: Row, machines: map<SandboxId, Machine>, reserved: set<SpendId>) {
    && row.sandbox.Some? && row.sandbox.value in machines
    && (machines[row.sandbox.value].running && row.spend.Some? ==> row.spend.value in reserved)
  }

  /** The row's ledger entry is still reserved. */
  predicate Paid(row: Option<Row>, reserved: set<SpendId>) {
    row.Some? && row.value.spend.Some? && row.value.spend.value in reserved
  }

  /** The ids that a row and a handle name. */
  function Named(row: Option<Row>, handle: Option<SandboxId>): set<SandboxId> {
    (if row.Some? && row.value.sandbox.Some? then {row.value.sandbox.value} else {})
    + (if handle.Some? then {handle.value} else {})
  }

  /** `pause` swallows errors, not cancellations. */
  function Unfinished(r: Answer): Result<bool, Answer> {
    if r.Unheard? then Err(r) else Ok(false)
  }

  /** The machine's choice for an answer. */
  function Chosen(r: Answer): Choice {
    match r case Done => Proceed case Refused => Fail case Unheard => Lost
  }

  /** What follows the removal of a row. */
  function Following(after: After): Stage {
    match after case Replace(goal, target) => FreshLease(goal, target) case Stop => Idle
  }

  function Onward(next: Then): Stage {
    match next case Resume(goal, target) => Lease(goal, target) case Report => Idle
  }

  function Afterwards(next: Then): After {
    match next case Resume(goal, target) => Replace(goal, target) case Report => Stop
  }

  // What each step does, stage by stage.

  lemma RejectEffect(p: Project)
    requires p.stage.AwaitCreate? && p.row.Some? && p.row.value.operation in p.creating
    ensures Next(p, Choice.Reject) == p.(creating := p.creating - {p.row.value.operation}, stage := SettleRemoved(Stop))
  {
  }

  lemma ReplyEffect(p: Project, goal: Goal, target: Option<RevisionId>, id: SandboxId)
    requires p.stage == AwaitCreate(goal, target) && p.row.Some?
    requires id in p.machines && p.machines[id].operation == p.row.value.operation
    ensures Next(p, Choice.Reply(id)) == p.(handle := Some(id), stage := RecordSandbox(goal, target))
  {
  }

  lemma NewLeaseEffect(p: Project, goal: Goal, target: Option<RevisionId>)
    requires p.stage == FreshLease(goal, target)
    ensures var q := p.(reserved := p.reserved + {p.spends}, spends := p.spends + 1);
            Next(p, Proceed) == q.Do(InsertRow(goal, target, p.spends)) && Next(p, Lost) == q.Do(Idle)
  {
  }

  lemma RollLeaseEffect(p: Project, goal: Goal, target: Option<RevisionId>)
    requires p.stage == Lease(goal, target) && p.row.Some?
    requires p.row.value.spend.Some? ==> p.row.value.spend.value in p.reserved
    ensures var q := p.(reserved := Settled(p, p.row.value.spend).reserved + {p.spends}, spends := p.spends + 1);
            Next(p, Proceed) == q.Do(TakeLease(goal, target, p.spends)) && Next(p, Lost) == q.Do(Idle)
  {
  }

  lemma ConnectEffect(p: Project, goal: Goal, target: Option<RevisionId>)
    requires p.stage == Connect(goal, target) && p.row.Some? && p.row.value.sandbox.Some?
    ensures var id := p.row.value.sandbox.value;
            Next(p, Proceed) == if id in p.machines then SetRunning(p, id, true).(handle := Some(id)).Do(Confirm(goal, target, false))
                                else p.Do(MarkRetiring(Replace(goal, target)))
  {
  }

  lemma LostConnectEffect(p: Project)
    requires p.stage.Connect? && p.row.Some? && p.row.value.sandbox.Some?
    ensures Next(p, Lost) == SetRunning(p, p.row.value.sandbox.value, true).Do(Idle)
    ensures Next(p, Late) == p.(waking := p.waking + {p.row.value.sandbox.value}).Do(Idle)
  {
    LostConnectIs(p);
  }

  lemma KillEffect(p: Project, ids: set<SandboxId>, after: After, id: SandboxId)
    requires p.stage == Killing(ids, after) && id in ids
    ensures Next(p, KillLost(id)) == p.(machines := p.machines - {id}).Do(Idle)
    ensures var q, left := p.(machines := p.machines - {id}), ids - {id};
            Next(p, Kill(id)) == if left != {} then q.Do(Killing(left, after)) else if p.row.Some? then q.Do(SettleRemoved(after))
                                 else q.(handle := None).Do(Idle)
  {
  }

  lemma NoteEffect(p: Project, paused: bool, next: Then)
    requires p.stage == NoteState(paused, next) && p.row.Some?
    ensures var q := SetRow(p, p.row.value.(state := if paused then Paused else Running));
            Next(p, Lost) == q.Do(Idle) && Next(p, Proceed) == q.Do(if paused then SettlePaused(next) else Onward(next))
  {
  }

  lemma InsertEffect(p: Project, goal: Goal, target: Option<RevisionId>, lease: SpendId)
    requires p.stage == InsertRow(goal, target, lease)
    ensures if !p.exists_ || p.row.Some? then Next(p, Proceed) == Next(p, Lost) == p.Do(Idle)
            else
              var row := Row(p.operations, None, p.TemplateOf(target), p.generation, None, false, Creating, Some(lease));
              var q := SetRow(p, row).(operations := p.operations + 1);
              Next(p, Proceed) == q.Do(SendCreate(goal, target)) && Next(p, Lost) == q.Do(Idle)
  {
  }

  lemma ListEffect(p: Project, after: After)
    requires p.stage == Listing(after) && p.row.Some?
    ensures Next(p, ListNothing) == Next(p, Fail) == p.Do(Idle)
    ensures var ids := set id | id in p.machines && p.machines[id].operation == p.row.value.operation;
            Next(p, Proceed) == p.Do(if ids == {} then Idle else Killing(ids, after))
  {
  }

  lemma InfoEffect(p: Project, next: Then)
    requires p.stage == AskState(next) && p.row.Some? && p.row.value.sandbox.Some?
    ensures Next(p, Fail) == p.Do(Idle)
    ensures var id := p.row.value.sandbox.value;
            Next(p, Proceed) == p.Do(if id in p.machines then NoteState(!p.machines[id].running, next) else SettleRemoved(Afterwards(next)))
  {
  }

  lemma InvalidateEffect(p: Project, target: Option<RevisionId>)
    requires p.stage == Held(Build, target, false)
    ensures p.row.None? ==> Next(p, Proceed) == Next(p, Lost) == p.Do(Idle)
    ensures p.row.Some? ==>
      var q := SetRow(p, p.row.value.(reusable := false)); Next(p, Proceed) == q.Do(Editing) && Next(p, Lost) == q.Do(Idle)
  {
  }

  lemma BindEffect(p: Project, goal: Goal, target: Option<RevisionId>)
    requires p.stage == RecordSandbox(goal, target) && p.row.Some?
    ensures var q := SetRow(p, p.row.value.(sandbox := p.handle, state := Running));
            Next(p, Proceed) == q.Do(Confirm(goal, target, true)) && Next(p, Lost) == q.Do(Idle) && Next(p, Fail) == p.Do(Idle)
  {
  }

  lemma MarkEffect(p: Project, after: After)
    requires p.stage == MarkRetiring(after) && p.row.Some?
    ensures var q, ids := SetRow(p, p.row.value.(state := Retiring, reusable := false)), Named(p.row, p.handle);
            Next(p, Lost) == q.Do(Idle) && Next(p, Proceed) == q.Do(if ids == {} then Listing(after) else Killing(ids, after))
  {
    assert KnownIds(SetRow(p, p.row.value.(state := Retiring, reusable := false))) == Named(p.row, p.handle);
  }

  lemma PauseEffect(p: Project, id: SandboxId)
    requires p.stage.AskPause? && p.row.Some? && p.row.value.sandbox == Some(id)
    ensures Next(p, Lost) == SetRunning(p, id, false).Do(Idle)
    ensures Next(p, Proceed) == SetRunning(p, id, false).Do(if id in p.machines then NoteState(true, Report) else SettleRemoved(Stop))
  {
  }

  /** Each state is the machine's next after the one before it. */
  ghost predicate Follows(trail: seq<Project>, steps: seq<Choice>) {
    && |trail| == |steps| + 1
    && forall i {:trigger steps[i]} :: 0 <= i < |steps| ==> trail[i + 1] == Next(trail[i], steps[i])
  }

  lemma FollowsOn(trail: seq<Project>, steps: seq<Choice>, c: Choice)
    requires Follows(trail, steps)
    ensures Follows(trail + [Next(trail[|steps|], c)], steps + [c])
  {
  }

  lemma {:induction false} TrailIsARun(trail: seq<Project>, steps: seq<Choice>)
    requires Follows(trail, steps)
    ensures Run(trail[0], steps) == trail[|steps|]
    decreases |steps|
  {
    if steps != [] {
      assert Next(trail[0], steps[0]) == trail[1];
      assert Follows(trail[1..], steps[1..]) by {
        forall i | 0 <= i < |steps[1..]|
          ensures trail[1..][i + 1] == Next(trail[1..][i], steps[1..][i])
        {
          assert steps[1..][i] == steps[i + 1];
        }
      }
      TrailIsARun(trail[1..], steps[1..]);
    }
  }

  /** Since the code takes only the machine's steps, its states are the machine's. */
  lemma CodeIsSafe(r: Runtimes)
    requires r.Valid() && Initial(r.origin) && SteadyRun(r.origin, r.steps)
    ensures Safe(r.State())
  {
    TrailIsARun(r.trail, r.steps);
    EverySteadyRunIsSafe(r.origin, r.steps);
  }
}
