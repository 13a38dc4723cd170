/** Admission in `agent/service.py`: how many sandboxes may run at once over all projects. */
module Capacity {
  import opened Wrappers
  import opened SandboxRuntime
  import opened SandboxSafety
  import opened SandboxRuns
  import opened SandboxFaults

  /** The projects of one worker and `MAX_LIVE_SANDBOXES`. */
  datatype Host = Host(projects: map<nat, Project>, limit: nat)

  /** An open or a build of the project is in progress. */
  predicate Busy(p: Project) {
    Asker(p.stage).Some?
  }

  /** Counted by `require_sandbox_capacity`: every row that is not paused, every handle, every busy project. */
  predicate Reserved(p: Project) {
    Busy(p) || p.handle.Some? || (p.row.Some? && p.row.value.state != Paused)
  }

  function ReservedSet(h: Host): set<nat> {
    set c | c in h.projects && Reserved(h.projects[c])
  }

  predicate Admitted(h: Host, chat: nat)
    requires chat in h.projects
  {
    var p := h.projects[chat];
    && !(p.row.Some? && (p.row.value.state == Creating || p.row.value.state == SandboxRuntime.Retiring))
    && (chat in ReservedSet(h) || |ReservedSet(h)| < h.limit)
  }

  datatype Event =
    | Create(chat: nat, made: Project)
    | Step(chat: nat, choice: Choice)
    | Restart(generation: nat)

  /** `open_preview` and `admit` start only when admitted; everything else is a step of one project. A
      restart of the worker crashes all of them. */
  ghost function Happen(h: Host, e: Event): Host {
    match e
    case Create(chat, made) =>
      if chat in h.projects || !Initial(made) then h else h.(projects := h.projects[chat := made])
    case Step(chat, c) =>
      if chat !in h.projects || ((c.StartOpen? || c.StartBuild?) && !Admitted(h, chat)) then h
      else h.(projects := h.projects[chat := Next(h.projects[chat], c)])
    case Restart(generation) =>
      h.(projects := map c | c in h.projects :: Next(h.projects[c], Crash(generation)))
  }

  /** The project may hold a running sandbox, or is about to. */
  ghost predicate Slot(p: Project) {
    || Busy(p) || p.handle.Some?
    || (p.row.Some? && (p.row.value.state == Creating || p.row.value.state == Running
                        || (p.row.value.state == SandboxRuntime.Retiring && MayRun(p))))
  }

  ghost function Slots(h: Host): set<nat> {
    set c | c in h.projects && Slot(h.projects[c])
  }

  ghost function RunningSet(h: Host): set<nat> {
    set c | c in h.projects && h.projects[c].SomeRunning()
  }

  lemma RunningTakesASlot(p: Project)
    requires Inv(p) && MayRun(p)
    ensures Slot(p)
  {
  }

  /** A reserved project without a slot is one that is retiring a paused sandbox, and is refused. */
  lemma ReservedWithoutSlotIsRetiring(p: Project)
    requires Reserved(p) && !Slot(p)
    ensures p.row.Some? && p.row.value.state == SandboxRuntime.Retiring
  {
  }

  predicate Starts(c: Choice) {
    c.StartOpen? || c.StartBuild?
  }

  /** The projects that count against the limit: an open or a build is in progress, a handle is held, or there is a row
      that is not paused. */
  function Counted(h: Host): set<nat> {
    set c | c in h.projects
            && (Asker(h.projects[c].stage).Some? || h.projects[c].handle.Some?
                || (h.projects[c].row.Some? && h.projects[c].row.value.state != Paused))
  }

  /** Steps of an acquisition that work on a sandbox that is there. */
  predicate Resuming(stage: Stage) {
    stage.AskState? || stage.NoteState? || stage.SettlePaused? || stage.ClearPaused? || stage.Lease? || stage.TakeLease?
    || stage.Connect? || stage.Confirm?
  }

  predicate Creates(stage: Stage) {
    stage.FreshLease? || stage.InsertRow? || stage.SendCreate? || stage.AwaitCreate? || stage.RecordSandbox?
  }

  lemma ResumerGoesOn(p: Project)
    requires Resuming(p.stage) && Asker(p.stage).Some? && !Effect(p).stage.Idle?
    ensures Asker(Effect(p).stage) == Asker(p.stage)
  {
  }

  lemma CreatorGoesOn(p: Project)
    requires Creates(p.stage) && !Effect(p).stage.Idle?
    ensures Asker(Effect(p).stage) == Asker(p.stage)
  {
  }

  lemma LookerGoesOn(p: Project)
    requires p.stage.Looking?
    ensures Asker(Effect(p).stage) == Asker(p.stage)
  {
  }

  lemma RemoverGoesOn(p: Project)
    requires Removing(p.stage) && Asker(p.stage).Some? && !Effect(p).stage.Idle?
    ensures Asker(Effect(p).stage) == Asker(p.stage)
  {
  }

  lemma HolderGoesOn(p: Project)
    requires !Resuming(p.stage) && !Creates(p.stage) && !p.stage.Looking? && !Removing(p.stage)
    requires Asker(p.stage).Some? && !Effect(p).stage.Idle?
    ensures Asker(Effect(p).stage) == Asker(p.stage)
  {
  }

  lemma AskerHears(p: Project, c: Choice)
    requires Asker(p.stage).Some? && !c.Proceed? && !c.Reject? && !Next(p, c).stage.Idle?
    ensures Asker(Next(p, c).stage) == Asker(p.stage)
  {
  }

  /** A project counts as busy, for the one that asked, from the start of an open or a build to its end; after an explicit
      rejection only the removal of its row is left. */
  lemma TheAskerStays(p: Project, c: Choice)
    requires Asker(p.stage).Some? && !Next(p, c).stage.Idle?
    ensures Asker(Next(p, c).stage) == Asker(p.stage) || (c.Reject? && Next(p, c).stage == SettleRemoved(Stop))
  {
    if c.Proceed? {
      if Resuming(p.stage) { ResumerGoesOn(p); }
      else if Creates(p.stage) { CreatorGoesOn(p); }
      else if p.stage.Looking? { LookerGoesOn(p); }
      else if Removing(p.stage) { RemoverGoesOn(p); }
      else { HolderGoesOn(p); }
    } else if !c.Reject? { AskerHears(p, c); }
  }

  /** Admission is exact: an open of a saved project or a build starts if and only if the project's row is neither being
      created nor retired and the project counts already or there is room for one more; a refusal changes nothing. */
  lemma AdmissionIsExact(h: Host, chat: nat, c: Choice)
    requires chat in h.projects && h.projects[chat].stage.Idle? && h.projects[chat].exists_
    requires c.StartBuild? || (c.StartOpen? && h.projects[chat].latest.Some?)
    ensures var p := h.projects[chat];
            var room := (chat in Counted(h) || |Counted(h)| < h.limit)
                        && (p.row.Some? ==> p.row.value.state == Running || p.row.value.state == Paused);
            Happen(h, Step(chat, c))
            == if room then h.(projects := h.projects[chat := p.Do(Looking(if c.StartBuild? then Build else Open(p.latest.value)))])
               else h
  {
    assert Counted(h) == ReservedSet(h);
  }

  /** A paused project can always be resumed while a slot is free, and then takes one. */
  lemma StartingTakesASlot(h: Host, chat: nat, c: Choice)
    requires chat in h.projects && h.projects[chat].stage.Idle? && h.projects[chat].exists_
    requires c.StartBuild? || (c.StartOpen? && h.projects[chat].latest.Some?)
    requires h.projects[chat].row.Some? ==> h.projects[chat].row.value.state == Paused
    requires |Counted(h)| < h.limit
    ensures Counted(Happen(h, Step(chat, c))) == Counted(h) + {chat}
  {
    AdmissionIsExact(h, chat, c);
  }

  lemma NotingTakesNoSlot(p: Project)
    requires ReuseInv(p) && PausedIsStill(p) && Noting(p.stage) && Slot(Effect(p))
    ensures Slot(p)
  {
  }

  lemma RemovalTakesNoSlot(p: Project)
    requires SingleOwner(p) && Known(p) && RetireInv(p) && PausedIsStill(p) && !Busy(p) && Removing(p.stage) && Slot(Effect(p))
    ensures Slot(p)
  {
  }

  lemma QuestionTakesNoSlot(p: Project)
    requires ReuseInv(p) && !Busy(p) && !Noting(p.stage) && !Removing(p.stage) && Slot(Effect(p))
    ensures Slot(p)
  {
  }

  lemma EffectTakesNoSlot(p: Project)
    requires Inv(p) && Slot(Effect(p))
    ensures Slot(p)
  {
    if !Busy(p) {
      if Noting(p.stage) { NotingTakesNoSlot(p); }
      else if Removing(p.stage) { RemovalTakesNoSlot(p); }
      else { QuestionTakesNoSlot(p); }
    }
  }

  /** A step that leaves the rest alone takes no slot by becoming idle. */
  lemma IdlingTakesNoSlot(p: Project, handle: Option<SandboxId>)
    requires Slot(p.(handle := handle).Do(Idle)) && (handle.Some? ==> Slot(p))
    ensures Slot(p)
  {
  }

  lemma EnvironmentTakesNoSlot(p: Project, c: Choice)
    requires Inv(p) && FromEnvironment(c) && Slot(Environment(p, c))
    ensures Slot(p)
  {
    if c.Sleep? { SleepKeepsCore(p, c.id); }
  }

  lemma OutcomeTakesNoSlot(p: Project, c: Choice)
    requires Inv(p) && !FromEnvironment(c) && !Starts(c) && !c.Proceed? && !c.Lost? && Slot(Next(p, c))
    ensures Slot(p)
  {
    if !Busy(p) { QuietOutcomeTakesNoSlot(p, c); }
  }

  lemma QuietOutcomeTakesNoSlot(p: Project, c: Choice)
    requires SingleOwner(p) && RetireInv(p) && ReuseInv(p) && !Busy(p)
    requires !FromEnvironment(c) && !Starts(c) && !c.Proceed? && !c.Lost? && Slot(Next(p, c))
    ensures Slot(p)
  {
  }

  /** Only starting an open or a build can take a slot. */
  lemma NextTakesNoSlot(p: Project, c: Choice)
    requires Inv(p) && !Starts(c) && Slot(Next(p, c))
    ensures Slot(p)
  {
    if FromEnvironment(c) { EnvironmentTakesNoSlot(p, c); }
    else if c.Proceed? { EffectTakesNoSlot(p); }
    else if c.Lost? {
      if p.handle.None? {
        IdlingTakesNoSlot(Effect(p), None);
        EffectTakesNoSlot(p);
      }
    } else { OutcomeTakesNoSlot(p, c); }
  }

  // ----- Over all projects ---------------------------------------------------------------------------

  ghost predicate HostInv(h: Host) {
    (forall c :: c in h.projects ==> Inv(h.projects[c])) && |Slots(h)| <= h.limit
  }

  ghost predicate CleanEvent(h: Host, e: Event) {
    e.Step? && e.chat in h.projects ==> Clean(h.projects[e.chat], e.choice)
  }

  lemma FewerSlots(h: Host, k: Host)
    requires HostInv(h) && k.limit == h.limit && Slots(k) <= Slots(h)
    ensures |Slots(k)| <= k.limit
  {
    Subset(Slots(k), Slots(h));
  }

  lemma {:induction false} Subset(a: set<nat>, b: set<nat>)
    requires a <= b
    ensures |a| <= |b|
  {
    if a != {} {
      var x :| x in a;
      Subset(a - {x}, b - {x});
    }
  }

  lemma AdmissionTakesOneSlot(h: Host, chat: nat, k: Host)
    requires HostInv(h) && chat in h.projects && Admitted(h, chat)
    requires k.limit == h.limit && Slots(k) <= Slots(h) + {chat}
    ensures |Slots(k)| <= k.limit
  {
    if chat in ReservedSet(h) {
      if !Slot(h.projects[chat]) { ReservedWithoutSlotIsRetiring(h.projects[chat]); }
      FewerSlots(h, k);
    } else {
      assert Slots(h) <= ReservedSet(h);
      Subset(Slots(h), ReservedSet(h));
      Subset(Slots(k), Slots(h) + {chat});
      assert chat !in Slots(h);
    }
  }

  lemma StepKeepsHostInv(h: Host, chat: nat, c: Choice)
    requires HostInv(h) && CleanEvent(h, Step(chat, c))
    ensures HostInv(Happen(h, Step(chat, c)))
  {
    var k := Happen(h, Step(chat, c));
    if k != h {
      NextKeepsInv(h.projects[chat], c);
      if Starts(c) {
        AdmissionTakesOneSlot(h, chat, k);
      } else {
        if Slot(k.projects[chat]) { NextTakesNoSlot(h.projects[chat], c); }
        FewerSlots(h, k);
      }
    }
  }

  lemma RestartKeepsHostInv(h: Host, generation: nat)
    requires HostInv(h)
    ensures HostInv(Happen(h, Restart(generation)))
  {
    var k := Happen(h, Restart(generation));
    forall c | c in h.projects
      ensures Inv(k.projects[c]) && (Slot(k.projects[c]) ==> Slot(h.projects[c]))
    {
      CrashTakesNoSlot(h.projects[c], generation);
    }
    FewerSlots(h, k);
  }

  lemma CrashTakesNoSlot(p: Project, generation: nat)
    requires Inv(p)
    ensures Inv(Next(p, Crash(generation))) && (Slot(Next(p, Crash(generation))) ==> Slot(p))
  {
    NextKeepsInv(p, Crash(generation));
    if Slot(Next(p, Crash(generation))) { NextTakesNoSlot(p, Crash(generation)); }
  }

  lemma HappenKeepsHostInv(h: Host, e: Event)
    requires HostInv(h) && CleanEvent(h, e)
    ensures HostInv(Happen(h, e))
  {
    match e
    case Create(chat, made) =>
      if Happen(h, e) != h {
        InitialInv(made);
        FewerSlots(h, Happen(h, e));
      }
    case Step(chat, c) => StepKeepsHostInv(h, chat, c);
    case Restart(generation) => RestartKeepsHostInv(h, generation);
  }

  ghost function RunHost(h: Host, events: seq<Event>): Host
    decreases |events|
  {
    if events == [] then h else RunHost(Happen(h, events[0]), events[1..])
  }

  ghost predicate CleanHostRun(h: Host, events: seq<Event>)
    decreases |events|
  {
    events != [] ==> CleanEvent(h, events[0]) && CleanHostRun(Happen(h, events[0]), events[1..])
  }

  /** Over any run of admissions, opens, builds, pauses, failed cleanups, status queries and restarts in which no
      create is recorded over a held handle and "paused" is believed only without an outstanding connect, no more sandboxes run than the limit allows. */
  lemma {:induction false} RunningNeverExceedsTheLimit(h: Host, events: seq<Event>)
    requires HostInv(h) && CleanHostRun(h, events)
    ensures HostInv(RunHost(h, events)) && |RunningSet(RunHost(h, events))| <= h.limit
    decreases |events|
  {
    if events == [] {
      RunningWithinSlots(h);
    } else {
      HappenKeepsHostInv(h, events[0]);
      RunningNeverExceedsTheLimit(Happen(h, events[0]), events[1..]);
    }
  }

  /** No removal is cut between the row's deletion and the forgetting of its handle, and no connect is overlooked. */
  ghost predicate SteadyEvent(h: Host, e: Event) {
    e.Step? && e.chat in h.projects ==> Uncut(h.projects[e.chat], e.choice) && Trusty(h.projects[e.chat], e.choice)
  }

  ghost predicate SteadyHostRun(h: Host, events: seq<Event>)
    decreases |events|
  {
    events != [] ==> SteadyEvent(h, events[0]) && SteadyHostRun(Happen(h, events[0]), events[1..])
  }

  ghost predicate HandlesHaveRows(h: Host) {
    forall c :: c in h.projects ==> HandleHasRow(h.projects[c])
  }

  lemma HappenKeepsHandles(h: Host, e: Event)
    requires HandlesHaveRows(h) && SteadyEvent(h, e) && (e.Step? && e.chat in h.projects ==> Inv(h.projects[e.chat]))
    ensures HandlesHaveRows(Happen(h, e)) && CleanEvent(h, e)
  {
    if e.Step? && e.chat in h.projects { ProjectKeepsHandles(h.projects[e.chat], e.choice); }
  }

  lemma ProjectKeepsHandles(p: Project, c: Choice)
    requires Inv(p) && HandleHasRow(p) && Uncut(p, c) && Trusty(p, c)
    ensures HandleHasRow(Next(p, c)) && Clean(p, c)
  {
    NextKeepsHandleRow(p, c);
    SteadyIsClean(p, c);
  }

  lemma {:induction false} SteadyHostRunsAreClean(h: Host, events: seq<Event>)
    requires HostInv(h) && HandlesHaveRows(h) && SteadyHostRun(h, events)
    ensures CleanHostRun(h, events)
    decreases |events|
  {
    if events != [] {
      HappenKeepsHandles(h, events[0]);
      HappenKeepsHostInv(h, events[0]);
      SteadyHostRunsAreClean(Happen(h, events[0]), events[1..]);
    }
  }

  /** The capacity theorem: from a worker without projects, as long as no removal is cut short and no outstanding
      connect is overlooked, no more sandboxes run than the limit allows. */
  lemma EverySteadyHostRunStaysWithinTheLimit(limit: nat, events: seq<Event>)
    requires SteadyHostRun(Host(map[], limit), events)
    ensures |RunningSet(RunHost(Host(map[], limit), events))| <= limit
  {
    var h := Host(map[], limit);
    assert Slots(h) == {};
    SteadyHostRunsAreClean(h, events);
    RunningNeverExceedsTheLimit(h, events);
    LimitIsFixed(h, events);
  }

  lemma {:induction false} LimitIsFixed(h: Host, events: seq<Event>)
    ensures RunHost(h, events).limit == h.limit
    decreases |events|
  {
    if events != [] { LimitIsFixed(Happen(h, events[0]), events[1..]); }
  }

  lemma RunningWithinSlots(h: Host)
    requires HostInv(h)
    ensures |RunningSet(h)| <= |Slots(h)|
  {
    forall c | c in RunningSet(h)
      ensures c in Slots(h)
    {
      RunningTakesASlot(h.projects[c]);
    }
    Subset(RunningSet(h), Slots(h));
  }

  /** The reserved set is not bounded by the limit: it grows when a paused row starts retiring, while
      the running set stays as it was. */
  lemma RetiringAPausedRowReserves(h: Host, chat: nat)
    requires HostInv(h) && chat in h.projects
    requires var p := h.projects[chat];
             p.stage == MarkRetiring(Stop) && p.row.Some? && p.row.value.state == Paused && p.handle.None?
    ensures chat !in ReservedSet(h)
    ensures ReservedSet(Happen(h, Step(chat, Proceed))) == ReservedSet(h) + {chat}
    ensures Slots(Happen(h, Step(chat, Proceed))) == Slots(h)
    ensures RunningSet(Happen(h, Step(chat, Proceed))) == RunningSet(h)
  {
    var p := h.projects[chat];
    var q := Next(p, Proceed);
    PausedRowRetires(p);
    assert Happen(h, Step(chat, Proceed)).projects == h.projects[chat := q];
  }

  lemma PausedRowRetires(p: Project)
    requires p.stage == MarkRetiring(Stop) && p.row.Some? && p.row.value.state == Paused && p.handle.None?
    requires Inv(p)
    ensures !Reserved(p) && Reserved(Next(p, Proceed)) && (Slot(Next(p, Proceed)) <==> Slot(p))
    ensures !p.SomeRunning() && !Next(p, Proceed).SomeRunning()
  {
    var q := Next(p, Proceed);
    assert q.machines == p.machines && q.creating == p.creating && q.handle == p.handle;
    assert q.row.Some? && q.row.value.state == SandboxRuntime.Retiring && !Busy(q);
  }

  // ----- Without that condition -----------------------------------------------------------------------------------

  ghost predicate HostReaches(h: Host, k: Host) {
    exists events :: RunHost(h, events) == k
  }

  lemma {:induction false} RunHostAppend(h: Host, a: seq<Event>, b: seq<Event>)
    ensures RunHost(h, a + b) == RunHost(RunHost(h, a), b)
    decreases |a|
  {
    if a == [] {
      assert a + b == b;
    } else {
      assert (a + b)[0] == a[0] && (a + b)[1..] == a[1..] + b;
      RunHostAppend(Happen(h, a[0]), a[1..], b);
    }
  }

  lemma HostReachesOn(h: Host, k: Host, l: Host)
    requires HostReaches(h, k) && HostReaches(k, l)
    ensures HostReaches(h, l)
  {
    var a :| RunHost(h, a) == k;
    var b :| RunHost(k, b) == l;
    RunHostAppend(h, a, b);
  }

  /** What one project can do, it can do beside the others while a slot is free. */
  lemma {:induction false} HostFollows(h: Host, chat: nat, choices: seq<Choice>) returns (events: seq<Event>)
    requires chat in h.projects && StartableRun(h.projects[chat], choices) && |ReservedSet(h) - {chat}| < h.limit
    ensures RunHost(h, events) == h.(projects := h.projects[chat := Run(h.projects[chat], choices)])
    decreases |choices|
  {
    if choices == [] {
      events := [];
      assert h.projects[chat := h.projects[chat]] == h.projects;
    } else {
      var k := h.(projects := h.projects[chat := Next(h.projects[chat], choices[0])]);
      StartIsAdmitted(h, chat, choices[0]);
      OthersStayReserved(h, chat, Next(h.projects[chat], choices[0]));
      var later := HostFollows(k, chat, choices[1..]);
      events := [Step(chat, choices[0])] + later;
      assert events[1..] == later;
      assert Happen(h, events[0]) == k;
    }
  }

  lemma StartIsAdmitted(h: Host, chat: nat, c: Choice)
    requires chat in h.projects && Startable(h.projects[chat], c) && |ReservedSet(h) - {chat}| < h.limit
    ensures Starts(c) ==> Admitted(h, chat)
  {
    if chat !in ReservedSet(h) { assert ReservedSet(h) - {chat} == ReservedSet(h); }
  }

  lemma OthersStayReserved(h: Host, chat: nat, p: Project)
    requires chat in h.projects
    ensures ReservedSet(h.(projects := h.projects[chat := p])) - {chat} == ReservedSet(h) - {chat}
  {
  }

  lemma HostReachesProject(h: Host, chat: nat, q: Project)
    requires chat in h.projects && Reaches(h.projects[chat], q) && |ReservedSet(h) - {chat}| < h.limit
    ensures HostReaches(h, h.(projects := h.projects[chat := q]))
  {
    var choices :| StartableRun(h.projects[chat], choices) && Run(h.projects[chat], choices) == q;
    var events := HostFollows(h, chat, choices);
  }

  /** A project is created and brought to `q`. */
  lemma ProjectAppears(h: Host, chat: nat, made: Project, q: Project)
    requires chat !in h.projects && Initial(made) && Reaches(made, q) && |ReservedSet(h)| < h.limit
    ensures HostReaches(h, h.(projects := h.projects[chat := q]))
  {
    var k := h.(projects := h.projects[chat := made]);
    assert RunHost(h, [Create(chat, made)]) == k by {
      assert [Create(chat, made)][1..] == [];
      assert RunHost(k, []) == k;
    }
    assert ReservedSet(k) - {chat} == ReservedSet(h) by { assert !Reserved(made); }
    HostReachesProject(k, chat, q);
    assert k.(projects := k.projects[chat := q]) == h.(projects := h.projects[chat := q]);
    HostReachesOn(h, k, h.(projects := h.projects[chat := q]));
  }

  /** An orphan beside `n` projects that run their sandboxes. */
  ghost predicate Crowded(h: Host, n: nat) {
    && |h.projects| == n + 1 && 0 in h.projects && !Reserved(h.projects[0])
    && forall c :: c in h.projects ==> c <= n && h.projects[c].SomeRunning()
  }

  lemma CrowdIsCounted(h: Host, n: nat)
    requires Crowded(h, n)
    ensures |RunningSet(h)| == n + 1 && |ReservedSet(h)| <= n
  {
    assert RunningSet(h) == h.projects.Keys;
    assert ReservedSet(h) <= h.projects.Keys - {0};
    Subset(ReservedSet(h), h.projects.Keys - {0});
  }

  lemma OneMore(h: Host, n: nat, p: Project)
    requires Crowded(h, n) && p.SomeRunning()
    ensures Crowded(h.(projects := h.projects[n + 1 := p]), n + 1)
  {
    var k := h.projects[n + 1 := p];
    assert k.Keys == h.projects.Keys + {n + 1};
  }

  lemma {:induction false} CrowdGrows(h: Host, made: Project, n: nat) returns (k: Host)
    requires Crowded(h, 0) && n <= h.limit && Initial(made) && made.exists_
    ensures HostReaches(h, k) && Crowded(k, n) && k.limit == h.limit
  {
    if n == 0 {
      k := h;
      assert RunHost(h, []) == h;
    } else {
      var j := CrowdGrows(h, made, n - 1);
      CrowdIsCounted(j, n - 1);
      FirstBuildIsProvisioned(made);
      k := j.(projects := j.projects[n := Provisioned(made)]);
      assert Provisioned(made).machines[made.sandboxes].running;
      OneMore(j, n - 1, Provisioned(made));
      ProjectAppears(j, n, made, Provisioned(made));
      HostReachesOn(h, j, k);
    }
  }

  /** The orphan of a cut removal holds no slot, so that under every limit one sandbox too many can run. */
  lemma OrphansExceedEveryLimit(limit: nat, made: Project) returns (h: Host)
    requires limit > 0 && Initial(made) && made.exists_
    ensures HostReaches(Host(map[], limit), h) && |RunningSet(h)| == limit + 1 && h.limit == limit
  {
    var stale, orphan := StaleCreateIsReachable(made);
    var empty := Host(map[], limit);
    assert ReservedSet(empty) == {};
    ProjectAppears(empty, 0, made, orphan);
    var alone := empty.(projects := empty.projects[0 := orphan]);
    assert alone.projects == map[0 := orphan];
    h := CrowdGrows(alone, made, limit);
    CrowdIsCounted(h, limit);
    HostReachesOn(empty, alone, h);
  }
}
