/** One editing conversation (`agent/runner.py`) over the workspace tools (`agent/tools.py`, `agent/browser.py`).
    What the model, the sandbox and the store answer is arbitrary. */
module Editor {
  import opened Wrappers
  import opened Paths

  const MAX_FILE_BYTES := 200_000
  const MAX_BATCH_BYTES := 500_000
  const MAX_REPAIRS := 2
  const ACTIVITY := 200

  /** Source files by their normalised project paths. */
  type Disk = map<string, string>

  function Utf8Length(s: string): nat {
    if s == "" then 0
    else
      var c := s[0] as int;
      (if c < 0x80 then 1 else if c < 0x800 then 2 else if c < 0x1_0000 then 3 else 4) + Utf8Length(s[1..])
  }

  /** `project_path`. */
  function ProjectPath(path: string): Option<string> {
    if path == "" || IsAbsolute(path) || ".." in Parts(path) || '\\' in path then None
    else if exists i :: 0 <= i < |Parts(path)| && Reserved(Parts(path)[i]) then None
    else Some(Str(path))
  }

  predicate Reserved(part: string) {
    part in {".git", ".env", "node_modules", ".venv"} || (|part| >= 5 && part[..5] == ".env.")
  }

  /** What `project_path` returns is its own project path, so that it can stand for the file in the cache. */
  lemma ProjectPathIsCanonical(path: string)
    requires ProjectPath(path).Some?
    ensures ProjectPath(ProjectPath(path).value) == ProjectPath(path)
  {
    StrKeepsParts(path);
    if '\\' in Str(path) { StrHas(path, '\\'); }
  }

  /** A project path leads downwards through no reserved part, and is the path itself without empty and dot parts. */
  lemma ProjectPathMeans(path: string)
    ensures ProjectPath(path).Some? <==>
      && path != "" && path[0] != '/' && '\\' !in path
      && forall part :: part in Parts(path) ==>
           part !in {"..", ".git", ".env", "node_modules", ".venv"} && !(".env." <= part)
    ensures ProjectPath(path).Some? ==>
      && Parts(ProjectPath(path).value) == Parts(path)
      && ProjectPath(path).value == if Parts(path) == [] then "." else Join(Parts(path))
  {
    StrKeepsParts(path);
    ReservedMeans(Parts(path));
  }

  lemma ReservedMeans(parts: seq<string>)
    ensures (exists i :: 0 <= i < |parts| && Reserved(parts[i])) <==>
      exists part :: part in parts && (part in {".git", ".env", "node_modules", ".venv"} || ".env." <= part)
  {
    forall part ensures Reserved(part) <==> part in {".git", ".env", "node_modules", ".venv"} || ".env." <= part {
      if ".env." <= part { assert part[..5] == ".env."; }
    }
    if i :| 0 <= i < |parts| && Reserved(parts[i]) {
      assert parts[i] in parts;
    }
    if part :| part in parts && (part in {".git", ".env", "node_modules", ".venv"} || ".env." <= part) {
      var i :| 0 <= i < |parts| && parts[i] == part;
      assert Reserved(parts[i]);
    }
  }

  datatype Change = Change(path: string, content: string)

  datatype Tool =
    | ReadFiles(paths: seq<string>)
    | WriteFiles(changes: seq<Change>)
    | ExecuteCommand(command: string)
    | InspectPreview(viewport: string, path: string, screenshot: bool)
    | OtherTool(name: string, args: string)

  /** `Fatal`: a command or an upload was lost, so that files may still be changing. */
  datatype Outcome = Done(ok: bool) | Refused | Fatal(error: Error)

  datatype Error =
    | SandboxSetup | ContextBudget | TokenPreflight | ProviderUsage | ModelOutput | ModelCall | InvalidCall
    | ChecksFail | ToolBudget | Repetitive | CommandState | FileWrite | Preview | Storage | ActivityBudget | TurnBudget

  ghost predicate Faithful(cache: Disk, disk: Disk) {
    forall p :: p in cache ==> p in disk && disk[p] == cache[p]
  }

  function Written(changes: seq<Change>): Disk {
    if changes == [] then map[]
    else
      var last := changes[|changes| - 1];
      var p := ProjectPath(last.path);
      if p.None? then Written(changes[..|changes| - 1]) else Written(changes[..|changes| - 1])[p.value := last.content]
  }

  function BatchSize(changes: seq<Change>): nat {
    if changes == [] then 0 else BatchSize(changes[..|changes| - 1]) + Utf8Length(changes[|changes| - 1].content)
  }

  /** A batch that `write_files` takes: distinct project paths, bounded contents. */
  predicate Writable(changes: seq<Change>) {
    && 1 <= |changes| <= 12
    && (forall i :: 0 <= i < |changes| ==> ProjectPath(changes[i].path).Some? && |changes[i].content| <= MAX_FILE_BYTES)
    && (forall i, j :: 0 <= i < j < |changes| ==> ProjectPath(changes[i].path) != ProjectPath(changes[j].path))
    && BatchSize(changes) <= MAX_BATCH_BYTES
  }

  /** What a batch writes: under each project path its content, and nothing else. */
  lemma {:induction false} WrittenMeans(changes: seq<Change>)
    requires forall i :: 0 <= i < |changes| ==> ProjectPath(changes[i].path).Some?
    requires forall i, j :: 0 <= i < j < |changes| ==> ProjectPath(changes[i].path) != ProjectPath(changes[j].path)
    ensures forall p :: p in Written(changes) <==> exists i :: 0 <= i < |changes| && ProjectPath(changes[i].path) == Some(p)
    ensures forall i :: 0 <= i < |changes| ==>
      ProjectPath(changes[i].path).value in Written(changes)
      && Written(changes)[ProjectPath(changes[i].path).value] == changes[i].content
  {
    if changes != [] {
      var init, last := changes[..|changes| - 1], changes[|changes| - 1];
      WrittenMeans(init);
      forall i | 0 <= i < |changes|
        ensures ProjectPath(changes[i].path).value in Written(changes)
        ensures Written(changes)[ProjectPath(changes[i].path).value] == changes[i].content
      {
        assert i < |init| ==> init[i] == changes[i];
      }
      forall p | p in Written(changes)
        ensures exists i :: 0 <= i < |changes| && ProjectPath(changes[i].path) == Some(p)
      {
        if p in Written(init) {
          var i :| 0 <= i < |init| && ProjectPath(init[i].path) == Some(p);
          assert ProjectPath(changes[i].path) == Some(p);
        }
      }
    }
  }

  /** `WorkspaceTools`, with the sandbox's own state beside it. */
  class Workspace {
    // The sandbox: its source files, those its preview was last started on, and whether either may be changing.
    var disk: Disk
    var served: Disk
    ghost var uncertain: bool
    // The files that the last passing build was of, those that the last passing browser check saw, and whether the browser
    // was found to start.
    ghost var built: Option<Disk>
    ghost var shown: Option<Disk>
    ghost var starts: bool
    // The tools.
    var cache: Disk
    var revision: nat
    var previewRevision: nat
    var screenshots: nat

    ghost predicate Valid()
      reads this
    {
      && previewRevision <= revision && screenshots <= 2
      && (!uncertain ==> Faithful(cache, disk))
      && (!uncertain && previewRevision == revision ==> served == disk)
    }

    /** A sandbox whose preview serves its files. */
    constructor (files: Disk)
      ensures Valid() && !uncertain && disk == files && served == files && revision == 0
    {
      disk, served, uncertain, cache, revision, previewRevision, screenshots := files, files, false, map[], 0, 0, 0;
      built, shown, starts := None, None, false;
    }

    /** Build and browser passed, on the files that are there and served. */
    ghost predicate Passed()
      reads this
    {
      built == Some(disk) && shown == Some(disk) && served == disk && previewRevision == revision && !uncertain
    }

    /** What is read is what is there, from the cache or not. */
    method Read(path: string) returns (r: Option<string>)
      requires Valid() && !uncertain
      modifies this`cache
      ensures Valid()
      ensures r.Some? ==> ProjectPath(path).Some? && ProjectPath(path).value in disk && r.value == disk[ProjectPath(path).value]
      ensures ProjectPath(path).Some? && ProjectPath(path).value in old(cache) ==> r.Some?
      ensures r.Some? && ProjectPath(path).value !in old(cache) ==> Utf8Length(r.value) <= 200_000
      ensures forall p :: p in old(cache) ==> p in cache
    {
      var p := ProjectPath(path);
      if p.None? { return None; }
      if p.value !in cache {
        var transferred: bool := *;
        if p.value !in disk || Utf8Length(disk[p.value]) > MAX_FILE_BYTES || !transferred { return None; }
        cache := cache[p.value := disk[p.value]];
      }
      r := Some(cache[p.value]);
    }

    method ReadTool(paths: seq<string>) returns (r: Outcome, files: map<string, string>)
      requires Valid() && !uncertain
      modifies this`cache
      ensures Valid() && (r == Done(true) || r == Refused)
      ensures r.Done? ==> 1 <= |paths| <= 12
      ensures r == Refused && 1 <= |paths| <= 12 ==> exists path :: path in paths && !CachedIn(old(cache), path)
      ensures r.Done? ==> forall path :: path in paths ==>
                            && path in files && ProjectPath(path).Some? && ProjectPath(path).value in disk
                            && files[path] == disk[ProjectPath(path).value]
    {
      files := map[];
      if !(1 <= |paths| <= 12) { return Refused, files; }
      for i := 0 to |paths|
        invariant Valid() && forall p :: p in old(cache) ==> p in cache
        invariant forall j :: 0 <= j < i ==>
                    && paths[j] in files && ProjectPath(paths[j]).Some? && ProjectPath(paths[j]).value in disk
                    && files[paths[j]] == disk[ProjectPath(paths[j]).value]
      {
        var content := Read(paths[i]);
        if content.None? {
          assert paths[i] in paths && !CachedIn(old(cache), paths[i]);
          return Refused, files;
        }
        files := files[paths[i] := content.value];
      }
      r := Done(true);
    }

    /** A batch is written whole, refused whole, or ends the run. */
    method WriteTool(changes: seq<Change>) returns (r: Outcome)
      requires Valid() && !uncertain
      modifies this
      ensures Valid() && served == old(served) && previewRevision == old(previewRevision) && screenshots == old(screenshots)
      ensures r == Refused <==> !Writable(changes)
      ensures r != Refused <==>
        && 1 <= |changes| <= 12 && BatchSize(changes) <= 500_000
        && (forall i :: 0 <= i < |changes| ==> ProjectPath(changes[i].path).Some? && |changes[i].content| <= 200_000)
        && (forall i, j :: 0 <= i < j < |changes| ==> ProjectPath(changes[i].path) != ProjectPath(changes[j].path))
      ensures r == Refused ==> disk == old(disk) && cache == old(cache) && revision == old(revision) && !uncertain
      ensures r.Done? ==> disk == old(disk) + Written(changes) && cache == Written(changes)
      ensures r.Done? ==> revision == old(revision) + 1 && !uncertain
      ensures r.Fatal? ==> r.error == FileWrite && uncertain && revision == old(revision) + 1
    {
      if !Writable(changes) { return Refused; }
      cache := map[];
      revision := revision + 1;
      var uploaded: bool := *;
      if !uploaded {
        uncertain := true;
        disk := *;
        return Fatal(FileWrite);
      }
      disk := disk + Written(changes);
      cache := Written(changes);
      r := Done(true);
    }

    /** A shell command may change any file, also when it fails or is lost. */
    method ExecuteTool(command: string) returns (r: Outcome)
      requires Valid() && !uncertain
      modifies this
      ensures Valid() && served == old(served) && previewRevision == old(previewRevision) && screenshots == old(screenshots)
      ensures r == Refused ==> disk == old(disk) && cache == old(cache) && revision == old(revision) && !uncertain
      ensures |command| > 2000 ==> r == Refused
      ensures r != Refused ==> cache == map[] && revision == old(revision) + 1
      ensures r.Fatal? <==> uncertain
      ensures r.Fatal? ==> r.error == CommandState
    {
      var banned: bool := *;
      if |command| > 2000 || banned { return Refused; }
      disk := *;
      cache := map[];
      revision := revision + 1;
      var observed: bool, ok: bool := *, *;
      if !observed {
        uncertain := true;
        return Fatal(CommandState);
      }
      r := Done(ok);
    }

    /** The preview serves the current files when this succeeds, and counts as stale when it does not. */
    method EnsurePreviewCurrent() returns (r: Outcome)
      requires Valid() && !uncertain
      modifies this
      ensures Valid() && disk == old(disk) && cache == old(cache) && revision == old(revision) && screenshots == old(screenshots)
      ensures built == old(built) && shown == old(shown) && starts == old(starts)
      ensures r.Fatal? <==> uncertain
      ensures r == Done(true) || r == Refused || r == Fatal(CommandState)
      ensures r == Done(true) ==> previewRevision == revision && served == disk
      ensures r != Done(true) ==> previewRevision == old(previewRevision) != revision
      ensures old(previewRevision) == revision ==> r == Done(true) && served == old(served)
    {
      if previewRevision != revision {
        served := *;
        var observed: bool, ok: bool := *, *;
        if !observed {
          uncertain := true;
          return Fatal(CommandState);
        }
        if !ok { return Refused; }
        served := disk;
        previewRevision := revision;
      }
      r := Done(true);
    }

    /** The browser looks at what is served. */
    method BrowserCheck() returns (r: Outcome)
      requires Valid() && !uncertain
      modifies this`uncertain, this`shown
      ensures Valid() && (r.Fatal? <==> uncertain) && r != Refused && (r.Fatal? ==> r.error == CommandState)
      ensures shown == if r == Done(true) then Some(served) else old(shown)
    {
      r := Command();
      if r == Done(true) { shown := Some(served); }
    }

    /** The check before the conversation: does the browser start at all? */
    method BrowserStarts() returns (r: Outcome)
      requires Valid() && !uncertain
      modifies this`uncertain, this`starts
      ensures Valid() && (r.Fatal? <==> uncertain) && r != Refused && (r.Fatal? ==> r.error == CommandState)
      ensures r.Done? ==> starts == r.ok
    {
      r := Command();
      if r.Done? { starts := r.ok; }
    }

    /** `npm run build`, whose outputs are no source files. */
    method Build() returns (r: Outcome)
      requires Valid() && !uncertain
      modifies this`uncertain, this`built
      ensures Valid() && (r.Fatal? <==> uncertain) && r != Refused && (r.Fatal? ==> r.error == CommandState)
      ensures built == if r == Done(true) then Some(disk) else old(built)
    {
      r := Command();
      if r == Done(true) { built := Some(disk); }
    }

    /** A command that changes no source file: it passes, fails, or is lost. */
    method Command() returns (r: Outcome)
      requires Valid() && !uncertain
      modifies this`uncertain
      ensures Valid() && (r.Fatal? <==> uncertain) && r != Refused && (r.Fatal? ==> r.error == CommandState)
    {
      var observed: bool, ok: bool := *, *;
      if !observed {
        uncertain := true;
        return Fatal(CommandState);
      }
      r := Done(ok);
    }

    method InspectTool(viewport: string, path: string, screenshot: bool) returns (r: Outcome)
      requires Valid() && !uncertain
      modifies this
      ensures Valid() && disk == old(disk) && cache == old(cache) && revision == old(revision)
      ensures r.Fatal? <==> uncertain
      ensures r.Fatal? ==> r.error == CommandState
      ensures old(screenshots) <= screenshots <= old(screenshots) + (if screenshot then 1 else 0)
      ensures r != Refused ==>
        && path != "" && path[0] == '/' && !("//" <= path) && '\\' !in path && |path| <= 512
        && (forall i :: 0 <= i < |path| ==> path[i] as int >= 32) && (viewport == "desktop" || viewport == "mobile")
        && (screenshot ==> screenshots == old(screenshots) + 1)
      ensures r.Done? ==> previewRevision == revision && served == disk
    {
      if path == "" || path[0] != '/' || (|path| > 1 && path[1] == '/') || '\\' in path
         || (exists i :: 0 <= i < |path| && path[i] < ' ') || |path| > 512 { return Refused; }
      if viewport != "desktop" && viewport != "mobile" { return Refused; }
      if screenshot {
        var enabled: bool := *;
        if !enabled || screenshots >= 2 { return Refused; }
        screenshots := screenshots + 1;
      }
      r := EnsurePreviewCurrent();
      if r == Done(true) { r := BrowserCheck(); }
    }
  }

  predicate CachedIn(cache: Disk, path: string) {
    ProjectPath(path).Some? && ProjectPath(path).value in cache
  }

  /** Reads and inspections are counted between mutations, everything else over the whole run. */
  function Key(tool: Tool, revision: nat): (Tool, nat) {
    (tool, if tool.ReadFiles? || tool.InspectPreview? then revision else 0)
  }

  function Times(repeated: map<(Tool, nat), nat>, key: (Tool, nat)): nat {
    if key in repeated then repeated[key] else 0
  }

  function ToolsOf(executed: seq<(Tool, nat)>): seq<Tool> {
    seq(|executed|, i requires 0 <= i < |executed| => executed[i].0)
  }

  /** How often a call was executed: a read or an inspection at that revision, any other call at all. */
  function Executions(executed: seq<(Tool, nat)>, tool: Tool, revision: nat): nat {
    if tool.ReadFiles? || tool.InspectPreview? then multiset(executed)[(tool, revision)] else multiset(ToolsOf(executed))[tool]
  }

  /** The counter knows every call that was executed, and none was executed more than twice. */
  ghost predicate Counted(executed: seq<(Tool, nat)>, repeated: map<(Tool, nat), nat>) {
    forall tool, revision :: Executions(executed, tool, revision) == Times(repeated, Key(tool, revision)) <= 2
  }

  ghost predicate NoneThrice(executed: seq<(Tool, nat)>) {
    forall tool, revision :: Executions(executed, tool, revision) <= 2
  }

  lemma OneMoreExecution(executed: seq<(Tool, nat)>, tool: Tool, revision: nat, t: Tool, v: nat)
    ensures Executions(executed + [(tool, revision)], t, v)
            == Executions(executed, t, v) + if t == tool && (v == revision || !(tool.ReadFiles? || tool.InspectPreview?)) then 1 else 0
  {
    assert ToolsOf(executed + [(tool, revision)]) == ToolsOf(executed) + [tool];
  }

  lemma CountedOnce(executed: seq<(Tool, nat)>, repeated: map<(Tool, nat), nat>, tool: Tool, revision: nat)
    requires Counted(executed, repeated) && Times(repeated, Key(tool, revision)) < 2
    ensures Counted(executed + [(tool, revision)], repeated[Key(tool, revision) := Times(repeated, Key(tool, revision)) + 1])
  {
    var key := Key(tool, revision);
    forall t, v
      ensures Executions(executed + [(tool, revision)], t, v) == Times(repeated[key := Times(repeated, key) + 1], Key(t, v)) <= 2
    {
      OneMoreExecution(executed, tool, revision, t, v);
      assert Executions(executed, t, v) == Times(repeated, Key(t, v));
    }
  }

  lemma CountedMeans(executed: seq<(Tool, nat)>, repeated: map<(Tool, nat), nat>)
    requires Counted(executed, repeated)
    ensures NoneThrice(executed)
  {
    forall tool, revision ensures Executions(executed, tool, revision) <= 2 {
      assert Executions(executed, tool, revision) == Times(repeated, Key(tool, revision));
    }
  }

  class Editing {
    const workspace: Workspace
    const budget: nat
    var turns: nat
    var totalTokens: nat
    var reservedTokens: nat
    var toolCalls: nat
    var repairs: nat
    var repeated: map<(Tool, nat), nat>
    /** The events of the run so far. */
    var events: nat
    /** The files of the last acknowledged checkpoint, if there ever was one. */
    var saved: Option<Disk>
    ghost var executed: seq<(Tool, nat)>
    ghost var verifications: nat
    /** How the last verification ended. */
    ghost var verdict: Option<bool>
    ghost var asked: nat
    /** The length of the conversation, the estimate and the output limit of the last request. */
    ghost var chars: nat
    ghost var estimate: nat
    ghost var limit: int
    /** The tokens that the provider counted for the last answer. */
    ghost var reported: nat
    /** So far every estimate bounded what the provider counted as input. */
    ghost var bounded: bool
    /** The files the conversation started with. */
    ghost const initial: Disk
    /** What was saved when the last turn began. */
    ghost var settled: Option<Disk>

    /** A project's last checkpoint is what its sandbox holds when the conversation starts; a new project has none. */
    constructor (workspace: Workspace, budget: nat, totalTokens: nat, reservedTokens: nat, events: nat, checkpointed: bool)
      requires workspace.Valid() && !workspace.uncertain && workspace.revision == 0
      ensures this.workspace == workspace && this.budget == budget && Started() && Saved()
      ensures saved == (if checkpointed then Some(workspace.disk) else None) && this.events == events
      ensures this.totalTokens == totalTokens && this.reservedTokens == reservedTokens
    {
      this.workspace, this.budget, this.totalTokens, this.reservedTokens := workspace, budget, totalTokens, reservedTokens;
      this.events, turns, toolCalls, repairs, repeated := events, 0, 0, 0, map[];
      saved := if checkpointed then Some(workspace.disk) else None;
      initial, settled := workspace.disk, if checkpointed then Some(workspace.disk) else None;
      executed, verifications, verdict, asked, bounded := [], 0, None, 0, true;
    }

    ghost predicate Started()
      reads this
    {
      && turns == 0 && toolCalls == 0 && repairs == 0 && repeated == map[] && executed == [] && verifications == 0
      && verdict == None && asked == 0 && bounded && settled == saved
    }

    /** The files are those of the last checkpoint, or those of a new project that nothing has touched. */
    ghost predicate Saved()
      reads this, workspace
    {
      saved == Some(workspace.disk) || (saved.None? && workspace.revision == 0 && workspace.disk == initial)
    }

    /** Between turns: everything changed is saved, and the budgets hold. */
    ghost predicate Settled()
      reads this, workspace
    {
      && workspace.Valid() && !workspace.uncertain && Saved()
      && Counted(executed, repeated) && |executed| == toolCalls
      && (bounded && asked > 0 ==> totalTokens + reservedTokens < budget)
    }

    /** Why a conversation ended in an error, as far as it was not an answer of the provider or the store. */
    ghost predicate Because(error: Error, maxTurns: nat, maxCalls: nat)
      reads this, workspace
    {
      match error
      case SandboxSetup => !workspace.starts && turns == 0
      case ContextBudget => chars > 180_000
      case TokenPreflight => totalTokens + reservedTokens + estimate + 1024 >= budget
      case ProviderUsage => totalTokens + reservedTokens >= budget
      case ChecksFail => verdict == Some(false) && verifications == 3
      case ToolBudget => toolCalls > maxCalls
      case Repetitive => exists tool, revision :: Executions(executed, tool, revision) == 2
      case CommandState => workspace.uncertain
      case FileWrite => workspace.uncertain
      case ActivityBudget => events >= 200
      case TurnBudget => turns == maxTurns
      case _ => true
    }

    /** `emit`: the event is durable, or an exception ends the conversation. */
    method Emit() returns (failed: Option<Error>)
      modifies this`events
      ensures failed.None? ==> events == old(events) + 1 <= ACTIVITY
      ensures failed.Some? ==> failed.value == Storage || failed.value == ActivityBudget
      ensures failed.Some? ==> events == old(events)
      ensures failed == Some(ActivityBudget) <==> old(events) >= 200
    {
      if events >= ACTIVITY { return Some(ActivityBudget); }
      var committed: bool := *;
      if !committed { return Some(Storage); }
      events := events + 1;
      failed := None;
    }

    /** A dirty checkpoint saves the files, with an event if they make a new revision; never while they may be changing. */
    method Checkpoint(dirty: bool) returns (failed: Option<Error>)
      requires workspace.Valid() && !workspace.uncertain
      modifies this`saved, this`events
      ensures saved == Some(workspace.disk) || saved == old(saved)
      ensures !dirty ==> saved == old(saved) && events == old(events)
      ensures failed.None? && dirty ==> saved == Some(workspace.disk)
      ensures failed.Some? ==> failed.value == Storage || failed.value == ActivityBudget
      ensures failed == Some(ActivityBudget) <==> dirty && old(events) >= 200
      ensures failed == Some(ActivityBudget) ==> events == old(events)
    {
      var stored: bool, created: bool, updated: bool := *, *, *;
      if dirty {
        if events >= ACTIVITY { return Some(ActivityBudget); }
        if !stored { return Some(Storage); }
        saved := Some(workspace.disk);
        if created { events := events + 1; }
      }
      failed := if updated then None else Some(Storage);
    }

    /** Build, restart of a stale preview, browser: a pass is about the files that are served. The preview is restarted
        only after a build that passed. */
    method Verify() returns (r: Result<bool, Error>)
      requires workspace.Valid() && !workspace.uncertain
      modifies workspace, this`verdict, this`verifications
      ensures workspace.Valid() && workspace.disk == old(workspace.disk) && workspace.revision == old(workspace.revision)
      ensures verifications == old(verifications) + 1
      ensures r.Ok? ==> !workspace.uncertain && verdict == Some(r.value)
      ensures r.Err? ==> (r.error == CommandState && workspace.uncertain) || (r.error == Preview && workspace.previewRevision != workspace.revision)
      ensures r == Ok(true) ==> workspace.Passed()
      ensures workspace.previewRevision != old(workspace.previewRevision) ==> workspace.built == Some(workspace.disk)
    {
      verifications := verifications + 1;
      var build := workspace.Build();
      if build.Fatal? { return Err(CommandState); }
      if !build.ok {
        verdict := Some(false);
        return Ok(false);
      }
      var current := workspace.EnsurePreviewCurrent();
      if current.Fatal? { return Err(CommandState); }
      if current == Refused { return Err(Preview); }
      var browser := workspace.BrowserCheck();
      if browser.Fatal? { return Err(CommandState); }
      verdict := Some(browser.ok);
      r := Ok(browser.ok);
    }

    /** One executed call; unless the revision moves, no file does. */
    method Execute(tool: Tool) returns (r: Outcome)
      requires workspace.Valid() && !workspace.uncertain
      modifies workspace
      ensures workspace.Valid() && (r.Fatal? <==> workspace.uncertain)
      ensures r.Fatal? ==> r.error == CommandState || r.error == FileWrite
      ensures workspace.revision >= old(workspace.revision)
      ensures workspace.revision == old(workspace.revision) ==> workspace.disk == old(workspace.disk)
      ensures tool.ReadFiles? || tool.InspectPreview? || tool.OtherTool? ==>
        workspace.disk == old(workspace.disk) && workspace.revision == old(workspace.revision)
      ensures tool.WriteFiles? ==>
        && (r == Refused <==> !Writable(tool.changes))
        && (r.Done? ==> workspace.disk == old(workspace.disk) + Written(tool.changes))
      ensures tool.ExecuteCommand? && r != Refused ==> workspace.revision == old(workspace.revision) + 1
      ensures tool.InspectPreview? && r.Done? ==> workspace.previewRevision == workspace.revision
    {
      match tool
      case ReadFiles(paths) => var files; r, files := workspace.ReadTool(paths);
      case WriteFiles(changes) => r := workspace.WriteTool(changes);
      case ExecuteCommand(command) => r := workspace.ExecuteTool(command);
      case InspectPreview(viewport, path, screenshot) => r := workspace.InspectTool(viewport, path, screenshot);
      case OtherTool(_, _) => r := *; if r.Fatal? { r := Refused; }
    }

    /** A call between its two events. A failing event ends the conversation in its own error, also after a lost
        command or upload; either way the call's own error ends it otherwise. */
    method Announce(tool: Tool) returns (failed: Option<Error>)
      requires workspace.Valid() && !workspace.uncertain
      modifies workspace, this`events, this`executed
      ensures workspace.Valid() && (failed.None? ==> !workspace.uncertain)
      ensures executed == old(executed) || executed == old(executed) + [(tool, old(workspace.revision))]
      ensures failed.None? ==> executed == old(executed) + [(tool, old(workspace.revision))] && events == old(events) + 2
      ensures failed.Some? ==> failed.value in {Storage, ActivityBudget, CommandState, FileWrite}
      ensures failed == Some(ActivityBudget) ==> events >= 200
      ensures failed == Some(CommandState) || failed == Some(FileWrite) <==> workspace.uncertain && events == old(events) + 2
      ensures executed == old(executed) ==> workspace.disk == old(workspace.disk) && !workspace.uncertain
      ensures workspace.revision >= old(workspace.revision)
      ensures workspace.revision == old(workspace.revision) ==> workspace.disk == old(workspace.disk)
    {
      failed := Emit();
      if failed.Some? { return; }
      executed := executed + [(tool, workspace.revision)];
      var outcome := Execute(tool);
      failed := Emit();
      if failed.None? && outcome.Fatal? { failed := Some(outcome.error); }
    }

    /** A response's calls, each counted against both budgets before it is executed. */
    method ExecuteAll(calls: seq<Tool>, maxCalls: nat) returns (r: Result<(), Error>)
      requires workspace.Valid() && !workspace.uncertain && Counted(executed, repeated) && |executed| == toolCalls <= maxCalls
      modifies workspace, this`toolCalls, this`repeated, this`executed, this`events
      ensures workspace.Valid() && NoneThrice(executed) && |executed| <= maxCalls
      ensures workspace.revision == old(workspace.revision) ==> workspace.disk == old(workspace.disk)
      ensures workspace.revision >= old(workspace.revision)
      ensures r.Ok? ==> !workspace.uncertain && Counted(executed, repeated) && |executed| == toolCalls
      ensures r.Err? ==> r.error in {ToolBudget, Repetitive, CommandState, FileWrite, Storage, ActivityBudget}
      ensures r.Err? ==> Because(r.error, 0, maxCalls)
      ensures r.Ok? ==> |executed| == |old(executed)| + |calls|
    {
      for i := 0 to |calls|
        invariant workspace.Valid() && !workspace.uncertain && Counted(executed, repeated) && |executed| == toolCalls <= maxCalls
        invariant |executed| == |old(executed)| + i
        invariant workspace.revision >= old(workspace.revision)
        invariant workspace.revision == old(workspace.revision) ==> workspace.disk == old(workspace.disk)
      {
        CountedMeans(executed, repeated);
        toolCalls := toolCalls + 1;
        if toolCalls > maxCalls { return Err(ToolBudget); }
        var key := Key(calls[i], workspace.revision);
        assert Executions(executed, calls[i], workspace.revision) == Times(repeated, key);
        if Times(repeated, key) < 2 { CountedOnce(executed, repeated, calls[i], workspace.revision); }
        repeated := repeated[key := Times(repeated, key) + 1];
        if repeated[key] >= 3 { return Err(Repetitive); }
        CountedMeans(executed + [(calls[i], workspace.revision)], repeated);
        var failed := Announce(calls[i]);
        if failed.Some? { return Err(failed.value); }
      }
      CountedMeans(executed, repeated);
      r := Ok(());
    }

    /** One request to the model, made only if the estimate leaves room for an answer. */
    method Ask() returns (r: Result<seq<Tool>, Error>)
      requires bounded && asked > 0 ==> totalTokens + reservedTokens < budget
      modifies this`totalTokens, this`asked, this`bounded, this`chars, this`estimate, this`limit, this`reported
      ensures r.Err? ==> Because(r.error, 0, 0)
      ensures asked == old(asked) ==> totalTokens == old(totalTokens)
      ensures asked > old(asked) ==> totalTokens == old(totalTokens) + reported
      ensures asked > old(asked) ==>
        && asked == old(asked) + 1 && chars <= 180_000 && 1024 <= limit <= 8192
        && (limit == 8192 || limit == budget - old(totalTokens) - reservedTokens - estimate - 1)
        && limit < budget - old(totalTokens) - reservedTokens - estimate
      ensures r.Ok? ==> totalTokens + reservedTokens < budget
      ensures bounded && asked > 0 ==> totalTokens + reservedTokens < budget && r != Err(ProviderUsage)
      ensures r.Err? ==> r.error in {ContextBudget, TokenPreflight, ModelCall, ProviderUsage, ModelOutput, InvalidCall}
    {
      var length: nat, tokensIn: nat := *, *;
      chars, estimate := length, tokensIn;
      if length > 180_000 { return Err(ContextBudget); }
      var room := budget - totalTokens - reservedTokens - tokensIn - 1;
      var limit := if room < 8192 then room else 8192;
      this.limit := limit;
      if limit < 1024 { return Err(TokenPreflight); }
      var answered: bool, tokens: nat, truncated: bool, invalid: bool := *, *, *, *;
      if !answered { return Err(ModelCall); }
      reported := tokens;
      totalTokens := totalTokens + tokens;
      asked := asked + 1;
      bounded := bounded && tokens <= tokensIn + limit;
      if totalTokens + reservedTokens >= budget { return Err(ProviderUsage); }
      if truncated { return Err(ModelOutput); }
      if invalid { return Err(InvalidCall); }
      var calls: seq<Tool> := *;
      r := Ok(calls);
    }

    /** A batch of calls, then a checkpoint if it may have changed a file; none while a file may still be changing. */
    method Apply(calls: seq<Tool>, maxCalls: nat) returns (r: Result<(), Error>)
      requires Settled() && toolCalls <= maxCalls
      modifies workspace, this`toolCalls, this`repeated, this`executed, this`events, this`saved
      ensures workspace.Valid() && NoneThrice(executed) && |executed| <= maxCalls
      ensures r.Ok? ==> Settled() && toolCalls <= maxCalls
      ensures r.Err? ==> r.error in {ToolBudget, Repetitive, CommandState, FileWrite, Storage, ActivityBudget}
      ensures r.Err? ==> Because(r.error, 0, maxCalls)
      ensures r.Ok? ==> |executed| == |old(executed)| + |calls|
      ensures workspace.uncertain ==> r.Err? && saved == old(saved)
      ensures workspace.revision == old(workspace.revision) ==> saved == old(saved)
    {
      var before := workspace.revision;
      r := ExecuteAll(calls, maxCalls);
      if r.Ok? {
        var failed := Checkpoint(workspace.revision != before);
        if failed.Some? { r := Err(failed.value); }
      }
    }

    /** What a finished conversation promises. */
    ghost predicate Finished(r: Result<(), Error>)
      reads this, workspace
    {
      && workspace.Valid() && NoneThrice(executed)
      && (bounded && asked > 0 ==> totalTokens + reservedTokens < budget && r != Err(ProviderUsage))
      && (r.Ok? ==> workspace.Passed() && Saved() && totalTokens + reservedTokens < budget)
      && (workspace.uncertain ==> r.Err? && saved == settled)
    }

    /** No call at all hands over to verification; a failing one costs a repair. */
    method Judge() returns (r: Option<Result<(), Error>>)
      requires Settled() && settled == saved && repairs <= MAX_REPAIRS && totalTokens + reservedTokens < budget
      modifies workspace, this`verdict, this`verifications, this`saved, this`repairs, this`events
      ensures old(verifications) <= verifications <= old(verifications) + 1 && repairs <= MAX_REPAIRS
      ensures r.None? ==> Settled() && repairs == old(repairs) + 1 && verifications == old(verifications) + 1 && verdict == Some(false)
      ensures r.None? ==> events == old(events) + 2
      ensures r.Some? ==> Finished(r.value) && repairs == old(repairs)
      ensures r.Some? && r.value.Err? ==> r.value.error in {CommandState, Preview, Storage, ActivityBudget, ChecksFail}
      ensures r.Some? && r.value.Err? && r.value.error.ChecksFail? ==>
        verdict == Some(false) && repairs == MAX_REPAIRS && verifications == old(verifications) + 1
      ensures r.Some? && r.value.Err? && r.value.error.ActivityBudget? ==> events >= 200
      ensures r.Some? && r.value.Err? && r.value.error.CommandState? ==> workspace.uncertain
    {
      CountedMeans(executed, repeated);
      var failed := Emit();
      if failed.Some? { return Some(Err(failed.value)); }
      var checks := Verify();
      if checks.Err? { return Some(Err(checks.error)); }
      r := Conclude(checks.value);
    }

    method Conclude(passed: bool) returns (r: Option<Result<(), Error>>)
      requires Settled() && settled == saved && repairs <= MAX_REPAIRS && totalTokens + reservedTokens < budget
      requires passed ==> workspace.Passed()
      modifies this`saved, this`repairs, this`events
      ensures repairs <= MAX_REPAIRS && (r.None? ==> Settled() && repairs == old(repairs) + 1 && !passed && events == old(events) + 1)
      ensures r.Some? ==> Finished(r.value) && repairs == old(repairs)
      ensures r.Some? && r.value.Err? ==> r.value.error in {Storage, ActivityBudget, ChecksFail}
      ensures r == Some(Err(ChecksFail)) ==> !passed && repairs == MAX_REPAIRS
      ensures r == Some(Err(ActivityBudget)) ==> events >= 200
    {
      CountedMeans(executed, repeated);
      var failed := Emit();
      if failed.Some? { return Some(Err(failed.value)); }
      failed := Checkpoint(false);
      if failed.Some? { return Some(Err(failed.value)); }
      if passed { return Some(Ok(())); }
      if repairs >= MAX_REPAIRS { return Some(Err(ChecksFail)); }
      repairs := repairs + 1;
      r := None;
    }

    /** One turn; `None` means that the conversation goes on. */
    method Turn(maxCalls: nat) returns (r: Option<Result<(), Error>>)
      requires Settled() && toolCalls <= maxCalls && verifications == repairs <= MAX_REPAIRS
      modifies this, workspace
      ensures turns == old(turns) + 1 && |executed| <= maxCalls
      ensures asked > old(asked) ==> chars <= 180_000 && 1024 <= limit <= 8192
      ensures r.Some? && r.value.Err? ==>
        Because(r.value.error, turns, maxCalls) && r.value.error != SandboxSetup && r.value.error != TurnBudget
      ensures r.None? ==> Settled() && toolCalls <= maxCalls && verifications == repairs <= MAX_REPAIRS
      ensures r.Some? ==> Finished(r.value) && verifications <= repairs + 1 && repairs <= MAX_REPAIRS
    {
      Open();
      var calls := Talk();
      if calls.Err? {
        CountedMeans(executed, repeated);
        r := Some(Err(calls.error));
      } else {
        r := Respond(calls.value, maxCalls);
      }
    }

    /** What follows a response: its calls, or without any the verification. */
    method Respond(calls: seq<Tool>, maxCalls: nat) returns (r: Option<Result<(), Error>>)
      requires Settled() && settled == saved && toolCalls <= maxCalls && verifications == repairs <= MAX_REPAIRS
      requires totalTokens + reservedTokens < budget
      modifies workspace, this`toolCalls, this`repeated, this`executed, this`events, this`saved, this`verdict, this`verifications,
               this`repairs
      ensures |executed| <= maxCalls && (calls != [] ==> verifications == old(verifications))
      ensures r.None? ==> Settled() && toolCalls <= maxCalls && verifications == repairs <= MAX_REPAIRS
      ensures r.None? ==> if calls == [] then verdict == Some(false) else |executed| == |old(executed)| + |calls|
      ensures r.Some? ==> Finished(r.value) && verifications <= repairs + 1 && repairs <= MAX_REPAIRS
      ensures r.Some? && r.value.Err? ==>
        Because(r.value.error, turns, maxCalls) && r.value.error != SandboxSetup && r.value.error != TurnBudget
    {
      if calls == [] {
        r := Judge();
      } else {
        var done := Apply(calls, maxCalls);
        r := if done.Err? then Some(Err(done.error)) else None;
      }
    }

    method Open()
      requires Settled()
      modifies this`turns, this`settled
      ensures Settled() && settled == saved && turns == old(turns) + 1
    {
      turns := turns + 1;
      settled := saved;
    }

    /** The turn's event and metrics, then the request. */
    method Talk() returns (r: Result<seq<Tool>, Error>)
      requires Settled()
      modifies this`events, this`saved, this`totalTokens, this`asked, this`bounded, this`chars, this`estimate, this`limit,
               this`reported
      ensures asked == old(asked) ==> totalTokens == old(totalTokens)
      ensures asked > old(asked) ==> asked == old(asked) + 1 && totalTokens == old(totalTokens) + reported
      ensures r.Err? ==> Because(r.error, 0, 0)
      ensures r.Err? ==> r.error in {Storage, ActivityBudget, ContextBudget, TokenPreflight, ModelCall, ProviderUsage, ModelOutput, InvalidCall}
      ensures asked > old(asked) ==> chars <= 180_000 && 1024 <= limit <= 8192
      ensures Settled() && saved == old(saved) && (r.Ok? ==> totalTokens + reservedTokens < budget)
      ensures bounded && asked > 0 ==> r != Err(ProviderUsage)
    {
      var failed := Emit();
      if failed.Some? { return Err(failed.value); }
      failed := Checkpoint(false);
      if failed.Some? { return Err(failed.value); }
      r := Ask();
    }

    /** The start of `run_editor`: the sandbox's browser must work. */
    method Preflight() returns (failed: Option<Error>)
      requires workspace.Valid() && !workspace.uncertain
      modifies workspace`uncertain, workspace`starts, this`events
      ensures workspace.Valid() && (failed.None? ==> !workspace.uncertain && workspace.starts)
      ensures failed.Some? ==> failed.value in {Storage, ActivityBudget, CommandState, SandboxSetup}
      ensures failed == Some(SandboxSetup) ==> !workspace.starts
      ensures failed == Some(CommandState) ==> workspace.uncertain
      ensures failed == Some(ActivityBudget) ==> events >= 200
    {
      failed := Emit();
      if failed.Some? { return; }
      var check := workspace.BrowserStarts();
      if check.Fatal? { return Some(CommandState); }
      failed := Emit();
      if failed.None? && !check.ok { failed := Some(SandboxSetup); }
    }

    /** `run_editor`. Success means that build and browser passed on exactly the files that are served and saved, or
        that are those of a new project in which nothing was changed. */
    method RunEditor(maxTurns: nat, maxCalls: nat) returns (r: Result<(), Error>)
      requires workspace.Valid() && !workspace.uncertain && Started() && Saved()
      modifies this, workspace
      ensures turns <= maxTurns && |executed| <= maxCalls && verifications <= 3 && repairs <= 2
      ensures NoneThrice(executed) && workspace.Valid() && workspace.screenshots <= 2
      ensures bounded && asked > 0 ==> totalTokens + reservedTokens < budget && r != Err(ProviderUsage)
      ensures r.Ok? ==> workspace.built == Some(workspace.disk) && workspace.shown == Some(workspace.disk)
      ensures r.Ok? ==> workspace.served == workspace.disk && workspace.previewRevision == workspace.revision
      ensures r.Ok? ==> Saved() && !workspace.uncertain
      ensures r.Ok? ==> totalTokens + reservedTokens < budget && turns > 0
      // Every other end has its cause.
      ensures r.Err? ==> Because(r.error, maxTurns, maxCalls)
      // A lost command or upload ends the run in an error, and nothing is saved after it.
      ensures workspace.uncertain ==> r.Err? && saved == settled
    {
      assert Counted(executed, repeated) && NoneThrice(executed);
      var failed := Preflight();
      if failed.Some? { return Err(failed.value); }
      for turn := 0 to maxTurns
        invariant Settled() && turns == turn && toolCalls <= maxCalls
        invariant verifications == repairs <= MAX_REPAIRS
      {
        var outcome := Turn(maxCalls);
        if outcome.Some? { return outcome.value; }
      }
      CountedMeans(executed, repeated);
      r := Err(TurnBudget);
    }

    /** The rest of `execute`: a run that succeeds has checked, served and saved the same files. */
    method RunAndSave(maxTurns: nat, maxCalls: nat) returns (r: Result<(), Error>)
      requires workspace.Valid() && !workspace.uncertain && Started() && Saved()
      modifies this, workspace
      ensures r.Ok? ==> workspace.Passed() && saved == Some(workspace.disk)
      ensures workspace.uncertain ==> r.Err? && saved == settled
    {
      r := RunEditor(maxTurns, maxCalls);
      if r.Ok? {
        var failed := Checkpoint(true);
        if failed.Some? { r := Err(failed.value); }
      }
    }
  }
}
