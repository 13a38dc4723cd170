/** Checkpoints (`agent/persistence.py`), their recovery and collection (`agent/maintenance.py`) and the
    deletion of a project (`main.py`): one project as a sequence of steps. Each database transaction
    is one step; each object-store call is one step, which may fail, take effect unseen, or take effect after
    its client has given up. Any number of saves may be in progress, also while the project is deleted. */
module Persistence {
  import opened Wrappers

  type RevisionId = nat

  datatype Key = RevisionKey(id: RevisionId) | LogKey(run: nat)

  datatype Status = Pending | Ready | Failed | Deleting

  /** `content` stands for the content hash: the files and the template; `bytes` for the archive. */
  datatype Revision = Revision(status: Status, parent: Option<RevisionId>, content: string, bytes: string)

  datatype Phase = Registered | Passed | Done(ok: bool)

  /** A tracked upload task; it outlives a cancelled caller. */
  datatype Upload = Upload(key: Key, bytes: string, phase: Phase)

  /** A save in progress, from the committed pending row to the promotion. It keeps the archive in memory, and
      is either the run's own or an import that a file request started. */
  datatype Saver = Saver(id: RevisionId, bytes: string, own: bool, stage: SaveStage)
  datatype SaveStage = Recorded | Putting(upload: nat) | Stored

  /** The cleanup of one deleted object, from draining its uploads to forgetting the intent. */
  datatype Cleaner = Cleaner(key: Key, stage: CleanStage)
  datatype CleanStage = Draining(pending: set<nat>) | Erasing | Forgetting

  datatype Project = Project(
    exists_: bool, saved: Option<RevisionId>, verified: Option<RevisionId>,
    rows: map<RevisionId, Revision>, parents: seq<Option<RevisionId>>, promoted: seq<RevisionId>,
    store: map<Key, string>, uploads: seq<Upload>, adrift: set<(Key, string)>, strayed: set<Key>,
    savers: map<nat, Saver>, running: bool, live: Option<RevisionId>, runs: set<nat>, checked: Option<RevisionId>, collecting: set<RevisionId>,
    doomed: set<Key>, intents: set<Key>, cleaners: map<nat, Cleaner>) {

    /** A put under the key has timed out for its client and may still arrive. */
    predicate Adrift(key: Key) {
      exists put :: put in adrift && put.0 == key
    }

    predicate Stores(id: RevisionId) {
      id in rows && RevisionKey(id) in store && store[RevisionKey(id)] == rows[id].bytes
    }

    /** Null, or a ready revision of this project whose object holds the recorded bytes. */
    predicate Names(pointer: Option<RevisionId>) {
      pointer.Some? ==> Stores(pointer.value) && rows[pointer.value].status == Ready
    }
  }

  datatype Choice =
    | BeginRun(run: nat) | FinishRun(succeeded: bool)
    | BeginSave(saver: nat, own: bool, content: string, bytes: string)
    | StartPut(saver: nat) | SeePut(saver: nat) | Promote(saver: nat) | PromoteUnseen(saver: nat) | CancelSave(saver: nat)
    | StartLogPut(run: nat, bytes: string)
    | CheckOwner(upload: nat) | Put(upload: nat, seen: bool) | PutFails(upload: nat, late: bool)
    | Arrive(key: Key, bytes: string) | Sink(key: Key, bytes: string)
    | Check(id: RevisionId) | Recover | Expire(id: RevisionId)
    | Collect(ids: set<RevisionId>) | EraseCollected(id: RevisionId) | DropCollected(id: RevisionId)
    | Delete | StartClean(cleaner: nat, key: Key) | Drained(cleaner: nat) | Erase(cleaner: nat)
    | Forget(cleaner: nat) | CleanFails(cleaner: nat)
    | Crash(stray: set<nat>)

  predicate Promotable(p: Project, id: RevisionId) {
    p.exists_ && id in p.rows && p.rows[id].status == Pending && p.saved == p.rows[id].parent
  }

  function SetStatus(p: Project, id: RevisionId, status: Status): Project
    requires id in p.rows
  {
    p.(rows := p.rows[id := p.rows[id].(status := status)])
  }

  function Promoted(p: Project, id: RevisionId): Project
    requires id in p.rows
  {
    SetStatus(p, id, Ready).(saved := Some(id), promoted := p.promoted + [id])
  }

  /** The save that `save_revision` starts, or the previous revision when nothing changed. */
  function Saving(p: Project, n: nat, own: bool, content: string, bytes: string): Project {
    if p.saved.Some? && p.saved.value in p.rows && p.rows[p.saved.value].status == Ready
       && p.rows[p.saved.value].content == content
    then if own then p.(live := p.saved) else p
    else
      var id := |p.parents|;
      p.(rows := p.rows[id := Revision(Pending, p.saved, content, bytes)], parents := p.parents + [p.saved],
         savers := p.savers[n := Saver(id, bytes, own, Recorded)])
  }

  function SetPhase(p: Project, u: nat, phase: Phase): Project
    requires u < |p.uploads|
  {
    p.(uploads := p.uploads[u := p.uploads[u].(phase := phase)])
  }

  /** A conditional put: an existing object is never overwritten. */
  function PutObject(p: Project, u: nat, seen: bool): Project
    requires u < |p.uploads|
  {
    var up := p.uploads[u];
    if up.key in p.store then SetPhase(p, u, Done(seen && p.store[up.key] == up.bytes))
    else SetPhase(p, u, Done(seen)).(store := p.store[up.key := up.bytes])
  }

  /** The puts among `late` that are on their way without a client from now on. */
  function Strayed(p: Project, late: set<nat>): Project {
    p.(adrift := p.adrift + (set u | u in late && u < |p.uploads| && p.uploads[u].phase.Passed? :: (p.uploads[u].key, p.uploads[u].bytes)),
       strayed := p.strayed + (set u | u in late && u < |p.uploads| && p.uploads[u].phase.Passed? :: p.uploads[u].key))
  }

  function Unfinished(p: Project, key: Key): set<nat> {
    set u | 0 <= u < |p.uploads| && p.uploads[u].key == key && !p.uploads[u].phase.Done?
  }

  function OwnedKeys(p: Project): set<Key> {
    (set id | id in p.rows :: RevisionKey(id)) + (set run | run in p.runs :: LogKey(run))
  }

  /** The rows are gone; what they may have stored is queued. */
  function Deleted(p: Project): Project {
    p.(exists_ := false, saved := None, verified := None, rows := map[], runs := {},
       doomed := OwnedKeys(p), intents := OwnedKeys(p))
  }

  /** The project without one of its saves. */
  function Dropped(p: Project, n: nat): Project {
    p.(savers := p.savers - {n})
  }

  /** The promotion of a stored save; `own` ones are what the run will verify. */
  function Published(p: Project, n: nat): Project
    requires n in p.savers
  {
    var s, q := p.savers[n], Dropped(p, n);
    var live := if s.own then Some(s.id) else p.live;
    if Promotable(p, s.id) then Promoted(q, s.id).(live := live)
    else if s.id in p.rows && p.rows[s.id].status == Ready then q.(live := live)
    else q
  }

  function SaveStep(p: Project, c: Choice): Project {
    match c
    case BeginSave(n, own, content, bytes) =>
      if p.exists_ && n !in p.savers && (own ==> p.running) then Saving(p, n, own, content, bytes) else p
    case StartPut(n) =>
      if n in p.savers && p.savers[n].stage.Recorded? then
        var s := p.savers[n];
        p.(uploads := p.uploads + [Upload(RevisionKey(s.id), s.bytes, Registered)],
           savers := p.savers[n := s.(stage := Putting(|p.uploads|))])
      else p
    case SeePut(n) =>
      if n in p.savers && p.savers[n].stage.Putting? && p.savers[n].stage.upload < |p.uploads|
         && p.uploads[p.savers[n].stage.upload].phase.Done? then
        if p.uploads[p.savers[n].stage.upload].phase.ok then p.(savers := p.savers[n := p.savers[n].(stage := Stored)])
        else Dropped(p, n)
      else p
    case Promote(n) => if n in p.savers && p.savers[n].stage.Stored? then Published(p, n) else p
    case PromoteUnseen(n) =>
      if n in p.savers && p.savers[n].stage.Stored? then
        if Promotable(p, p.savers[n].id) then Promoted(Dropped(p, n), p.savers[n].id) else Dropped(p, n)
      else p
    case CancelSave(n) => Dropped(p, n)
    case _ => p
  }

  function UploadStep(p: Project, c: Choice): Project {
    match c
    case StartLogPut(run, bytes) => p.(uploads := p.uploads + [Upload(LogKey(run), bytes, Registered)])
    case CheckOwner(u) =>
      if u < |p.uploads| && p.uploads[u].phase.Registered?
      then SetPhase(p, u, if p.exists_ then Passed else Done(false))
      else p
    case Put(u, seen) => if u < |p.uploads| && p.uploads[u].phase.Passed? then PutObject(p, u, seen) else p
    case PutFails(u, late) =>
      if u < |p.uploads| && p.uploads[u].phase.Passed?
      then SetPhase(if late then Strayed(p, {u}) else p, u, Done(false))
      else p
    case Arrive(key, bytes) =>
      if (key, bytes) in p.adrift
      then p.(adrift := p.adrift - {(key, bytes)}, store := if key in p.store then p.store else p.store[key := bytes])
      else p
    case Sink(key, bytes) => p.(adrift := p.adrift - {(key, bytes)})
    case _ => p
  }

  function RunStep(p: Project, c: Choice): Project {
    match c
    case BeginRun(run) =>
      if p.exists_ && !p.running then p.(running := true, live := None, runs := p.runs + {run}) else p
    case FinishRun(succeeded) =>
      // A save of the run's own has ended with it, or its caller was cancelled.
      if p.running
      then p.(running := false, live := None, savers := map n | n in p.savers && !p.savers[n].own :: p.savers[n],
              verified := if succeeded && p.live.Some? then p.live else p.verified)
      else p
    case _ => p
  }

  function MaintenanceStep(p: Project, c: Choice): Project {
    match c
    case Check(id) =>
      if id in p.rows && p.rows[id].status == Pending && p.Stores(id) then p.(checked := Some(id)) else p
    case Recover =>
      if p.checked.None? then p
      else
        var q := p.(checked := None);
        if Promotable(p, p.checked.value) && !p.running then Promoted(q, p.checked.value) else q
    case Expire(id) =>
      if id in p.rows && p.rows[id].status == Pending && p.checked.None? then SetStatus(p, id, Failed) else p
    case Collect(ids) =>
      if p.exists_ && !p.running
         && (forall id :: id in ids ==> id in p.rows && p.rows[id].status != Pending && p.saved != Some(id) && p.verified != Some(id))
      then p.(collecting := ids, rows := map id | id in p.rows :: if id in ids then p.rows[id].(status := Deleting) else p.rows[id])
      else p
    case EraseCollected(id) => if id in p.collecting then p.(store := p.store - {RevisionKey(id)}) else p
    case DropCollected(id) =>
      if id in p.collecting && id in p.rows && p.rows[id].status == Deleting then p.(rows := p.rows - {id}) else p
    case _ => p
  }

  function CleanStep(p: Project, c: Choice): Project {
    match c
    case StartClean(n, key) =>
      if key in p.doomed && n !in p.cleaners then p.(cleaners := p.cleaners[n := Cleaner(key, Draining(Unfinished(p, key)))]) else p
    case Drained(n) =>
      if n in p.cleaners && p.cleaners[n].stage.Draining?
         && (forall u :: u in p.cleaners[n].stage.pending && u < |p.uploads| ==> p.uploads[u].phase.Done?)
      then p.(cleaners := p.cleaners[n := p.cleaners[n].(stage := Erasing)])
      else p
    case Erase(n) =>
      if n in p.cleaners && p.cleaners[n].stage.Erasing?
      then p.(store := p.store - {p.cleaners[n].key}, cleaners := p.cleaners[n := p.cleaners[n].(stage := Forgetting)])
      else p
    case Forget(n) =>
      if n in p.cleaners && p.cleaners[n].stage.Forgetting?
      then p.(intents := p.intents - {p.cleaners[n].key}, cleaners := p.cleaners - {n})
      else p
    case CleanFails(n) => p.(cleaners := p.cleaners - {n})
    case _ => p
  }

  function Next(p: Project, c: Choice): Project {
    match c
    case Delete => if p.exists_ && !p.running then Deleted(p) else p
    case Crash(stray) =>
      Strayed(p, stray).(uploads := seq(|p.uploads|, u requires 0 <= u < |p.uploads| =>
           if p.uploads[u].phase.Done? then p.uploads[u] else p.uploads[u].(phase := Done(false))),
         savers := map[], running := false, live := None, checked := None, collecting := {}, cleaners := map[])
    case _ =>
      if OfRuns(c) then RunStep(p, c)
      else if OfSaves(c) then SaveStep(p, c)
      else if OfUploads(c) then UploadStep(p, c)
      else if OfMaintenance(c) then MaintenanceStep(p, c)
      else CleanStep(p, c)
  }

  predicate OfRuns(c: Choice) {
    c.BeginRun? || c.FinishRun?
  }

  predicate OfSaves(c: Choice) {
    c.BeginSave? || c.StartPut? || c.SeePut? || c.Promote? || c.PromoteUnseen? || c.CancelSave?
  }

  predicate OfUploads(c: Choice) {
    c.StartLogPut? || c.CheckOwner? || c.Put? || c.PutFails? || c.Arrive? || c.Sink?
  }

  predicate OfMaintenance(c: Choice) {
    c.Check? || c.Recover? || c.Expire? || c.Collect? || c.EraseCollected? || c.DropCollected?
  }
}
