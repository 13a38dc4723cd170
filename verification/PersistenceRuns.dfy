/** Checkpoints over whole runs: of saves, cancelled uploads, crashes, recovery, expiry, collection and
    deletion, in any order. */
module PersistenceRuns {
  import opened Wrappers
  import opened Persistence
  import opened PersistenceSafety

  lemma SaveStepKeepsInv(p: Project, c: Choice)
    requires Inv(p) && OfSaves(c)
    ensures Inv(SaveStep(p, c))
  {
    if c.BeginSave? { BeginSaveKeepsInv(p, c.saver, c.own, c.content, c.bytes); }
    else if c.StartPut? || c.SeePut? { PuttingKeepsInv(p, c); }
    else if c.CancelSave? { DroppedKeepsInv(p, c.saver); }
    else if c.Promote? { PromoteKeepsInv(p, c.saver); }
    else { PromoteUnseenKeepsInv(p, c.saver); }
  }

  lemma PuttingKeepsInv(p: Project, c: Choice)
    requires Inv(p) && (c.StartPut? || c.SeePut?)
    ensures Inv(SaveStep(p, c))
  {
    if c.StartPut? { StartPutKeepsInv(p, c.saver); } else { SeePutKeepsInv(p, c.saver); }
  }

  lemma UploadStepKeepsInv(p: Project, c: Choice)
    requires Inv(p) && OfUploads(c)
    ensures Inv(UploadStep(p, c))
  {
    if c.StartLogPut? { StartLogPutKeepsInv(p, c.run, c.bytes); }
    else if c.CheckOwner? { CheckOwnerKeepsInv(p, c.upload); }
    else if c.Arrive? || c.Sink? { LateKeepsInv(p, c); }
    else if c.Put? { PutKeepsInv(p, c.upload, c.seen); }
    else { PutFailsKeepsInv(p, c.upload, c.late); }
  }

  lemma LateKeepsInv(p: Project, c: Choice)
    requires Inv(p) && (c.Arrive? || c.Sink?)
    ensures Inv(UploadStep(p, c))
  {
    if c.Arrive? { ArriveKeepsInv(p, c.key, c.bytes); } else { SinkKeepsInv(p, c.key, c.bytes); }
  }

  lemma RunStepKeepsInv(p: Project, c: Choice)
    requires Inv(p)
    ensures Inv(RunStep(p, c))
  {
    match c
    case BeginRun(run) => BeginRunKeepsInv(p, run);
    case FinishRun(succeeded) => FinishRunKeepsInv(p, succeeded);
    case _ =>
  }

  lemma MaintenanceStepKeepsInv(p: Project, c: Choice)
    requires Inv(p) && OfMaintenance(c)
    ensures Inv(MaintenanceStep(p, c))
  {
    if c.Check? || c.Recover? || c.Expire? { RecoveryKeepsInv(p, c); } else { CollectionKeepsInv(p, c); }
  }

  lemma RecoveryKeepsInv(p: Project, c: Choice)
    requires Inv(p) && (c.Check? || c.Recover? || c.Expire?)
    ensures Inv(MaintenanceStep(p, c))
  {
    if c.Check? { CheckKeepsInv(p, c.id); }
    else if c.Recover? { RecoverKeepsInv(p); }
    else { ExpireKeepsInv(p, c.id); }
  }

  lemma CollectionKeepsInv(p: Project, c: Choice)
    requires Inv(p) && (c.Collect? || c.EraseCollected? || c.DropCollected?)
    ensures Inv(MaintenanceStep(p, c))
  {
    if c.Collect? { CollectKeepsInv(p, c.ids); }
    else if c.EraseCollected? { EraseCollectedKeepsInv(p, c.id); }
    else { DropCollectedKeepsInv(p, c.id); }
  }

  lemma CleanStepKeepsInv(p: Project, c: Choice)
    requires Inv(p)
    ensures Inv(CleanStep(p, c))
  {
    match c
    case StartClean(n, key) => StartCleanKeepsInv(p, n, key);
    case Drained(n) => DrainedKeepsInv(p, n);
    case Erase(n) => EraseKeepsInv(p, n);
    case Forget(n) => ForgetKeepsInv(p, n);
    case CleanFails(n) => CleanFailsKeepsInv(p, n);
    case _ =>
  }

  lemma NextKeepsInv(p: Project, c: Choice)
    requires Inv(p)
    ensures Inv(Next(p, c))
  {
    if c.Delete? { DeleteKeepsInv(p); }
    else if c.Crash? { CrashKeepsInv(p, c.stray); }
    else if OfRuns(c) { RunStepKeepsInv(p, c); }
    else if OfSaves(c) { SaveStepKeepsInv(p, c); }
    else if OfUploads(c) { UploadStepKeepsInv(p, c); }
    else if OfMaintenance(c) { MaintenanceStepKeepsInv(p, c); }
    else { CleanStepKeepsInv(p, c); }
  }

  function Run(p: Project, choices: seq<Choice>): Project
    decreases |choices|
  {
    if choices == [] then p else Run(Next(p, choices[0]), choices[1..])
  }

  /** The checkpoint theorem: in every state of every run, each pointer is null or names a ready
      revision whose object is stored with the recorded bytes, and the promoted revisions form one chain. */
  lemma {:induction false} PointersAlwaysHold(p: Project, choices: seq<Choice>)
    requires Inv(p)
    ensures Inv(Run(p, choices)) && PointersHold(Run(p, choices)) && OneChain(Run(p, choices))
    decreases |choices|
  {
    if choices != [] {
      NextKeepsInv(p, choices[0]);
      PointersAlwaysHold(Next(p, choices[0]), choices[1..]);
    }
  }

  // ----- The chain of promoted revisions ------------------------------------------------------------

  lemma ParentsDiffer(p: Project, i: nat, j: nat)
    requires OneChain(p) && i < j < |p.promoted|
    ensures p.parents[p.promoted[i]] != p.parents[p.promoted[j]]
  {
    assert p.promoted[..j] != [];
    if i > 0 {
      assert p.promoted[i - 1] != p.promoted[j - 1];
    }
  }

  /** Of any saves recorded with the same parent, at most one is ever promoted, over any run. */
  lemma NoSharedParent(p: Project, choices: seq<Choice>, a: RevisionId, b: RevisionId)
    requires Inv(p)
    requires var q := Run(p, choices); a in q.promoted && b in q.promoted && a < |q.parents| && b < |q.parents|
    ensures var q := Run(p, choices); q.parents[a] == q.parents[b] ==> a == b
  {
    PointersAlwaysHold(p, choices);
    var q := Run(p, choices);
    var i :| 0 <= i < |q.promoted| && q.promoted[i] == a;
    var j :| 0 <= j < |q.promoted| && q.promoted[j] == b;
    if i < j { ParentsDiffer(q, i, j); } else if j < i { ParentsDiffer(q, j, i); }
  }

  /** The chain is as it was, or one pending revision whose parent is the pointer was appended. */
  ghost predicate Extended(p: Project, q: Project) {
    && p.parents <= q.parents
    && (q.promoted == p.promoted || exists id :: Promotable(p, id) && q.promoted == p.promoted + [id])
  }

  lemma SaveExtends(p: Project, c: Choice)
    ensures Extended(p, SaveStep(p, c))
  {
    if (c.Promote? || c.PromoteUnseen?) && c.saver in p.savers && p.savers[c.saver].stage.Stored? {
      PublishingExtends(p, c);
    }
  }

  lemma PublishingExtends(p: Project, c: Choice)
    requires (c.Promote? || c.PromoteUnseen?) && c.saver in p.savers && p.savers[c.saver].stage.Stored?
    ensures Extended(p, SaveStep(p, c))
  {
    if Promotable(p, p.savers[c.saver].id) {
      assert SaveStep(p, c).promoted == p.promoted + [p.savers[c.saver].id];
    }
  }

  lemma MaintenanceExtends(p: Project, c: Choice)
    ensures Extended(p, MaintenanceStep(p, c))
  {
    if c.Recover? && p.checked.Some? && Promotable(p, p.checked.value) && !p.running {
      assert MaintenanceStep(p, c).promoted == p.promoted + [p.checked.value];
    }
  }

  lemma UploadExtends(p: Project, c: Choice)
    ensures Extended(p, UploadStep(p, c))
  {
  }

  lemma CleanExtends(p: Project, c: Choice)
    ensures Extended(p, CleanStep(p, c)) && Extended(p, RunStep(p, c))
  {
  }

  lemma EndingExtends(p: Project, stray: set<nat>)
    ensures Extended(p, Next(p, Delete)) && Extended(p, Next(p, Crash(stray)))
  {
  }

  lemma ChainStep(p: Project, c: Choice)
    ensures Extended(p, Next(p, c))
  {
    if c.Delete? || c.Crash? { EndingExtends(p, if c.Crash? then c.stray else {}); }
    else if OfSaves(c) { SaveExtends(p, c); }
    else if OfUploads(c) { UploadExtends(p, c); }
    else if OfMaintenance(c) { MaintenanceExtends(p, c); }
    else { CleanExtends(p, c); }
  }

  /** The chain only grows at its end, so the pointer never returns to an earlier revision. */
  lemma {:induction false} ChainOnlyGrows(p: Project, choices: seq<Choice>)
    requires Inv(p)
    ensures p.promoted <= Run(p, choices).promoted
    ensures Run(p, choices).exists_ && Run(p, choices).saved != Last(p.promoted) && Run(p, choices).saved.Some?
      ==> Run(p, choices).saved.value !in p.promoted
    decreases |choices|
  {
    PointersAlwaysHold(p, choices);
    ChainGrows(p, choices);
    if Run(p, choices).exists_ { PointerIsNew(p.promoted, Run(p, choices)); }
  }

  /** The pointer is at the end of the chain, so an earlier chain holds it only at its own end. */
  lemma PointerIsNew(earlier: seq<RevisionId>, q: Project)
    requires OneChain(q) && q.exists_ && earlier <= q.promoted
    ensures q.saved.Some? && q.saved.value in earlier ==> q.saved == Last(earlier)
  {
    forall i | 0 <= i < |earlier| && q.saved == Some(earlier[i])
      ensures q.saved == Last(earlier)
    {
      assert q.promoted[i] == q.promoted[|q.promoted| - 1];
    }
  }

  lemma {:induction false} ChainGrows(p: Project, choices: seq<Choice>)
    requires Inv(p)
    ensures p.promoted <= Run(p, choices).promoted && p.parents <= Run(p, choices).parents
    decreases |choices|
  {
    if choices != [] {
      NextKeepsInv(p, choices[0]);
      ChainStep(p, choices[0]);
      ChainGrows(Next(p, choices[0]), choices[1..]);
    }
  }

  /** Once the pointer has moved past a revision's parent, that revision is never promoted. */
  predicate Outdated(p: Project, id: RevisionId) {
    id < |p.parents| && id !in p.promoted && p.parents[id] != Last(p.promoted)
  }

  /** The appended revision is new to the chain and follows the pointer. */
  lemma PromotableFollowsTheChain(p: Project, id: RevisionId)
    requires Inv(p) && Promotable(p, id)
    ensures id !in p.promoted && id < |p.parents| && p.parents[id] == Last(p.promoted)
  {
  }

  lemma OutdatedStays(p: Project, q: Project, id: RevisionId)
    requires Inv(p) && Outdated(p, id) && Extended(p, q)
    ensures Outdated(q, id)
  {
    if q.promoted != p.promoted {
      var next :| Promotable(p, next) && q.promoted == p.promoted + [next];
      PromotableFollowsTheChain(p, next);
      if p.parents[id].Some? { ParentsArePromoted(p, id); }
      AppendingKeepsOutdated(p, q, id, next);
    }
  }

  lemma ParentsArePromoted(p: Project, id: RevisionId)
    requires RowsAgree(p) && id < |p.parents| && p.parents[id].Some?
    ensures p.parents[id].value in p.promoted
  {
  }

  lemma AppendingKeepsOutdated(p: Project, q: Project, id: RevisionId, next: RevisionId)
    requires Outdated(p, id) && p.parents <= q.parents && q.promoted == p.promoted + [next]
    requires next !in p.promoted && next < |p.parents| && p.parents[next] == Last(p.promoted)
    requires p.parents[id].Some? ==> p.parents[id].value in p.promoted
    ensures Outdated(q, id)
  {
    assert Last(q.promoted) == Some(next);
  }

  lemma {:induction false} OutdatedIsNeverPromoted(p: Project, choices: seq<Choice>, id: RevisionId)
    requires Inv(p) && Outdated(p, id)
    ensures id !in Run(p, choices).promoted && Run(p, choices).saved != Some(id)
    decreases |choices|
  {
    if choices != [] {
      NextKeepsInv(p, choices[0]);
      ChainStep(p, choices[0]);
      OutdatedStays(p, Next(p, choices[0]), id);
      OutdatedIsNeverPromoted(Next(p, choices[0]), choices[1..], id);
    }
  }

  /** A pending revision whose parent is no longer the pointer is outdated. */
  lemma PendingWithOldParentIsOutdated(p: Project, id: RevisionId)
    requires Inv(p) && p.exists_ && id in p.rows && p.rows[id].status == Pending && p.rows[id].parent != p.saved
    ensures Outdated(p, id)
  {
  }

  // ----- Saving without edits ---------------------------------------------------------------------------

  /** Saving what is already saved returns the same revision and adds no row, in a run or outside it and
      whatever other saves are in progress. */
  lemma SavingTheSameAddsNothing(p: Project, n: nat, own: bool, content: string, bytes: string)
    requires Inv(p) && p.exists_ && n !in p.savers && (own ==> p.running) && p.saved.Some?
    requires p.rows[p.saved.value].content == content
    ensures Next(p, BeginSave(n, own, content, bytes)) == if own then p.(live := p.saved) else p
  {
  }

  // ----- Deletion --------------------------------------------------------------------------------------------

  /** Deleting a project queues every object it may own, also when saves of it are in progress. */
  lemma DeletionQueuesEverything(p: Project)
    requires Inv(p) && p.exists_ && !p.running
    ensures forall id :: id in p.rows ==> RevisionKey(id) in Next(p, Delete).intents
    ensures forall run :: run in p.runs ==> LogKey(run) in Next(p, Delete).intents
    ensures !Next(p, Delete).exists_ && Next(p, Delete).doomed == Next(p, Delete).intents
    ensures Next(p, Delete).savers == p.savers
  {
  }

  /** The project stays deleted, and nothing is queued again. */
  ghost predicate StaysDeleted(p: Project, q: Project) {
    !q.exists_ && !q.running && q.doomed == p.doomed && q.intents <= p.intents
  }

  lemma SavesStayDeleted(p: Project, c: Choice)
    requires !p.exists_ && !p.running
    ensures StaysDeleted(p, SaveStep(p, c)) && StaysDeleted(p, RunStep(p, c))
  {
  }

  lemma UploadsStayDeleted(p: Project, c: Choice)
    requires !p.exists_ && !p.running
    ensures StaysDeleted(p, UploadStep(p, c))
  {
  }

  lemma CleaningStaysDeleted(p: Project, c: Choice)
    requires !p.exists_ && !p.running
    ensures StaysDeleted(p, CleanStep(p, c))
  {
  }

  lemma MaintenanceStaysDeleted(p: Project, c: Choice)
    requires !p.exists_ && !p.running
    ensures StaysDeleted(p, MaintenanceStep(p, c))
  {
  }

  lemma DeletedStaysDeleted(p: Project, c: Choice)
    requires !p.exists_ && !p.running
    ensures StaysDeleted(p, Next(p, c))
  {
    if OfSaves(c) || OfRuns(c) { SavesStayDeleted(p, c); }
    else if OfMaintenance(c) { MaintenanceStaysDeleted(p, c); }
    else if OfUploads(c) { UploadsStayDeleted(p, c); }
    else { CleaningStaysDeleted(p, c); }
  }

  lemma {:induction false} DeletionIsFinal(p: Project, choices: seq<Choice>)
    requires !p.exists_ && !p.running
    ensures !Run(p, choices).exists_ && Run(p, choices).doomed == p.doomed && Run(p, choices).intents <= p.intents
    decreases |choices|
  {
    if choices != [] {
      DeletedStaysDeleted(p, choices[0]);
      DeletionIsFinal(Next(p, choices[0]), choices[1..]);
    }
  }

  /** Once the intent is gone, only a put that was adrift before can still bring an object back. */
  lemma {:induction false} NothingAdriftNothingReturns(p: Project, choices: seq<Choice>, key: Key)
    requires Inv(p) && !p.exists_ && key in p.doomed && key !in p.intents
    requires key !in p.store && !p.Adrift(key)
    ensures key !in Run(p, choices).store
    decreases |choices|
  {
    if choices != [] {
      var q := Next(p, choices[0]);
      NextKeepsInv(p, choices[0]);
      DeletedStaysDeleted(p, choices[0]);
      QuietKeysStayAway(p, choices[0], key);
      NothingAdriftNothingReturns(q, choices[1..], key);
    }
  }

  /** Neither stored nor on its way. */
  predicate Away(p: Project, key: Key) {
    key !in p.store && !p.Adrift(key)
  }

  lemma UploadsKeepAway(p: Project, c: Choice, key: Key)
    requires Quiet(p, key) && Away(p, key)
    ensures Away(UploadStep(p, c), key)
  {
    if c.Arrive? && (c.key, c.bytes) in p.adrift { assert c.key != key; }
  }

  lemma SavesKeepAway(p: Project, c: Choice, key: Key)
    requires Away(p, key)
    ensures Away(SaveStep(p, c), key)
  {
    if c.Promote? || c.PromoteUnseen? { PublishingKeepsAway(p, c, key); }
  }

  lemma PublishingKeepsAway(p: Project, c: Choice, key: Key)
    requires Away(p, key) && (c.Promote? || c.PromoteUnseen?)
    ensures Away(SaveStep(p, c), key)
  {
  }

  lemma RunsKeepAway(p: Project, c: Choice, key: Key)
    requires Away(p, key)
    ensures Away(RunStep(p, c), key)
  {
  }

  lemma CleaningKeepsAway(p: Project, c: Choice, key: Key)
    requires Away(p, key)
    ensures Away(CleanStep(p, c), key)
  {
  }

  lemma MaintenanceKeepsAway(p: Project, c: Choice, key: Key)
    requires Away(p, key)
    ensures Away(MaintenanceStep(p, c), key)
  {
    var q := MaintenanceStep(p, c);
    assert q.adrift == p.adrift;
  }

  lemma QuietKeysStayAway(p: Project, c: Choice, key: Key)
    requires Quiet(p, key) && Away(p, key)
    ensures Away(Next(p, c), key)
  {
    if OfSaves(c) { SavesKeepAway(p, c, key); }
    else if OfRuns(c) { RunsKeepAway(p, c, key); }
    else if OfUploads(c) { UploadsKeepAway(p, c, key); }
    else if OfMaintenance(c) { MaintenanceKeepsAway(p, c, key); }
    else if !c.Crash? && !c.Delete? { CleaningKeepsAway(p, c, key); }
  }

  /** The deletion theorem. Once the intent for a key is gone, an object is stored under it in some later state
      if and only if a put under it, timed out for its client, has arrived meanwhile or is still on its way;
      no upload that was under way when its caller was cancelled, and no save in progress, can bring it back. */
  lemma DeletedObjectsReturnOnlyAdrift(p: Project, key: Key)
    requires Inv(p) && !p.exists_ && key in p.doomed && key !in p.intents
    ensures (forall choices :: key !in Run(p, choices).store) <==> key !in p.store && !p.Adrift(key)
    ensures key in p.store || p.Adrift(key) ==> key in p.strayed
  {
    if key !in p.store && !p.Adrift(key) {
      forall choices ensures key !in Run(p, choices).store { NothingAdriftNothingReturns(p, choices, key); }
    }
    assert Run(p, []) == p;
    if put :| put in p.adrift && put.0 == key { LatePutArrives(p, key, put.1); }
    assert Gone(p, key);
  }

  lemma LatePutArrives(p: Project, key: Key, bytes: string)
    requires (key, bytes) in p.adrift
    ensures exists choices :: key in Run(p, choices).store
  {
    var c := Arrive(key, bytes);
    assert [c][1..] == [];
    assert Run(p, [c]) == Run(Next(p, c), []) == Next(p, c);
  }

  /** Without late puts under the key, it never holds an object again. */
  lemma DeletedObjectsNeverReturn(p: Project, choices: seq<Choice>, key: Key)
    requires Inv(p) && !p.exists_ && key in p.doomed && key !in p.intents && key !in p.strayed
    ensures key !in Run(p, choices).store && key !in Run(p, choices).intents
  {
    DeletionIsFinal(p, choices);
    DeletedObjectsReturnOnlyAdrift(p, key);
  }
}
