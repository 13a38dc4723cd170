/** Where the verified pointer comes from over whole runs, and what saves, recovery, collection and deletion leave
    behind when nothing goes wrong. */
module PersistenceOutcomes {
  import opened Wrappers
  import opened Persistence
  import opened PersistenceSafety
  import opened PersistenceRuns

  // ----- The verified pointer ----------------------------------------------------------------------------------

  /** The step publishes revision `id` as the work of the run: its own stored save is pending with the pointer as its parent,
      or ready already, or what it would save is saved already. */
  predicate OwnSave(p: Project, c: Choice, id: RevisionId) {
    && p.exists_ && p.running && id in p.rows
    && match c
       case Promote(n) =>
         && n in p.savers && p.savers[n].own && p.savers[n].stage.Stored? && p.savers[n].id == id
         && (p.rows[id].status == Ready || (p.rows[id].status == Pending && p.rows[id].parent == p.saved))
       case BeginSave(n, own, content, _) =>
         own && n !in p.savers && p.saved == Some(id) && p.rows[id].status == Ready && p.rows[id].content == content
       case _ => false
  }

  /** A step that ends the run, or the process with it. */
  predicate EndsRun(c: Choice) {
    c.FinishRun? || c.Crash?
  }

  lemma RunsMoveVerified(p: Project, c: Choice)
    requires OfRuns(c)
    ensures RunStep(p, c).verified == if c == FinishRun(true) && p.running && p.live.Some? then p.live else p.verified
    ensures RunStep(p, c).running && p.running ==> RunStep(p, c).live == p.live && !EndsRun(c)
    ensures !p.running || EndsRun(c) ==> RunStep(p, c).live.None? || (RunStep(p, c).live == p.live && !p.running)
  {
  }

  lemma PromotedKeepsVerified(p: Project, id: RevisionId)
    requires id in p.rows
    ensures var q := Promoted(p, id);
            q.verified == p.verified && q.running == p.running && q.live == p.live && id in q.rows && q.rows[id].status == Ready
  {
  }

  lemma PublishingMovesLive(p: Project, n: nat)
    requires n in p.savers
    ensures var s, q := p.savers[n], Published(p, n);
            && q.verified == p.verified && q.running == p.running
            && q.live == if s.own && (Promotable(p, s.id) || (s.id in p.rows && p.rows[s.id].status == Ready)) then Some(s.id)
                         else p.live
  {
    var s := p.savers[n];
    if Promotable(p, s.id) { PromotedKeepsVerified(Dropped(p, n), s.id); }
  }

  lemma PromotingMovesLive(p: Project, n: nat)
    requires Inv(p)
    ensures var c := Promote(n);
            var q := SaveStep(p, c);
            q.verified == p.verified && q.running == p.running
            && (q.live != p.live ==> q.live.Some? && OwnSave(p, c, q.live.value))
  {
    if n in p.savers && p.savers[n].stage.Stored? {
      assert SaverAgrees(p, p.savers[n]);
      PublishingMovesLive(p, n);
    }
  }

  lemma UnseenKeepsLive(p: Project, n: nat)
    ensures var q := SaveStep(p, PromoteUnseen(n));
            q.verified == p.verified && q.running == p.running && q.live == p.live
  {
    if n in p.savers && Promotable(p, p.savers[n].id) { PromotedKeepsVerified(Dropped(p, n), p.savers[n].id); }
  }

  lemma BeginningMovesLive(p: Project, n: nat, own: bool, content: string, bytes: string)
    ensures var c := BeginSave(n, own, content, bytes);
            var q := SaveStep(p, c);
            q.verified == p.verified && q.running == p.running
            && (q.live != p.live ==> q.live.Some? && OwnSave(p, c, q.live.value))
  {
  }

  lemma PuttingKeepsVerified(p: Project, c: Choice)
    requires c.StartPut? || c.SeePut? || c.CancelSave?
    ensures var q := SaveStep(p, c); q.verified == p.verified && q.running == p.running && q.live == p.live
  {
  }

  lemma SavesKeepVerified(p: Project, c: Choice)
    requires OfSaves(c) && Inv(p)
    ensures var q := SaveStep(p, c);
            q.verified == p.verified && q.running == p.running
            && (q.live != p.live ==> q.live.Some? && OwnSave(p, c, q.live.value))
  {
    if c.Promote? { PromotingMovesLive(p, c.saver); }
    else if c.PromoteUnseen? { UnseenKeepsLive(p, c.saver); }
    else if c.BeginSave? { BeginningMovesLive(p, c.saver, c.own, c.content, c.bytes); }
    else { PuttingKeepsVerified(p, c); }
  }

  /** A step that touches neither pointers nor runs. */
  predicate SamePointers(p: Project, q: Project) {
    q.verified == p.verified && q.running == p.running && q.live == p.live
  }

  lemma PutKeepsVerified(p: Project, u: nat, seen: bool)
    ensures SamePointers(p, UploadStep(p, Put(u, seen)))
  {
    if u < |p.uploads| { PutObjectKeepsVerified(p, u, seen); }
  }

  lemma PutObjectKeepsVerified(p: Project, u: nat, seen: bool)
    requires u < |p.uploads|
    ensures SamePointers(p, PutObject(p, u, seen))
  {
    assert forall phase :: SamePointers(p, SetPhase(p, u, phase));
  }

  lemma FailedPutKeepsVerified(p: Project, u: nat, late: bool)
    ensures SamePointers(p, UploadStep(p, PutFails(u, late)))
  {
  }

  lemma UploadsKeepVerified(p: Project, c: Choice)
    requires OfUploads(c)
    ensures SamePointers(p, UploadStep(p, c))
  {
    if c.Put? { PutKeepsVerified(p, c.upload, c.seen); }
    else if c.PutFails? { FailedPutKeepsVerified(p, c.upload, c.late); }
    else { OtherUploadsKeepVerified(p, c); }
  }

  lemma OtherUploadsKeepVerified(p: Project, c: Choice)
    requires OfUploads(c) && !c.Put? && !c.PutFails?
    ensures SamePointers(p, UploadStep(p, c))
  {
  }

  lemma MaintenanceKeepsVerified(p: Project, c: Choice)
    requires OfMaintenance(c)
    ensures SamePointers(p, MaintenanceStep(p, c))
  {
  }

  lemma CleaningKeepsVerified(p: Project, c: Choice)
    ensures SamePointers(p, CleanStep(p, c))
  {
  }

  /** The verified pointer moves when a run ends in success, to what that run last published, and when the project is
      deleted; at no other step. */
  lemma VerifiedMovesWithASuccess(p: Project, c: Choice)
    requires Inv(p)
    ensures Next(p, c).verified
            == if c == FinishRun(true) && p.running && p.live.Some? then p.live
               else if c.Delete? && p.exists_ && !p.running then None
               else p.verified
  {
    if OfRuns(c) { RunsMoveVerified(p, c); }
    else if OfSaves(c) { SavesKeepVerified(p, c); }
    else if !c.Delete? && !c.Crash? { RestKeepsLive(p, c); }
  }

  /** What the run has published changes only when it publishes something else, and is forgotten at its end. */
  lemma PublishedByTheRun(p: Project, c: Choice)
    requires Inv(p)
    ensures var q := Next(p, c);
            q.live.Some? && q.live != p.live ==> OwnSave(p, c, q.live.value)
    ensures EndsRun(c) ==> Next(p, c).live.None?
    ensures !p.running ==> Next(p, c).live.None?
  {
    assert !p.running ==> p.live.None?;
    if OfRuns(c) { RunsMoveLive(p, c); }
    else if c.Delete? || c.Crash? { EndingMovesLive(p, c); }
    else if OfSaves(c) { SavesMoveLive(p, c); }
    else { RestKeepsLive(p, c); }
  }

  lemma RunsMoveLive(p: Project, c: Choice)
    requires OfRuns(c) && (!p.running ==> p.live.None?)
    ensures Next(p, c).live == p.live || Next(p, c).live.None?
    ensures EndsRun(c) || !p.running ==> Next(p, c).live.None?
  {
    RunsMoveVerified(p, c);
  }

  lemma EndingMovesLive(p: Project, c: Choice)
    requires (c.Delete? || c.Crash?) && (!p.running ==> p.live.None?)
    ensures Next(p, c).live == if c.Crash? then None else p.live
  {
  }

  lemma SavesMoveLive(p: Project, c: Choice)
    requires OfSaves(c) && Inv(p)
    ensures var q := Next(p, c);
            (q.live != p.live ==> q.live.Some? && OwnSave(p, c, q.live.value) && p.running)
  {
    SavesKeepVerified(p, c);
  }

  lemma RestKeepsLive(p: Project, c: Choice)
    requires !OfRuns(c) && !OfSaves(c) && !c.Delete? && !c.Crash?
    ensures SamePointers(p, Next(p, c))
  {
    if OfUploads(c) { UploadsKeepVerified(p, c); }
    else if OfMaintenance(c) { MaintenanceKeepsVerified(p, c); }
    else { CleaningKeepsVerified(p, c); }
  }

  /** Publishing is remembered. */
  lemma OwnSavesArePublished(p: Project, c: Choice, id: RevisionId)
    requires Inv(p) && OwnSave(p, c, id)
    ensures Next(p, c).live == Some(id)
  {
    if c.Promote? { PublishingMovesLive(p, c.saver); }
  }

  // ----- Over runs -----------------------------------------------------------------------------------------------

  lemma {:induction false} RunSnoc(p: Project, choices: seq<Choice>, c: Choice)
    ensures Run(p, choices + [c]) == Next(Run(p, choices), c)
    decreases |choices|
  {
    if choices == [] {
      assert [] + [c] == [c] && [c][1..] == [];
      assert Run(p, [c]) == Run(Next(p, c), []);
    } else {
      assert (choices + [c])[0] == choices[0] && (choices + [c])[1..] == choices[1..] + [c];
      RunSnoc(Next(p, choices[0]), choices[1..], c);
    }
  }

  /** At step `i` a run published `id`, and it has not ended before step `j`. */
  ghost predicate PublishedAt(p: Project, choices: seq<Choice>, id: RevisionId, i: nat, j: nat) {
    && i < j <= |choices|
    && OwnSave(Run(p, choices[..i]), choices[i], id)
    && (forall k :: i < k < j ==> !EndsRun(choices[k]))
  }

  /** `id` was published by a run that then ended in success. */
  ghost predicate SavedByASuccess(p: Project, choices: seq<Choice>, id: RevisionId) {
    exists i: nat, j: nat :: j < |choices| && PublishedAt(p, choices, id, i, j) && choices[j] == FinishRun(true)
  }

  lemma PublishedLonger(p: Project, choices: seq<Choice>, c: Choice, id: RevisionId, i: nat, j: nat)
    requires PublishedAt(p, choices, id, i, j)
    ensures PublishedAt(p, choices + [c], id, i, j)
    ensures j == |choices| && !EndsRun(c) ==> PublishedAt(p, choices + [c], id, i, j + 1)
  {
    assert (choices + [c])[..i] == choices[..i];
  }

  lemma SavedLonger(p: Project, choices: seq<Choice>, c: Choice, id: RevisionId)
    requires SavedByASuccess(p, choices, id)
    ensures SavedByASuccess(p, choices + [c], id)
  {
    var i: nat, j: nat :| j < |choices| && PublishedAt(p, choices, id, i, j) && choices[j] == FinishRun(true);
    PublishedLonger(p, choices, c, id, i, j);
  }

  /** What is live was published by the run that is under way. */
  lemma {:induction false} LiveWasPublished(p: Project, choices: seq<Choice>)
    requires Inv(p) && !p.running
    ensures var q := Run(p, choices);
            q.live.Some? ==> exists i: nat :: PublishedAt(p, choices, q.live.value, i, |choices|)
    decreases |choices|
  {
    if choices != [] {
      var init, c := choices[..|choices| - 1], choices[|choices| - 1];
      assert choices == init + [c];
      PointersAlwaysHold(p, init);
      LiveWasPublished(p, init);
      RunSnoc(p, init, c);
      PublishedByTheRun(Run(p, init), c);
      LiveOneStepOn(p, init, c, Run(p, init).live, Run(p, choices).live);
    }
  }

  lemma LiveOneStepOn(p: Project, init: seq<Choice>, c: Choice, before: Option<RevisionId>, after: Option<RevisionId>)
    requires before.Some? ==> exists i: nat :: PublishedAt(p, init, before.value, i, |init|)
    requires after.Some? && after != before ==> OwnSave(Run(p, init), c, after.value)
    requires EndsRun(c) ==> after.None?
    ensures after.Some? ==> exists i: nat :: PublishedAt(p, init + [c], after.value, i, |init + [c]|)
  {
    if after.Some? {
      if after == before {
        var i: nat :| PublishedAt(p, init, after.value, i, |init|);
        PublishedLonger(p, init, c, after.value, i, |init|);
      } else {
        JustPublished(p, init, c, after.value);
      }
    }
  }

  lemma JustPublished(p: Project, init: seq<Choice>, c: Choice, id: RevisionId)
    requires OwnSave(Run(p, init), c, id)
    ensures PublishedAt(p, init + [c], id, |init|, |init + [c]|)
  {
    assert (init + [c])[..|init|] == init;
  }

  /** The verification theorem: over any run of the project, a verified revision was published by a run of the
      assistant that went on to end in success, or was verified to begin with. */
  lemma {:induction false} VerifiedWasSavedByASuccess(p: Project, choices: seq<Choice>)
    requires Inv(p) && !p.running
    ensures var q := Run(p, choices);
            q.verified.Some? && q.verified != p.verified ==> SavedByASuccess(p, choices, q.verified.value)
    decreases |choices|
  {
    if choices != [] {
      var init, c := choices[..|choices| - 1], choices[|choices| - 1];
      assert choices == init + [c];
      PointersAlwaysHold(p, init);
      VerifiedWasSavedByASuccess(p, init);
      LiveWasPublished(p, init);
      RunSnoc(p, init, c);
      var q := Run(p, init);
      VerifiedMovesWithASuccess(q, c);
      if Next(q, c).verified == q.verified {
        if q.verified.Some? && q.verified != p.verified { SavedLonger(p, init, c, q.verified.value); }
      } else if Next(q, c).verified.Some? {
        var i: nat :| PublishedAt(p, init, q.live.value, i, |init|);
        PublishedLonger(p, init, c, q.live.value, i, |init|);
        assert choices[|init|] == FinishRun(true);
      }
    }
  }

  // ----- What is left when nothing goes wrong ------------------------------------------------------------------

  lemma RunCons(p: Project, c: Choice, cs: seq<Choice>)
    ensures Run(p, [c] + cs) == Run(Next(p, c), cs)
  {
    assert ([c] + cs)[1..] == cs;
  }

  lemma RunTwo(p: Project, a: Choice, b: Choice)
    ensures Run(p, [a, b]) == Next(Next(p, a), b)
  {
    assert [a, b] == [a] + [b] && [b] == [b] + [];
    RunCons(p, a, [b]);
    RunCons(Next(p, a), b, []);
  }

  lemma RunThree(p: Project, a: Choice, b: Choice, c: Choice)
    ensures Run(p, [a, b, c]) == Next(Next(Next(p, a), b), c)
  {
    assert [a, b, c] == [a] + [b, c];
    RunCons(p, a, [b, c]);
    RunTwo(Next(p, a), b, c);
  }

  lemma {:induction false} RunAppend(p: Project, a: seq<Choice>, b: seq<Choice>)
    ensures Run(p, a + b) == Run(Run(p, a), b)
    decreases |a|
  {
    if a == [] {
      assert a + b == b;
    } else {
      assert (a + b)[0] == a[0] && (a + b)[1..] == a[1..] + b;
      RunAppend(Next(p, a[0]), a[1..], b);
    }
  }

  /** The project while the new revision is recorded, its upload in the given phase. */
  function Saved(p: Project, n: nat, own: bool, content: string, bytes: string, stage: SaveStage, phase: Phase): Project {
    var id := |p.parents|;
    p.(rows := p.rows[id := Revision(Pending, p.saved, content, bytes)], parents := p.parents + [p.saved],
       uploads := p.uploads + [Upload(RevisionKey(id), bytes, phase)], savers := p.savers[n := Saver(id, bytes, own, stage)])
  }

  /** Something is saved other than the content. */
  predicate Edited(p: Project, content: string) {
    p.saved.Some? && p.saved.value in p.rows && p.rows[p.saved.value].status == Ready ==> p.rows[p.saved.value].content != content
  }

  lemma RecordedAndUploading(p: Project, n: nat, own: bool, content: string, bytes: string)
    requires p.exists_ && n !in p.savers && (own ==> p.running) && Edited(p, content)
    ensures Run(p, [BeginSave(n, own, content, bytes), StartPut(n), CheckOwner(|p.uploads|)])
            == Saved(p, n, own, content, bytes, Putting(|p.uploads|), Passed)
  {
    RunThree(p, BeginSave(n, own, content, bytes), StartPut(n), CheckOwner(|p.uploads|));
    var id := |p.parents|;
    RecordedAndStarted(p, n, own, content, bytes);
    var ups := p.uploads + [Upload(RevisionKey(id), bytes, Registered)];
    assert ups[|p.uploads| := Upload(RevisionKey(id), bytes, Passed)] == p.uploads + [Upload(RevisionKey(id), bytes, Passed)];
  }

  lemma RecordedAndStarted(p: Project, n: nat, own: bool, content: string, bytes: string)
    requires p.exists_ && n !in p.savers && (own ==> p.running) && Edited(p, content)
    ensures Next(Next(p, BeginSave(n, own, content, bytes)), StartPut(n))
            == Saved(p, n, own, content, bytes, Putting(|p.uploads|), Registered)
  {
    var id := |p.parents|;
    var q := p.(rows := p.rows[id := Revision(Pending, p.saved, content, bytes)], parents := p.parents + [p.saved],
                savers := p.savers[n := Saver(id, bytes, own, Recorded)]);
    assert Next(p, BeginSave(n, own, content, bytes)) == q;
    assert q.savers[n := Saver(id, bytes, own, Putting(|p.uploads|))] == p.savers[n := Saver(id, bytes, own, Putting(|p.uploads|))];
  }

  /** The pending row's object is stored and its saver knows it. */
  lemma StoredAndSeen(p: Project, n: nat, own: bool, content: string, bytes: string)
    requires RevisionKey(|p.parents|) !in p.store
    ensures var u := |p.uploads|;
            Run(Saved(p, n, own, content, bytes, Putting(u), Passed), [Put(u, true), SeePut(n)])
            == Saved(p, n, own, content, bytes, Stored, Done(true)).(store := p.store[RevisionKey(|p.parents|) := bytes])
  {
    var u, id := |p.uploads|, |p.parents|;
    var q := Saved(p, n, own, content, bytes, Putting(u), Passed);
    RunTwo(q, Put(u, true), SeePut(n));
    assert q.uploads[u := Upload(RevisionKey(id), bytes, Done(true))] == p.uploads + [Upload(RevisionKey(id), bytes, Done(true))];
    var r := Next(q, Put(u, true));
    assert r == Saved(p, n, own, content, bytes, Putting(u), Done(true)).(store := p.store[RevisionKey(id) := bytes]);
    assert r.savers[n := Saver(id, bytes, own, Stored)] == p.savers[n := Saver(id, bytes, own, Stored)];
  }

  /** The project with one more revision: ready, stored, current, and what a run of the assistant has to show for itself. */
  function WithRevision(p: Project, own: bool, content: string, bytes: string): Project {
    var id := |p.parents|;
    p.(rows := p.rows[id := Revision(Ready, p.saved, content, bytes)], parents := p.parents + [p.saved],
       promoted := p.promoted + [id], saved := Some(id), live := if own then Some(id) else p.live,
       store := p.store[RevisionKey(id) := bytes], uploads := p.uploads + [Upload(RevisionKey(id), bytes, Done(true))])
  }

  lemma StoredIsPromoted(p: Project, n: nat, own: bool, content: string, bytes: string)
    requires p.exists_ && n !in p.savers
    ensures var q := Saved(p, n, own, content, bytes, Stored, Done(true)).(store := p.store[RevisionKey(|p.parents|) := bytes]);
            Next(q, Promote(n)) == WithRevision(p, own, content, bytes)
  {
    var id := |p.parents|;
    var q := Saved(p, n, own, content, bytes, Stored, Done(true)).(store := p.store[RevisionKey(id) := bytes]);
    assert q.savers - {n} == p.savers;
    assert q.rows[id := Revision(Ready, p.saved, content, bytes)] == p.rows[id := Revision(Ready, p.saved, content, bytes)];
  }

  /** The choices of an undisturbed save. */
  function SaveChoices(p: Project, n: nat, own: bool, content: string, bytes: string): seq<Choice> {
    var u := |p.uploads|;
    [BeginSave(n, own, content, bytes), StartPut(n), CheckOwner(u), Put(u, true), SeePut(n), Promote(n)]
  }

  /** A save of edited files leads to exactly one more revision, ready, stored and current; it is the run's own when
      the run saved it. */
  lemma SavingAnEditPublishesIt(p: Project, n: nat, own: bool, content: string, bytes: string)
    requires p.exists_ && n !in p.savers && (own ==> p.running) && Edited(p, content) && RevisionKey(|p.parents|) !in p.store
    ensures Run(p, SaveChoices(p, n, own, content, bytes)) == WithRevision(p, own, content, bytes)
  {
    var u := |p.uploads|;
    var a, b := [BeginSave(n, own, content, bytes), StartPut(n), CheckOwner(u)], [Put(u, true), SeePut(n)];
    assert SaveChoices(p, n, own, content, bytes) == (a + b) + [Promote(n)];
    RunSnoc(p, a + b, Promote(n));
    RunAppend(p, a, b);
    RecordedAndUploading(p, n, own, content, bytes);
    StoredAndSeen(p, n, own, content, bytes);
    StoredIsPromoted(p, n, own, content, bytes);
  }

  /** A run that saves an edit and ends in success has verified it; one that ends otherwise leaves the verified
      revision as it was and keeps the save. */
  lemma AVerifiedRun(p: Project, run: nat, n: nat, content: string, bytes: string, succeeded: bool)
    requires Inv(p) && p.exists_ && !p.running && n !in p.savers && Edited(p, content) && RevisionKey(|p.parents|) !in p.store
    ensures var q := p.(running := true, live := None, runs := p.runs + {run});
            Run(p, [BeginRun(run)] + SaveChoices(p, n, true, content, bytes) + [FinishRun(succeeded)])
            == WithRevision(p, true, content, bytes).(
                 live := None, runs := p.runs + {run}, verified := if succeeded then Some(|p.parents|) else p.verified)
  {
    var q := p.(running := true, live := None, runs := p.runs + {run});
    var saves := SaveChoices(p, n, true, content, bytes);
    assert Next(p, BeginRun(run)) == q && SaveChoices(q, n, true, content, bytes) == saves;
    RunSnoc(p, [BeginRun(run)] + saves, FinishRun(succeeded));
    RunCons(p, BeginRun(run), saves);
    SavingAnEditPublishesIt(q, n, true, content, bytes);
    assert forall m :: m in p.savers ==> SaverAgrees(p, p.savers[m]);
    FinishIs(WithRevision(q, true, content, bytes), succeeded);
  }

  /** The end of a run without saves of its own under way. */
  lemma FinishIs(p: Project, succeeded: bool)
    requires p.running && p.live.Some? && forall m :: m in p.savers ==> !p.savers[m].own
    ensures Next(p, FinishRun(succeeded))
            == p.(running := false, live := None, verified := if succeeded then p.live else p.verified)
  {
    assert (map m | m in p.savers && !p.savers[m].own :: p.savers[m]) == p.savers;
  }

  // ----- What goes wrong -------------------------------------------------------------------------------------------

  /** The loser of two saves with one parent leaves its row pending and moves no pointer. */
  lemma LosingSavesChangeNothing(p: Project, n: nat)
    requires n in p.savers && p.savers[n].stage.Stored?
    requires var id := p.savers[n].id; id in p.rows && p.rows[id].status == Pending && p.rows[id].parent != p.saved
    ensures Next(p, Promote(n)) == Next(p, PromoteUnseen(n)) == p.(savers := p.savers - {n})
  {
  }

  /** An upload that starts after the deletion is refused before it reaches the store, and its save ends there. */
  lemma LateUploadsAreRefused(p: Project, n: nat, u: nat)
    requires !p.exists_ && u < |p.uploads| && p.uploads[u].phase.Registered?
    requires n in p.savers && p.savers[n].stage == Putting(u)
    ensures Run(p, [CheckOwner(u), Put(u, true), SeePut(n)])
            == p.(uploads := p.uploads[u := p.uploads[u].(phase := Done(false))], savers := p.savers - {n})
  {
    RunThree(p, CheckOwner(u), Put(u, true), SeePut(n));
  }

  /** A put whose end is not seen, or that fails, ends the save with its row pending; in the first case the object is there,
      so that recovery can complete the save. */
  lemma UnseenPutsEndTheSave(p: Project, n: nat, u: nat)
    requires n in p.savers && p.savers[n].stage == Putting(u) && u < |p.uploads| && p.uploads[u].phase.Passed?
    requires p.uploads[u].key !in p.store
    ensures var ended := p.(uploads := p.uploads[u := p.uploads[u].(phase := Done(false))], savers := p.savers - {n});
            && Next(Next(p, Put(u, false)), SeePut(n)) == ended.(store := p.store[p.uploads[u].key := p.uploads[u].bytes])
            && Next(Next(p, PutFails(u, false)), SeePut(n)) == ended
  {
    PutEnds(p, u);
  }

  lemma PutEnds(p: Project, u: nat)
    requires u < |p.uploads| && p.uploads[u].phase.Passed? && p.uploads[u].key !in p.store
    ensures var failed := p.(uploads := p.uploads[u := p.uploads[u].(phase := Done(false))]);
            && Next(p, Put(u, false)) == failed.(store := p.store[p.uploads[u].key := p.uploads[u].bytes])
            && Next(p, PutFails(u, false)) == failed
  {
  }

  /** An object is never overwritten: a put over other bytes fails and a put over the same bytes succeeds. */
  lemma ObjectsAreImmutable(p: Project, u: nat, seen: bool)
    requires u < |p.uploads| && p.uploads[u].phase.Passed? && p.uploads[u].key in p.store
    ensures var q := Next(p, Put(u, seen));
            q.store == p.store && q.uploads[u].phase == Done(seen && p.store[p.uploads[u].key] == p.uploads[u].bytes)
  {
  }

  /** A crash ends what was in memory: saves, runs, checks and cleanups are forgotten and unfinished uploads are over, while
      rows, objects, pointers and intents stay. */
  lemma CrashForgets(p: Project)
    ensures var q := Next(p, Crash({}));
            && q == p.(uploads := q.uploads, savers := map[], running := false, live := None, checked := None, collecting := {},
                       cleaners := map[])
            && |q.uploads| == |p.uploads|
            && forall u :: 0 <= u < |p.uploads| ==>
                 q.uploads[u] == if p.uploads[u].phase.Done? then p.uploads[u] else p.uploads[u].(phase := Done(false))
  {
    assert Strayed(p, {}) == p;
  }

  // ----- Recovery, collection and deletion -----------------------------------------------------------------------

  /** A save whose object was stored before a crash is completed if its parent is still current and no run owns the
      project; otherwise it changes nothing. */
  lemma RecoveryCompletesASave(p: Project, id: RevisionId)
    requires p.exists_ && p.checked.None? && id in p.rows && p.rows[id].status == Pending && p.Stores(id)
    ensures Run(p, [Check(id), Recover])
            == if p.rows[id].parent == p.saved && !p.running
               then p.(rows := p.rows[id := p.rows[id].(status := Ready)], saved := Some(id), promoted := p.promoted + [id])
               else p
  {
    RunTwo(p, Check(id), Recover);
  }

  /** Without its object it can only be given up. */
  lemma UnstoredSavesExpire(p: Project, id: RevisionId)
    requires p.checked.None? && id in p.rows && p.rows[id].status == Pending && !p.Stores(id)
    ensures Run(p, [Check(id), Expire(id)]) == p.(rows := p.rows[id := p.rows[id].(status := Failed)])
  {
    RunTwo(p, Check(id), Expire(id));
  }

  /** A collected revision loses its object and its row, and nothing else changes. */
  lemma CollectionRemoves(p: Project, id: RevisionId)
    requires p.exists_ && !p.running && id in p.rows && p.rows[id].status != Pending
    requires p.saved != Some(id) && p.verified != Some(id)
    ensures Run(p, [Collect({id}), EraseCollected(id), DropCollected(id)])
            == p.(rows := p.rows - {id}, store := p.store - {RevisionKey(id)}, collecting := {id})
  {
    RunThree(p, Collect({id}), EraseCollected(id), DropCollected(id));
    MarkedForCollection(p, id);
    CollectedGoes(p.(collecting := {id}, rows := p.rows[id := p.rows[id].(status := Deleting)]), id);
    assert p.rows[id := p.rows[id].(status := Deleting)] - {id} == p.rows - {id};
  }

  lemma MarkedForCollection(p: Project, id: RevisionId)
    requires p.exists_ && !p.running && id in p.rows && p.rows[id].status != Pending
    requires p.saved != Some(id) && p.verified != Some(id)
    ensures Next(p, Collect({id})) == p.(collecting := {id}, rows := p.rows[id := p.rows[id].(status := Deleting)])
  {
    var marked := map i | i in p.rows :: if i in {id} then p.rows[i].(status := Deleting) else p.rows[i];
    assert marked == p.rows[id := p.rows[id].(status := Deleting)];
  }

  lemma CollectedGoes(q: Project, id: RevisionId)
    requires q.collecting == {id} && id in q.rows && q.rows[id].status == Deleting
    ensures Next(Next(q, EraseCollected(id)), DropCollected(id)) == q.(rows := q.rows - {id}, store := q.store - {RevisionKey(id)})
  {
  }

  /** What a run may still be using is not collected. */
  lemma PointersAreNotCollected(p: Project, ids: set<RevisionId>)
    requires p.running || !p.exists_ || exists id :: id in ids && (p.saved == Some(id) || p.verified == Some(id))
    ensures Next(p, Collect(ids)) == p
  {
  }

  /** Deleting a project and cleaning a key without uploads under way leaves neither the object nor its intent, and
      leaves the other objects to their own intents. */
  lemma DeletionErases(p: Project, n: nat, key: Key)
    requires p.exists_ && !p.running && n !in p.cleaners && key in OwnedKeys(p) && Unfinished(p, key) == {}
    ensures Run(p, [Delete, StartClean(n, key), Drained(n)] + [Erase(n), Forget(n)])
            == p.(exists_ := false, saved := None, verified := None, rows := map[], runs := {},
                  doomed := OwnedKeys(p), intents := OwnedKeys(p) - {key}, store := p.store - {key})
  {
    RunAppend(p, [Delete, StartClean(n, key), Drained(n)], [Erase(n), Forget(n)]);
    RunThree(p, Delete, StartClean(n, key), Drained(n));
    DeletedIs(p);
    var d := Next(p, Delete);
    assert Unfinished(d, key) == {};
    CleaningStarts(d, n, key);
    ErasingForgets(d, p.cleaners, n, key);
  }

  lemma DeletedIs(p: Project)
    requires p.exists_ && !p.running
    ensures Next(p, Delete) == p.(exists_ := false, saved := None, verified := None, rows := map[], runs := {},
                                  doomed := OwnedKeys(p), intents := OwnedKeys(p))
  {
  }

  lemma CleaningStarts(d: Project, n: nat, key: Key)
    requires n !in d.cleaners && key in d.doomed && Unfinished(d, key) == {}
    ensures Next(Next(d, StartClean(n, key)), Drained(n)) == d.(cleaners := d.cleaners[n := Cleaner(key, Erasing)])
  {
    var e := d.(cleaners := d.cleaners[n := Cleaner(key, Draining({}))]);
    assert Next(d, StartClean(n, key)) == e;
    assert e.cleaners[n := Cleaner(key, Erasing)] == d.cleaners[n := Cleaner(key, Erasing)];
  }

  lemma ErasingForgets(d: Project, cleaners: map<nat, Cleaner>, n: nat, key: Key)
    requires n !in cleaners
    ensures Run(d.(cleaners := cleaners[n := Cleaner(key, Erasing)]), [Erase(n), Forget(n)])
            == d.(cleaners := cleaners, store := d.store - {key}, intents := d.intents - {key})
  {
    var f := d.(cleaners := cleaners[n := Cleaner(key, Erasing)]);
    RunTwo(f, Erase(n), Forget(n));
    var g := d.(cleaners := cleaners[n := Cleaner(key, Forgetting)], store := d.store - {key});
    assert f.cleaners[n := Cleaner(key, Forgetting)] == g.cleaners;
    assert Next(f, Erase(n)) == g;
    assert g.cleaners - {n} == cleaners;
  }

  /** An object is not erased while an upload that was under way for it is unfinished. */
  lemma CleaningWaits(p: Project, n: nat, u: nat)
    requires n in p.cleaners && p.cleaners[n].stage.Draining? && u in p.cleaners[n].stage.pending
    requires u < |p.uploads| && !p.uploads[u].phase.Done?
    ensures Next(p, Drained(n)) == p && Next(p, Erase(n)) == p && Next(p, Forget(n)) == p
  {
  }
}
