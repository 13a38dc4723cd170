/** What holds of checkpoints over every run: the pointers always name stored revisions, the promoted
    revisions form one chain, and a deleted object never comes back. */
module PersistenceSafety {
  import opened Wrappers
  import opened Persistence

  /** Both pointers are null or name a ready revision whose object holds the recorded bytes. */
  ghost predicate PointersHold(p: Project) {
    p.Names(p.saved) && p.Names(p.verified) && p.Names(p.live)
  }

  function Last(ids: seq<RevisionId>): Option<RevisionId> {
    if ids == [] then None else Some(ids[|ids| - 1])
  }

  /** The promoted revisions: each one's parent is the one before it, and the pointer is at the end. */
  ghost predicate OneChain(p: Project) {
    && (forall i :: 0 <= i < |p.promoted| ==> p.promoted[i] < |p.parents|)
    && (forall i :: 0 <= i < |p.promoted| ==> p.parents[p.promoted[i]] == Last(p.promoted[..i]))
    && (forall i, j :: 0 <= i < j < |p.promoted| ==> p.promoted[i] != p.promoted[j])
    && (p.exists_ ==> p.saved == Last(p.promoted))
  }

  predicate Quiet(p: Project, key: Key) {
    forall u :: 0 <= u < |p.uploads| && p.uploads[u].key == key ==> !p.uploads[u].phase.Passed?
  }

  /** No upload could still create an object under the key, and there is none, unless one put came late. */
  predicate Gone(p: Project, key: Key) {
    Quiet(p, key) && (key in p.store ==> key in p.strayed)
  }

  ghost predicate DeletedStayGone(p: Project) {
    !p.exists_ ==> forall key :: key in p.doomed && key !in p.intents ==> Gone(p, key)
  }

  // ----- Supporting facts --------------------------------------------------------------------------

  ghost predicate RowsAgree(p: Project) {
    && (forall id :: id in p.rows ==> id < |p.parents| && p.parents[id] == p.rows[id].parent)
    && (forall id :: id in p.rows && id in p.promoted ==> p.rows[id].status == Ready || p.rows[id].status == Deleting)
    && (forall id :: 0 <= id < |p.parents| && p.parents[id].Some? ==> p.parents[id].value in p.promoted)
    && (!p.exists_ ==> p.rows == map[] && p.saved.None? && p.verified.None? && !p.running && p.live.None?)
    && (!p.running ==> p.live.None?)
  }

  /** An upload for a revision carries its recorded bytes. */
  ghost predicate UploadsAgree(p: Project) {
    forall u :: 0 <= u < |p.uploads| && p.uploads[u].key.RevisionKey? ==>
      && p.uploads[u].key.id < |p.parents|
      && (p.uploads[u].key.id in p.rows ==> p.uploads[u].bytes == p.rows[p.uploads[u].key.id].bytes)
  }

  ghost predicate StoredUnlessSettled(p: Project, id: RevisionId) {
    id in p.rows && p.rows[id].status == Pending ==> p.Stores(id)
  }

  ghost predicate ReadyAreStored(p: Project) {
    forall id :: id in p.rows && p.rows[id].status == Ready ==> p.Stores(id)
  }

  /** A save carries its row's bytes for as long as there is a row, and promotes only what is stored. */
  ghost predicate SaverAgrees(p: Project, s: Saver) {
    && s.id < |p.parents| && (s.own ==> p.running)
    && (s.id in p.rows ==> p.rows[s.id].bytes == s.bytes)
    && match s.stage
       case Recorded => true
       case Putting(u) =>
         && u < |p.uploads| && p.uploads[u].key == RevisionKey(s.id)
         && (p.uploads[u].phase == Done(true) ==> StoredUnlessSettled(p, s.id))
       case Stored => StoredUnlessSettled(p, s.id)
  }

  ghost predicate SaversAgree(p: Project) {
    forall n :: n in p.savers ==> SaverAgrees(p, p.savers[n])
  }

  ghost predicate StrayedInv(p: Project) {
    forall put :: put in p.adrift ==> put.0 in p.strayed
  }

  ghost predicate MaintenanceInv(p: Project) {
    && (p.checked.Some? ==> p.checked.value < |p.parents| && StoredUnlessSettled(p, p.checked.value))
    && (forall id :: id in p.collecting ==> id < |p.parents| && (id in p.rows ==> p.rows[id].status == Deleting))
  }

  ghost predicate CleanersInv(p: Project) {
    && (p.exists_ ==> p.doomed == {} && p.intents == {})
    && forall n :: n in p.cleaners ==>
         var c := p.cleaners[n];
         && c.key in p.doomed
         && match c.stage
            case Draining(pending) =>
              forall u :: 0 <= u < |p.uploads| && p.uploads[u].key == c.key && p.uploads[u].phase.Passed? ==> u in pending
            case Erasing => Quiet(p, c.key)
            case Forgetting => Gone(p, c.key)
  }

  ghost predicate Inv(p: Project) {
    && PointersHold(p) && OneChain(p) && DeletedStayGone(p)
    && RowsAgree(p) && ReadyAreStored(p) && UploadsAgree(p) && SaversAgree(p) && MaintenanceInv(p) && CleanersInv(p)
    && StrayedInv(p)
  }

  predicate Initial(p: Project) {
    && p.saved.None? && p.verified.None? && p.rows == map[] && p.parents == [] && p.promoted == [] && p.store == map[]
    && p.uploads == [] && p.adrift == {} && p.strayed == {} && p.savers == map[] && !p.running && p.live.None? && p.checked.None? && p.collecting == {}
    && p.doomed == {} && p.intents == {} && p.cleaners == map[] && p.exists_
  }

  lemma InitialInv(p: Project)
    requires Initial(p)
    ensures Inv(p)
  {
  }

  /** Nothing about the revisions changes. */
  ghost predicate SameRevisions(p: Project, q: Project) {
    && q.exists_ == p.exists_ && q.saved == p.saved && q.verified == p.verified && q.rows == p.rows && q.parents == p.parents
    && q.promoted == p.promoted && q.running == p.running && q.live == p.live
  }

  /** Objects are only added. */
  ghost predicate KeepsObjects(p: Project, q: Project) {
    forall key :: key in p.store ==> key in q.store && q.store[key] == p.store[key]
  }

  lemma RevisionsFrame(p: Project, q: Project)
    requires PointersHold(p) && OneChain(p) && RowsAgree(p) && ReadyAreStored(p)
    requires SameRevisions(p, q) && KeepsObjects(p, q)
    ensures PointersHold(q) && OneChain(q) && RowsAgree(q) && ReadyAreStored(q)
  {
  }

  /** What the deletion of objects looks at. */
  ghost predicate SameCleaning(p: Project, q: Project) {
    && q.exists_ == p.exists_ && q.doomed == p.doomed && q.intents == p.intents && q.cleaners == p.cleaners
    && q.store == p.store && q.uploads == p.uploads && q.adrift == p.adrift && q.strayed == p.strayed
  }

  lemma CleaningFrame(p: Project, q: Project)
    requires DeletedStayGone(p) && CleanersInv(p) && StrayedInv(p) && SameCleaning(p, q)
    ensures DeletedStayGone(q) && CleanersInv(q) && StrayedInv(q)
  {
    assert forall key :: Quiet(p, key) ==> Quiet(q, key);
  }

  /** Saves, uploads and maintenance care for rows and objects only. */
  ghost predicate SameWork(p: Project, q: Project) {
    && q.rows == p.rows && q.parents == p.parents && q.uploads == p.uploads && q.store == p.store
    && q.checked == p.checked && q.collecting == p.collecting
  }

  lemma WorkFrame(p: Project, q: Project)
    requires UploadsAgree(p) && MaintenanceInv(p) && SameWork(p, q)
    ensures UploadsAgree(q) && MaintenanceInv(q)
  {
  }

  // ----- Runs ------------------------------------------------------------------------------------------

  lemma BeginRunKeepsInv(p: Project, run: nat)
    requires Inv(p)
    ensures Inv(RunStep(p, BeginRun(run)))
  {
    var q := RunStep(p, BeginRun(run));
    CleaningFrame(p, q);
    WorkFrame(p, q);
  }

  lemma FinishRunKeepsInv(p: Project, succeeded: bool)
    requires Inv(p)
    ensures Inv(RunStep(p, FinishRun(succeeded)))
  {
    var q := RunStep(p, FinishRun(succeeded));
    CleaningFrame(p, q);
    WorkFrame(p, q);
    if p.running { FinishingKeepsSavers(p, q); }
  }

  lemma FinishingKeepsSavers(p: Project, q: Project)
    requires SaversAgree(p) && SameWork(p, q)
    requires forall n :: n in q.savers ==> n in p.savers && q.savers[n] == p.savers[n] && !q.savers[n].own
    ensures SaversAgree(q)
  {
    assert forall k :: StoredUnlessSettled(p, k) ==> StoredUnlessSettled(q, k);
    forall n | n in q.savers
      ensures SaverAgrees(q, q.savers[n])
    {
      assert SaverAgrees(p, p.savers[n]);
    }
  }

  // ----- Saves -----------------------------------------------------------------------------------------

  lemma SaverFrame(p: Project, q: Project)
    requires Inv(p) && SaversAgree(q) && q == p.(savers := q.savers)
    ensures Inv(q)
  {
    RevisionsFrame(p, q);
    CleaningFrame(p, q);
    WorkFrame(p, q);
  }

  lemma DroppedKeepsInv(p: Project, n: nat)
    requires Inv(p)
    ensures Inv(Dropped(p, n))
  {
    SaverFrame(p, Dropped(p, n));
  }

  lemma LiveFrame(p: Project, live: Option<RevisionId>)
    requires Inv(p) && p.Names(live) && p.running
    ensures Inv(p.(live := live))
  {
    CleaningFrame(p, p.(live := live));
    WorkFrame(p, p.(live := live));
  }

  /** A new pending row, and the save that made it. */
  function Recording(p: Project, n: nat, own: bool, content: string, bytes: string): Project {
    p.(rows := p.rows[|p.parents| := Revision(Pending, p.saved, content, bytes)], parents := p.parents + [p.saved],
       savers := p.savers[n := Saver(|p.parents|, bytes, own, Recorded)])
  }

  lemma RecordingKeepsPointers(p: Project, n: nat, own: bool, content: string, bytes: string)
    requires PointersHold(p) && ReadyAreStored(p) && RowsAgree(p)
    ensures PointersHold(Recording(p, n, own, content, bytes)) && ReadyAreStored(Recording(p, n, own, content, bytes))
  {
    assert |p.parents| !in p.rows;
  }

  lemma RecordingKeepsChain(p: Project, n: nat, own: bool, content: string, bytes: string)
    requires OneChain(p)
    ensures OneChain(Recording(p, n, own, content, bytes))
  {
  }

  lemma RecordingKeepsRows(p: Project, n: nat, own: bool, content: string, bytes: string)
    requires OneChain(p) && RowsAgree(p) && p.exists_
    ensures RowsAgree(Recording(p, n, own, content, bytes))
  {
  }

  lemma RecordingKeepsUploads(p: Project, n: nat, own: bool, content: string, bytes: string)
    requires UploadsAgree(p) && MaintenanceInv(p)
    ensures UploadsAgree(Recording(p, n, own, content, bytes)) && MaintenanceInv(Recording(p, n, own, content, bytes))
  {
  }

  lemma RecordingKeepsSavers(p: Project, n: nat, own: bool, content: string, bytes: string)
    requires SaversAgree(p) && (own ==> p.running)
    ensures SaversAgree(Recording(p, n, own, content, bytes))
  {
  }

  lemma BeginSaveKeepsInv(p: Project, n: nat, own: bool, content: string, bytes: string)
    requires Inv(p)
    ensures Inv(SaveStep(p, BeginSave(n, own, content, bytes)))
  {
    var q := SaveStep(p, BeginSave(n, own, content, bytes));
    if p.exists_ && n !in p.savers && (own ==> p.running) {
      if q.parents == p.parents {
        if own { LiveFrame(p, p.saved); }
      } else {
        assert q == Recording(p, n, own, content, bytes);
        RecordingKeepsPointers(p, n, own, content, bytes);
        RecordingKeepsChain(p, n, own, content, bytes);
        RecordingKeepsRows(p, n, own, content, bytes);
        RecordingKeepsUploads(p, n, own, content, bytes);
        RecordingKeepsSavers(p, n, own, content, bytes);
        CleaningFrame(p, q);
      }
    }
  }

  /** A new upload changes nothing that was there. */
  lemma RegisteringKeepsUploads(p: Project, up: Upload)
    requires SaversAgree(p) && UploadsAgree(p) && MaintenanceInv(p)
    requires up.key.RevisionKey? ==>
      up.key.id < |p.parents| && (up.key.id in p.rows ==> up.bytes == p.rows[up.key.id].bytes)
    ensures var q := p.(uploads := p.uploads + [up]); SaversAgree(q) && UploadsAgree(q) && MaintenanceInv(q)
  {
    var q := p.(uploads := p.uploads + [up]);
    assert forall u :: 0 <= u < |p.uploads| ==> q.uploads[u] == p.uploads[u];
    assert forall s :: SaverAgrees(p, s) ==> SaverAgrees(q, s);
  }

  lemma RegisteringKeepsCleaners(p: Project, up: Upload)
    requires CleanersInv(p) && DeletedStayGone(p) && up.phase.Registered?
    ensures var q := p.(uploads := p.uploads + [up]); CleanersInv(q) && DeletedStayGone(q)
  {
    var q := p.(uploads := p.uploads + [up]);
    assert forall key :: Quiet(p, key) ==> Quiet(q, key);
  }

  lemma RegisteringKeepsInv(p: Project, up: Upload)
    requires Inv(p) && up.phase.Registered?
    requires up.key.RevisionKey? ==>
      up.key.id < |p.parents| && (up.key.id in p.rows ==> up.bytes == p.rows[up.key.id].bytes)
    ensures Inv(p.(uploads := p.uploads + [up]))
  {
    RevisionsFrame(p, p.(uploads := p.uploads + [up]));
    RegisteringKeepsUploads(p, up);
    RegisteringKeepsCleaners(p, up);
  }

  lemma StartPutKeepsInv(p: Project, n: nat)
    requires Inv(p)
    ensures Inv(SaveStep(p, StartPut(n)))
  {
    if n in p.savers && p.savers[n].stage.Recorded? {
      var s := p.savers[n];
      assert SaverAgrees(p, s);
      var q := p.(uploads := p.uploads + [Upload(RevisionKey(s.id), s.bytes, Registered)]);
      RegisteringKeepsInv(p, Upload(RevisionKey(s.id), s.bytes, Registered));
      SaverMoves(q, n, s.(stage := Putting(|p.uploads|)));
    }
  }

  lemma SaverMoves(p: Project, n: nat, s: Saver)
    requires Inv(p) && SaverAgrees(p, s)
    ensures Inv(p.(savers := p.savers[n := s]))
  {
    var q := p.(savers := p.savers[n := s]);
    assert forall t :: SaverAgrees(p, t) ==> SaverAgrees(q, t);
    SaverFrame(p, q);
  }

  lemma SeePutKeepsInv(p: Project, n: nat)
    requires Inv(p)
    ensures Inv(SaveStep(p, SeePut(n)))
  {
    DroppedKeepsInv(p, n);
    if n in p.savers && p.savers[n].stage.Putting? {
      var s := p.savers[n];
      assert SaverAgrees(p, s);
      if p.uploads[s.stage.upload].phase == Done(true) { SaverMoves(p, n, s.(stage := Stored)); }
    }
  }

  lemma PromotedKeepsRevisions(p: Project, id: RevisionId)
    requires Inv(p) && Promotable(p, id) && p.Stores(id)
    ensures PointersHold(Promoted(p, id)) && Promoted(p, id).Names(Some(id))
  {
    var q := Promoted(p, id);
    assert forall k :: k in p.rows ==> k in q.rows && q.rows[k].bytes == p.rows[k].bytes;
    assert q.Stores(id);
  }

  lemma PromotedKeepsChain(p: Project, id: RevisionId)
    requires OneChain(p) && RowsAgree(p) && Promotable(p, id)
    ensures OneChain(Promoted(p, id))
  {
    LongerChain(p.parents, p.promoted, id);
  }

  lemma LongerChain(parents: seq<Option<RevisionId>>, promoted: seq<RevisionId>, id: RevisionId)
    requires forall i :: 0 <= i < |promoted| ==> promoted[i] < |parents| && parents[promoted[i]] == Last(promoted[..i])
    requires id < |parents| && parents[id] == Last(promoted)
    ensures var longer := promoted + [id];
            forall i :: 0 <= i < |longer| ==> longer[i] < |parents| && parents[longer[i]] == Last(longer[..i])
  {
    var longer := promoted + [id];
    forall i | 0 <= i < |longer|
      ensures longer[i] < |parents| && parents[longer[i]] == Last(longer[..i])
    {
      assert longer[..i] == promoted[..i];
    }
    assert promoted[..|promoted|] == promoted;
  }

  lemma PromotedKeepsRows(p: Project, id: RevisionId)
    requires Inv(p) && Promotable(p, id) && p.Stores(id)
    ensures RowsAgree(Promoted(p, id)) && ReadyAreStored(Promoted(p, id))
  {
  }

  lemma PromotedKeepsSavers(p: Project, id: RevisionId)
    requires SaversAgree(p) && MaintenanceInv(p) && UploadsAgree(p) && id in p.rows && p.rows[id].status == Pending
    ensures var q := Promoted(p, id); SaversAgree(q) && MaintenanceInv(q) && UploadsAgree(q)
  {
    var q := Promoted(p, id);
    assert forall k :: StoredUnlessSettled(p, k) ==> StoredUnlessSettled(q, k);
    assert forall s :: SaverAgrees(p, s) ==> SaverAgrees(q, s);
  }

  lemma PromotedKeepsInv(p: Project, id: RevisionId)
    requires Inv(p) && Promotable(p, id) && p.Stores(id)
    ensures Inv(Promoted(p, id))
    ensures Promoted(p, id).Names(Some(id))
  {
    PromotedKeepsRevisions(p, id);
    PromotedKeepsChain(p, id);
    PromotedKeepsRows(p, id);
    PromotedKeepsSavers(p, id);
    CleaningFrame(p, Promoted(p, id));
  }

  /** Whether a save's promotion succeeds, and what it then is. */
  lemma PublishedIs(p: Project, n: nat)
    requires n in p.savers
    ensures var s, q := p.savers[n], Dropped(p, n);
            Published(p, n) == if Promotable(p, s.id) then (if s.own then Promoted(q, s.id).(live := Some(s.id)) else Promoted(q, s.id))
                               else if s.id in p.rows && p.rows[s.id].status == Ready && s.own then q.(live := Some(s.id))
                               else q
  {
  }

  lemma PromoteKeepsInv(p: Project, n: nat)
    requires Inv(p)
    ensures Inv(SaveStep(p, Promote(n)))
  {
    if n in p.savers && p.savers[n].stage.Stored? {
      StoredSaveKeepsInv(p, n);
      PublishedIs(p, n);
      assert SaveStep(p, Promote(n)) == Published(p, n);
    }
  }

  lemma PromoteUnseenKeepsInv(p: Project, n: nat)
    requires Inv(p)
    ensures Inv(SaveStep(p, PromoteUnseen(n)))
  {
    if n in p.savers && p.savers[n].stage.Stored? {
      StoredSaveKeepsInv(p, n);
    }
  }

  lemma StoredSaveKeepsInv(p: Project, n: nat)
    requires Inv(p) && n in p.savers && p.savers[n].stage.Stored?
    ensures var s, q := p.savers[n], Dropped(p, n);
            && Inv(q)
            && (Promotable(p, s.id) ==> Inv(Promoted(q, s.id)) && (s.own ==> Inv(Promoted(q, s.id).(live := Some(s.id)))))
            && (s.id in p.rows && p.rows[s.id].status == Ready && s.own ==> Inv(q.(live := Some(s.id))))
  {
    SavedIsStored(p, n);
    DroppedKeepsInv(p, n);
    PublishingKeepsInv(Dropped(p, n), p.savers[n]);
  }

  lemma SavedIsStored(p: Project, n: nat)
    requires SaversAgree(p) && n in p.savers && p.savers[n].stage.Stored?
    ensures StoredUnlessSettled(p, p.savers[n].id) && StoredUnlessSettled(Dropped(p, n), p.savers[n].id)
    ensures p.savers[n].own ==> p.running
  {
    assert SaverAgrees(p, p.savers[n]);
  }

  lemma PublishingKeepsInv(p: Project, s: Saver)
    requires Inv(p) && StoredUnlessSettled(p, s.id) && (s.own ==> p.running)
    ensures Promotable(p, s.id) ==> Inv(Promoted(p, s.id)) && (s.own ==> Inv(Promoted(p, s.id).(live := Some(s.id))))
    ensures s.id in p.rows && p.rows[s.id].status == Ready && s.own ==> Inv(p.(live := Some(s.id)))
  {
    if Promotable(p, s.id) {
      PromotedKeepsInv(p, s.id);
      if s.own { LiveFrame(Promoted(p, s.id), Some(s.id)); }
    } else if s.id in p.rows && p.rows[s.id].status == Ready && s.own {
      LiveFrame(p, Some(s.id));
    }
  }

  lemma CheckOwnerKeepsInv(p: Project, u: nat)
    requires Inv(p)
    ensures Inv(UploadStep(p, CheckOwner(u)))
  {
    if u < |p.uploads| && p.uploads[u].phase.Registered? {
      RevisionsFrame(p, SetPhase(p, u, if p.exists_ then Passed else Done(false)));
      CheckOwnerKeepsUploads(p, u);
      CheckOwnerKeepsCleaners(p, u);
    }
  }

  /** An upload that moves on without having put anything. */
  lemma PhaseKeepsSaver(p: Project, u: nat, phase: Phase, s: Saver)
    requires u < |p.uploads| && phase != Done(true) && SaverAgrees(p, s)
    ensures SaverAgrees(SetPhase(p, u, phase), s)
  {
  }

  lemma CheckOwnerKeepsUploads(p: Project, u: nat)
    requires SaversAgree(p) && UploadsAgree(p) && MaintenanceInv(p)
    ensures var q := UploadStep(p, CheckOwner(u)); SaversAgree(q) && UploadsAgree(q) && MaintenanceInv(q)
  {
    if u < |p.uploads| && p.uploads[u].phase.Registered? {
      var phase := if p.exists_ then Passed else Done(false);
      forall n | n in p.savers
        ensures SaverAgrees(SetPhase(p, u, phase), p.savers[n])
      {
        PhaseKeepsSaver(p, u, phase, p.savers[n]);
      }
      PhaseKeepsUploads(p, u, phase);
    }
  }

  lemma PhaseKeepsUploads(p: Project, u: nat, phase: Phase)
    requires u < |p.uploads| && UploadsAgree(p) && MaintenanceInv(p)
    ensures UploadsAgree(SetPhase(p, u, phase)) && MaintenanceInv(SetPhase(p, u, phase))
  {
  }

  /** Once the project is deleted, no upload passes the owner check any more. */
  lemma CheckOwnerKeepsCleaners(p: Project, u: nat)
    requires CleanersInv(p) && DeletedStayGone(p)
    ensures CleanersInv(UploadStep(p, CheckOwner(u))) && DeletedStayGone(UploadStep(p, CheckOwner(u)))
  {
  }

  /** `q` is `p` after upload `u` was put: an existing object is kept, and success means the object
      now holds the uploaded bytes. */
  ghost predicate WasPut(p: Project, u: nat, q: Project)
    requires u < |p.uploads|
  {
    && q == p.(uploads := q.uploads, store := q.store) && |q.uploads| == |p.uploads|
    && (forall v :: 0 <= v < |p.uploads| && v != u ==> q.uploads[v] == p.uploads[v])
    && q.uploads[u].key == p.uploads[u].key && q.uploads[u].bytes == p.uploads[u].bytes && q.uploads[u].phase.Done?
    && KeepsObjects(p, q)
    && (forall key :: key in q.store ==> key in p.store || key == p.uploads[u].key)
    && (q.uploads[u].phase.ok ==> p.uploads[u].key in q.store && q.store[p.uploads[u].key] == p.uploads[u].bytes)
  }

  lemma PutFacts(p: Project, u: nat, seen: bool)
    requires u < |p.uploads|
    ensures WasPut(p, u, PutObject(p, u, seen))
  {
    var q, key := PutObject(p, u, seen), p.uploads[u].key;
    if key in p.store {
      assert q.store == p.store;
    } else {
      assert q.store == p.store[key := p.uploads[u].bytes];
    }
  }

  lemma WasPutKeepsStored(p: Project, u: nat, q: Project, k: RevisionId)
    requires u < |p.uploads| && WasPut(p, u, q) && StoredUnlessSettled(p, k)
    ensures StoredUnlessSettled(q, k)
  {
  }

  lemma WasPutKeepsSavers(p: Project, u: nat, q: Project)
    requires u < |p.uploads| && WasPut(p, u, q) && SaversAgree(p) && UploadsAgree(p) && MaintenanceInv(p)
    ensures SaversAgree(q) && UploadsAgree(q) && MaintenanceInv(q)
  {
    forall k | StoredUnlessSettled(p, k)
      ensures StoredUnlessSettled(q, k)
    {
      WasPutKeepsStored(p, u, q, k);
    }
    forall s | SaverAgrees(p, s)
      ensures SaverAgrees(q, s)
    {
      WasPutKeepsSaver(p, u, q, s);
    }
  }

  lemma WasPutKeepsSaver(p: Project, u: nat, q: Project, s: Saver)
    requires u < |p.uploads| && WasPut(p, u, q) && SaverAgrees(p, s) && UploadsAgree(p)
    ensures SaverAgrees(q, s)
  {
    if StoredUnlessSettled(p, s.id) { WasPutKeepsStored(p, u, q, s.id); }
  }

  lemma WasPutKeepsCleaners(p: Project, u: nat, q: Project)
    requires u < |p.uploads| && p.uploads[u].phase.Passed? && WasPut(p, u, q) && CleanersInv(p) && DeletedStayGone(p)
    ensures CleanersInv(q) && DeletedStayGone(q)
  {
    assert forall key :: Quiet(p, key) ==> Quiet(q, key) && key != p.uploads[u].key;
  }

  lemma WasPutKeepsInv(p: Project, u: nat, q: Project)
    requires Inv(p) && u < |p.uploads| && p.uploads[u].phase.Passed? && WasPut(p, u, q)
    ensures Inv(q)
  {
    RevisionsFrame(p, q);
    WasPutKeepsSavers(p, u, q);
    WasPutKeepsCleaners(p, u, q);
  }

  lemma PutKeepsInv(p: Project, u: nat, seen: bool)
    requires Inv(p)
    ensures Inv(UploadStep(p, Put(u, seen)))
  {
    if u < |p.uploads| && p.uploads[u].phase.Passed? {
      PutFacts(p, u, seen);
      WasPutKeepsInv(p, u, PutObject(p, u, seen));
    }
  }

  /** Puts that lose their client are remembered; nothing else changes. */
  lemma StrayedKeepsInv(p: Project, late: set<nat>)
    requires Inv(p)
    ensures Inv(Strayed(p, late))
  {
    var q := Strayed(p, late);
    RevisionsFrame(p, q);
    WorkFrame(p, q);
    assert forall s :: SaverAgrees(p, s) ==> SaverAgrees(q, s);
    StrayedKeepsCleaners(p, late);
  }

  lemma StrayedKeepsCleaners(p: Project, late: set<nat>)
    requires DeletedStayGone(p) && CleanersInv(p) && StrayedInv(p)
    ensures DeletedStayGone(Strayed(p, late)) && CleanersInv(Strayed(p, late)) && StrayedInv(Strayed(p, late))
  {
    assert forall key :: Quiet(p, key) ==> Quiet(Strayed(p, late), key);
  }

  lemma PutFailsKeepsInv(p: Project, u: nat, late: bool)
    requires Inv(p)
    ensures Inv(UploadStep(p, PutFails(u, late)))
  {
    if u < |p.uploads| && p.uploads[u].phase.Passed? {
      StrayedKeepsInv(p, {u});
      var q := if late then Strayed(p, {u}) else p;
      WasPutKeepsInv(q, u, SetPhase(q, u, Done(false)));
    }
  }

  /** A late put is like any other, except that its key is known to have strayed. */
  lemma ArriveKeepsInv(p: Project, key: Key, bytes: string)
    requires Inv(p)
    ensures Inv(UploadStep(p, Arrive(key, bytes)))
  {
    if (key, bytes) in p.adrift {
      var put := (key, bytes);
      assert put.0 in p.strayed;
      var store := if key in p.store then p.store else p.store[key := bytes];
      ArriveKeepsObjects(p, p.(adrift := p.adrift - {put}, store := store));
    }
  }

  lemma SinkKeepsInv(p: Project, key: Key, bytes: string)
    requires Inv(p)
    ensures Inv(UploadStep(p, Sink(key, bytes)))
  {
    ArriveKeepsObjects(p, UploadStep(p, Sink(key, bytes)));
  }

  lemma ArriveKeepsObjects(p: Project, q: Project)
    requires Inv(p) && q == p.(adrift := q.adrift, store := q.store) && q.adrift <= p.adrift && KeepsObjects(p, q)
    requires forall key :: key in q.store ==> key in p.store || key in p.strayed
    ensures Inv(q)
  {
    RevisionsFrame(p, q);
    assert forall k :: StoredUnlessSettled(p, k) ==> StoredUnlessSettled(q, k);
    assert forall s :: SaverAgrees(p, s) ==> SaverAgrees(q, s);
    ArriveKeepsCleaners(p, q);
  }

  lemma ArriveKeepsCleaners(p: Project, q: Project)
    requires DeletedStayGone(p) && CleanersInv(p) && q == p.(adrift := q.adrift, store := q.store)
    requires forall key :: key in q.store ==> key in p.store || key in p.strayed
    ensures DeletedStayGone(q) && CleanersInv(q)
  {
    assert forall key :: Quiet(p, key) ==> Quiet(q, key);
  }

  lemma StartLogPutKeepsInv(p: Project, run: nat, bytes: string)
    requires Inv(p)
    ensures Inv(UploadStep(p, StartLogPut(run, bytes)))
  {
    RegisteringKeepsInv(p, Upload(LogKey(run), bytes, Registered));
  }

  lemma UncheckedKeepsInv(p: Project)
    requires Inv(p)
    ensures Inv(p.(checked := None))
  {
    RevisionsFrame(p, p.(checked := None));
    CleaningFrame(p, p.(checked := None));
  }

  lemma RecoverKeepsInv(p: Project)
    requires Inv(p)
    ensures Inv(MaintenanceStep(p, Recover))
  {
    UncheckedKeepsInv(p);
    if p.checked.Some? && Promotable(p, p.checked.value) && !p.running {
      PromotedKeepsInv(p.(checked := None), p.checked.value);
    }
  }

  /** A pending row that has become failed is in no one's way. */
  lemma ExpireKeepsRevisions(p: Project, id: RevisionId)
    requires PointersHold(p) && RowsAgree(p) && ReadyAreStored(p) && id in p.rows && p.rows[id].status == Pending
    ensures var q := SetStatus(p, id, Failed); PointersHold(q) && ReadyAreStored(q)
  {
    var q := SetStatus(p, id, Failed);
    assert forall k :: k in p.rows && k != id ==> q.rows[k] == p.rows[k];
  }

  lemma ExpireKeepsRows(p: Project, id: RevisionId)
    requires OneChain(p) && RowsAgree(p) && UploadsAgree(p) && id in p.rows && p.rows[id].status == Pending
    ensures var q := SetStatus(p, id, Failed); OneChain(q) && RowsAgree(q) && UploadsAgree(q)
  {
  }

  lemma ExpireKeepsTheRest(p: Project, id: RevisionId)
    requires SaversAgree(p) && MaintenanceInv(p) && CleanersInv(p) && DeletedStayGone(p) && id in p.rows && p.rows[id].status == Pending
    ensures var q := SetStatus(p, id, Failed); SaversAgree(q) && MaintenanceInv(q) && CleanersInv(q) && DeletedStayGone(q)
  {
    var q := SetStatus(p, id, Failed);
    assert forall k :: StoredUnlessSettled(p, k) ==> StoredUnlessSettled(q, k);
    assert forall key :: Gone(p, key) ==> Gone(q, key);
  }

  lemma ExpireKeepsInv(p: Project, id: RevisionId)
    requires Inv(p)
    ensures Inv(MaintenanceStep(p, Expire(id)))
  {
    if id in p.rows && p.rows[id].status == Pending {
      ExpireKeepsRevisions(p, id);
      ExpireKeepsRows(p, id);
      ExpireKeepsTheRest(p, id);
    }
  }

  lemma CheckKeepsInv(p: Project, id: RevisionId)
    requires Inv(p)
    ensures Inv(MaintenanceStep(p, Check(id)))
  {
  }

  /** Marking rows for deletion changes nothing else. */
  ghost predicate Marked(p: Project, ids: set<RevisionId>, q: Project) {
    && q == p.(collecting := ids, rows := q.rows) && q.rows.Keys == p.rows.Keys
    && (forall id :: id in p.rows ==> q.rows[id] == if id in ids then p.rows[id].(status := Deleting) else p.rows[id])
    && (forall id :: id in ids ==> id in p.rows && p.rows[id].status != Pending && p.saved != Some(id) && p.verified != Some(id))
  }

  lemma MarkedKeepsRevisions(p: Project, ids: set<RevisionId>, q: Project)
    requires PointersHold(p) && RowsAgree(p) && ReadyAreStored(p) && Marked(p, ids, q) && !p.running
    ensures PointersHold(q) && ReadyAreStored(q)
  {
  }

  lemma MarkedKeepsRows(p: Project, ids: set<RevisionId>, q: Project)
    requires RowsAgree(p) && OneChain(p) && Marked(p, ids, q)
    ensures RowsAgree(q) && OneChain(q)
  {
  }

  lemma MarkedKeepsTheRest(p: Project, ids: set<RevisionId>, q: Project)
    requires RowsAgree(p) && UploadsAgree(p) && SaversAgree(p) && MaintenanceInv(p) && Marked(p, ids, q)
    ensures UploadsAgree(q) && SaversAgree(q) && MaintenanceInv(q)
  {
    assert forall k :: StoredUnlessSettled(p, k) ==> StoredUnlessSettled(q, k);
  }

  lemma MarkedKeepsCleaners(p: Project, ids: set<RevisionId>, q: Project)
    requires DeletedStayGone(p) && CleanersInv(p) && Marked(p, ids, q)
    ensures DeletedStayGone(q) && CleanersInv(q)
  {
    assert forall key :: Gone(p, key) ==> Gone(q, key);
  }

  lemma CollectKeepsInv(p: Project, ids: set<RevisionId>)
    requires Inv(p)
    ensures Inv(MaintenanceStep(p, Collect(ids)))
  {
    var q := MaintenanceStep(p, Collect(ids));
    if q != p {
      assert Marked(p, ids, q);
      MarkedKeepsRevisions(p, ids, q);
      MarkedKeepsRows(p, ids, q);
      MarkedKeepsTheRest(p, ids, q);
      MarkedKeepsCleaners(p, ids, q);
    }
  }

  lemma EraseCollectedKeepsPointers(p: Project, id: RevisionId)
    requires PointersHold(p) && ReadyAreStored(p) && MaintenanceInv(p) && id in p.collecting
    ensures PointersHold(p.(store := p.store - {RevisionKey(id)})) && ReadyAreStored(p.(store := p.store - {RevisionKey(id)}))
  {
  }

  lemma EraseCollectedKeepsCleaners(p: Project, id: RevisionId)
    requires DeletedStayGone(p) && CleanersInv(p)
    ensures var q := p.(store := p.store - {RevisionKey(id)}); DeletedStayGone(q) && CleanersInv(q)
  {
    assert forall key :: Gone(p, key) ==> Gone(p.(store := p.store - {RevisionKey(id)}), key);
  }

  lemma EraseCollectedKeepsSaver(p: Project, id: RevisionId)
    requires SaversAgree(p) && MaintenanceInv(p) && id in p.collecting
    ensures SaversAgree(p.(store := p.store - {RevisionKey(id)})) && MaintenanceInv(p.(store := p.store - {RevisionKey(id)}))
  {
    var q := p.(store := p.store - {RevisionKey(id)});
    assert forall k :: StoredUnlessSettled(p, k) ==> StoredUnlessSettled(q, k);
  }

  lemma StoreIsNotInRows(p: Project, store: map<Key, string>)
    requires OneChain(p) && RowsAgree(p) && UploadsAgree(p)
    ensures OneChain(p.(store := store)) && RowsAgree(p.(store := store)) && UploadsAgree(p.(store := store))
  {
  }

  lemma EraseCollectedKeepsInv(p: Project, id: RevisionId)
    requires Inv(p)
    ensures Inv(MaintenanceStep(p, EraseCollected(id)))
  {
    if id in p.collecting {
      EraseCollectedKeepsPointers(p, id);
      EraseCollectedKeepsCleaners(p, id);
      EraseCollectedKeepsSaver(p, id);
      StoreIsNotInRows(p, p.store - {RevisionKey(id)});
      assert MaintenanceStep(p, EraseCollected(id)) == p.(store := p.store - {RevisionKey(id)});
    }
  }

  lemma DropCollectedKeepsPointers(p: Project, id: RevisionId)
    requires Inv(p) && id in p.rows && p.rows[id].status == Deleting
    ensures PointersHold(p.(rows := p.rows - {id}))
  {
    var q := p.(rows := p.rows - {id});
    assert forall k :: k in p.rows && k != id ==> k in q.rows && q.rows[k] == p.rows[k];
  }

  lemma DropCollectedKeepsRows(p: Project, id: RevisionId)
    requires OneChain(p) && RowsAgree(p) && UploadsAgree(p) && ReadyAreStored(p)
    ensures var q := p.(rows := p.rows - {id}); OneChain(q) && RowsAgree(q) && UploadsAgree(q) && ReadyAreStored(q)
  {
  }

  lemma DropCollectedKeepsSavers(p: Project, id: RevisionId)
    requires SaversAgree(p) && MaintenanceInv(p)
    ensures var q := p.(rows := p.rows - {id}); SaversAgree(q) && MaintenanceInv(q)
  {
    var q := p.(rows := p.rows - {id});
    assert forall k :: StoredUnlessSettled(p, k) ==> StoredUnlessSettled(q, k);
  }

  lemma DropCollectedKeepsInv(p: Project, id: RevisionId)
    requires Inv(p)
    ensures Inv(MaintenanceStep(p, DropCollected(id)))
  {
    if id in p.collecting && id in p.rows && p.rows[id].status == Deleting {
      DropCollectedKeepsPointers(p, id);
      DropCollectedKeepsRows(p, id);
      DropCollectedKeepsSavers(p, id);
      CleaningFrame(p, p.(rows := p.rows - {id}));
    }
  }

  lemma CleanersFrame(p: Project, q: Project)
    requires Inv(p) && q == p.(cleaners := q.cleaners) && CleanersInv(q)
    ensures Inv(q)
  {
    RevisionsFrame(p, q);
    WorkFrame(p, q);
  }

  lemma StartedCleaner(p: Project, n: nat, key: Key)
    requires CleanersInv(p) && key in p.doomed
    ensures CleanersInv(p.(cleaners := p.cleaners[n := Cleaner(key, Draining(Unfinished(p, key)))]))
  {
    var q := p.(cleaners := p.cleaners[n := Cleaner(key, Draining(Unfinished(p, key)))]);
    assert forall k :: Quiet(p, k) ==> Quiet(q, k);
  }

  lemma StartCleanKeepsInv(p: Project, n: nat, key: Key)
    requires Inv(p)
    ensures Inv(CleanStep(p, StartClean(n, key)))
  {
    if key in p.doomed && n !in p.cleaners {
      StartedCleaner(p, n, key);
      CleanersFrame(p, CleanStep(p, StartClean(n, key)));
    }
  }

  lemma DrainedCleaner(p: Project, n: nat)
    requires CleanersInv(p)
    ensures CleanersInv(CleanStep(p, Drained(n)))
  {
    var q := CleanStep(p, Drained(n));
    assert forall k :: Quiet(p, k) ==> Quiet(q, k);
  }

  lemma DrainedKeepsInv(p: Project, n: nat)
    requires Inv(p)
    ensures Inv(CleanStep(p, Drained(n)))
  {
    DrainedCleaner(p, n);
    CleanersFrame(p, CleanStep(p, Drained(n)));
  }

  lemma EraseKeepsInv(p: Project, n: nat)
    requires Inv(p)
    ensures Inv(CleanStep(p, Erase(n)))
  {
  }

  lemma ForgetKeepsInv(p: Project, n: nat)
    requires Inv(p)
    ensures Inv(CleanStep(p, Forget(n)))
  {
    RevisionsFrame(p, CleanStep(p, Forget(n)));
    WorkFrame(p, CleanStep(p, Forget(n)));
  }

  lemma CleanFailsKeepsInv(p: Project, n: nat)
    requires Inv(p)
    ensures Inv(CleanStep(p, CleanFails(n)))
  {
    FailedCleaner(p, n);
    CleanersFrame(p, p.(cleaners := p.cleaners - {n}));
  }

  lemma FailedCleaner(p: Project, n: nat)
    requires CleanersInv(p)
    ensures CleanersInv(p.(cleaners := p.cleaners - {n}))
  {
  }

  lemma DeleteKeepsInv(p: Project)
    requires Inv(p)
    ensures Inv(Next(p, Delete))
  {
  }

  lemma CrashKeepsInv(p: Project, stray: set<nat>)
    requires Inv(p)
    ensures Inv(Next(p, Crash(stray)))
  {
    var q := Strayed(p, stray);
    StrayedKeepsInv(p, stray);
    CrashedKeepsInv(q, Next(p, Crash(stray)));
  }

  /** Every upload is over and nobody waits for one. */
  lemma CrashedKeepsInv(p: Project, q: Project)
    requires Inv(p) && |q.uploads| == |p.uploads|
    requires forall u :: 0 <= u < |p.uploads| ==>
      q.uploads[u].key == p.uploads[u].key && q.uploads[u].bytes == p.uploads[u].bytes && q.uploads[u].phase.Done?
    requires q == p.(uploads := q.uploads, savers := map[], running := false, live := None, checked := None,
                     collecting := {}, cleaners := map[])
    ensures Inv(q)
  {
    assert forall key :: Quiet(q, key);
  }
}
