/** The transactions of `agent/persistence.py` and `main.py`, and the table of running uploads, as the code writes
    them; each is proved to be the step of `Persistence` that the safety proofs speak about. */
module PersistenceCode {
  import opened Wrappers
  import opened Persistence

  datatype PromoteResult = Current | Removed | ParentChanged | Deferred

  datatype DeleteError = NotFound | Busy

  /** A project's database rows; `rest` is what the transactions do not touch. */
  class Chat {
    var alive: bool
    var saved: Option<RevisionId>
    var verified: Option<RevisionId>
    var rows: map<RevisionId, Revision>
    var parents: seq<Option<RevisionId>>
    var promoted: seq<RevisionId>
    var runs: set<nat>
    var doomed: set<Key>
    var intents: set<Key>
    var running: bool
    var rest: Project

    ghost function State(): Project
      reads this
    {
      rest.(exists_ := alive, saved := saved, verified := verified, rows := rows, parents := parents, promoted := promoted,
            runs := runs, doomed := doomed, intents := intents, running := running)
    }

    /** `promote`: the pointer moves only from the revision's parent. */
    method Promote(id: RevisionId, recovery: bool) returns (r: PromoteResult)
      modifies this`rows, this`saved, this`promoted
      ensures r == Current <==> id in old(rows) && (old(rows)[id].status == Status.Ready
                                                 || (Promotable(old(State()), id) && !(recovery && running)))
      ensures State() == if r == Current && old(rows)[id].status != Status.Ready then Promoted(old(State()), id) else old(State())
      ensures r == Current ==> rows[id].status == Status.Ready
      ensures r == Deferred ==> recovery && running && Promotable(old(State()), id)
    {
      if id !in rows { return Removed; }
      var revision := rows[id];
      if revision.status == Status.Ready { return Current; }
      if !alive || revision.status != Pending || saved != revision.parent { return ParentChanged; }
      if recovery && running { return Deferred; }
      rows := rows[id := revision.(status := Status.Ready)];
      saved := Some(id);
      promoted := promoted + [id];
      r := Current;
    }

    /** The first transaction of `save_revision`: a pending row whose parent is the current revision, unless the
        current revision has the same content. */
    method Record(n: nat, own: bool, content: string, bytes: string) returns (r: Result<Option<RevisionId>, ()>)
      requires n !in rest.savers && (own ==> running)
      modifies this`rows, this`parents, this`rest
      ensures r.Err? <==> !alive
      ensures State() == if alive then Saving(old(State()), n, own, content, bytes) else old(State())
      ensures r.Ok? ==>
        (r.value.None? <==> saved.Some? && saved.value in old(rows) && old(rows)[saved.value].status == Status.Ready
                            && old(rows)[saved.value].content == content)
      ensures r.Err? || r.value.None? ==> rows == old(rows) && parents == old(parents)
      ensures r.Ok? && r.value.None? ==> rest == if own then old(rest).(live := saved) else old(rest)
      ensures r.Ok? && r.value.Some? ==> parents == old(parents) + [saved]
      ensures r.Ok? && r.value.Some? ==>
        && rest.savers == old(rest.savers)[n := Saver(r.value.value, bytes, own, Recorded)]
        && rows == old(rows)[r.value.value := Revision(Pending, saved, content, bytes)] && r.value.value == |old(parents)|
    {
      if !alive { return Err(()); }
      SavingIs(State(), n, own, content, bytes);
      if saved.Some? && saved.value in rows && rows[saved.value].status == Status.Ready && rows[saved.value].content == content {
        if own { rest := rest.(live := saved); }
        return Ok(None);
      }
      var next := AddPending(n, own, content, bytes);
      r := Ok(Some(next));
    }

    /** The row of a new revision; its archive is still to be stored. */
    method AddPending(n: nat, own: bool, content: string, bytes: string) returns (next: RevisionId)
      modifies this`rows, this`parents, this`rest
      ensures next == |old(parents)| && parents == old(parents) + [saved]
      ensures rows == old(rows)[next := Revision(Pending, saved, content, bytes)]
      ensures rest == old(rest).(savers := old(rest).savers[n := Saver(next, bytes, own, Recorded)])
    {
      next := |parents|;
      rows := rows[next := Revision(Pending, saved, content, bytes)];
      parents := parents + [saved];
      rest := rest.(savers := rest.savers[n := Saver(next, bytes, own, Recorded)]);
    }

    /** The transaction of `delete_project`: every key that a row or a run may own is queued before the rows go. */
    method Delete() returns (r: Result<set<Key>, DeleteError>)
      modifies this`alive, this`saved, this`verified, this`rows, this`runs, this`doomed, this`intents
      ensures r == if !old(alive) then Err(NotFound) else if running then Err(Busy) else Ok(old(OwnedKeys(State())))
      ensures State() == if r.Ok? then Deleted(old(State())) else old(State())
      ensures r.Ok? ==> intents == r.value && rest.savers == old(rest.savers)
    {
      if !alive { return Err(NotFound); }
      if running { return Err(Busy); }
      var revisionKeys := RevisionKeys();
      var runKeys := RunKeys();
      var keys := revisionKeys + runKeys;
      assert keys == OwnedKeys(State());
      alive, saved, verified, rows, runs := false, None, None, map[], {};
      doomed, intents := keys, keys;
      r := Ok(keys);
    }

    method RevisionKeys() returns (keys: set<Key>)
      ensures keys == set id | id in rows :: RevisionKey(id)
    {
      keys := {};
      var todo := rows.Keys;
      while todo != {}
        invariant todo <= rows.Keys
        invariant keys == set id | id in rows.Keys - todo :: RevisionKey(id)
        decreases todo
      {
        var id :| id in todo;
        todo := todo - {id};
        keys := keys + {RevisionKey(id)};
      }
    }

    /** Archives still being uploaded included. */
    method RunKeys() returns (keys: set<Key>)
      ensures keys == set run | run in runs :: LogKey(run)
    {
      keys := {};
      var todo := runs;
      while todo != {}
        invariant todo <= runs
        invariant keys == set run | run in runs - todo :: LogKey(run)
        decreases todo
      {
        var run :| run in todo;
        todo := todo - {run};
        keys := keys + {LogKey(run)};
      }
    }
  }

  lemma SavingIs(p: Project, n: nat, own: bool, content: string, bytes: string)
    ensures Saving(p, n, own, content, bytes)
            == if p.saved.Some? && p.saved.value in p.rows && p.rows[p.saved.value].status == Status.Ready
                  && p.rows[p.saved.value].content == content
               then if own then p.(live := p.saved) else p
               else
                 var id := |p.parents|;
                 p.(rows := p.rows[id := Revision(Pending, p.saved, content, bytes)], parents := p.parents + [p.saved],
                    savers := p.savers[n := Saver(id, bytes, own, Recorded)])
  {
  }

  // ----- Tracked uploads ----------------------------------------------------------------------------------------

  /** `_uploads`: for each key, its unfinished tasks, in the order of their creation. No key is kept for nothing. */
  class Tracker {
    var table: map<Key, set<nat>>
    var uploads: seq<Upload>
    var rest: Project

    ghost function State(): Project
      reads this
    {
      rest.(uploads := uploads)
    }

    /** The table lists exactly the unfinished uploads. */
    ghost predicate Valid()
      reads this
    {
      && (forall key :: key in table ==> table[key] != {})
      && (forall key :: (if key in table then table[key] else {}) == Unfinished(State(), key))
    }

    /** `put_object` registers its task before anything else can happen. */
    method Register(key: Key, bytes: string) returns (task: nat)
      requires Valid()
      modifies this`table, this`uploads
      ensures Valid() && task == |old(uploads)| && uploads == old(uploads) + [Upload(key, bytes, Registered)]
    {
      task := |uploads|;
      ghost var before := State();
      uploads := uploads + [Upload(key, bytes, Registered)];
      UnfinishedAfterRegister(before, Upload(key, bytes, Registered));
      var pending := if key in table then table[key] else {};
      table := table[key := pending + {task}];
    }

    /** The task's callback: it leaves the table, and so does its key once nothing is pending. */
    method Finished(task: nat, ok: bool)
      requires Valid() && task < |uploads| && !uploads[task].phase.Done?
      modifies this`table, this`uploads
      ensures Valid() && State() == SetPhase(old(State()), task, Done(ok))
    {
      ghost var before := State();
      var key := uploads[task].key;
      assert task in Unfinished(before, key);
      UnfinishedAfterFinish(before, task, ok);
      uploads := uploads[task := uploads[task].(phase := Done(ok))];
      var pending := table[key] - {task};
      table := if pending == {} then table - {key} else table[key := pending];
    }

    /** What `wait_for_uploads` waits for is what `StartClean` has to drain. */
    method Pending(key: Key) returns (pending: set<nat>)
      requires Valid()
      ensures pending == Unfinished(State(), key)
    {
      pending := if key in table then table[key] else {};
    }
  }

  lemma UnfinishedAfterRegister(p: Project, up: Upload)
    requires !up.phase.Done?
    ensures forall key :: Unfinished(p.(uploads := p.uploads + [up]), key)
                          == Unfinished(p, key) + (if key == up.key then {|p.uploads|} else {})
  {
  }

  lemma UnfinishedAfterFinish(p: Project, u: nat, ok: bool)
    requires u < |p.uploads|
    ensures forall key :: Unfinished(SetPhase(p, u, Done(ok)), key) == Unfinished(p, key) - {u}
  {
  }
}
