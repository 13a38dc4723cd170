/** The loops of `agent/maintenance.py`: which revisions are collected, and how deletion intents are retried. */
module Maintenance {
  import opened Wrappers
  import P = Persistence

  const HOUR: nat := 3600
  const KEPT: nat := 5

  /** A revision row as the collection loop sees it; `age` is in seconds. */
  datatype Row = Row(id: nat, status: P.Status, age: nat)

  function ReadyCount(rows: seq<Row>): (n: nat)
    ensures n <= |rows|
  {
    if rows == [] then 0
    else ReadyCount(rows[..|rows| - 1]) + (if rows[|rows| - 1].status == P.Ready then 1 else 0)
  }

  /** Row `i` of the newest-first list is neither pending, recent, pointed to, nor among the newest five ready ones. */
  predicate Collectable(rows: seq<Row>, i: nat, saved: Option<nat>, verified: Option<nat>)
    requires i < |rows|
  {
    var row := rows[i];
    && row.status != P.Pending && row.age >= HOUR
    && saved != Some(row.id) && verified != Some(row.id)
    && !(row.status == P.Ready && ReadyCount(rows[..i]) < KEPT)
  }

  /** The ids to delete among the first `n` rows, in order. */
  function Collected(rows: seq<Row>, n: nat, saved: Option<nat>, verified: Option<nat>): seq<nat>
    requires n <= |rows|
  {
    if n == 0 then []
    else
      Collected(rows, n - 1, saved, verified)
      + (if Collectable(rows, n - 1, saved, verified) then [rows[n - 1].id] else [])
  }

  predicate DistinctIds(rows: seq<Row>) {
    forall i, j :: 0 <= i < j < |rows| ==> rows[i].id != rows[j].id
  }

  /** The newest `KEPT` ready revisions, and the two pointers. */
  method Keepers(rows: array<Row>, saved: Option<nat>, verified: Option<nat>) returns (keep: set<nat>)
    requires DistinctIds(rows[..])
    ensures forall i :: 0 <= i < rows.Length ==>
      (rows[i].id in keep <==>
        (rows[i].status == P.Ready && ReadyCount(rows[..i]) < 5) || saved == Some(rows[i].id) || verified == Some(rows[i].id))
  {
    keep := {};
    var taken := 0;
    for i := 0 to rows.Length
      invariant taken == if ReadyCount(rows[..i]) < KEPT then ReadyCount(rows[..i]) else KEPT
      invariant forall j :: 0 <= j < i ==> (rows[j].id in keep <==> rows[j].status == P.Ready && ReadyCount(rows[..j]) < KEPT)
      invariant forall j :: i <= j < rows.Length ==> rows[j].id !in keep
    {
      assert rows[..i + 1][..i] == rows[..i];
      if rows[i].status == P.Ready && taken < KEPT {
        assert forall j :: 0 <= j < rows.Length && j != i ==> rows[..][j].id != rows[..][i].id;
        keep := keep + {rows[i].id};
        taken := taken + 1;
      }
    }
    keep := keep + (if saved.Some? then {saved.value} else {}) + (if verified.Some? then {verified.value} else {});
  }

  /** Marks what may go, and nothing else. */
  method MarkForCollection(rows: array<Row>, saved: Option<nat>, verified: Option<nat>) returns (deleting: seq<nat>)
    requires DistinctIds(rows[..])
    modifies rows
    ensures forall i :: 0 <= i < rows.Length ==>
      rows[i] == if Collectable(old(rows[..]), i, saved, verified) then old(rows[i]).(status := P.Deleting) else old(rows[i])
    ensures deleting == Collected(old(rows[..]), rows.Length, saved, verified)
    ensures forall i :: 0 <= i < rows.Length && rows[i] != old(rows[i]) ==>
      && rows[i] == old(rows[i]).(status := P.Deleting) && old(rows[i]).status != P.Pending && rows[i].age >= 3600
      && saved != Some(rows[i].id) && verified != Some(rows[i].id)
      && (old(rows[i]).status == P.Ready ==> ReadyCount(old(rows[..i])) >= 5)
    ensures forall i :: 0 <= i < rows.Length && rows[i].status != P.Pending && rows[i].status != P.Deleting && rows[i].age >= 3600 ==>
      || saved == Some(rows[i].id) || verified == Some(rows[i].id)
      || (rows[i].status == P.Ready && ReadyCount(old(rows[..i])) < 5)
  {
    var keep := Keepers(rows, saved, verified);
    ghost var before := rows[..];
    deleting := [];
    for i := 0 to rows.Length
      invariant forall j :: i <= j < rows.Length ==> rows[j] == before[j]
      invariant forall j :: 0 <= j < i ==>
        rows[j] == if Collectable(before, j, saved, verified) then before[j].(status := P.Deleting) else before[j]
      invariant deleting == Collected(before, i, saved, verified)
    {
      var row := rows[i];
      assert row == before[i] && before[..i] == old(rows[..i]);
      if !(row.id in keep || row.status == P.Pending || row.age < HOUR) {
        rows[i] := row.(status := P.Deleting);
        deleting := deleting + [row.id];
      }
    }
  }

  function Remaining(rows: seq<Row>, n: nat, saved: Option<nat>, verified: Option<nat>): (r: seq<Row>)
    requires n <= |rows|
    ensures |r| == n
  {
    if n == 0 then []
    else
      Remaining(rows, n - 1, saved, verified)
      + [if Collectable(rows, n - 1, saved, verified) then rows[n - 1].(status := P.Deleting) else rows[n - 1]]
  }

  /** A collection never leaves fewer than five ready revisions, unless there were fewer before. */
  lemma {:induction false} FiveReadySurvive(rows: seq<Row>, n: nat, saved: Option<nat>, verified: Option<nat>)
    requires n <= |rows|
    ensures ReadyCount(Remaining(rows, n, saved, verified)) >= 5
      || ReadyCount(Remaining(rows, n, saved, verified)) == ReadyCount(rows[..n])
  {
    if n > 0 {
      FiveReadySurvive(rows, n - 1, saved, verified);
      assert rows[..n][..n - 1] == rows[..n - 1];
      var r := Remaining(rows, n, saved, verified);
      assert r[..n - 1] == Remaining(rows, n - 1, saved, verified);
    }
  }

  /** What is collected is what `Persistence` allows to be collected. */
  lemma {:induction false} CollectedIsAllowed(p: P.Project, rows: seq<Row>, n: nat)
    requires n <= |rows|
    requires forall i :: 0 <= i < |rows| ==> rows[i].id in p.rows && p.rows[rows[i].id].status == rows[i].status
    ensures forall id :: id in Collected(rows, n, p.saved, p.verified) ==>
      id in p.rows && p.rows[id].status != P.Pending && p.saved != Some(id) && p.verified != Some(id)
  {
    if n > 0 {
      CollectedIsAllowed(p, rows, n - 1);
    }
  }

  // ----- Retrying deletions ------------------------------------------------------------------------

  /** A deletion intent is for an object or for a folder of files from before there were objects. */
  datatype Intent = Object(key: P.Key) | Legacy(project: string)

  class Cleanup {
    var intents: set<Intent>
    var store: map<P.Key, string>
    var folders: set<string>
    /** The unfinished uploads of each key. */
    var uploads: map<P.Key, set<nat>>

    /** One failing key neither blocks the others nor loses its intent; an object is deleted only after the uploads
        that were under way for it are over. `answers` says which deletions succeed. */
    method CleanupProjectStorage(keys: seq<Intent>, answers: map<Intent, bool>) returns (completed: bool)
      requires forall key :: key in keys ==> key in answers
      modifies this
      ensures intents == old(intents) - set key | key in keys && answers[key]
      ensures store == old(store) - set key | key in keys && key.Object? && answers[key] :: key.key
      ensures folders == old(folders) - set key | key in keys && key.Legacy? && answers[key] :: key.project
      ensures forall key :: key in keys && key.Object? ==> key.key !in uploads
      ensures forall key :: key in uploads ==> key in old(uploads) && uploads[key] == old(uploads)[key]
      ensures completed <==> forall key :: key in keys ==> answers[key]
    {
      completed := true;
      for i := 0 to |keys|
        invariant intents == old(intents) - set key | key in keys[..i] && answers[key]
        invariant store == old(store) - set key | key in keys[..i] && key.Object? && answers[key] :: key.key
        invariant folders == old(folders) - set key | key in keys[..i] && key.Legacy? && answers[key] :: key.project
        invariant forall key :: key in keys[..i] && key.Object? ==> key.key !in uploads
        invariant forall key :: key in uploads ==> key in old(uploads) && uploads[key] == old(uploads)[key]
        invariant completed <==> forall key :: key in keys[..i] ==> answers[key]
      {
        assert keys[..i + 1] == keys[..i] + [keys[i]];
        var intent := keys[i];
        if intent.Object? {
          uploads := uploads - {intent.key};
        }
        if !answers[intent] {
          completed := false;
          continue;
        }
        if intent.Object? {
          store := store - {intent.key};
        } else {
          folders := folders - {intent.project};
        }
        intents := intents - {intent};
      }
      assert keys[..|keys|] == keys;
    }
  }
}
