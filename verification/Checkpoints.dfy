/** Archives and revisions together: a checkpoint without edits adds no row. */
module Checkpoints {
  import opened Wrappers
  import A = Archive
  import R = Restore
  import P = Persistence
  import PersistenceSafety
  import PersistenceRuns

  /** `content_hash`, whatever it is, of the files and the template. */
  type Digest = (A.Manifest, string) -> string

  /** A workspace is packed and saved, restored anywhere, packed again without edits and saved again: the second
      save names the first one's revision and adds no row, in a run or outside it. */
  lemma CheckpointWithoutEditsAddsNothing(
    p: P.Project, n: nat, own: bool, digest: Digest, template: string,
    before: A.Files, first: R.Zip, after: A.Files, files: A.Manifest,
    root: A.Files, restored: A.Files, second: R.Zip, end: A.Files, again: A.Manifest, bytes: string)
    requires PersistenceSafety.Inv(p) && p.exists_ && n !in p.savers && (own ==> p.running)
    requires A.IsFileSystem(before) && R.Packs(before, first, after) && R.ManifestOf(first) == Ok(files)
    requires p.saved.Some? && p.saved.value in p.rows && p.rows[p.saved.value].content == digest(files, template)
    requires A.IsFileSystem(root) && R.Restored(root, first) == Ok(restored)
    requires R.Packs(restored, second, end) && R.ManifestOf(second) == Ok(again)
    ensures P.Next(p, P.BeginSave(n, own, digest(again, template), bytes)) == if own then p.(live := p.saved) else p
  {
    R.PackedWorkspaceComesBack(before, first, after, root);
    PersistenceRuns.SavingTheSameAddsNothing(p, n, own, digest(again, template), bytes);
  }
}
