/** Recovery Trash over whole runs of operations, each of which may be cut short anywhere. */
module RecoveryTheorems {
  import opened Prelude
  import opened RecoveryTrash

  datatype Op =
    | Delete(id: Id, p: Path, exdev: bool)
    | External(id: Id, p: Path, n: Node)       // an external provider replaces a file
    | Restore(id: Id, rollback: Id, exdev: bool, payloadFirst: bool)

  /** Recovery ids are fresh; a delete has a target. */
  predicate Possible(d: Disk, op: Op) {
    match op
    case Delete(id, p, _) => p in d.files && id !in d.trash
    case External(id, _, _) => id !in d.trash
    case Restore(_, rollback, _, _) => rollback !in d.trash
  }

  /** The disks an operation passes through; none if a restore is refused. */
  function Points(d: Disk, op: Op): seq<Disk>
    requires Possible(d, op)
  {
    match op
    case Delete(id, p, exdev) => MovePoints(d, id, p, exdev)
    case External(id, p, n) => ExternalPoints(d, id, p, n)
    case Restore(id, rollback, exdev, payloadFirst) =>
      if Refused(d, id).None? then RestorePoints(d, id, rollback, exdev, payloadFirst) else []
  }

  /** An operation and how many of its effects take place. */
  datatype Attempt = Attempt(op: Op, effects: nat)

  function Outcome(d: Disk, a: Attempt): Disk
    requires Possible(d, a.op)
  {
    var ds := Points(d, a.op);
    if a.effects == 0 || ds == [] then d else if a.effects <= |ds| then ds[a.effects - 1] else Last(ds)
  }

  predicate Runs(d: Disk, attempts: seq<Attempt>)
    decreases |attempts|
  {
    attempts == [] || (Possible(d, attempts[0].op) && Runs(Outcome(d, attempts[0]), attempts[1..]))
  }

  function After(d: Disk, attempts: seq<Attempt>): Disk
    requires Runs(d, attempts)
    decreases |attempts|
  {
    if attempts == [] then d else After(Outcome(d, attempts[0]), attempts[1..])
  }

  lemma AttemptKeepsAll(d: Disk, a: Attempt)
    requires Possible(d, a.op)
    ensures KeepsAll(d, Outcome(d, a))
  {
    hide MovePoints, ExternalPoints, RestorePoints, Saves, Refused;
    var ds := Points(d, a.op);
    if a.effects != 0 && ds != [] {
      var k := if a.effects <= |ds| then a.effects - 1 else |ds| - 1;
      match a.op {
        case Delete(id, p, exdev) => MoveSaves(d, id, p, exdev, k); SavesKeepsAll(d, ds[k], p, id);
        case External(id, p, n) => ExternalSaves(d, id, p, n, k); SavesKeepsAll(d, ds[k], p, id);
        case Restore(id, rollback, exdev, payloadFirst) => RestoreKeepsAll(d, id, rollback, exdev, payloadFirst, k);
      }
    }
  }

  /**
   No loss.  Through any sequence of deletes, external replacements and restores, each cut short after
   any number of its effects, every complete content that was on the disk -- at a path or in Recovery
   Trash -- still is, complete, at a path or in Recovery Trash.
   */
  lemma {:induction false} NothingLost(d: Disk, attempts: seq<Attempt>, n: Node)
    requires Runs(d, attempts) && n.body.Some? && Holds(d, n)
    ensures Holds(After(d, attempts), n)
    decreases |attempts|
  {
    hide Outcome, Holds;
    if attempts != [] {
      AttemptKeepsAll(d, attempts[0]);
      NothingLost(Outcome(d, attempts[0]), attempts[1..], n);
    }
  }

  // ---------------------------------------------------------------- undo

  /** A completed delete, restored to completion, gives back the disk: files and Recovery Trash. */
  lemma DeleteThenRestore(d: Disk, id: Id, p: Path, exdev: bool, rollback: Id, exdevBack: bool, payloadFirst: bool)
    requires p in d.files && id !in d.trash && rollback != id
    ensures var e := Last(MovePoints(d, id, p, exdev));
      && Refused(e, id).None? && e.files == d.files - {p}
      && Last(RestorePoints(e, id, rollback, exdevBack, payloadFirst)) == d
  {
    var e := Last(MovePoints(d, id, p, exdev));
    assert e == DropFile(PutItem(d, id, Item(Some(Meta(Deleted, Moved, p, d.files[p].isDirectory)), Some(d.files[p]))), p);
    hide MovePoints;
    MoveBackEnds(e, id, exdevBack, payloadFirst);
    var f := Last(RestorePoints(e, id, rollback, exdevBack, payloadFirst));
    assert f.files == d.files;
    assert f.trash == d.trash;
  }

  lemma MoveBackEnds(d: Disk, id: Id, exdev: bool, payloadFirst: bool)
    requires Refused(d, id).None?
    ensures Last(MoveBackPoints(d, id, exdev, payloadFirst)) == DropItem(PutFile(d, Target(d, id), Payload(d, id)), id)
  {
    var whole := PutFile(d, Target(d, id), Payload(d, id));
    var emptied := PutItem(whole, id, Item(Some(d.trash[id].meta.value), None));
    assert DropItem(emptied, id).trash == DropItem(whole, id).trash;
  }

  /** Restoring a backup over an existing file: the file has the backup's content, the rollback item the file's. */
  lemma ReplaceEnds(d: Disk, id: Id, rollback: Id, payloadFirst: bool)
    requires Refused(d, id).None? && Target(d, id) in d.files && rollback !in d.trash
    ensures var p := Target(d, id);
            var e := Last(ReplacePoints(d, id, rollback, payloadFirst));
      && e.files == d.files[p := Payload(d, id)] && id !in e.trash
      && rollback in e.trash && e.trash[rollback] == Item(Some(Meta(ReplacementBackup, Moved, p, false)), Some(d.files[p]))
  {
  }

  /**
   Restoring the returned `rollbackRecoveryId` undoes a restore: the files are again what they were
   before it; and restoring the rollback of that redoes it.
   */
  lemma RollbackUndoes(d: Disk, id: Id, rollback: Id, again: Id, third: Id, first: bool, second: bool, exdev: bool)
    requires Refused(d, id).None? && Target(d, id) in d.files && rollback !in d.trash && again !in d.trash && third !in d.trash
    requires rollback != again && again != third && rollback != third
    ensures var e := Last(RestorePoints(d, id, rollback, exdev, first));
      && Refused(e, rollback).None?
      && var f := Last(RestorePoints(e, rollback, again, exdev, second));
         && f.files == d.files && Refused(f, again).None?
         && Last(RestorePoints(f, again, third, exdev, second)).files == e.files
  {
    hide ReplacePoints, MoveBackPoints;
    ReplaceEnds(d, id, rollback, first);
    var e := Last(RestorePoints(d, id, rollback, exdev, first));
    assert again !in e.trash by { RestoreTrash(d, id, rollback, first, again); }
    ReplaceEnds(e, rollback, again, second);
    var f := Last(RestorePoints(e, rollback, again, exdev, second));
    assert f.files == d.files;
    assert third !in e.trash by { RestoreTrash(d, id, rollback, first, third); }
    assert third !in f.trash by { RestoreTrash(e, rollback, again, second, third); }
    ReplaceEnds(f, again, third, second);
  }

  lemma RestoreTrash(d: Disk, id: Id, rollback: Id, payloadFirst: bool, other: Id)
    requires Refused(d, id).None? && Target(d, id) in d.files && rollback !in d.trash && other !in d.trash && other != rollback
    ensures other !in Last(ReplacePoints(d, id, rollback, payloadFirst)).trash
  {
  }

  // ---------------------------------------------------------------- what a cut delete leaves

  /** A delete that was cut leaves its content safe, but its item can be restored only if every effect took place. */
  lemma RestorableExactlyWhenComplete(d: Disk, id: Id, p: Path, exdev: bool, k: nat)
    requires p in d.files && id !in d.trash && k < |MovePoints(d, id, p, exdev)|
    ensures Refused(MovePoints(d, id, p, exdev)[k], id).None? <==> k == |MovePoints(d, id, p, exdev)| - 1
  {
  }

  /** In particular, cut between the move and the last metadata write, the file is gone from its path and its item refused. */
  lemma MovedButNotReady(d: Disk, id: Id, p: Path)
    requires p in d.files && id !in d.trash
    ensures var e := MovePoints(d, id, p, false)[2];
      p !in e.files && e.trash[id].payload == Some(d.files[p]) && Refused(e, id) == Some(NotReady)
  {
  }
}
