/**
 Recovery Trash: deleting into it, backing up into it, and restoring from it, on a map of files.

 An operation is a sequence of file-system effects, and may be cut short after any of them, by a
 crash or by an error.  Its `points` are the disks it can be cut at, the last being its completion.
 A copy, unlike a rename, can be cut in the middle, and so can the write of a metadata file.
 */
module RecoveryTrash {
  import opened Prelude

  type Path = nat
  type Id = nat

  /** A file or an empty directory; a body of None is a copy that was cut. */
  datatype Node = Node(isDirectory: bool, body: Option<nat>)

  datatype Kind = Deleted | ReplacementBackup

  datatype Progress = Prepared | Moved | Restored

  datatype Meta = Meta(kind: Kind, state: Progress, path: Path, isDirectory: bool)

  /** One recovery directory; `meta` is None while metadata.json is missing or unreadable. */
  datatype Item = Item(meta: Option<Meta>, payload: Option<Node>)

  datatype Disk = Disk(files: map<Path, Node>, trash: map<Id, Item>)

  datatype Refusal = NotFound | NotReady | TargetExists | WrongType

  function Cut(n: Node): Node { n.(body := None) }

  function PutItem(d: Disk, id: Id, item: Item): Disk { d.(trash := d.trash[id := item]) }

  function DropItem(d: Disk, id: Id): Disk { d.(trash := d.trash - {id}) }

  function PutFile(d: Disk, p: Path, n: Node): Disk { d.(files := d.files[p := n]) }

  function DropFile(d: Disk, p: Path): Disk { d.(files := d.files - {p}) }

  // ---------------------------------------------------------------- the operations

  /** moveToRecoveryTrash: rename, or across devices copy and remove. */
  function MovePoints(d: Disk, id: Id, p: Path, exdev: bool): (ds: seq<Disk>)
    requires p in d.files
    ensures ds != []
  {
    var n := d.files[p];
    var prepared := Meta(Deleted, Prepared, p, n.isDirectory);
    var whole := PutItem(d, id, Item(Some(prepared), Some(n)));
    [PutItem(d, id, Item(None, None)), PutItem(d, id, Item(Some(prepared), None))]
    + (if exdev then [PutItem(d, id, Item(Some(prepared), Some(Cut(n)))), whole] else [])
    + [DropFile(whole, p),
       DropFile(PutItem(d, id, Item(None, Some(n))), p),
       DropFile(PutItem(d, id, Item(Some(prepared.(state := Moved)), Some(n))), p)]
  }

  /** copyToRecoveryTrash. */
  function CopyPoints(d: Disk, id: Id, p: Path): (ds: seq<Disk>)
    requires p in d.files
    ensures ds != []
  {
    var n := d.files[p];
    var prepared := Meta(ReplacementBackup, Prepared, p, false);
    [PutItem(d, id, Item(None, None)), PutItem(d, id, Item(Some(prepared), None)),
     PutItem(d, id, Item(Some(prepared), Some(Cut(n)))), PutItem(d, id, Item(Some(prepared), Some(n))),
     PutItem(d, id, Item(None, Some(n))), PutItem(d, id, Item(Some(prepared.(state := Moved)), Some(n)))]
  }

  /** What restoreDeletedFile checks before it changes anything. */
  function Refused(d: Disk, id: Id): Option<Refusal> {
    if id !in d.trash || d.trash[id].meta.None? then Some(NotFound) else
      var m := d.trash[id].meta.value;
      if m.state != Moved then Some(NotReady)
      else if m.path in d.files && m.kind == Deleted then Some(TargetExists)
      else if d.trash[id].payload.None? then Some(NotFound)
      else if d.trash[id].payload.value.isDirectory != m.isDirectory then Some(WrongType)
      else if m.path in d.files && (m.isDirectory || d.files[m.path].isDirectory) then Some(WrongType)
      else None
  }

  /** The end of a restore: metadata rewritten, then the recovery directory removed, in either order of its files. */
  function ClosePoints(d: Disk, id: Id, m: Meta, payload: Option<Node>, payloadFirst: bool): (ds: seq<Disk>)
    ensures ds != []
  {
    var restored := m.(state := Restored);
    [PutItem(d, id, Item(None, payload)), PutItem(d, id, Item(Some(restored), payload)),
     PutItem(d, id, if payloadFirst then Item(Some(restored), None) else Item(None, payload)),
     PutItem(d, id, Item(None, None)), DropItem(d, id)]
  }

  /** The payload moves to its path. */
  function MoveBackPoints(d: Disk, id: Id, exdev: bool, payloadFirst: bool): (ds: seq<Disk>)
    requires Refused(d, id).None?
    ensures ds != []
  {
    var m, n := d.trash[id].meta.value, d.trash[id].payload.value;
    var whole := PutFile(d, m.path, n);
    var emptied := PutItem(whole, id, Item(Some(m), None));
    (if exdev then [PutFile(d, m.path, Cut(n)), whole] else []) + [emptied] + ClosePoints(emptied, id, m, None, payloadFirst)
  }

  /** The current file is backed up first, then overwritten with the payload. */
  function ReplacePoints(d: Disk, id: Id, rollback: Id, payloadFirst: bool): (ds: seq<Disk>)
    requires Refused(d, id).None? && Target(d, id) in d.files
    ensures ds != []
  {
    var m, n := d.trash[id].meta.value, d.trash[id].payload.value;
    var backups := CopyPoints(d, rollback, m.path);
    var saved := backups[|backups| - 1];
    var whole := PutFile(saved, m.path, n);
    backups + [PutFile(saved, m.path, Cut(n)), whole] + ClosePoints(whole, id, m, Some(n), payloadFirst)
  }

  /** restoreDeletedFile. */
  function RestorePoints(d: Disk, id: Id, rollback: Id, exdev: bool, payloadFirst: bool): (ds: seq<Disk>)
    requires Refused(d, id).None?
    ensures ds != []
  {
    if Target(d, id) in d.files then ReplacePoints(d, id, rollback, payloadFirst)
    else MoveBackPoints(d, id, exdev, payloadFirst)
  }

  /** prepareExternalFileMutation, then the provider's write of `n`. */
  function ExternalPoints(d: Disk, id: Id, p: Path, n: Node): (ds: seq<Disk>)
    ensures ds != []
  {
    if p !in d.files then [PutFile(d, p, Cut(n)), PutFile(d, p, n)] else
      var backups := CopyPoints(d, id, p);
      var saved := backups[|backups| - 1];
      backups + [PutFile(saved, p, Cut(n)), PutFile(saved, p, n)]
  }

  function Last(ds: seq<Disk>): Disk
    requires ds != []
  {
    ds[|ds| - 1]
  }

  // ---------------------------------------------------------------- no loss

  /** The content of `n` is somewhere on the disk, complete. */
  ghost predicate Holds(d: Disk, n: Node) {
    || (exists p <- d.files :: d.files[p] == n)
    || (exists id <- d.trash :: d.trash[id].payload == Some(n))
  }

  ghost predicate KeepsAll(d: Disk, e: Disk) { forall n: Node :: n.body.Some? && Holds(d, n) ==> Holds(e, n) }

  /** `e` has the files of `d` but perhaps that of `p`, whose node it has as a payload if it lost it. */
  ghost predicate Saves(d: Disk, e: Disk, p: Path, id: Id) {
    && e.files - {p} == d.files - {p} && e.trash - {id} == d.trash - {id}
    && (p in d.files ==> (p in e.files && e.files[p] == d.files[p]) || (id in e.trash && e.trash[id].payload == Some(d.files[p])))
  }

  lemma SavesKeepsAll(d: Disk, e: Disk, p: Path, id: Id)
    requires id !in d.trash && Saves(d, e, p, id)
    ensures KeepsAll(d, e)
  {
    forall n: Node | n.body.Some? && Holds(d, n) ensures Holds(e, n) {
      if q :| q in d.files && d.files[q] == n {
        if q != p { assert q in d.files - {p} && q in e.files - {p}; assert (e.files - {p})[q] == (d.files - {p})[q]; }
        else if p in e.files && e.files[p] == n { }
        else { assert id in e.trash; }
      } else {
        var i :| i in d.trash && d.trash[i].payload == Some(n);
        assert i in d.trash - {id} && i in e.trash - {id};
        assert (e.trash - {id})[i] == (d.trash - {id})[i];
        assert i in e.trash && e.trash[i].payload == Some(n);
      }
    }
  }

  /** At every point of a delete its file is at its path, or complete in its recovery item; nothing else changes. */
  lemma MoveSaves(d: Disk, id: Id, p: Path, exdev: bool, k: nat)
    requires p in d.files && id !in d.trash && k < |MovePoints(d, id, p, exdev)|
    ensures Saves(d, MovePoints(d, id, p, exdev)[k], p, id)
  {
  }

  lemma CopySaves(d: Disk, id: Id, p: Path, k: nat)
    requires p in d.files && id !in d.trash && k < |CopyPoints(d, id, p)|
    ensures var e := CopyPoints(d, id, p)[k]; Saves(d, e, p, id) && e.files == d.files
    ensures k == |CopyPoints(d, id, p)| - 1 ==> CopyPoints(d, id, p)[k].trash[id].payload == Some(d.files[p])
  {
  }

  lemma ExternalSaves(d: Disk, id: Id, p: Path, n: Node, k: nat)
    requires id !in d.trash && k < |ExternalPoints(d, id, p, n)|
    ensures Saves(d, ExternalPoints(d, id, p, n)[k], p, id)
  {
    if p in d.files {
      var backups := CopyPoints(d, id, p);
      CopySaves(d, id, p, |backups| - 1);
      if k < |backups| { CopySaves(d, id, p, k); }
      hide CopyPoints;
    }
  }

  /** At every point of a restore the payload is where it was, or complete at its path. */
  ghost predicate Returns(d: Disk, e: Disk, id: Id)
    requires Refused(d, id).None?
  {
    var p, n := Target(d, id), Payload(d, id);
    && e.files - {p} == d.files - {p}
    && ((id in e.trash && e.trash[id].payload == Some(n)) || (p in e.files && e.files[p] == n))
  }

  lemma MoveBackReturns(d: Disk, id: Id, exdev: bool, payloadFirst: bool, k: nat)
    requires Refused(d, id).None? && Target(d, id) !in d.files && k < |MoveBackPoints(d, id, exdev, payloadFirst)|
    ensures var e := MoveBackPoints(d, id, exdev, payloadFirst)[k]; Returns(d, e, id) && e.trash - {id} == d.trash - {id}
  {
  }

  lemma CloseReturns(d: Disk, id: Id, m: Meta, payload: Option<Node>, payloadFirst: bool, k: nat)
    requires k < |ClosePoints(d, id, m, payload, payloadFirst)|
    ensures var e := ClosePoints(d, id, m, payload, payloadFirst)[k]; e.files == d.files && e.trash - {id} == d.trash - {id}
  {
  }

  /** ... and the file it replaces is at its path, or complete in the rollback item. */
  lemma ReplaceReturns(d: Disk, id: Id, rollback: Id, payloadFirst: bool, k: nat)
    requires Refused(d, id).None? && Target(d, id) in d.files && rollback !in d.trash
    requires k < |ReplacePoints(d, id, rollback, payloadFirst)|
    ensures var e, p := ReplacePoints(d, id, rollback, payloadFirst)[k], Target(d, id);
      && Returns(d, e, id)
      && e.trash - {id, rollback} == d.trash - {id, rollback}
      && ((p in e.files && e.files[p] == d.files[p]) || (rollback in e.trash && e.trash[rollback].payload == Some(d.files[p])))
  {
    var m, n := d.trash[id].meta.value, d.trash[id].payload.value;
    var backups := CopyPoints(d, rollback, m.path);
    var saved := backups[|backups| - 1];
    CopySaves(d, rollback, m.path, |backups| - 1);
    var whole := PutFile(saved, m.path, n);
    if k < |backups| {
      CopySaves(d, rollback, m.path, k);
      ElsewhereTrash(d.trash, backups[k].trash, rollback, id);
    } else {
      ElsewhereTrash(d.trash, saved.trash, rollback, id);
      if k >= |backups| + 2 {
        CloseReturns(whole, id, m, Some(n), payloadFirst, k - |backups| - 2);
        var e := ClosePoints(whole, id, m, Some(n), payloadFirst)[k - |backups| - 2];
        ElsewhereTrash(whole.trash, e.trash, id, rollback);
      }
    }
  }

  lemma ElsewhereTrash(a: map<Id, Item>, b: map<Id, Item>, i: Id, j: Id)
    requires a - {i} == b - {i} && i != j
    ensures a - {i, j} == b - {i, j} && a - {j, i} == b - {j, i}
    ensures (j in a <==> j in b) && (j in a ==> a[j] == b[j])
  {
    assert {j, i} == {i, j};
    assert a - {i, j} == (a - {i}) - {j} && b - {i, j} == (b - {i}) - {j};
    assert j in a <==> j in a - {i};
    assert j in b <==> j in b - {i};
    assert j in a ==> (a - {i})[j] == a[j];
    assert j in b ==> (b - {i})[j] == b[j];
  }

  lemma RestoreKeepsAll(d: Disk, id: Id, rollback: Id, exdev: bool, payloadFirst: bool, k: nat)
    requires Refused(d, id).None? && rollback !in d.trash && k < |RestorePoints(d, id, rollback, exdev, payloadFirst)|
    ensures KeepsAll(d, RestorePoints(d, id, rollback, exdev, payloadFirst)[k])
  {
    hide ReplacePoints, MoveBackPoints, KeepsAll, Returns, Refused;
    var e, p := RestorePoints(d, id, rollback, exdev, payloadFirst)[k], Target(d, id);
    if p in d.files {
      ReplaceReturns(d, id, rollback, payloadFirst, k);
    } else {
      MoveBackReturns(d, id, exdev, payloadFirst, k);
      assert e.trash - {id, rollback} == (e.trash - {id}) - {rollback};
      assert d.trash - {id, rollback} == (d.trash - {id}) - {rollback};
    }
    ReturnsKeepsAll(d, e, id, rollback);
  }

  function Payload(d: Disk, id: Id): Node
    requires Refused(d, id).None?
  {
    d.trash[id].payload.value
  }

  /** Where a restorable item goes. */
  function Target(d: Disk, id: Id): Path
    requires Refused(d, id).None?
  {
    d.trash[id].meta.value.path
  }

  lemma ReturnsKeepsAll(d: Disk, e: Disk, id: Id, rollback: Id)
    requires Refused(d, id).None? && Returns(d, e, id) && rollback !in d.trash && e.trash - {id, rollback} == d.trash - {id, rollback}
    requires var p := Target(d, id);
      p in d.files ==> (p in e.files && e.files[p] == d.files[p]) || (rollback in e.trash && e.trash[rollback].payload == Some(d.files[p]))
    ensures KeepsAll(d, e)
  {
    var p := Target(d, id);
    forall n: Node | n.body.Some? && Holds(d, n) ensures Holds(e, n) {
      if q :| q in d.files && d.files[q] == n {
        if q != p { assert q in d.files - {p} && q in e.files - {p}; assert (e.files - {p})[q] == (d.files - {p})[q]; }
      } else {
        var i :| i in d.trash && d.trash[i].payload == Some(n);
        if i != id {
          assert i in d.trash - {id, rollback} && i in e.trash - {id, rollback};
          assert (e.trash - {id, rollback})[i] == (d.trash - {id, rollback})[i];
          assert i in e.trash && e.trash[i].payload == Some(n);
        }
      }
    }
  }
}
