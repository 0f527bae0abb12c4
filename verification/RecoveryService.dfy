/**
 The file-service methods behind Recovery Trash, effect by effect.  The ghost `trace` lists the disk
 after every effect; the methods are proved to pass through exactly the model's points.
 */
module RecoveryObject {
  import opened Prelude
  import opened RecoveryTrash

  class RecoveryService {
    var files: map<Path, Node>
    var trash: map<Id, Item>
    ghost var trace: seq<Disk>

    ghost function View(): Disk
      reads this
    {
      Disk(files, trash)
    }

    constructor (files: map<Path, Node>, trash: map<Id, Item>)
      ensures View() == Disk(files, trash) && trace == []
    {
      this.files, this.trash, trace := files, trash, [];
    }

    // ---------------------------------------------------------------- effects

    /** The disk is `base` but for one item. */
    ghost predicate BaseButItem(base: Disk, id: Id)
      reads this
    {
      files == base.files && trash - {id} == base.trash - {id}
    }

    method WriteItem(id: Id, item: Item, ghost base: Disk)
      requires BaseButItem(base, id)
      modifies this
      ensures View() == PutItem(base, id, item) && trace == old(trace) + [PutItem(base, id, item)] && BaseButItem(base, id)
    {
      trash := trash[id := item];
      assert trash == (trash - {id})[id := item] && base.trash[id := item] == (base.trash - {id})[id := item];
      assert trash - {id} == base.trash - {id};
      trace := trace + [View()];
    }

    method RemoveItem(id: Id)
      modifies this
      ensures View() == DropItem(old(View()), id) && trace == old(trace) + [View()]
    {
      trash := trash - {id};
      trace := trace + [View()];
    }

    method WriteFile(p: Path, n: Node)
      modifies this
      ensures View() == PutFile(old(View()), p, n) && trace == old(trace) + [View()]
    {
      files := files[p := n];
      trace := trace + [View()];
    }

    /** rename of a file into an item, and back. */
    method RenameToPayload(p: Path, id: Id, meta: Meta)
      requires p in files
      modifies this
      ensures View() == DropFile(PutItem(old(View()), id, Item(Some(meta), Some(old(files)[p]))), p) && trace == old(trace) + [View()]
    {
      trash := trash[id := Item(Some(meta), Some(files[p]))];
      files := files - {p};
      trace := trace + [View()];
    }

    method RenameFromPayload(id: Id, meta: Meta, n: Node)
      modifies this
      ensures View() == PutItem(PutFile(old(View()), meta.path, n), id, Item(Some(meta), None)) && trace == old(trace) + [View()]
    {
      files := files[meta.path := n];
      trash := trash[id := Item(Some(meta), None)];
      trace := trace + [View()];
    }

    method RemoveFile(p: Path)
      modifies this
      ensures View() == DropFile(old(View()), p) && trace == old(trace) + [View()]
    {
      files := files - {p};
      trace := trace + [View()];
    }

    // ---------------------------------------------------------------- operations

    method MoveToRecoveryTrash(id: Id, p: Path, exdev: bool)
      requires p in files && id !in trash
      modifies this
      ensures trace == old(trace) + MovePoints(old(View()), id, p, exdev)
      ensures View() == Last(MovePoints(old(View()), id, p, exdev))
    {
      ghost var d := View();
      var n := files[p];
      var metadata := Meta(Deleted, Prepared, p, n.isDirectory);
      ghost var moved := DropFile(PutItem(d, id, Item(Some(metadata), Some(n))), p);
      WriteItem(id, Item(None, None), d);
      WriteItem(id, Item(Some(metadata), None), d);
      if exdev {
        WriteItem(id, Item(Some(metadata), Some(Cut(n))), d);
        WriteItem(id, Item(Some(metadata), Some(n)), d);
        RemoveFile(p);
      } else {
        RenameToPayload(p, id, metadata);
        assert d.trash[id := Item(Some(metadata), None)][id := Item(Some(metadata), Some(n))] == d.trash[id := Item(Some(metadata), Some(n))];
      }
      assert View() == moved;
      WriteItem(id, Item(None, Some(n)), moved);
      WriteItem(id, Item(Some(metadata.(state := Moved)), Some(n)), moved);
      Overwrites(moved, d, id, p, Item(None, Some(n)));
      Overwrites(moved, d, id, p, Item(Some(metadata.(state := Moved)), Some(n)));
    }

    method CopyToRecoveryTrash(id: Id, p: Path)
      requires p in files && id !in trash
      modifies this
      ensures trace == old(trace) + CopyPoints(old(View()), id, p) && View() == Last(CopyPoints(old(View()), id, p))
    {
      hide PutItem;
      ghost var d := View();
      var n := files[p];
      var metadata := Meta(ReplacementBackup, Prepared, p, false);
      WriteItem(id, Item(None, None), d);
      WriteItem(id, Item(Some(metadata), None), d);
      WriteItem(id, Item(Some(metadata), Some(Cut(n))), d);
      WriteItem(id, Item(Some(metadata), Some(n)), d);
      WriteItem(id, Item(None, Some(n)), d);
      WriteItem(id, Item(Some(metadata.(state := Moved)), Some(n)), d);
    }

    method Close(id: Id, metadata: Meta, payload: Option<Node>, payloadFirst: bool)
      modifies this
      ensures trace == old(trace) + ClosePoints(old(View()), id, metadata, payload, payloadFirst)
      ensures View() == Last(ClosePoints(old(View()), id, metadata, payload, payloadFirst))
    {
      hide PutItem;
      ghost var d := View();
      var restored := metadata.(state := Restored);
      WriteItem(id, Item(None, payload), d);
      WriteItem(id, Item(Some(restored), payload), d);
      WriteItem(id, if payloadFirst then Item(Some(restored), None) else Item(None, payload), d);
      WriteItem(id, Item(None, None), d);
      RemoveItem(id);
      DropAfterPut(d, id, Item(None, None));
    }

    /** restoreDeletedFile, past its authorization; `rollback` is the id the backup of a replaced file would get. */
    method RestoreDeletedFile(id: Id, rollback: Id, exdev: bool, payloadFirst: bool) returns (refusal: Option<Refusal>, rolledBack: bool)
      requires rollback !in trash
      modifies this
      ensures refusal == Refused(old(View()), id)
      ensures refusal.Some? ==> View() == old(View()) && trace == old(trace)
      ensures refusal.None? ==>
                && trace == old(trace) + RestorePoints(old(View()), id, rollback, exdev, payloadFirst)
                && View() == Last(RestorePoints(old(View()), id, rollback, exdev, payloadFirst))
                && (rolledBack <==> Target(old(View()), id) in old(files))
    {
      hide CopyPoints, ClosePoints, PutItem, PutFile;
      ghost var d, t := View(), trace;
      rolledBack := false;
      if id !in trash || trash[id].meta.None? { return Some(NotFound), false; }
      var m := trash[id].meta.value;
      if m.state != Moved { return Some(NotReady), false; }
      var occupied := m.path in files;
      if occupied && m.kind == Deleted { return Some(TargetExists), false; }
      if trash[id].payload.None? { return Some(NotFound), false; }
      var n := trash[id].payload.value;
      if n.isDirectory != m.isDirectory { return Some(WrongType), false; }
      if occupied {
        if n.isDirectory || files[m.path].isDirectory { return Some(WrongType), false; }
        CopyToRecoveryTrash(rollback, m.path);
        FileTwice(View(), m.path, Cut(n), n);
        WriteFile(m.path, Cut(n));
        WriteFile(m.path, n);
        Close(id, m, Some(n), payloadFirst);
        assert trace == t + ReplacePoints(d, id, rollback, payloadFirst);
        return None, true;
      }
      if exdev {
        FileTwice(d, m.path, Cut(n), n);
        WriteFile(m.path, Cut(n));
        WriteFile(m.path, n);
        WriteItem(id, Item(Some(m), None), View());
      } else {
        RenameFromPayload(id, m, n);
      }
      Close(id, m, None, payloadFirst);
      assert trace == t + MoveBackPoints(d, id, exdev, payloadFirst);
      return None, false;
    }
  }

  /** A second write to an item hides the first. */
  lemma Overwrites(moved: Disk, d: Disk, id: Id, p: Path, y: Item)
    requires exists x: Item :: moved == DropFile(PutItem(d, id, x), p)
    ensures PutItem(moved, id, y) == DropFile(PutItem(d, id, y), p)
  {
    assert moved.trash[id := y] == d.trash[id := y];
  }

  lemma FileTwice(d: Disk, p: Path, a: Node, b: Node)
    ensures PutFile(PutFile(d, p, a), p, b) == PutFile(d, p, b)
  {
    assert d.files[p := a][p := b] == d.files[p := b];
  }

  lemma DropAfterPut(d: Disk, id: Id, x: Item)
    ensures DropItem(PutItem(d, id, x), id) == DropItem(d, id)
  {
    assert d.trash[id := x] - {id} == d.trash - {id};
  }
}
