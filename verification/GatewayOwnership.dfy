/**
 Who owns a tunnel, over every interleaving of the gateway's lifecycle.

 `Sound` holds in every reachable state without exception.  `Coherent` is what the service means
 to keep on top of it; one write in the source breaks it, and `CoherentExactlyWhen` says when.
 */
module GatewayOwnership {
  import opened Prelude
  import opened GatewayModel

  datatype Owner =
    | Promoted               // the service's `tunnel` field
    | InPendingSlot          // the current pending start
    | BoundToStop(k: nat)    // a suspended stop() that will stop it next
    | StopCalled             // stop() was called on the handle
    | Overwritten            // a later promotion replaced it without a stop

  predicate Binds(c: Continuation) { c.StopPending? && c.next.Some? }

  ghost predicate Owns(l: Ledger, t: Tunnel, o: Owner) {
    match o
    case Promoted => l.tunnel == Some(t)
    case InPendingSlot => PendingTunnel(l) == Some(t)
    case BoundToStop(k) => k in l.ops && l.ops[k] == StopPending(Some(t))
    case StopCalled => t in l.stops
    case Overwritten => t in l.overwritten
  }

  ghost predicate ExactlyOneOwner(l: Ledger, t: Tunnel) {
    exists o :: Owns(l, t, o) && forall p :: Owns(l, t, p) ==> p == o
  }

  // ---------------------------------------------------------------- the structural invariant

  predicate IsStart(c: Continuation) { !c.StopPending? && !c.StopTunnel? }

  ghost predicate Keys(l: Ledger) {
    && (forall k <- l.ops :: k <= l.startGeneration)
    && (forall k <- l.pendings :: k <= l.startGeneration)
    && (forall k <- l.ops :: UsesPending(l.ops[k]) ==> k in l.pendings)
    && (l.pendingStart.Some? ==>
          (l.pendingStart.value in l.pendings && l.pendingStart.value in l.ops && UsesPending(l.ops[l.pendingStart.value])))
    && (forall k <- l.ops :: l.ops[k].StaleStop? || !IsStart(l.ops[k]) ==> k !in l.pendings)
  }

  /** A record holds a tunnel only while it is the current one and its start is probing that tunnel. */
  ghost predicate Slots(l: Ledger) {
    && (forall k <- l.pendings :: l.pendings[k].tunnel.Some? ==>
          l.pendingStart == Some(k) && !l.pendings[k].cancelled
          && k in l.ops && l.ops[k].Probing? && l.ops[k].probed == l.pendings[k].tunnel.value)
    && (forall k <- l.ops :: l.ops[k].Probing? && k in l.pendings ==>
          l.pendings[k].tunnel == Some(l.ops[k].probed) || l.pendings[k].cancelled)
    && (forall k <- l.pendings :: l.pendingStart == Some(k) && !l.pendings[k].cancelled ==> k == l.startGeneration)
    && (forall k <- l.ops :: UsesPending(l.ops[k]) && k in l.pendings && !l.pendings[k].cancelled ==> l.pendingStart == Some(k))
  }

  ghost predicate Live(l: Ledger, t: Tunnel) { t in l.yielded && t !in l.stops && t !in l.overwritten }

  ghost predicate Partition(l: Ledger) {
    && (l.tunnel.Some? ==> Live(l, l.tunnel.value) && PendingTunnel(l) != l.tunnel && l.promotions[l.tunnel.value] == 1)
    && (PendingTunnel(l).Some? ==> Live(l, PendingTunnel(l).value) && l.promotions[PendingTunnel(l).value] == 0)
    && (forall k <- l.ops :: Binds(l.ops[k]) ==>
          var t := l.ops[k].next.value;
          Live(l, t) && l.tunnel != Some(t) && PendingTunnel(l) != Some(t) && l.promotions[t] == 1)
    && (forall k <- l.ops, j <- l.ops :: Binds(l.ops[k]) && Binds(l.ops[j]) && l.ops[k].next == l.ops[j].next ==> j == k)
    && (forall t :: t in l.stops ==> t in l.yielded && t !in l.overwritten)
    && (forall t :: t in l.overwritten ==> t in l.yielded && l.promotions[t] == 1)
    && (forall t :: t in l.promotions ==> t in l.yielded)
  }

  ghost predicate AtMostOnce(l: Ledger) {
    && (forall t :: l.stops[t] <= 1)
    && (forall t :: l.promotions[t] <= 1)
    && (forall t :: t in l.promotions ==> t in l.probedOk)
  }

  ghost predicate Covered(l: Ledger, t: Tunnel) {
    || l.tunnel == Some(t) || PendingTunnel(l) == Some(t) || t in l.stops || t in l.overwritten
    || exists k <- l.ops :: l.ops[k] == StopPending(Some(t))
  }

  ghost predicate Sound(l: Ledger) {
    && Keys(l) && Slots(l) && Partition(l) && AtMostOnce(l)
    && (forall t <- l.yielded :: Covered(l, t))
  }

  // ---------------------------------------------------------------- every change of the ledger keeps it

  lemma SoundCancel(l: Ledger)
    requires Sound(l) && PendingTunnel(l).None?
    ensures Sound(Cancel(l)) && PendingTunnel(Cancel(l)).None?
  {
    forall t <- l.yielded ensures Covered(Cancel(l), t) { assert Covered(l, t); }
  }

  /** Cancelling the record and stopping the tunnel it held belong together. */
  lemma SoundTakeOver(l: Ledger)
    requires Sound(l)
    ensures Sound(TakeOver(l)) && PendingTunnel(TakeOver(l)).None?
  {
    if PendingTunnel(l).None? {
      SoundCancel(l);
    } else {
      TakeOverStructure(l);
      TakeOverPartition(l);
      forall u <- TakeOver(l).yielded ensures Covered(TakeOver(l), u) { assert Covered(l, u); }
    }
  }

  lemma TakeOverStructure(l: Ledger)
    requires Keys(l) && Slots(l) && PendingTunnel(l).Some?
    ensures Keys(TakeOver(l)) && Slots(TakeOver(l))
  {
  }

  lemma TakeOverPartition(l: Ledger)
    requires Sound(l) && PendingTunnel(l).Some?
    ensures Partition(TakeOver(l)) && AtMostOnce(TakeOver(l))
  {
    var m := TakeOver(l);
    assert PendingTunnel(m).None?;
    assert m.ops == l.ops && m.tunnel == l.tunnel;
  }

  lemma OpenStructure(l: Ledger, k: nat, caller: Caller)
    requires Sound(l) && k == l.startGeneration && PendingTunnel(l).None?
    requires if k in l.ops then l.ops[k].StaleStop? else k !in l.pendings
    ensures Keys(Open(l, k, caller)) && Slots(Open(l, k, caller))
  {
    hide Partition, AtMostOnce, Covered;
  }

  lemma OpenCustody(l: Ledger, k: nat, caller: Caller)
    requires Sound(l) && k == l.startGeneration && PendingTunnel(l).None?
    requires if k in l.ops then l.ops[k].StaleStop? else k !in l.pendings
    ensures var m := Open(l, k, caller); Partition(m) && AtMostOnce(m) && forall t <- m.yielded :: Covered(m, t)
  {
    hide Slots;
    var m := Open(l, k, caller);
    assert PendingTunnel(m).None?;
    forall t <- m.yielded ensures Covered(m, t) {
      assert t in l.yielded ==> Covered(l, t);
      if k :| k in l.ops && l.ops[k] == StopPending(Some(t)) {
        assert (k in m.ops && m.ops[k] == StopPending(Some(t))) || t in m.stops;
      }
    }
  }

  lemma SoundOpen(l: Ledger, k: nat, caller: Caller)
    requires Sound(l) && k == l.startGeneration && PendingTunnel(l).None?
    requires if k in l.ops then l.ops[k].StaleStop? else k !in l.pendings
    ensures Sound(Open(l, k, caller))
  {
    hide Keys, Slots, Partition, AtMostOnce, Covered;
    OpenStructure(l, k, caller);
    OpenCustody(l, k, caller);
  }

  lemma CloseStructure(l: Ledger, k: nat)
    requires Sound(l) && k in l.ops && UsesPending(l.ops[k])
    requires l.ops[k].Probing? && k in l.pendings ==> l.pendings[k].tunnel != Some(l.ops[k].probed)
    ensures Keys(Close(l, k)) && Slots(Close(l, k))
  {
    hide Partition, AtMostOnce, Covered;
  }

  lemma CloseCustody(l: Ledger, k: nat)
    requires Sound(l) && k in l.ops && UsesPending(l.ops[k])
    requires l.ops[k].Probing? && k in l.pendings ==> l.pendings[k].tunnel != Some(l.ops[k].probed)
    ensures var m := Close(l, k); Partition(m) && AtMostOnce(m) && forall t <- m.yielded :: Covered(m, t)
  {
    var m := Close(l, k);
    forall t <- m.yielded ensures Covered(m, t) {
      assert t in l.yielded ==> Covered(l, t);
      if k :| k in l.ops && l.ops[k] == StopPending(Some(t)) {
        assert (k in m.ops && m.ops[k] == StopPending(Some(t))) || t in m.stops;
      }
    }
  }

  lemma SoundClose(l: Ledger, k: nat)
    requires Sound(l) && k in l.ops && UsesPending(l.ops[k])
    requires l.ops[k].Probing? && k in l.pendings ==> l.pendings[k].tunnel != Some(l.ops[k].probed)
    ensures Sound(Close(l, k))
  {
    hide Keys, Slots, Partition, AtMostOnce, Covered;
    CloseStructure(l, k);
    CloseCustody(l, k);
  }

  lemma EndStructure(l: Ledger, k: nat)
    requires Sound(l) && k in l.ops && (l.ops[k].StaleStop? || l.ops[k].StopTunnel? || l.ops[k] == StopPending(None))
    ensures Keys(End(l, k)) && Slots(End(l, k))
  {
    hide Partition, AtMostOnce, Covered;
  }

  lemma EndCustody(l: Ledger, k: nat)
    requires Sound(l) && k in l.ops && (l.ops[k].StaleStop? || l.ops[k].StopTunnel? || l.ops[k] == StopPending(None))
    ensures var m := End(l, k); Partition(m) && AtMostOnce(m) && forall t <- m.yielded :: Covered(m, t)
  {
    hide Slots;
    var m := End(l, k);
    forall t <- m.yielded ensures Covered(m, t) {
      assert t in l.yielded ==> Covered(l, t);
      if k :| k in l.ops && l.ops[k] == StopPending(Some(t)) {
        assert (k in m.ops && m.ops[k] == StopPending(Some(t))) || t in m.stops;
      }
    }
  }

  lemma SoundEnd(l: Ledger, k: nat)
    requires Sound(l) && k in l.ops && (l.ops[k].StaleStop? || l.ops[k].StopTunnel? || l.ops[k] == StopPending(None))
    ensures Sound(End(l, k))
  {
    hide Keys, Slots, Partition, AtMostOnce, Covered;
    EndStructure(l, k);
    EndCustody(l, k);
  }

  lemma YieldAndStopStructure(l: Ledger, k: nat, t: Tunnel, after: Continuation)
    requires Sound(l) && k in l.ops && l.ops[k].AwaitProvider? && t !in l.yielded && (after.Discarding? || after.FailStopping?)
    ensures Keys(YieldAndStop(l, k, t, after)) && Slots(YieldAndStop(l, k, t, after))
  {
    hide Partition, AtMostOnce, Covered;
  }

  lemma YieldAndStopCustody(l: Ledger, k: nat, t: Tunnel, after: Continuation)
    requires Sound(l) && k in l.ops && l.ops[k].AwaitProvider? && t !in l.yielded && (after.Discarding? || after.FailStopping?)
    ensures var m := YieldAndStop(l, k, t, after); Partition(m) && AtMostOnce(m) && forall t <- m.yielded :: Covered(m, t)
  {
    hide Slots;
    var m := YieldAndStop(l, k, t, after);
    assert PendingTunnel(m) == PendingTunnel(l);
    forall t <- m.yielded ensures Covered(m, t) {
      assert t in l.yielded ==> Covered(l, t);
      if k :| k in l.ops && l.ops[k] == StopPending(Some(t)) {
        assert (k in m.ops && m.ops[k] == StopPending(Some(t))) || t in m.stops;
      }
    }
  }

  lemma SoundYieldAndStop(l: Ledger, k: nat, t: Tunnel, after: Continuation)
    requires Sound(l) && k in l.ops && l.ops[k].AwaitProvider? && t !in l.yielded && (after.Discarding? || after.FailStopping?)
    ensures Sound(YieldAndStop(l, k, t, after))
  {
    hide Keys, Slots, Partition, AtMostOnce, Covered;
    YieldAndStopStructure(l, k, t, after);
    YieldAndStopCustody(l, k, t, after);
  }

  lemma SoundYieldAndProbe(l: Ledger, k: nat, t: Tunnel, caller: Caller)
    requires Sound(l) && k in l.ops && l.ops[k].AwaitProvider? && k in l.pendings && !l.pendings[k].cancelled && t !in l.yielded
    ensures Sound(YieldAndProbe(l, k, t, caller))
  {
    var m := YieldAndProbe(l, k, t, caller);
    forall t <- m.yielded ensures Covered(m, t) {
      assert t in l.yielded ==> Covered(l, t);
      if k :| k in l.ops && l.ops[k] == StopPending(Some(t)) {
        assert (k in m.ops && m.ops[k] == StopPending(Some(t))) || t in m.stops;
      }
    }
  }

  lemma SoundLateStop(l: Ledger, k: nat, t: Tunnel)
    requires Sound(l) && t !in l.yielded
    ensures Sound(LateStop(l, k, t))
  {
    var m := LateStop(l, k, t);
    forall t <- m.yielded ensures Covered(m, t) {
      assert t in l.yielded ==> Covered(l, t);
      if k :| k in l.ops && l.ops[k] == StopPending(Some(t)) {
        assert (k in m.ops && m.ops[k] == StopPending(Some(t))) || t in m.stops;
      }
    }
  }

  lemma NoteProbeStructure(l: Ledger, t: Tunnel, status: int)
    requires Sound(l)
    ensures Keys(NoteProbe(l, t, status)) && Slots(NoteProbe(l, t, status))
  {
    hide Partition, AtMostOnce, Covered;
  }

  lemma NoteProbeCustody(l: Ledger, t: Tunnel, status: int)
    requires Sound(l)
    ensures var m := NoteProbe(l, t, status); Partition(m) && AtMostOnce(m) && forall t <- m.yielded :: Covered(m, t)
  {
    hide Slots;
    var m := NoteProbe(l, t, status);
    forall t <- m.yielded ensures Covered(m, t) {
      assert t in l.yielded ==> Covered(l, t);
      if k :| k in l.ops && l.ops[k] == StopPending(Some(t)) {
        assert (k in m.ops && m.ops[k] == StopPending(Some(t))) || t in m.stops;
      }
    }
  }

  lemma SoundNoteProbe(l: Ledger, t: Tunnel, status: int)
    requires Sound(l)
    ensures Sound(NoteProbe(l, t, status))
  {
    hide Keys, Slots, Partition, AtMostOnce, Covered;
    NoteProbeStructure(l, t, status);
    NoteProbeCustody(l, t, status);
  }

  lemma StructureRelease(l: Ledger, k: nat, t: Tunnel, after: Continuation)
    requires Keys(l) && Slots(l) && k in l.pendings && l.pendings[k].tunnel == Some(t) && (after.Discarding? || after.FailStopping?)
    ensures Keys(Release(l, k, t, after)) && Slots(Release(l, k, t, after))
    ensures PendingTunnel(l) == Some(t) && PendingTunnel(Release(l, k, t, after)).None?
  {
  }

  lemma PartitionRelease(l: Ledger, k: nat, t: Tunnel, after: Continuation)
    requires Sound(l) && k in l.pendings && l.pendings[k].tunnel == Some(t) && (after.Discarding? || after.FailStopping?)
    ensures Partition(Release(l, k, t, after)) && AtMostOnce(Release(l, k, t, after))
  {
    StructureRelease(l, k, t, after);
  }

  lemma SoundRelease(l: Ledger, k: nat, t: Tunnel, after: Continuation)
    requires Sound(l) && k in l.pendings && l.pendings[k].tunnel == Some(t) && (after.Discarding? || after.FailStopping?)
    ensures Sound(Release(l, k, t, after))
  {
    StructureRelease(l, k, t, after);
    PartitionRelease(l, k, t, after);
    var m := Release(l, k, t, after);
    forall u <- m.yielded ensures Covered(m, u) {
      assert Covered(l, u);
      if j :| j in l.ops && l.ops[j] == StopPending(Some(u)) { assert j in m.ops; }
    }
  }

  lemma PromoteStructure(l: Ledger, k: nat, t: Tunnel)
    requires Sound(l) && k in l.pendings && l.pendings[k].tunnel == Some(t) && t in l.probedOk
    ensures Keys(Promote(l, k, t)) && Slots(Promote(l, k, t))
  {
    hide Partition, AtMostOnce, Covered;
  }

  lemma PromoteCustody(l: Ledger, k: nat, t: Tunnel)
    requires Sound(l) && k in l.pendings && l.pendings[k].tunnel == Some(t) && t in l.probedOk
    ensures var m := Promote(l, k, t); Partition(m) && AtMostOnce(m) && forall t <- m.yielded :: Covered(m, t)
  {
    var m := Promote(l, k, t);
    forall t <- m.yielded ensures Covered(m, t) {
      assert t in l.yielded ==> Covered(l, t);
      if k :| k in l.ops && l.ops[k] == StopPending(Some(t)) {
        assert (k in m.ops && m.ops[k] == StopPending(Some(t))) || t in m.stops;
      }
    }
  }

  lemma SoundPromote(l: Ledger, k: nat, t: Tunnel)
    requires Sound(l) && k in l.pendings && l.pendings[k].tunnel == Some(t) && t in l.probedOk
    ensures Sound(Promote(l, k, t))
  {
    hide Keys, Slots, Partition, AtMostOnce, Covered;
    PromoteStructure(l, k, t);
    PromoteCustody(l, k, t);
  }

  lemma StructureStopNext(l: Ledger, k: nat, t: Tunnel)
    requires Sound(l) && k in l.ops && l.ops[k] == StopPending(Some(t))
    ensures Keys(StopNext(l, k, t)) && Slots(StopNext(l, k, t))
  {
  }

  lemma SoundStopNext(l: Ledger, k: nat, t: Tunnel)
    requires Sound(l) && k in l.ops && l.ops[k] == StopPending(Some(t))
    ensures Sound(StopNext(l, k, t))
  {
    StructureStopNext(l, k, t);
    var m := StopNext(l, k, t);
    assert PendingTunnel(m) == PendingTunnel(l);
    forall t <- m.yielded ensures Covered(m, t) {
      assert t in l.yielded ==> Covered(l, t);
      if k :| k in l.ops && l.ops[k] == StopPending(Some(t)) {
        assert (k in m.ops && m.ops[k] == StopPending(Some(t))) || t in m.stops;
      }
    }
  }

  lemma SoundDemote(l: Ledger)
    requires Sound(l)
    ensures Sound(Demote(l))
  {
    var m := Demote(l);
    forall t <- m.yielded ensures Covered(m, t) {
      assert t in l.yielded ==> Covered(l, t);
      if k :| k in l.ops && l.ops[k] == StopPending(Some(t)) {
        assert (k in m.ops && m.ops[k] == StopPending(Some(t))) || t in m.stops;
      }
    }
  }

  predicate FreshKey(l: Ledger) { l.startGeneration !in l.ops && l.startGeneration !in l.pendings }

  /** A newly drawn generation suspends without binding a tunnel. */
  lemma SuspendStructure(l: Ledger, c: Continuation)
    requires Sound(l) && FreshKey(l) && !UsesPending(c) && !Binds(c)
    ensures Keys(l.(ops := l.ops[l.startGeneration := c])) && Slots(l.(ops := l.ops[l.startGeneration := c]))
  {
    hide Partition, AtMostOnce, Covered;
  }

  lemma SuspendCustody(l: Ledger, c: Continuation)
    requires Sound(l) && FreshKey(l) && !UsesPending(c) && !Binds(c)
    ensures var m := l.(ops := l.ops[l.startGeneration := c]); Partition(m) && AtMostOnce(m) && forall t <- m.yielded :: Covered(m, t)
  {
    hide Slots;
    var m := l.(ops := l.ops[l.startGeneration := c]);
    forall t <- m.yielded ensures Covered(m, t) {
      assert Covered(l, t);
      if k :| k in l.ops && l.ops[k] == StopPending(Some(t)) { assert k in m.ops; }
    }
  }

  lemma SoundSuspend(l: Ledger, c: Continuation)
    requires Sound(l) && FreshKey(l) && !UsesPending(c) && !Binds(c)
    ensures Sound(l.(ops := l.ops[l.startGeneration := c]))
  {
    hide Keys, Slots, Partition, AtMostOnce, Covered;
    SuspendStructure(l, c);
    SuspendCustody(l, c);
  }

  /** A newly drawn generation suspends bound to stop the promoted tunnel. */
  lemma BindStructure(l: Ledger)
    requires Sound(l) && FreshKey(l)
    ensures Keys(l.(tunnel := None, ops := l.ops[l.startGeneration := StopPending(l.tunnel)])) && Slots(l.(tunnel := None, ops := l.ops[l.startGeneration := StopPending(l.tunnel)]))
  {
    hide Partition, AtMostOnce, Covered;
  }

  lemma BindCustody(l: Ledger)
    requires Sound(l) && FreshKey(l)
    ensures var m := l.(tunnel := None, ops := l.ops[l.startGeneration := StopPending(l.tunnel)]); Partition(m) && AtMostOnce(m) && forall t <- m.yielded :: Covered(m, t)
  {
    hide Slots;
    var m := l.(tunnel := None, ops := l.ops[l.startGeneration := StopPending(l.tunnel)]);
    forall t <- m.yielded ensures Covered(m, t) {
      assert Covered(l, t);
      assert l.tunnel == Some(t) ==> m.ops[l.startGeneration] == StopPending(Some(t));
      if k :| k in l.ops && l.ops[k] == StopPending(Some(t)) { assert k in m.ops; }
    }
  }

  lemma SoundBind(l: Ledger)
    requires Sound(l) && FreshKey(l)
    ensures Sound(l.(tunnel := None, ops := l.ops[l.startGeneration := StopPending(l.tunnel)]))
  {
    hide Keys, Slots, Partition, AtMostOnce, Covered;
    BindStructure(l);
    BindCustody(l);
  }

  lemma SoundDetach(l: Ledger)
    requires Sound(l) && PendingTunnel(l).None?
    requires l.pendingStart.Some? ==> l.pendings[l.pendingStart.value].cancelled
    ensures Sound(l.(pendingStart := None))
  {
    var m := l.(pendingStart := None);
    assert PendingTunnel(m).None?;
    forall t <- m.yielded ensures Covered(m, t) { assert Covered(l, t); }
  }

  lemma SoundOpenAfterStale(l: Ledger, caller: Caller)
    requires Sound(l)
    ensures Sound(OpenAfterStale(l, caller))
  {
    SoundTakeOver(l);
    var l1 := TakeOver(l);
    if PendingTunnel(l).Some? { SoundSuspend(l1, StaleStop(caller)); }
    else { SoundOpen(l1, l1.startGeneration, caller); }
  }

  /** After a take-over the drawn generation is new, and the current record, if any, is cancelled. */
  lemma TakeOverFresh(l: Ledger)
    requires Sound(l)
    ensures var m := TakeOver(l);
      && FreshKey(m) && PendingTunnel(m).None? && m.tunnel == l.tunnel
      && (m.pendingStart.Some? ==> m.pendingStart.value in m.pendings && m.pendings[m.pendingStart.value].cancelled)
  {
    hide Slots, Partition, AtMostOnce, Covered;
  }

  lemma DemoteKeepsShape(l: Ledger)
    ensures var m := Demote(l);
      && m.pendingStart == l.pendingStart && m.pendings == l.pendings && m.ops == l.ops && m.startGeneration == l.startGeneration
  {
  }

  lemma SoundBeginStop(l: Ledger)
    requires Sound(l)
    ensures Sound(BeginStop(l))
  {
    hide Sound, TakeOver, Demote;
    SoundTakeOver(l);
    TakeOverFresh(l);
    var l1 := TakeOver(l);
    if PendingTunnel(l).Some? {
      SoundDetach(l1);
      SoundBind(l1.(pendingStart := None));
    } else {
      TakeOverNothing(l);
      SoundDemote(l1);
      DemoteKeepsShape(l1);
      SoundDetach(Demote(l1));
      if l.tunnel.Some? { SoundSuspend(Demote(l1).(pendingStart := None), StopTunnel); }
    }
    BeginStopIs(l);
  }

  lemma TakeOverNothing(l: Ledger)
    requires PendingTunnel(l).None?
    ensures TakeOver(l) == Cancel(l)
  {
  }

  /** A stop in terms of the changes above; a pending tunnel is never the promoted one. */
  lemma BeginStopIs(l: Ledger)
    requires Sound(l)
    ensures var l1 := TakeOver(l);
      BeginStop(l) ==
        if PendingTunnel(l).Some?
        then l1.(pendingStart := None).(tunnel := None, ops := l1.ops[l1.startGeneration := StopPending(l1.tunnel)])
        else
          var l2 := Demote(l1).(pendingStart := None);
          if l.tunnel.Some? then l2.(ops := l2.ops[l2.startGeneration := StopTunnel]) else l2
  {
    hide Keys, Slots, AtMostOnce, Covered;
  }

  // ---------------------------------------------------------------- every event, every run

  lemma SoundLate(l: Ledger, late: set<nat>)
    requires Sound(l)
    ensures Sound(l.(late := late))
  {
    var m := l.(late := late);
    forall t <- m.yielded ensures Covered(m, t) { assert Covered(l, t); }
  }

  lemma StaleStep(g: Gateway, k: nat)
    requires Sound(g.ledger) && Enabled(g, StaleStopped(k))
    ensures Sound(Next(g, StaleStopped(k)).ledger)
  {
    if k != g.ledger.startGeneration || !g.desiredRunning { SoundEnd(g.ledger, k); }
    else { SoundOpen(g.ledger, k, g.ledger.ops[k].caller); }
  }

  lemma ProviderStep(g: Gateway, k: nat, t: Tunnel, urlValid: bool)
    requires Sound(g.ledger) && Enabled(g, ProviderYields(k, t, urlValid))
    ensures Sound(Next(g, ProviderYields(k, t, urlValid)).ledger)
  {
    hide Sound;
    var c := g.ledger.ops[k].caller;
    if Superseded(g, k) { SoundYieldAndStop(g.ledger, k, t, Discarding(c)); }
    else if !urlValid { SoundYieldAndStop(g.ledger, k, t, FailStopping(c)); }
    else { SoundYieldAndProbe(g.ledger, k, t, c); }
  }

  lemma CancelledStep(g: Gateway, k: nat)
    requires Sound(g.ledger) && Enabled(g, ProviderCancelled(k))
    ensures Sound(Next(g, ProviderCancelled(k)).ledger)
  {
    SoundClose(g.ledger, k);
    SoundLate(Close(g.ledger, k), g.ledger.late + {k});
    assert Next(g, ProviderCancelled(k)).ledger == Close(g.ledger, k).(late := g.ledger.late + {k});
  }

  lemma DiscardStep(g: Gateway, k: nat)
    requires Sound(g.ledger) && Waits(g.ledger, k) && g.ledger.ops[k].Probing?
    ensures Sound(Discard(g, k, g.ledger.ops[k].probed, g.ledger.ops[k].caller).ledger)
  {
    hide Sound;
    var t, c := g.ledger.ops[k].probed, g.ledger.ops[k].caller;
    if g.ledger.pendings[k].tunnel == Some(t) {
      SoundRelease(g.ledger, k, t, Discarding(c));
    } else {
      SoundClose(g.ledger, k);
    }
  }

  lemma PromoteStep(g: Gateway, k: nat)
    requires Sound(g.ledger) && Waits(g.ledger, k) && g.ledger.ops[k].Probing? && !Superseded(g, k)
    requires g.ledger.ops[k].probed in g.ledger.probedOk
    ensures Sound(Promote(g.ledger, k, g.ledger.ops[k].probed))
  {
    SoundPromote(g.ledger, k, g.ledger.ops[k].probed);
  }

  lemma RejectStep(g: Gateway, k: nat, status: int)
    requires Sound(g.ledger) && Enabled(g, ProbeReturns(k, status)) && !Is2xx(status) && !Superseded(g, k)
    ensures Sound(Next(g, ProbeReturns(k, status)).ledger)
  {
    SoundRelease(g.ledger, k, g.ledger.ops[k].probed, FailStopping(g.ledger.ops[k].caller));
  }

  lemma ProbeStep(g: Gateway, k: nat, status: int)
    requires Sound(g.ledger) && Enabled(g, ProbeReturns(k, status))
    ensures Sound(Next(g, ProbeReturns(k, status)).ledger)
  {
    hide Sound;
    var l1 := NoteProbe(g.ledger, g.ledger.ops[k].probed, status);
    SoundNoteProbe(g.ledger, g.ledger.ops[k].probed, status);
    if Superseded(g, k) { DiscardStep(g.(ledger := l1), k); }
    else if Is2xx(status) { PromoteStep(g.(ledger := l1), k); }
    else { RejectStep(g, k, status); }
  }

  lemma LeaveStep(g: Gateway, e: Event)
    requires Sound(g.ledger) && Enabled(g, e) && (e.ProviderFails? || e.Discarded? || e.FailStopped?)
    ensures Sound(Next(g, e).ledger)
  {
    hide Sound;
    SoundClose(g.ledger, e.k);
  }

  lemma LateStep(g: Gateway, e: Event)
    requires Sound(g.ledger) && Enabled(g, e) && (e.LateYields? || e.LateFails?)
    ensures Sound(Next(g, e).ledger)
  {
    hide Sound;
    if e.LateYields? { SoundLateStop(g.ledger, e.k, e.t); } else { SoundLate(g.ledger, g.ledger.late - {e.k}); }
  }

  lemma StartStep(g: Gateway, e: Event)
    requires Sound(g.ledger) && Enabled(g, e) && (e.StartCall? || e.ReconnectFires?)
    ensures Sound(Next(g, e).ledger)
  {
    hide Sound;
    SoundOpenAfterStale(g.ledger, if e.StartCall? then External else Reconnect);
  }

  lemma StopCallStep(g: Gateway)
    requires Sound(g.ledger)
    ensures Sound(Next(g, StopCall).ledger)
  {
    hide Sound;
    SoundBeginStop(g.ledger);
  }

  lemma MonitorStep(g: Gateway, sentTo: Option<Tunnel>, status: int)
    requires Sound(g.ledger) && Enabled(g, MonitorProbed(sentTo, status))
    ensures Sound(Next(g, MonitorProbed(sentTo, status)).ledger)
  {
    hide Sound;
    SoundDemote(g.ledger);
  }

  /** The other events do not touch the ledger. */
  lemma QuietStep(g: Gateway, e: Event)
    requires Enabled(g, e)
    requires e.ConnectCall? || e.DisconnectCall? || e.LeaseExpires? || e.MonitorFires? || e.RecoveryResumes? || e.ReconnectResumes?
    ensures Next(g, e).ledger == g.ledger
  {
  }

  lemma StopStep(g: Gateway, k: nat)
    requires Sound(g.ledger) && Enabled(g, StopResumes(k))
    ensures Sound(Next(g, StopResumes(k)).ledger)
  {
    hide Sound;
    var l := g.ledger;
    if l.ops[k].StopPending? && l.ops[k].next.Some? {
      SoundStopNext(l, k, l.ops[k].next.value);
    } else {
      SoundEnd(l, k);
    }
  }

  lemma SoundStep(g: Gateway, e: Event)
    requires Sound(g.ledger) && Enabled(g, e)
    ensures Sound(Next(g, e).ledger)
  {
    hide Sound;
    match e
    case StartCall => StartStep(g, e);
    case StaleStopped(k) => StaleStep(g, k);
    case ProviderYields(k, t, urlValid) => ProviderStep(g, k, t, urlValid);
    case ProviderFails(k) => LeaveStep(g, e);
    case ProviderCancelled(k) => CancelledStep(g, k);
    case ProbeReturns(k, status) => ProbeStep(g, k, status);
    case ProbeThrows(k) => DiscardStep(g, k);
    case Discarded(k) => LeaveStep(g, e);
    case FailStopped(k) => LeaveStep(g, e);
    case LateYields(k, t) => LateStep(g, e);
    case LateFails(k) => LateStep(g, e);
    case StopCall => StopCallStep(g);
    case StopResumes(k) => StopStep(g, k);
    case MonitorProbed(sentTo, status) => MonitorStep(g, sentTo, status);
    case ReconnectFires => StartStep(g, e);
    case _ => QuietStep(g, e);
  }
}
