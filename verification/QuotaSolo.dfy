/** One user's sync stepping alone: the state after each of its steps. */
module QuotaSolo {
  import opened Words
  import opened QuotaLedger
  import opened QuotaKernel
  import opened QuotaProtocol
  import opened QuotaInvariant
  import opened QuotaPreservation

  /** The world in which user `u`'s sync, alone, goes on with `next`. */
  function At(s: Store, u: nat, next: Proc): World {
    World(s, map[u := next], map[])
  }

  function Rest(s: Store): World {
    World(s, map[], map[])
  }

  ghost predicate OnlySteps(run: seq<Event>, u: nat) {
    forall i :: 0 <= i < |run| ==> run[i] == Step(u)
  }

  lemma Snoc(w0: World, run: seq<Event>, u: nat, s: Store, p: Proc)
    requires OnlySteps(run, u) && After(w0, run) == At(s, u, p)
    ensures OnlySteps(run + [Step(u)], u) && After(w0, run + [Step(u)]) == Act(At(s, u, p), u, p)
  {
    hide Act;
    assert (run + [Step(u)])[..|run|] == run;
  }

  /** A sync stepping alone from a state that satisfies the invariant stays within it. */
  lemma {:induction false} SoloKeeps(w: World, run: seq<Event>, u: nat)
    requires Inv(w) && OnlySteps(run, u)
    ensures Inv(After(w, run))
  {
    hide Inv, Act;
    if |run| > 0 {
      SoloKeeps(w, run[..|run| - 1], u);
      var v := After(w, run[..|run| - 1]);
      if u in v.procs { InvStep(v, u); }
    }
  }

  lemma InvStep(w: World, u: nat)
    requires Inv(w) && u in w.procs
    ensures Inv(Act(w, u, w.procs[u]))
  {
    hide Inv, Act;
    StepKeeps(w, u);
  }

  lemma ActRead(s: Store, u: nat, p: Proc)
    requires Reads(p)
    ensures Act(At(s, u, p), u, p) == At(s, u, NextRead(s, u, p))
  {
    hide NextRead;
  }

  lemma ActDrop(s: Store, u: nat, t: Ticket, b: nat)
    ensures Act(At(s, u, DropMeta(t, b)), u, DropMeta(t, b)) == At(DeleteMeta(s, b), u, DropGrant(t, b))
    ensures Act(At(s, u, DropGrant(t, b)), u, DropGrant(t, b)) == At(DeleteGrant(s, b), u, DropUsage(t, b))
    ensures Act(At(s, u, DropUsage(t, b)), u, DropUsage(t, b)) == At(DeleteUsage(s, b), u, GetEpoch(t, b, None))
  {
    hide DeleteMeta, DeleteGrant, DeleteUsage;
  }

  lemma ActSweep(s: Store, u: nat, day: nat)
    ensures Act(At(s, u, Sweep(day)), u, Sweep(day))
            == if u in s.ker.pointer then At(s, u, SweepRows(day, s.ker.pointer[u])) else Rest(s)
  {
    assert map[u := Sweep(day)] - {u} == map[];
  }

  lemma ActSweepRows(s: Store, u: nat, day: nat, current: nat)
    ensures Act(At(s, u, SweepRows(day, current)), u, SweepRows(day, current))
            == At(s.(led := RetireHistory(s.led, u, day, current)), u, SweepList(day, current))
  {
    hide RetireHistory;
  }

  lemma ActSweepDrop(s: Store, u: nat, ids: seq<nat>, stage: nat)
    ensures Act(At(s, u, SweepDrop(ids, stage)), u, SweepDrop(ids, stage))
            == if |ids| == 0 then Rest(s)
               else if stage == 0 then At(DeleteMeta(s, ids[0]), u, SweepDrop(ids, 1))
               else if stage == 1 then At(DeleteGrant(s, ids[0]), u, SweepDrop(ids, 2))
               else At(DeleteUsage(s, ids[0]), u, SweepDrop(ids[1..], 0))
  {
    hide DeleteMeta, DeleteGrant, DeleteUsage;
    assert map[u := SweepDrop(ids, stage)] - {u} == map[];
  }

  lemma ActRetire(s: Store, u: nat, t: Ticket, b: nat)
    ensures Act(At(s, u, Retire(t, b)), u, Retire(t, b)) == At(s.(led := RetireDay(s.led, u, t.day)), u, GetEpoch(t, b, None))
  {
    hide RetireDay;
  }

  lemma ActGetEpoch(s: Store, u: nat, t: Ticket, b: nat, seen: Option<Snapshot>)
    ensures var (s', e) := Open(s, u, t);
            var row, p := Row(s'.led, e), GetEpoch(t, b, seen);
            && (seen.None? ==> Act(At(s, u, p), u, p) == At(s', u, PutGrant(e, row)))
            && (seen.Some? && b == e ==> Act(At(s, u, p), u, p) == At(s', u, Commit(e, row, seen.value)))
            && (seen.Some? && b != e ==> Act(At(s, u, p), u, p) == At(s', u, CloseOld(b, seen.value, e, row)))
  {
    hide Open;
  }

  lemma ActClose(s: Store, u: nat, b: nat, prev: Snapshot, e: nat, row: Epoch)
    ensures var p, r := CloseOld(b, prev, e, row), CloseSnapshot(s.led, b, u, prev.grant, prev.used);
            && (r.Done? ==> Act(At(s, u, p), u, p) == At(s.(led := r.value), u, PutGrant(e, row)))
            && (r.Fault? ==> Act(At(s, u, p), u, p) == At(s, u, Broken(r.check)))
  {
    hide CloseSnapshot;
  }

  lemma ActGrant(s: Store, u: nat, e: nat, row: Epoch)
    ensures Act(At(s, u, PutGrant(e, row)), u, PutGrant(e, row)) == At(WriteGrant(s, e, row.granted), u, PutUsage(e, row))
  {
    hide WriteGrant;
  }

  lemma ActUsage(s: Store, u: nat, e: nat, row: Epoch)
    ensures Act(At(s, u, PutUsage(e, row)), u, PutUsage(e, row))
         == At(WriteUsage(s, e, row), u, Commit(e, row, Snapshot(row.granted, Usage(row.rx, row.tx))))
  {
    hide WriteUsage;
  }

  /** The comparison of step 10 finds the kernel within the ledger. */
  predicate Consistent(row: Epoch, snap: Snapshot) {
    snap.grant <= row.granted && snap.used.rx <= snap.grant && snap.used.tx <= Sub64(snap.grant, snap.used.rx)
  }

  function Remaining(snap: Snapshot): nat {
    Sub64(Sub64(snap.grant, snap.used.rx), snap.used.tx)
  }

  lemma ActCommitFault(s: Store, u: nat, e: nat, row: Epoch, snap: Snapshot)
    ensures var p := Commit(e, row, snap);
            var r := Checkpoint(s.led, e, snap.used, Remaining(snap) <= s.cfg.low, s.cfg.chunk);
            && (!Consistent(row, snap) ==> Act(At(s, u, p), u, p) == At(s, u, Broken(KernelAboveLedger)))
            && (Consistent(row, snap) && r.Fault? ==> Act(At(s, u, p), u, p) == At(s, u, Broken(r.check)))
  {
    hide Checkpoint;
  }

  lemma ActCommit(s: Store, u: nat, e: nat, row: Epoch, snap: Snapshot, l: Ledger)
    requires Consistent(row, snap) && Has(l, e)
    requires Checkpoint(s.led, e, snap.used, Remaining(snap) <= s.cfg.low, s.cfg.chunk) == Done(l)
    ensures var p := Commit(e, row, snap);
            var next := if snap.grant != Row(l, e).granted then Raise(e, Row(l, e)) else PutMeta(e, Row(l, e));
            Act(At(s, u, p), u, p) == At(s.(led := l), u, next)
  {
    hide Checkpoint;
  }

  lemma ActRaise(s: Store, u: nat, e: nat, row: Epoch)
    ensures var p := Raise(e, row);
            && (e in s.ker.grants ==> Act(At(s, u, p), u, p) == At(WriteGrant(s, e, row.granted), u, PutMeta(e, row)))
            && (e !in s.ker.grants ==> Act(At(s, u, p), u, p) == At(s, u, Broken(GrantEntryMissing)))
  {
    hide WriteGrant;
  }

  lemma ActMeta(s: Store, u: nat, e: nat, row: Epoch)
    ensures Act(At(s, u, PutMeta(e, row)), u, PutMeta(e, row)) == At(WriteMeta(s, e, Meta(u, row.deadline)), u, PutPointer(e, row))
  {
    hide WriteMeta;
  }

  lemma ActPointer(s: Store, u: nat, e: nat, row: Epoch)
    ensures Act(At(s, u, PutPointer(e, row)), u, PutPointer(e, row)) == Rest(Publish(s, u, e))
  {
    hide Publish;
    assert map[u := PutPointer(e, row)] - {u} == map[];
  }
}
