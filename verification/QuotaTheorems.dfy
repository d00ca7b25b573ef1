/** The promises of the network quota, for every run of the protocol from an empty ledger. */
module QuotaTheorems {
  import opened Words
  import opened QuotaLedger
  import opened QuotaKernel
  import opened QuotaProtocol
  import opened QuotaInvariant
  import opened QuotaPreservation
  import opened QuotaSafety
  import opened QuotaSolo

  // ---------------------------------------------------------------- under any clock

  /** No consistency check of a sync ever fires, and neither does the report's. */
  lemma NoCheckFires(p: Policy, w: World)
    requires Reachable(p, w)
    ensures forall u :: u in w.procs ==> !w.procs[u].Broken?
    ensures LedgerOk(w.s.led) && forall limit, u, d :: MakeReport(w.s.led, limit, u, d).Done?
  {
    hide Reachable;
    ReachableKeeps(p, w);
    forall u | u in w.procs ensures !w.procs[u].Broken? { NeverBroken(w.s, u, w.procs[u]); }
    forall limit, u, d ensures MakeReport(w.s.led, limit, u, d).Done? { ReportIsExact(w.s.led, limit, u, d); }
  }

  /** The joint order of the two stores: ledger counters, live counters, kernel grant, durable grant; at most
      one active epoch per user and day; held grants within the day's limit. */
  lemma StoresAgree(p: Policy, w: World)
    requires Reachable(p, w)
    ensures forall b :: b in w.s.ker.grants ==> Has(w.s.led, b) && w.s.ker.grants[b] <= Row(w.s.led, b).granted
    ensures forall b :: b in w.s.ker.usage ==>
              && Has(w.s.led, b) && HasUsage(w.s, b)
              && Row(w.s.led, b).rx <= CellOf(w.s, b).rx && Row(w.s.led, b).tx <= CellOf(w.s, b).tx
              && (b in w.s.ker.grants ==> Total(CellOf(w.s, b)) <= w.s.ker.grants[b])
    ensures OneActive(w.s.led.rows)
    ensures forall k :: k in w.s.led.limits ==> Held(w.s.led.rows, k.0, k.1) <= w.s.led.limits[k] <= TWO50
  {
    hide Reachable, ProcOk, FlightOk;
    ReachableKeeps(p, w);
    forall b | b in w.s.ker.usage ensures Has(w.s.led, b) && UsageOk(w.s, b) {}
  }

  /** A published pointer names a bucket with all three entries, owned by that user. */
  lemma PointersAreComplete(p: Policy, w: World, u: nat)
    requires Reachable(p, w) && u in w.s.ker.pointer
    ensures var b := w.s.ker.pointer[u];
            Complete(w.s.ker, b) && w.s.ker.meta[b].user == u && Has(w.s.led, b) && Row(w.s.led, b).user == u
  {
    hide Reachable, LedgerOk, BirthsOk, Shape, ProcOk, FlightOk, LiveOk;
    ReachableKeeps(p, w);
  }

  /** A cleanup in progress deletes nothing of a bucket that any pointer names. */
  lemma CleanupSparesPublished(p: Policy, w: World, u: nat, v: nat)
    requires Reachable(p, w) && u in w.procs && w.procs[u].SweepDrop? && v in w.s.ker.pointer
    ensures w.s.ker.pointer[v] !in w.procs[u].ids
  {
    hide Reachable, LedgerOk, BirthsOk, Shape, FlightOk, LiveOk, EntriesOk;
    ReachableKeeps(p, w);
    assert ProcOk(w.s, u, w.procs[u]);
    assert forall id :: id in w.procs[u].ids ==> Mine(w.s, u, id);
  }

  /** A sync rewrites the counters only of a bucket that no pointer names and no packet can charge. */
  lemma RebuildSparesLive(p: Policy, w: World, u: nat)
    requires Reachable(p, w) && u in w.procs && w.procs[u].PutUsage?
    ensures forall v :: v in w.s.ker.pointer ==> w.s.ker.pointer[v] != w.procs[u].e
    ensures forall f :: f in w.flights ==> w.flights[f].b != w.procs[u].e
  {
    hide Reachable, LedgerOk, BirthsOk, Shape, EntriesOk, LiveOk, Chosen, LimitOk;
    ReachableKeeps(p, w);
    assert ProcOk(w.s, u, w.procs[u]);
    forall f | f in w.flights ensures w.flights[f].b != w.procs[u].e { assert FlightOk(w.s, w.flights[f]); }
  }

  /** When a sync publishes the pointer, the kernel grant is the ledger's, the ledger holds the snapshot, and
      the low watermark is covered unless the whole day limit is allocated. */
  lemma SuccessfulSyncFunds(p: Policy, w: World, u: nat)
    requires Reachable(p, w) && u in w.procs && w.procs[u].PutPointer?
    ensures var s, e := w.s, w.procs[u].e;
            && Has(s.led, e) && Complete(s.ker, e) && s.ker.meta[e] == Meta(u, Row(s.led, e).deadline)
            && s.ker.grants[e] == Row(s.led, e).granted && Row(s.led, e).status == Active
            && (u, Row(s.led, e).day) in s.led.limits
            && (Row(s.led, e).granted - Row(s.led, e).rx - Row(s.led, e).tx > s.cfg.low
                || Held(s.led.rows, u, Row(s.led, e).day) == s.led.limits[(u, Row(s.led, e).day)])
            && var s' := Apply(w, Step(u)).s; u in s'.ker.pointer && s'.ker.pointer[u] == e && s'.led == s.led
  {
    hide Reachable, Act, BirthsOk, LiveOk, Sum;
    ReachableKeeps(p, w);
    assert ProcOk(w.s, u, w.procs[u]);
    assert RowOk(w.s.led, w.s.led.rows[w.procs[u].e - 1]);
    PublishSets(w, u);
  }

  /** Step 10 in every run: the row takes the snapshot's counters, and its grant rises only when no more than the low
      watermark is left of the kernel's grant, then to one chunk beyond the usage or as far as the day's limit goes. */
  lemma CommitIsExact(p: Policy, w: World, u: nat)
    requires Reachable(p, w) && u in w.procs && w.procs[u].Commit?
    ensures var s, l', e, row := w.s, Apply(w, Step(u)).s.led, w.procs[u].e, w.procs[u].row;
            && Has(s.led, e) && Row(s.led, e) == row && (u, row.day) in s.led.limits && Has(l', e)
            && Apply(w, Step(u)).s == s.(led := l') && l' == s.led.(rows := s.led.rows[e - 1 := Row(l', e)])
            && var used, granted := w.procs[u].snap.used, Row(l', e).granted;
               var top, room := used.rx + used.tx + s.cfg.chunk, s.led.limits[(u, row.day)] - Held(s.led.rows, u, row.day);
               && Row(l', e) == row.(granted := granted, rx := used.rx, tx := used.tx)
               && granted == if w.procs[u].snap.grant - used.rx - used.tx > s.cfg.low || top <= row.granted then row.granted
                             else if top <= row.granted + room then top else row.granted + room
  {
    hide Reachable, ProcOk, StoreOk, Act, Checkpoint;
    ReachableKeeps(p, w);
    assert ProcOk(w.s, u, w.procs[u]);
    var q := w.procs[u];
    CommitFunds(w.s, u, q);
    ActCommits(w, u, q);
  }

  lemma CommitFunds(s: Store, u: nat, p: Proc)
    requires StoreOk(s) && p.Commit? && ProcOk(s, u, p)
    ensures Has(s.led, p.e) && Row(s.led, p.e) == p.row && (u, p.row.day) in s.led.limits && Consistent(p.row, p.snap)
    ensures var used, r := p.snap.used, Checkpoint(s.led, p.e, p.snap.used, Remaining(p.snap) <= s.cfg.low, s.cfg.chunk);
            && r.Done? && Has(r.value, p.e) && r.value == s.led.(rows := s.led.rows[p.e - 1 := Row(r.value, p.e)])
            && var top, room := used.rx + used.tx + s.cfg.chunk, s.led.limits[(u, p.row.day)] - Held(s.led.rows, u, p.row.day);
               var granted := Row(r.value, p.e).granted;
               && Row(r.value, p.e) == p.row.(granted := granted, rx := used.rx, tx := used.tx)
               && granted == if p.snap.grant - used.rx - used.tx > s.cfg.low || top <= p.row.granted then p.row.granted
                             else if top <= p.row.granted + room then top else p.row.granted + room
  {
    hide Anchor, TicketOk, OneActive, BirthsOk, PointersOk, LiveOk, Sum, Checkpoint;
    GrantFits(s, p.e);
    HeldCovers(s.led, p.e);
    assert RowOk(s.led, s.led.rows[p.e - 1]);
    CheckpointFunds(s.led, p.e, p.snap.used, Remaining(p.snap) <= s.cfg.low, s.cfg.chunk);
  }

  lemma ActCommits(w: World, u: nat, p: Proc)
    requires u in w.procs && w.procs[u] == p && p.Commit? && Consistent(p.row, p.snap)
    requires var r := Checkpoint(w.s.led, p.e, p.snap.used, Remaining(p.snap) <= w.s.cfg.low, w.s.cfg.chunk);
             r.Done? && Has(r.value, p.e)
    ensures var r := Checkpoint(w.s.led, p.e, p.snap.used, Remaining(p.snap) <= w.s.cfg.low, w.s.cfg.chunk);
            Act(w, u, p).s == w.s.(led := r.value)
  {
    hide Checkpoint;
  }

  lemma PublishSets(w: World, u: nat)
    requires u in w.procs && w.procs[u].PutPointer?
    ensures var s' := Act(w, u, w.procs[u]).s; u in s'.ker.pointer && s'.ker.pointer[u] == w.procs[u].e && s'.led == w.s.led
  {
  }

  /** Under any clock, a packet about to be charged passed its deadline test before its epoch's deadline, which is the
      end of the epoch's day, the grace period and the delay between two clock readings away from those readings. */
  lemma ChargedBeforeDeadline(p: Policy, w: World, f: nat)
    requires Reachable(p, w) && f in w.flights && w.flights[f].stage.WantCharge?
    ensures var x := w.flights[f];
            && Has(w.s.led, x.b) && x.b <= |w.s.births|
            && var r := w.s.births[x.b - 1];
               x.stage.at + r.offset < DayEnd(Row(w.s.led, x.b).day) + GRACE_NS + (r.bt - r.wallBt)
  {
    hide Reachable, ProcOk, EntriesOk, LiveOk, LedgerOk, PointersOk;
    ReachableKeeps(p, w);
    assert FlightOk(w.s, w.flights[f]);
  }

  // ---------------------------------------------------------------- when no user's day goes backwards

  ghost predicate WithinLimits(s: Store) {
    forall k :: k in s.led.limits ==> PassedOn(s.led.rows, s.passed, k.0, k.1) <= s.led.limits[k]
  }

  lemma {:induction false} PassedAtMostHeld(rows: seq<Epoch>, passed: seq<nat>, u: nat, d: nat)
    requires |rows| == |passed| && forall i :: 0 <= i < |rows| ==> passed[i] <= rows[i].granted
    ensures PassedOn(rows, passed, u, d) <= Held(rows, u, d)
  {
    if |rows| > 0 {
      var n := |rows| - 1;
      PassedAtMostHeld(rows[..n], passed[..n], u, d);
    }
  }

  /** The daily limit: in every run, what the kernel let through on a user's day is within that day's limit. */
  lemma LimitHolds(p: Policy, w: World)
    requires Forward(p) && Reachable(p, w)
    ensures WithinLimits(w.s)
  {
    hide Reachable, History, ProcDated, ProcOk, FlightOk, EntriesOk, PointersOk, LiveOk, BirthsOk, PassedOn;
    var s := w.s;
    ReachableTracked(p, w);
    forall i | 0 <= i < |s.led.rows| ensures s.passed[i] <= s.led.rows[i].granted { PassedWithinGrant(s, i + 1); }
    forall k | k in s.led.limits ensures PassedOn(s.led.rows, s.passed, k.0, k.1) <= s.led.limits[k] {
      PassedAtMostHeld(s.led.rows, s.passed, k.0, k.1);
    }
  }

  /** Whenever a sync rewrites an epoch's counters, the ledger already accounts for every byte that epoch
      ever let through. */
  lemma RebuildIsExact(p: Policy, w: World, u: nat)
    requires Forward(p) && Reachable(p, w) && u in w.procs && w.procs[u].PutUsage?
    ensures var e := w.procs[u].e;
            Has(w.s.led, e) && e <= |w.s.passed| && Row(w.s.led, e).rx + Row(w.s.led, e).tx == w.s.passed[e - 1]
  {
    hide Reachable, StoreOk, DaysKnown, StaleBehind, EntriesCurrent, LiveExact, OldWithin;
    ReachableTracked(p, w);
    ShapeFits(w.s);
    assert ProcOk(w.s, u, w.procs[u]) && ProcDated(w.s, u, w.procs[u]);
    assert IdleZeroAt(w.s, w.procs[u].e);
  }

  /** Every deadline in the kernel was computed from the clock of the present boot, even after reboots with
      stale active rows. */
  lemma DeadlinesAreCurrent(p: Policy, w: World, b: nat)
    requires Forward(p) && Reachable(p, w) && b in w.s.ker.meta
    ensures var s := w.s;
            && Has(s.led, b) && b <= |s.births|
            && var r := s.births[b - 1];
               && r.gen == s.gen && r.wallBt <= r.bt <= s.bt
               && s.ker.meta[b].deadline == DeadlineOf(r, Row(s.led, b).day)
               && Row(s.led, b).day == DayOf(r.wallBt + r.offset)
  {
    hide Reachable, ProcOk, ProcDated, FlightOk, LedgerOk, LiveOk, PointersOk;
    ReachableTracked(p, w);
    assert Current(w.s, b);
    assert ReadingOk(w.s, w.s.births[b - 1], w.s.led.rows[b - 1].day);
  }

  /** No late packet: one about to be charged passed its deadline test in the boot whose clock the deadline was computed
      from, before the end of the epoch's day by that reading of the wall clock, 30 seconds of grace and the delay
      between the two clock readings. */
  lemma ChargedOnTime(p: Policy, w: World, f: nat)
    requires Forward(p) && Reachable(p, w) && f in w.flights && w.flights[f].stage.WantCharge?
    ensures var x := w.flights[f];
            && Has(w.s.led, x.b) && x.b <= |w.s.births|
            && var r := w.s.births[x.b - 1];
               && r.gen == w.s.gen && r.wallBt <= r.bt <= w.s.bt && x.stage.at <= w.s.bt
               && Row(w.s.led, x.b).day == DayOf(r.wallBt + r.offset)
               && x.stage.at + r.offset < DayEnd(Row(w.s.led, x.b).day) + GRACE_NS + (r.bt - r.wallBt)
  {
    hide Reachable, ProcOk, ProcDated, EntriesOk, LedgerOk, PointersOk;
    ReachableTracked(p, w);
    ChargedBeforeDeadline(p, w, f);
    assert FlightOk(w.s, w.flights[f]) && Current(w.s, w.flights[f].b);
    assert ReadingOk(w.s, w.s.births[w.flights[f].b - 1], w.s.led.rows[w.flights[f].b - 1].day);
  }
}
