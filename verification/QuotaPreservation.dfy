/** Every step of the quota protocol keeps the invariant: no interleaving of packets, sync steps, cleanups,
    failures, restarts, reboots and clock changes leaves it. */
module QuotaPreservation {
  import opened Words
  import opened QuotaLedger
  import opened QuotaKernel
  import opened QuotaProtocol
  import opened QuotaInvariant

  /** What a change of the shared state by user `u` must keep: its own invariant, the packets in flight and
      the syncs of every other user. */
  ghost predicate Keeps(s: Store, s': Store, u: nat) {
    && StoreOk(s')
    && (forall x: Flight :: FlightOk(s, x) ==> FlightOk(s', x))
    && (forall v :: v != u ==> SameFor(s, s', v))
  }

  lemma Settle(w: World, s': Store, u: nat, next: Proc)
    requires Inv(w) && Keeps(w.s, s', u) && ProcOk(s', u, next)
    ensures Inv(Goto(w, s', u, next))
  {
    hide StoreOk, SameFor, FlightOk;
    forall v | v in w.procs && v != u ensures ProcOk(s', v, w.procs[v]) { ProcKept(w.s, s', v, w.procs[v]); }
  }

  lemma SettleLeave(w: World, s': Store, u: nat)
    requires Inv(w) && Keeps(w.s, s', u)
    ensures Inv(Leave(w, s', u))
  {
    hide StoreOk, SameFor, FlightOk;
    forall v | v in w.procs && v != u ensures ProcOk(s', v, w.procs[v]) { ProcKept(w.s, s', v, w.procs[v]); }
  }

  lemma NothingKeeps(s: Store, u: nat)
    requires StoreOk(s)
    ensures Keeps(s, s, u)
  {
  }

  /** Changes of the maps leave ledger and history alone. */
  lemma MapsOnly(s: Store, s': Store)
    requires StoreOk(s) && s' == s.(ker := s'.ker, live := s'.live)
    ensures Shape(s') && LedgerOk(s'.led) && BirthsOk(s')
  {
  }

  lemma OthersSame(s: Store, s': Store, u: nat)
    requires Shape(s) && EntriesOk(s) && LiveOk(s) && |s.cells| <= |s'.cells| && s.cells == s'.cells[..|s.cells|]
    requires s' == s.(ker := s'.ker, live := s'.live, cells := s'.cells, owner := s'.owner)
    requires forall v :: v != u ==> Find(s'.ker.pointer, v) == Find(s.ker.pointer, v)
    requires forall b :: Has(s.led, b) && Row(s.led, b).user != u ==> SameBucket(s, s', b)
    ensures forall v :: v != u ==> SameFor(s, s', v)
  {
    forall v | v != u ensures SameFor(s, s', v) {
      forall c | Mine(s, v, c) ensures SameBucket(s, s', c) {}
      forall c | 0 <= c < |s.cells| ensures s.cells[c] == s'.cells[c] { assert s.cells[c] == s'.cells[..|s.cells|][c]; }
    }
  }

  // ---------------------------------------------------------------- deleting entries

  ghost predicate Unpointed(s: Store, u: nat, b: nat) {
    Mine(s, u, b) && (u in s.ker.pointer ==> s.ker.pointer[u] != b)
  }

  ghost predicate Deletes(s: Store, s': Store, b: nat) {
    s' == DeleteMeta(s, b) || s' == DeleteGrant(s, b) || s' == DeleteUsage(s, b)
  }

  lemma DeleteKeeps(s: Store, s': Store, u: nat, b: nat)
    requires StoreOk(s) && Unpointed(s, u, b) && Deletes(s, s', b)
    ensures Keeps(s, s', u)
  {
    hide Shape, LedgerOk, BirthsOk, EntriesOk, PointersOk, LiveOk, FlightOk, SameFor;
    MapsOnly(s, s');
    DeleteEntries(s, s', b);
    DeletePointers(s, s', u, b);
    DeleteLive(s, s', b);
    DeleteFlights(s, s', b);
    DeleteOthers(s, s', u, b);
  }

  lemma DeleteFlights(s: Store, s': Store, b: nat)
    requires Deletes(s, s', b)
    ensures forall x: Flight :: FlightOk(s, x) ==> FlightOk(s', x)
  {
    forall x: Flight | FlightOk(s, x) ensures FlightOk(s', x) {}
  }

  lemma DeleteOthers(s: Store, s': Store, u: nat, b: nat)
    requires Shape(s) && EntriesOk(s) && LiveOk(s) && Mine(s, u, b) && Deletes(s, s', b)
    ensures forall v :: v != u ==> SameFor(s, s', v)
  {
    hide SameFor;
    OthersSame(s, s', u);
  }

  lemma DeleteEntries(s: Store, s': Store, b: nat)
    requires Shape(s) && EntriesOk(s) && Deletes(s, s', b)
    ensures EntriesOk(s')
  {
    forall c | c in s'.ker.usage ensures Has(s'.led, c) && UsageOk(s', c) { assert UsageOk(s, c); }
  }

  lemma DeletePointers(s: Store, s': Store, u: nat, b: nat)
    requires PointersOk(s) && Unpointed(s, u, b) && Deletes(s, s', b)
    ensures PointersOk(s')
  {
  }

  lemma DeleteLive(s: Store, s': Store, b: nat)
    requires LiveOk(s) && Deletes(s, s', b)
    ensures LiveOk(s')
  {
    forall c | c in s'.live ensures Has(s'.led, c) && PublishedOk(s', c) { assert PublishedOk(s, c); }
  }

  // ---------------------------------------------------------------- writing entries

  ghost predicate Writes(s: Store, s': Store, e: nat) {
    && Has(s.led, e)
    && (s' == WriteGrant(s, e, Row(s.led, e).granted)
        || s' == WriteMeta(s, e, Meta(Row(s.led, e).user, Row(s.led, e).deadline)))
  }

  /** Publishing the durable grant, which never falls while the bucket is published, or the metadata. */
  lemma WriteKeeps(s: Store, s': Store, u: nat, e: nat)
    requires StoreOk(s) && Mine(s, u, e) && Writes(s, s', e)
    requires s' == WriteGrant(s, e, Row(s.led, e).granted) ==> e !in s.live || e in s.ker.grants
    ensures Keeps(s, s', u)
  {
    hide Shape, LedgerOk, BirthsOk, EntriesOk, PointersOk, LiveOk, FlightOk, SameFor;
    MapsOnly(s, s');
    WriteKeepsStore(s, s', e);
    WriteFlights(s, s', e);
    WriteOthers(s, s', u, e);
  }

  lemma WriteFlights(s: Store, s': Store, e: nat)
    requires Writes(s, s', e)
    requires s' == WriteGrant(s, e, Row(s.led, e).granted) ==> e !in s.live || e in s.ker.grants
    ensures forall x: Flight :: FlightOk(s, x) ==> FlightOk(s', x)
  {
    forall x: Flight | FlightOk(s, x) ensures FlightOk(s', x) {}
  }

  lemma WriteOthers(s: Store, s': Store, u: nat, e: nat)
    requires Shape(s) && EntriesOk(s) && LiveOk(s) && Mine(s, u, e) && Writes(s, s', e)
    ensures forall v :: v != u ==> SameFor(s, s', v)
  {
    hide SameFor;
    OthersSame(s, s', u);
  }

  lemma WriteKeepsStore(s: Store, s': Store, e: nat)
    requires Shape(s) && EntriesOk(s) && PointersOk(s) && LiveOk(s) && Writes(s, s', e)
    ensures EntriesOk(s') && PointersOk(s') && LiveOk(s')
  {
    forall c | c in s'.ker.usage ensures Has(s'.led, c) && UsageOk(s', c) { assert UsageOk(s, c); }
    forall c | c in s'.live ensures Has(s'.led, c) && PublishedOk(s', c) { assert PublishedOk(s, c); }
  }

  /** Re-initialising the counters of a bucket that was not published since the maps were empty. */
  lemma UsageKeeps(s: Store, u: nat, e: nat)
    requires StoreOk(s) && Mine(s, u, e) && e !in s.live && Find(s.ker.grants, e) == Some(Row(s.led, e).granted)
    ensures Keeps(s, WriteUsage(s, e, Row(s.led, e)), u)
    ensures var row := Row(s.led, e);
            Counted(WriteUsage(s, e, row), e, Snapshot(row.granted, Usage(row.rx, row.tx)))
  {
    hide Shape, LedgerOk, BirthsOk, EntriesOk, PointersOk, LiveOk, FlightOk, SameFor;
    UsageShape(s, e);
    UsageEntries(s, e);
    UsageLive(s, e);
    UsageOthers(s, u, e);
  }

  lemma UsageShape(s: Store, e: nat)
    requires Shape(s) && LedgerOk(s.led) && BirthsOk(s) && Has(s.led, e)
    ensures var s' := WriteUsage(s, e, Row(s.led, e)); Shape(s') && BirthsOk(s')
    ensures Row(s.led, e).rx + Row(s.led, e).tx <= Row(s.led, e).granted
  {
    assert RowOk(s.led, s.led.rows[e - 1]);
    HeldCovers(s.led, e);
  }

  lemma UsageEntries(s: Store, e: nat)
    requires Shape(s) && LedgerOk(s.led) && EntriesOk(s) && Has(s.led, e)
    requires Find(s.ker.grants, e) == Some(Row(s.led, e).granted)
    ensures var s' := WriteUsage(s, e, Row(s.led, e)); EntriesOk(s') && (PointersOk(s) ==> PointersOk(s'))
  {
    var s' := WriteUsage(s, e, Row(s.led, e));
    assert RowOk(s.led, s.led.rows[e - 1]);
    forall c | c in s'.ker.usage ensures Has(s'.led, c) && UsageOk(s', c) { if c != e { assert UsageOk(s, c); } }
  }

  lemma UsageLive(s: Store, e: nat)
    requires Shape(s) && LiveOk(s) && Has(s.led, e) && e !in s.live
    ensures LiveOk(WriteUsage(s, e, Row(s.led, e)))
  {
    var s' := WriteUsage(s, e, Row(s.led, e));
    forall c | c in s'.live ensures Has(s'.led, c) && PublishedOk(s', c) { assert PublishedOk(s, c); }
  }

  lemma UsageOthers(s: Store, u: nat, e: nat)
    requires StoreOk(s) && Mine(s, u, e) && e !in s.live
    ensures var s' := WriteUsage(s, e, Row(s.led, e));
            && (forall x: Flight :: FlightOk(s, x) ==> FlightOk(s', x)) && forall v :: v != u ==> SameFor(s, s', v)
  {
    hide SameFor, LedgerOk, BirthsOk;
    var s' := WriteUsage(s, e, Row(s.led, e));
    forall x: Flight | FlightOk(s, x) ensures FlightOk(s', x) { assert x.b != e; }
    OthersSame(s, s', u);
  }

  /** Switching the pointer to a complete bucket whose predecessor is closed. */
  lemma PublishKeeps(s: Store, u: nat, e: nat, row: Epoch)
    requires StoreOk(s) && Chosen(s, u, e, row) && Complete(s.ker, e)
    ensures Keeps(s, Publish(s, u, e), u)
  {
    var s' := Publish(s, u, e);
    MapsOnly(s, s');
    PublishLive(s, u, e, row);
    PublishEntries(s, u, e);
    PublishFlights(s, u, e);
    PublishOthers(s, u, e);
  }

  lemma PublishOthers(s: Store, u: nat, e: nat)
    requires Shape(s) && EntriesOk(s) && LiveOk(s) && Mine(s, u, e)
    ensures forall v :: v != u ==> SameFor(s, Publish(s, u, e), v)
  {
    OthersSame(s, Publish(s, u, e), u);
  }

  lemma PublishEntries(s: Store, u: nat, e: nat)
    requires EntriesOk(s) && PointersOk(s) && Mine(s, u, e) && Complete(s.ker, e)
    ensures EntriesOk(Publish(s, u, e)) && PointersOk(Publish(s, u, e))
  {
    var s' := Publish(s, u, e);
    forall c | c in s'.ker.usage ensures Has(s'.led, c) && UsageOk(s', c) { assert UsageOk(s, c); }
  }

  lemma PublishFlights(s: Store, u: nat, e: nat)
    requires EntriesOk(s) && LiveOk(s) && Complete(s.ker, e)
    ensures forall x: Flight :: FlightOk(s, x) ==> FlightOk(Publish(s, u, e), x)
  {
    var s' := Publish(s, u, e);
    forall x: Flight | FlightOk(s, x) ensures FlightOk(s', x) { assert PublishedOk(s, x.b); }
  }

  lemma PublishLive(s: Store, u: nat, e: nat, row: Epoch)
    requires EntriesOk(s) && PointersOk(s) && LiveOk(s) && Chosen(s, u, e, row) && Complete(s.ker, e)
    ensures LiveOk(Publish(s, u, e))
  {
    var s' := Publish(s, u, e);
    assert UsageOk(s, e);
    forall c | c in s'.live ensures Has(s'.led, c) && PublishedOk(s', c) {
      if c != e { assert PublishedOk(s, c); }
    }
  }

  // ---------------------------------------------------------------- ledger transactions

  /** A transaction that touches rows of user `u` only. */
  ghost predicate Rewrites(s: Store, s': Store, u: nat) {
    && s' == s.(led := s'.led) && s'.led.limits == s.led.limits && |s'.led.rows| == |s.led.rows|
    && LedgerOk(s'.led)
    && forall b :: Has(s.led, b) ==> RewritesRow(s, Row(s.led, b), Row(s'.led, b), u, b)
  }

  ghost predicate RewritesRow(s: Store, e: Epoch, e': Epoch, u: nat, b: nat) {
    || e' == e
    || (&& e.user == u && e' == e.(status := e'.status, granted := e'.granted, rx := e'.rx, tx := e'.tx)
        && (e'.status == Active ==> e.status == Active)
        && (e.granted <= e'.granted || Find(s.ker.grants, b) == Some(e'.granted))
        && ((e'.rx == e.rx && e'.tx == e.tx && e.granted <= e'.granted)
            || (HasUsage(s, b) && e'.rx <= CellOf(s, b).rx && e'.tx <= CellOf(s, b).tx)))
  }

  lemma RewriteKeeps(s: Store, s': Store, u: nat)
    requires StoreOk(s) && Rewrites(s, s', u)
    ensures Keeps(s, s', u)
  {
    RewriteEntries(s, s', u);
    RewritePointers(s, s', u);
    RewriteLive(s, s', u);
    RewriteFlights(s, s', u);
    forall i | 0 <= i < |s'.births| ensures s'.led.rows[i].deadline == DeadlineOf(s'.births[i], s'.led.rows[i].day)
    {
      assert RewritesRow(s, Row(s.led, i + 1), Row(s'.led, i + 1), u, i + 1);
    }
    assert BirthsOk(s') by {
      forall i | 0 <= i < |s'.births| ensures ReadingOk(s', s'.births[i], s'.led.rows[i].day) {
        assert RewritesRow(s, Row(s.led, i + 1), Row(s'.led, i + 1), u, i + 1);
      }
    }
    forall v | v != u ensures SameFor(s, s', v) { RewriteOthers(s, s', u, v); }
  }

  lemma RewriteEntries(s: Store, s': Store, u: nat)
    requires EntriesOk(s) && Rewrites(s, s', u)
    ensures EntriesOk(s')
  {
    forall b | b in s'.ker.meta ensures s'.ker.meta[b] == Meta(Row(s'.led, b).user, Row(s'.led, b).deadline) {
      assert RewritesRow(s, Row(s.led, b), Row(s'.led, b), u, b);
    }
    forall b | b in s'.ker.grants ensures s'.ker.grants[b] <= Row(s'.led, b).granted {
      assert RewritesRow(s, Row(s.led, b), Row(s'.led, b), u, b);
    }
    forall b | b in s'.ker.usage ensures UsageOk(s', b) {
      assert UsageOk(s, b) && RewritesRow(s, Row(s.led, b), Row(s'.led, b), u, b);
    }
  }

  lemma RewritePointers(s: Store, s': Store, u: nat)
    requires PointersOk(s) && Rewrites(s, s', u)
    ensures PointersOk(s')
  {
    forall v | v in s'.ker.pointer ensures Mine(s', v, s'.ker.pointer[v]) {
      var b := s.ker.pointer[v];
      assert RewritesRow(s, Row(s.led, b), Row(s'.led, b), u, b);
    }
  }

  lemma RewriteLive(s: Store, s': Store, u: nat)
    requires EntriesOk(s) && LiveOk(s) && Rewrites(s, s', u)
    ensures LiveOk(s')
  {
    forall b | b in s'.live ensures PublishedOk(s', b) {
      assert PublishedOk(s, b) && RewritesRow(s, Row(s.led, b), Row(s'.led, b), u, b);
      if b in s.ker.usage { assert UsageOk(s, b); }
    }
  }

  lemma RewriteFlights(s: Store, s': Store, u: nat)
    requires Rewrites(s, s', u)
    ensures forall x: Flight :: FlightOk(s, x) ==> FlightOk(s', x)
  {
    forall x: Flight | FlightOk(s, x) ensures FlightOk(s', x) {
      assert RewritesRow(s, Row(s.led, x.b), Row(s'.led, x.b), u, x.b);
    }
  }

  lemma RewriteOthers(s: Store, s': Store, u: nat, v: nat)
    requires Rewrites(s, s', u) && v != u
    ensures SameFor(s, s', v)
  {
    forall b | Mine(s, v, b) ensures SameBucket(s, s', b) {
      assert RewritesRow(s, Row(s.led, b), Row(s'.led, b), u, b);
    }
    forall i | 0 <= i < |s.led.rows|
      ensures s'.led.rows[i] == s.led.rows[i] || (s.led.rows[i].user == u && s'.led.rows[i].user == u)
    {
      assert RewritesRow(s, Row(s.led, i + 1), Row(s'.led, i + 1), u, i + 1);
    }
    forall d ensures Held(s'.led.rows, v, d) == Held(s.led.rows, v, d) {
      OthersHeld(s.led.rows, s'.led.rows, u, v, d);
    }
  }

  lemma {:induction false} OthersHeld(a: seq<Epoch>, b: seq<Epoch>, u: nat, v: nat, d: nat)
    requires u != v && |a| == |b|
    requires forall i :: 0 <= i < |a| ==> b[i] == a[i] || (a[i].user == u && b[i].user == u)
    ensures Held(b, v, d) == Held(a, v, d)
  {
    if |a| > 0 { OthersHeld(a[..|a| - 1], b[..|b| - 1], u, v, d); }
  }

  lemma RetireKeeps(s: Store, u: nat, l: Ledger)
    requires StoreOk(s) && l.limits == s.led.limits && |l.rows| == |s.led.rows|
    requires forall i :: 0 <= i < |l.rows| ==>
               l.rows[i] == s.led.rows[i] || (s.led.rows[i].user == u && l.rows[i] == s.led.rows[i].(status := Closed))
    ensures Keeps(s, s.(led := l), u)
  {
    ClosingKeepsLedger(s.led, l);
    RewriteKeeps(s, s.(led := l), u);
  }

  /** One row takes a snapshot's counters: its grant rises, or falls to the kernel's. */
  lemma RowKeeps(s: Store, u: nat, b: nat, snap: Snapshot, e: Epoch, l: Ledger)
    requires StoreOk(s) && Mine(s, u, b) && Counted(s, b, snap) && LedgerOk(l)
    requires l == s.led.(rows := s.led.rows[b - 1 := e])
    requires e == Row(s.led, b).(status := e.status, granted := e.granted, rx := snap.used.rx, tx := snap.used.tx)
    requires e.status == Active ==> Row(s.led, b).status == Active
    requires Row(s.led, b).granted <= e.granted || e.granted == snap.grant
    ensures Keeps(s, s.(led := l), u)
  {
    var s' := s.(led := l);
    forall c | Has(s.led, c) ensures RewritesRow(s, Row(s.led, c), Row(s'.led, c), u, c) {}
    RewriteKeeps(s, s', u);
  }

  // ---------------------------------------------------------------- opening an epoch

  lemma OpenKeeps(s: Store, u: nat, t: Ticket)
    requires StoreOk(s) && TicketOk(s, t)
    ensures Keeps(s, Open(s, u, t).0, u)
  {
    hide Shape, LedgerOk, BirthsOk, EntriesOk, PointersOk, LiveOk, FlightOk, SameFor, Open;
    var s' := Open(s, u, t).0;
    OpenLedger(s, u, t);
    OpenEntries(s, u, t);
    OpenPointers(s, u, t);
    OpenLive(s, u, t);
    OpenFlights(s, u, t);
    forall v | v != u ensures SameFor(s, s', v) { OpenOthers(s, u, t, v); }
  }

  lemma OpenChooses(s: Store, u: nat, t: Ticket)
    ensures var (s', e) := Open(s, u, t);
            && Mine(s', u, e) && Row(s'.led, e).status == Active && Row(s'.led, e).day == t.day
            && s' == s.(led := s'.led, births := s'.births, passed := s'.passed)
            && (forall b :: Has(s.led, b) ==> Has(s'.led, b) && Row(s'.led, b) == Row(s.led, b))
            && (Has(s.led, e) || e == |s.led.rows| + 1)
  {
  }

  lemma OpenLedger(s: Store, u: nat, t: Ticket)
    requires Shape(s) && LedgerOk(s.led) && BirthsOk(s) && TicketOk(s, t)
    ensures var s' := Open(s, u, t).0; Shape(s') && LedgerOk(s'.led) && BirthsOk(s')
  {
    var s' := Open(s, u, t).0;
    DeadlineLater(t.clock, t.day);
    EnsureKeepsLedger(s.led, u, t.day, s.cfg.limit, DeadlineOf(t.clock, t.day));
  }

  lemma DeadlineLater(r: Reading, day: nat)
    requires day == DayOf(r.wallBt + r.offset)
    ensures DeadlineOf(r, day) > r.bt + GRACE_NS
  {
  }

  lemma OpenEntries(s: Store, u: nat, t: Ticket)
    requires EntriesOk(s)
    ensures EntriesOk(Open(s, u, t).0)
  {
    var s' := Open(s, u, t).0;
    OpenChooses(s, u, t);
    forall c | c in s'.ker.usage ensures Has(s'.led, c) && UsageOk(s', c) { assert UsageOk(s, c); }
  }

  lemma OpenPointers(s: Store, u: nat, t: Ticket)
    requires PointersOk(s)
    ensures PointersOk(Open(s, u, t).0)
  {
    OpenChooses(s, u, t);
  }

  lemma OpenLive(s: Store, u: nat, t: Ticket)
    requires LiveOk(s)
    ensures LiveOk(Open(s, u, t).0)
  {
    var s' := Open(s, u, t).0;
    OpenChooses(s, u, t);
    forall c | c in s'.live ensures Has(s'.led, c) && PublishedOk(s', c) { assert PublishedOk(s, c); }
  }

  lemma OpenFlights(s: Store, u: nat, t: Ticket)
    ensures forall x: Flight :: FlightOk(s, x) ==> FlightOk(Open(s, u, t).0, x)
  {
    hide Open;
    OpenChooses(s, u, t);
    forall x: Flight | FlightOk(s, x) ensures FlightOk(Open(s, u, t).0, x) {}
  }

  lemma OpenOthers(s: Store, u: nat, t: Ticket, v: nat)
    requires v != u
    ensures SameFor(s, Open(s, u, t).0, v)
  {
    var s' := Open(s, u, t).0;
    forall b | Mine(s, v, b) ensures SameBucket(s, s', b) {}
    forall d ensures Held(s'.led.rows, v, d) == Held(s.led.rows, v, d) {
      if |s'.led.rows| > |s.led.rows| { SumAppend(s.led.rows, s'.led.rows[|s.led.rows|], v, d, GrantedColumn()); }
    }
  }

  // ---------------------------------------------------------------- the locked charge

  lemma ChargeReady(s: Store, x: Flight)
    requires StoreOk(s) && FlightOk(s, x) && x.stage.WantCharge?
    ensures x.stage.cell < |s.cells| && 1 <= x.b <= |s.passed| && x.stage.limit <= TWO50
    ensures Total(s.cells[x.stage.cell]) <= TWO50
  {
    assert PublishedOk(s, x.b);
    HeldCovers(s.led, x.b);
  }

  /** A charge stays within the limit that the hook read, so within every later authorization. */
  lemma ChargeKeeps(s: Store, x: Flight)
    requires StoreOk(s) && FlightOk(s, x) && x.stage.WantCharge?
    ensures var s' := ChargeCell(s, x, x.stage.limit, x.stage.cell);
            && StoreOk(s') && (forall y: Flight :: FlightOk(s, y) ==> FlightOk(s', y)) && forall v :: SameFor(s, s', v)
  {
    hide EntriesOk, PointersOk, LiveOk, LedgerOk, BirthsOk, Shape, SameFor, FlightOk, ChargeCell;
    ChargeShape(s, x);
    ChargeEntries(s, x);
    ChargeLive(s, x);
    ChargeOthers(s, x);
  }

  lemma ChargeOthers(s: Store, x: Flight)
    requires StoreOk(s) && FlightOk(s, x) && x.stage.WantCharge?
    ensures var s' := ChargeCell(s, x, x.stage.limit, x.stage.cell);
            (forall y: Flight :: FlightOk(s, y) ==> FlightOk(s', y)) && forall v :: SameFor(s, s', v)
  {
    hide StoreOk;
    var s' := ChargeCell(s, x, x.stage.limit, x.stage.cell);
    ChargeReady(s, x);
    forall y: Flight | FlightOk(s, y) ensures FlightOk(s', y) {}
    forall v ensures SameFor(s, s', v) {
      forall b | Mine(s, v, b) ensures SameBucket(s, s', b) {}
    }
  }

  lemma ChargeShape(s: Store, x: Flight)
    requires StoreOk(s) && FlightOk(s, x) && x.stage.WantCharge?
    ensures var s' := ChargeCell(s, x, x.stage.limit, x.stage.cell); Shape(s') && LedgerOk(s'.led) && BirthsOk(s')
  {
    hide FlightOk, EntriesOk, PointersOk, LiveOk, RowOk, OneActive;
    ChargeReady(s, x);
  }

  lemma ChargeEntries(s: Store, x: Flight)
    requires Shape(s) && EntriesOk(s) && LiveOk(s) && FlightOk(s, x) && x.stage.WantCharge?
    ensures var s' := ChargeCell(s, x, x.stage.limit, x.stage.cell); EntriesOk(s') && (PointersOk(s) ==> PointersOk(s'))
  {
    var s' := ChargeCell(s, x, x.stage.limit, x.stage.cell);
    assert PublishedOk(s, x.b);
    forall c | c in s'.ker.usage ensures Has(s'.led, c) && UsageOk(s', c) { assert UsageOk(s, c); }
  }

  lemma ChargeLive(s: Store, x: Flight)
    requires Shape(s) && LiveOk(s) && FlightOk(s, x) && x.stage.WantCharge?
    ensures LiveOk(ChargeCell(s, x, x.stage.limit, x.stage.cell))
  {
    var s' := ChargeCell(s, x, x.stage.limit, x.stage.cell);
    assert PublishedOk(s, x.b);
    forall c | c in s'.live ensures Has(s'.led, c) && PublishedOk(s', c) { assert PublishedOk(s, c); }
  }

  lemma HookKeeps(w: World, f: nat)
    requires Inv(w) && f in w.flights
    ensures Inv(Hook(w, f, w.flights[f]))
  {
    hide StoreOk, SameFor, ProcOk, FlightOk, ChargeCell;
    var s, x := w.s, w.flights[f];
    if x.stage.WantCharge? {
      ChargeKeeps(s, x);
      var s' := ChargeCell(s, x, x.stage.limit, x.stage.cell);
      forall v | v in w.procs ensures ProcOk(s', v, w.procs[v]) { ProcKept(s, s', v, w.procs[v]); }
    } else {
      LookupFits(s, x);
    }
  }

  lemma LookupFits(s: Store, x: Flight)
    requires StoreOk(s) && FlightOk(s, x)
    ensures x.stage.WantMeta? && x.b in s.ker.meta ==> FlightOk(s, x.(stage := WantGrant(s.ker.meta[x.b])))
    ensures x.stage.WantGrant? && x.b in s.ker.grants ==>
              FlightOk(s, x.(stage := WantUsage(x.stage.bm, s.ker.grants[x.b])))
    ensures x.stage.WantUsage? && x.b in s.ker.usage && s.bt < x.stage.bm.deadline ==>
              FlightOk(s, x.(stage := WantCharge(x.stage.limit, s.ker.usage[x.b], s.bt)))
  {
    assert PublishedOk(s, x.b);
  }

  // ---------------------------------------------------------------- a sync's steps

  predicate Reads(p: Proc) {
    p.ReadBoot? || p.FindPointer? || p.FindActive? || p.ReadMeta? || p.ReadGrant? || p.ReadUsage? || p.SweepList?
  }

  lemma ReadStepKeeps(w: World, u: nat)
    requires Inv(w) && u in w.procs && (Reads(w.procs[u]) || w.procs[u].Sweep?)
    ensures Inv(Act(w, u, w.procs[u]))
  {
    hide StoreOk, FlightOk, Keeps, ProcOk, NextRead;
    NothingKeeps(w.s, u);
    var p := w.procs[u];
    if p.Sweep? {
      if u in w.s.ker.pointer { SweepFits(w.s, u, p.day); Settle(w, w.s, u, SweepRows(p.day, w.s.ker.pointer[u])); }
      else { SettleLeave(w, w.s, u); }
    } else {
      ReadFits(w.s, u, p);
      Settle(w, w.s, u, NextRead(w.s, u, p));
    }
  }

  lemma SweepFits(s: Store, u: nat, day: nat)
    requires u in s.ker.pointer
    ensures ProcOk(s, u, SweepRows(day, s.ker.pointer[u]))
  {
  }

  lemma ReadFits(s: Store, u: nat, p: Proc)
    requires StoreOk(s) && ProcOk(s, u, p) && Reads(p)
    ensures ProcOk(s, u, NextRead(s, u, p))
  {
    hide StoreOk, Chosen, Counted, Funded, Classify;
    PointerFits(s, u);
    if p.ReadUsage? { ReadUsageFits(s, u, p); }
  }

  lemma PointerFits(s: Store, u: nat)
    requires StoreOk(s)
    ensures u in s.ker.pointer ==> Mine(s, u, s.ker.pointer[u]) && Complete(s.ker, s.ker.pointer[u])
  {
  }

  /** The three outcomes of reading a bucket; a complete one always belongs to the user. */
  lemma ReadUsageFits(s: Store, u: nat, p: Proc)
    requires StoreOk(s) && p.ReadUsage? && ProcOk(s, u, p)
    ensures ProcOk(s, u, Classify(u, p.t, p.b, p.bm, p.g, CountersOf(s, p.b)))
  {
    hide LedgerOk, BirthsOk, LiveOk;
    if p.b in s.ker.usage { assert UsageOk(s, p.b); }
    if u in s.ker.pointer { assert Complete(s.ker, p.b); }
  }

  lemma DropStepKeeps(w: World, u: nat)
    requires Inv(w) && u in w.procs
    requires var p := w.procs[u]; p.DropMeta? || p.DropGrant? || p.DropUsage? || p.SweepDrop?
    ensures Inv(Act(w, u, w.procs[u]))
  {
    hide StoreOk, SameFor, FlightOk, Keeps, ProcOk;
    var s, p := w.s, w.procs[u];
    assert ProcOk(s, u, p);
    if p.SweepDrop? && |p.ids| == 0 {
      NothingKeeps(s, u);
      SettleLeave(w, s, u);
    } else {
      var b := if p.SweepDrop? then p.ids[0] else p.b;
      var w' := Act(w, u, p);
      DropFits(s, u, p, b, w'.s, w'.procs[u]);
      DeleteKeeps(s, w'.s, u, b);
      Settle(w, w'.s, u, w'.procs[u]);
    }
  }

  lemma DropFits(s: Store, u: nat, p: Proc, b: nat, s': Store, next: Proc)
    requires ProcOk(s, u, p) && Deletes(s, s', b)
    requires || (p.DropMeta? && b == p.b && next == DropGrant(p.t, b))
             || (p.DropGrant? && b == p.b && next == DropUsage(p.t, b))
             || (p.DropUsage? && b == p.b && next == GetEpoch(p.t, b, None))
             || (p.SweepDrop? && |p.ids| > 0 && b == p.ids[0] && next.SweepDrop? && (next.ids == p.ids || next.ids == p.ids[1..]))
    ensures Unpointed(s, u, b) && ProcOk(s', u, next)
  {
    if p.SweepDrop? {
      assert p.ids[0] in p.ids;
      assert forall id :: id in next.ids ==> id in p.ids;
    }
  }

  lemma RetireStepKeeps(w: World, u: nat)
    requires Inv(w) && u in w.procs && (w.procs[u].Retire? || w.procs[u].SweepRows?)
    ensures Inv(Act(w, u, w.procs[u]))
  {
    hide StoreOk, SameFor, FlightOk, Keeps, ProcOk;
    var s, p := w.s, w.procs[u];
    var w' := Act(w, u, p);
    assert ProcOk(s, u, p);
    RetireFits(s, u, p, w'.s, w'.procs[u]);
    RetireKeeps(s, u, w'.s.led);
    Settle(w, w'.s, u, w'.procs[u]);
  }

  lemma RetireFits(s: Store, u: nat, p: Proc, s': Store, next: Proc)
    requires ProcOk(s, u, p) && s' == s.(led := s'.led)
    requires (p.Retire? && next == GetEpoch(p.t, p.b, None)) || (p.SweepRows? && next == SweepList(p.day, p.current))
    ensures ProcOk(s', u, next)
  {
  }

  lemma GetEpochStepKeeps(w: World, u: nat)
    requires Inv(w) && u in w.procs && w.procs[u].GetEpoch?
    ensures Inv(Act(w, u, w.procs[u]))
  {
    hide StoreOk, SameFor, FlightOk, Keeps, ProcOk, Open;
    var s, p := w.s, w.procs[u];
    assert ProcOk(s, u, p);
    GetEpochTicket(s, u, p);
    OpenKeeps(s, u, p.t);
    GetEpochKeeps(s, u, p);
    GetEpochFits(s, u, p);
    Settle(w, Open(s, u, p.t).0, u, Act(w, u, p).procs[u]);
  }

  lemma GetEpochTicket(s: Store, u: nat, p: Proc)
    requires p.GetEpoch? && ProcOk(s, u, p)
    ensures TicketOk(s, p.t)
  {
  }

  lemma GetEpochKeeps(s: Store, u: nat, p: Proc)
    requires StoreOk(s) && p.GetEpoch? && ProcOk(s, u, p)
    ensures StoreOk(Open(s, u, p.t).0)
  {
    hide StoreOk, ProcOk, SameFor, Open;
    GetEpochTicket(s, u, p);
    OpenKeeps(s, u, p.t);
  }

  lemma GetEpochFits(s: Store, u: nat, p: Proc)
    requires StoreOk(s) && p.GetEpoch? && ProcOk(s, u, p) && StoreOk(Open(s, u, p.t).0)
    ensures var (s', e) := Open(s, u, p.t);
            var row := Row(s'.led, e);
            ProcOk(s', u, match p.seen
                          case None => PutGrant(e, row)
                          case Some(snap) => if p.b == e then Commit(e, row, snap) else CloseOld(p.b, snap, e, row))
  {
    hide StoreOk, Open;
    var (s', e) := Open(s, u, p.t);
    OpenChooses(s, u, p.t);
    if e in s'.live { LiveFits(s', e); }
  }

  /** An active bucket that was published is the one its user's pointer names. */
  lemma LiveFits(s: Store, e: nat)
    requires StoreOk(s) && e in s.live
    ensures Has(s.led, e) && Row(s.led, e).user in s.ker.pointer
    ensures Row(s.led, e).status == Active ==> s.ker.pointer[Row(s.led, e).user] == e
  {
    assert PublishedOk(s, e);
  }

  lemma CloseStepKeeps(w: World, u: nat)
    requires Inv(w) && u in w.procs && w.procs[u].CloseOld?
    ensures Inv(Act(w, u, w.procs[u]))
  {
    hide StoreOk, SameFor, FlightOk, Keeps, ProcOk;
    var s, p := w.s, w.procs[u];
    assert ProcOk(s, u, p);
    CloseFits(s, u, p);
    var l := CloseSnapshot(s.led, p.b, u, p.prev.grant, p.prev.used).value;
    Settle(w, s.(led := l), u, PutGrant(p.e, p.row));
  }

  lemma CloseFits(s: Store, u: nat, p: Proc)
    requires StoreOk(s) && p.CloseOld? && ProcOk(s, u, p)
    ensures var r := CloseSnapshot(s.led, p.b, u, p.prev.grant, p.prev.used);
            r.Done? && Keeps(s, s.(led := r.value), u) && ProcOk(s.(led := r.value), u, PutGrant(p.e, p.row))
  {
    hide EntriesOk, PointersOk, LiveOk, BirthsOk, Shape, Keeps, SameFor, Sum;
    assert p.prev.grant <= Row(s.led, p.b).granted by { GrantFits(s, p.b); }
    CloseSnapshotFits(s.led, p.b, u, p.prev.grant, p.prev.used);
    var l := CloseSnapshot(s.led, p.b, u, p.prev.grant, p.prev.used).value;
    RowKeeps(s, u, p.b, p.prev, Row(l, p.b), l);
    if p.e in s.live { LiveFits(s, p.e); }
  }

  lemma GrantFits(s: Store, b: nat)
    requires EntriesOk(s) && b in s.ker.grants
    ensures Has(s.led, b) && s.ker.grants[b] <= Row(s.led, b).granted
  {
  }

  lemma WriteStepKeeps(w: World, u: nat)
    requires Inv(w) && u in w.procs
    requires var p := w.procs[u]; p.PutGrant? || p.PutUsage? || p.Raise? || p.PutMeta? || p.PutPointer?
    ensures Inv(Act(w, u, w.procs[u]))
  {
    hide StoreOk, SameFor, FlightOk, Keeps, ProcOk;
    var s, p := w.s, w.procs[u];
    assert ProcOk(s, u, p);
    var w' := Act(w, u, p);
    match p {
      case PutGrant(e, row) => PutGrantFits(s, u, p); Settle(w, w'.s, u, w'.procs[u]);
      case PutUsage(e, row) => PutUsageFits(s, u, p); Settle(w, w'.s, u, w'.procs[u]);
      case Raise(e, row) => RaiseFits(s, u, p); Settle(w, w'.s, u, w'.procs[u]);
      case PutMeta(e, row) => PutMetaFits(s, u, p); Settle(w, w'.s, u, w'.procs[u]);
      case PutPointer(e, row) => PutPointerFits(s, u, p); SettleLeave(w, w'.s, u);
    }
  }

  lemma PutGrantFits(s: Store, u: nat, p: Proc)
    requires StoreOk(s) && p.PutGrant? && ProcOk(s, u, p)
    ensures var s' := WriteGrant(s, p.e, p.row.granted); Keeps(s, s', u) && ProcOk(s', u, PutUsage(p.e, p.row))
  {
    hide StoreOk, Keeps;
    WriteKeeps(s, WriteGrant(s, p.e, p.row.granted), u, p.e);
  }

  lemma PutUsageFits(s: Store, u: nat, p: Proc)
    requires StoreOk(s) && p.PutUsage? && ProcOk(s, u, p)
    ensures var s' := WriteUsage(s, p.e, p.row);
            && Keeps(s, s', u)
            && ProcOk(s', u, Commit(p.e, p.row, Snapshot(p.row.granted, Usage(p.row.rx, p.row.tx))))
  {
    hide StoreOk, Keeps, Counted;
    UsageKeeps(s, u, p.e);
  }

  lemma RaiseFits(s: Store, u: nat, p: Proc)
    requires StoreOk(s) && p.Raise? && ProcOk(s, u, p)
    ensures var s' := WriteGrant(s, p.e, p.row.granted);
            p.e in s.ker.grants && Keeps(s, s', u) && ProcOk(s', u, PutMeta(p.e, p.row))
  {
    hide StoreOk, Keeps;
    WriteKeeps(s, WriteGrant(s, p.e, p.row.granted), u, p.e);
  }

  lemma PutMetaFits(s: Store, u: nat, p: Proc)
    requires StoreOk(s) && p.PutMeta? && ProcOk(s, u, p)
    ensures var s' := WriteMeta(s, p.e, Meta(u, p.row.deadline));
            Keeps(s, s', u) && ProcOk(s', u, PutPointer(p.e, p.row))
  {
    hide StoreOk, Keeps;
    WriteKeeps(s, WriteMeta(s, p.e, Meta(u, p.row.deadline)), u, p.e);
  }

  lemma PutPointerFits(s: Store, u: nat, p: Proc)
    requires StoreOk(s) && p.PutPointer? && ProcOk(s, u, p)
    ensures Keeps(s, Publish(s, u, p.e), u)
  {
    hide StoreOk, Keeps;
    PublishKeeps(s, u, p.e, p.row);
  }

  lemma CommitStepKeeps(w: World, u: nat)
    requires Inv(w) && u in w.procs && w.procs[u].Commit?
    ensures Inv(Act(w, u, w.procs[u]))
  {
    hide StoreOk, SameFor, FlightOk, Keeps, ProcOk, StepCommit;
    var p := w.procs[u];
    assert ProcOk(w.s, u, p);
    CommitFits(w, u, p);
    var w' := StepCommit(w, u, p.e, p.row, p.snap);
    Settle(w, w'.s, u, w'.procs[u]);
  }

  /** What step 10 does: no check fires, one row takes the snapshot, and the epoch is left funded. */
  lemma CommitShape(w: World, u: nat, p: Proc)
    requires StoreOk(w.s) && p.Commit? && ProcOk(w.s, u, p)
    ensures var w' := StepCommit(w, u, p.e, p.row, p.snap);
            var l, l' := w.s.led, w'.s.led;
            && w' == Goto(w, w.s.(led := l'), u, w'.procs[u]) && u in w'.procs
            && LedgerOk(l') && l' == l.(rows := l'.rows) && |l'.rows| == |l.rows| && Mine(w.s, u, p.e)
            && (forall i :: 0 <= i < |l.rows| && i != p.e - 1 ==> l'.rows[i] == l.rows[i])
            && var row := Row(l', p.e);
               && row == Row(l, p.e).(granted := row.granted, rx := p.snap.used.rx, tx := p.snap.used.tx)
               && Row(l, p.e).granted <= row.granted && Funded(w'.s, row)
               && w'.procs[u] == (if p.snap.grant != row.granted then Raise(p.e, row) else PutMeta(p.e, row))
  {
    hide Sum, Anchor, TicketOk, OneActive, BirthsOk, PointersOk, LiveOk;
    var s, e, snap := w.s, p.e, p.snap;
    GrantFits(s, e);
    HeldCovers(s.led, e);
    var refill := snap.grant - snap.used.rx - snap.used.tx <= s.cfg.low;
    CheckpointFunds(s.led, e, snap.used, refill, s.cfg.chunk);
    assert RowOk(s.led, s.led.rows[e - 1]);
  }

  lemma CommitFits(w: World, u: nat, p: Proc)
    requires StoreOk(w.s) && p.Commit? && ProcOk(w.s, u, p)
    ensures var w' := StepCommit(w, u, p.e, p.row, p.snap);
            && Keeps(w.s, w'.s, u) && u in w'.procs && w' == Goto(w, w'.s, u, w'.procs[u]) && ProcOk(w'.s, u, w'.procs[u])
  {
    hide EntriesOk, PointersOk, LiveOk, BirthsOk, LedgerOk, Shape, Keeps, SameFor, Funded, StepCommit;
    var s, e := w.s, p.e;
    CommitShape(w, u, p);
    var l := StepCommit(w, u, e, p.row, p.snap).s.led;
    assert l.rows == s.led.rows[e - 1 := Row(l, e)];
    RowKeeps(s, u, e, p.snap, Row(l, e), l);
  }

  lemma StepKeeps(w: World, u: nat)
    requires Inv(w) && u in w.procs
    ensures Inv(Act(w, u, w.procs[u]))
  {
    hide StoreOk, FlightOk, Act;
    assert ProcOk(w.s, u, w.procs[u]);
    match w.procs[u] {
      case DropMeta(_, _) => DropStepKeeps(w, u);
      case DropGrant(_, _) => DropStepKeeps(w, u);
      case DropUsage(_, _) => DropStepKeeps(w, u);
      case SweepDrop(_, _) => DropStepKeeps(w, u);
      case Retire(_, _) => RetireStepKeeps(w, u);
      case SweepRows(_, _) => RetireStepKeeps(w, u);
      case GetEpoch(_, _, _) => GetEpochStepKeeps(w, u);
      case CloseOld(_, _, _, _) => CloseStepKeeps(w, u);
      case Commit(_, _, _) => CommitStepKeeps(w, u);
      case PutGrant(_, _) => WriteStepKeeps(w, u);
      case PutUsage(_, _) => WriteStepKeeps(w, u);
      case Raise(_, _) => WriteStepKeeps(w, u);
      case PutMeta(_, _) => WriteStepKeeps(w, u);
      case PutPointer(_, _) => WriteStepKeeps(w, u);
      case _ => ReadStepKeeps(w, u);
    }
  }

  // ---------------------------------------------------------------- the environment's steps

  ghost predicate ClockOnly(s: Store, s': Store) {
    s' == s.(bt := s'.bt, offset := s'.offset, lastDay := s'.lastDay, cfg := s'.cfg) && s.bt <= s'.bt && s'.cfg.Valid()
  }

  lemma ClockKeeps(s: Store, s': Store)
    requires StoreOk(s) && ClockOnly(s, s')
    ensures StoreOk(s') && (forall x: Flight :: FlightOk(s, x) ==> FlightOk(s', x))
    ensures s'.cfg == s.cfg ==> forall u :: SameFor(s, s', u)
  {
    hide SameFor, LedgerOk, EntriesOk, LiveOk, FlightOk;
    ClockMaps(s, s');
    ClockFlights(s, s');
    if s'.cfg == s.cfg {
      forall v ensures SameFor(s, s', v) { ClockOthers(s, s', v); }
    }
  }

  lemma ClockMaps(s: Store, s': Store)
    requires EntriesOk(s) && LiveOk(s) && ClockOnly(s, s')
    ensures EntriesOk(s') && LiveOk(s')
  {
    forall c | c in s'.ker.usage ensures Has(s'.led, c) && UsageOk(s', c) { assert UsageOk(s, c); }
    forall c | c in s'.live ensures Has(s'.led, c) && PublishedOk(s', c) { assert PublishedOk(s, c); }
  }

  lemma ClockFlights(s: Store, s': Store)
    requires ClockOnly(s, s')
    ensures forall x: Flight :: FlightOk(s, x) ==> FlightOk(s', x)
  {
    forall x: Flight | FlightOk(s, x) ensures FlightOk(s', x) {}
  }

  lemma ClockOthers(s: Store, s': Store, v: nat)
    requires ClockOnly(s, s') && s'.cfg == s.cfg
    ensures SameFor(s, s', v)
  {
    forall b | Mine(s, v, b) ensures SameBucket(s, s', b) {}
  }

  lemma EmptyKeeps(s: Store, s': Store)
    requires StoreOk(s) && s' == EmptyMaps(s).(bt := s'.bt, offset := s'.offset)
    ensures StoreOk(s')
  {
    hide Sum, RowOk, OneActive;
  }

  lemma EnvironmentKeeps(w: World, ev: Event, p: Policy)
    requires Inv(w) && Enabled(w, ev, p) && !ev.Step? && !ev.Advance?
    ensures Inv(Apply(w, ev))
  {
    hide StoreOk, FlightOk, SameFor, ProcOk, Act, Hook;
    var s, w' := w.s, Apply(w, ev);
    ConfigFits(s);
    match ev
    case Tick(ns) =>
      ClockKeeps(s, w'.s);
      forall v | v in w.procs ensures ProcOk(w'.s, v, w.procs[v]) { ProcKept(s, w'.s, v, w.procs[v]); }
    case Retime(offset) =>
      ClockKeeps(s, w'.s);
      forall v | v in w.procs ensures ProcOk(w'.s, v, w.procs[v]) { ProcKept(s, w'.s, v, w.procs[v]); }
    case Reboot(offset) => EmptyKeeps(s, w'.s);
    case ResetPins => EmptyKeeps(s, w'.s);
    case Restart(cfg) => ClockKeeps(s, w'.s);
    case Fail(user) => NothingKeeps(s, user); SettleLeave(w, s, user);
    case BeginSync(user) => ClockKeeps(s, w'.s); BeginFits(w'.s, user); Settle(w, w'.s, user, w'.procs[user]);
    case BeginSweep(user, day) => NothingKeeps(s, user); BeginFits(s, user); Settle(w, s, user, Sweep(day));
    case Arrive(f, user, len, ingress) => ArriveFits(s, user, len, ingress);
  }

  lemma ConfigFits(s: Store)
    requires StoreOk(s)
    ensures s.cfg.Valid()
  {
  }

  lemma BeginFits(s: Store, user: nat)
    ensures ProcOk(s, user, ReadBoot(Today(s), s.offset, s.bt))
    ensures forall day :: ProcOk(s, user, Sweep(day))
  {
  }

  lemma ArriveFits(s: Store, user: nat, len: nat, ingress: bool)
    requires StoreOk(s) && user in s.ker.pointer
    ensures FlightOk(s, Flight(user, len, ingress, s.ker.pointer[user], WantMeta))
  {
  }

  lemma EventKeeps(w: World, ev: Event, p: Policy)
    requires Inv(w) && Enabled(w, ev, p)
    ensures Inv(Apply(w, ev))
  {
    hide Inv, Act, Hook;
    match ev
    case Step(user) => StepKeeps(w, user);
    case Advance(f) => HookKeeps(w, f);
    case _ => EnvironmentKeeps(w, ev, p);
  }

  lemma {:induction false} RunKeeps(cfg: Config, offset: nat, run: seq<Event>, p: Policy)
    requires cfg.Valid() && Legal(Init(cfg, offset), run, p)
    ensures Inv(After(Init(cfg, offset), run))
  {
    if |run| > 0 {
      RunKeeps(cfg, offset, run[..|run| - 1], p);
      EventKeeps(After(Init(cfg, offset), run[..|run| - 1]), run[|run| - 1], p);
    }
  }

  /** Every reachable state satisfies the invariant, under any clock. */
  lemma ReachableKeeps(p: Policy, w: World)
    requires Reachable(p, w)
    ensures Inv(w)
  {
    hide Inv, Legal, After, Init;
    var cfg: Config, offset: nat, run: seq<Event> :|
      cfg.Valid() && Legal(Init(cfg, offset), run, p) && After(Init(cfg, offset), run) == w;
    RunKeeps(cfg, offset, run, p);
  }
}
