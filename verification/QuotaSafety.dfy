/** The daily limit.  When no user's day goes backwards, an epoch that is rebuilt from the ledger never let a
    byte through before, so what the kernel lets through stays within what was granted, and what was granted
    within the day's limit. */
module QuotaSafety {
  import opened Words
  import opened QuotaLedger
  import opened QuotaKernel
  import opened QuotaProtocol
  import opened QuotaInvariant
  import opened QuotaPreservation

  ghost predicate Forward(p: Policy) {
    forall a: nat, b: nat :: p(a, b) ==> a <= b
  }

  /** The epoch was created since the maps were last empty. */
  ghost predicate Current(s: Store, b: nat) {
    Has(s.led, b) && b <= |s.births| && s.births[b - 1].gen == s.gen
  }

  ghost predicate History(s: Store)
    requires Shape(s)
  {
    && DaysKnown(s) && StaleBehind(s) && EntriesCurrent(s) && LiveExact(s) && IdleZero(s) && OldWithin(s)
  }

  ghost predicate DaysKnown(s: Store) {
    forall i :: 0 <= i < |s.led.rows| ==>
      s.led.rows[i].user in s.lastDay && s.led.rows[i].day <= s.lastDay[s.led.rows[i].user]
  }

  /** A row left active by an earlier life of the maps has an earlier day than every row of this life. */
  ghost predicate StaleBehind(s: Store)
    requires Shape(s)
  {
    forall i, j :: 0 <= i < |s.led.rows| && 0 <= j < |s.led.rows| && s.births[i].gen == s.gen && s.births[j].gen != s.gen
      && s.led.rows[i].user == s.led.rows[j].user && s.led.rows[j].status == Active
      ==> s.led.rows[j].day < s.led.rows[i].day
  }

  ghost predicate EntriesCurrent(s: Store) {
    && (forall b :: b in s.ker.meta ==> Current(s, b))
    && (forall b :: b in s.ker.grants ==> Current(s, b))
    && (forall b :: b in s.ker.usage ==> Current(s, b))
  }

  /** A published bucket's cell counts every byte that its epoch ever let through. */
  ghost predicate LiveExact(s: Store)
    requires Shape(s)
  {
    forall b :: b in s.live ==>
      Current(s, b) && s.live[b] < |s.cells| && s.passed[b - 1] == Total(s.cells[s.live[b]])
  }

  /** An epoch of this life that was never published let nothing through, and its counters are zero. */
  ghost predicate IdleZero(s: Store)
    requires Shape(s)
  {
    forall b :: Current(s, b) && b !in s.live ==> IdleZeroAt(s, b)
  }

  ghost predicate IdleZeroAt(s: Store, b: nat)
    requires Shape(s) && Has(s.led, b)
  {
    && s.passed[b - 1] == 0 && Row(s.led, b).rx == 0 && Row(s.led, b).tx == 0
    && (HasUsage(s, b) ==> Total(CellOf(s, b)) == 0)
  }

  ghost predicate OldWithin(s: Store)
    requires Shape(s)
  {
    forall i :: 0 <= i < |s.led.rows| && s.births[i].gen != s.gen ==> s.passed[i] <= s.led.rows[i].granted
  }

  ghost predicate Dated(s: Store, u: nat, day: nat) {
    u in s.lastDay && s.lastDay[u] == day
  }

  ghost predicate NoneActive(s: Store, u: nat, day: nat) {
    forall i :: 0 <= i < |s.led.rows| && s.led.rows[i].user == u && s.led.rows[i].day == day ==> s.led.rows[i].status != Active
  }

  ghost predicate ProcDated(s: Store, u: nat, p: Proc) {
    match p
    case ReadBoot(day, _, _) => Dated(s, u, day)
    case FindPointer(t) => Dated(s, u, t.day)
    case FindActive(t) => Dated(s, u, t.day)
    case ReadMeta(t, _) => Dated(s, u, t.day)
    case ReadGrant(t, _, _) => Dated(s, u, t.day)
    case ReadUsage(t, _, _, _) => Dated(s, u, t.day)
    case DropMeta(t, b) => Dated(s, u, t.day) && Current(s, b)
    case DropGrant(t, b) => Dated(s, u, t.day) && Current(s, b)
    case DropUsage(t, b) => Dated(s, u, t.day) && Current(s, b)
    case Retire(t, _) => Dated(s, u, t.day)
    case GetEpoch(t, b, seen) =>
      Dated(s, u, t.day) && (NoneActive(s, u, t.day) || (Current(s, b) && Row(s.led, b).user == u))
    case CloseOld(_, _, e, _) => Current(s, e)
    case PutGrant(e, _) => Current(s, e)
    case PutUsage(e, _) => Current(s, e)
    case Commit(e, _, _) => Current(s, e)
    case Raise(e, _) => Current(s, e)
    case PutMeta(e, _) => Current(s, e)
    case PutPointer(e, _) => Current(s, e)
    case _ => true
  }

  ghost predicate Tracked(w: World) {
    Inv(w) && History(w.s) && forall u :: u in w.procs ==> ProcDated(w.s, u, w.procs[u])
  }

  // ---------------------------------------------------------------- frames

  ghost predicate SameDays(s: Store, s': Store, v: nat) {
    && s'.gen == s.gen
    && |s.led.rows| <= |s'.led.rows| && |s.births| <= |s'.births|
    && (forall i :: 0 <= i < |s.births| ==> s'.births[i] == s.births[i])
    && (v in s.lastDay ==> v in s'.lastDay && s'.lastDay[v] == s.lastDay[v])
    && (forall i :: 0 <= i < |s.led.rows| && s.led.rows[i].user == v ==> s'.led.rows[i].user == v)
    && (forall i :: 0 <= i < |s'.led.rows| && s'.led.rows[i].user == v && s'.led.rows[i].status == Active ==>
          i < |s.led.rows| && s.led.rows[i].user == v && s.led.rows[i].status == Active
          && s.led.rows[i].day == s'.led.rows[i].day)
  }

  lemma DatedKept(s: Store, s': Store, v: nat, p: Proc)
    requires ProcDated(s, v, p) && SameDays(s, s', v)
    ensures ProcDated(s', v, p)
  {
    if p.GetEpoch? && NoneActive(s, v, p.t.day) { assert NoneActive(s', v, p.t.day); }
  }

  lemma SettleDated(w: World, w': World, u: nat)
    requires forall v :: v in w.procs ==> ProcDated(w.s, v, w.procs[v])
    requires forall v :: v != u ==> SameDays(w.s, w'.s, v)
    requires forall v :: v in w'.procs && v != u ==> v in w.procs && w'.procs[v] == w.procs[v]
    requires u in w'.procs ==> ProcDated(w'.s, u, w'.procs[u])
    ensures forall v :: v in w'.procs ==> ProcDated(w'.s, v, w'.procs[v])
  {
    hide SameDays, ProcDated;
    forall v | v in w'.procs ensures ProcDated(w'.s, v, w'.procs[v]) {
      if v != u { DatedKept(w.s, w'.s, v, w.procs[v]); }
    }
  }

  // ---------------------------------------------------------------- changes of the shared state

  lemma DeleteHistory(s: Store, s': Store, b: nat)
    requires Shape(s) && Shape(s') && History(s) && Deletes(s, s', b)
    ensures History(s')
  {
    forall c | Current(s', c) && c !in s'.live ensures IdleZeroAt(s', c) { assert Current(s, c) && IdleZeroAt(s, c); }
    assert forall c :: Current(s, c) ==> Current(s', c);
  }

  lemma WriteHistory(s: Store, s': Store, e: nat)
    requires Shape(s) && Shape(s') && History(s) && Current(s, e)
    requires (exists bytes :: s' == WriteGrant(s, e, bytes)) || (exists m :: s' == WriteMeta(s, e, m))
    ensures History(s')
  {
    forall c | Current(s', c) && c !in s'.live ensures IdleZeroAt(s', c) { assert Current(s, c) && IdleZeroAt(s, c); }
    assert forall c :: Current(s, c) ==> Current(s', c);
  }

  /** Rebuilding a bucket writes zeros: exactly what its epoch let through so far. */
  lemma UsageHistory(s: Store, e: nat)
    requires StoreOk(s) && History(s) && Current(s, e) && e !in s.live
    ensures var s' := WriteUsage(s, e, Row(s.led, e)); Shape(s') ==> History(s')
  {
    hide LedgerOk, BirthsOk, PointersOk, EntriesOk, LiveOk, IdleZero, LiveExact;
    if Shape(WriteUsage(s, e, Row(s.led, e))) {
      UsageIdle(s, e);
      UsageExact(s, e);
    }
  }

  lemma UsageIdle(s: Store, e: nat)
    requires Shape(s) && EntriesOk(s) && IdleZero(s) && Current(s, e) && e !in s.live
    ensures var s' := WriteUsage(s, e, Row(s.led, e)); Shape(s') ==> IdleZero(s')
  {
    var s' := WriteUsage(s, e, Row(s.led, e));
    assert IdleZeroAt(s, e);
    if Shape(s') {
      forall c | Current(s', c) && c !in s'.live ensures IdleZeroAt(s', c) {
        assert Current(s, c) && IdleZeroAt(s, c);
        if c != e && c in s.ker.usage { assert UsageOk(s, c); }
      }
    }
  }

  lemma UsageExact(s: Store, e: nat)
    requires Shape(s) && LiveExact(s) && Current(s, e)
    ensures var s' := WriteUsage(s, e, Row(s.led, e)); Shape(s') ==> LiveExact(s')
  {
    var s' := WriteUsage(s, e, Row(s.led, e));
    assert forall c :: Current(s, c) ==> Current(s', c);
    assert forall c :: c in s.live ==> s'.cells[s.live[c]] == s.cells[s.live[c]];
  }

  lemma PublishHistory(s: Store, u: nat, e: nat)
    requires StoreOk(s) && History(s) && Current(s, e) && e in s.ker.usage
    ensures Shape(Publish(s, u, e)) && History(Publish(s, u, e))
  {
    hide LedgerOk, BirthsOk, PointersOk, EntriesOk, LiveOk, IdleZero, LiveExact;
    PublishExact(s, u, e);
    PublishIdle(s, u, e);
  }

  lemma PublishExact(s: Store, u: nat, e: nat)
    requires Shape(s) && EntriesOk(s) && LiveOk(s) && LiveExact(s) && IdleZero(s) && Current(s, e) && e in s.ker.usage
    ensures Shape(Publish(s, u, e)) && LiveExact(Publish(s, u, e))
  {
    assert UsageOk(s, e);
    if e in s.live { assert PublishedOk(s, e); } else { assert IdleZeroAt(s, e); }
    assert forall c :: Current(s, c) ==> Current(Publish(s, u, e), c);
  }

  lemma PublishIdle(s: Store, u: nat, e: nat)
    requires Shape(s) && IdleZero(s) && e in s.ker.usage && Shape(Publish(s, u, e))
    ensures IdleZero(Publish(s, u, e))
  {
    var s' := Publish(s, u, e);
    forall c | Current(s', c) && c !in s'.live ensures IdleZeroAt(s', c) { assert Current(s, c) && IdleZeroAt(s, c); }
  }

  /** A transaction over existing rows, none of which becomes active; counters move only in current rows,
      and only up to the live ones. */
  lemma RewriteHistory(s: Store, s': Store, u: nat)
    requires Shape(s) && Shape(s') && History(s) && Rewrites(s, s', u)
    requires forall b :: Has(s.led, b) && !Current(s, b) ==> Row(s'.led, b).granted == Row(s.led, b).granted
    ensures History(s')
  {
    hide LedgerOk;
    forall i | 0 <= i < |s.led.rows|
      ensures s'.led.rows[i].user == s.led.rows[i].user && s'.led.rows[i].day == s.led.rows[i].day
      ensures s'.led.rows[i].status == Active ==> s.led.rows[i].status == Active
    {
      assert RewritesRow(s, Row(s.led, i + 1), Row(s'.led, i + 1), u, i + 1);
    }
    forall i | 0 <= i < |s.led.rows| && s.births[i].gen != s.gen ensures s'.led.rows[i].granted == s.led.rows[i].granted {
      assert Row(s'.led, i + 1).granted == Row(s.led, i + 1).granted;
    }
    assert forall c :: Current(s, c) <==> Current(s', c);
    forall c | Current(s', c) && c !in s'.live ensures IdleZeroAt(s', c) {
      assert IdleZeroAt(s, c) && RewritesRow(s, Row(s.led, c), Row(s'.led, c), u, c);
    }
  }

  lemma OpenHistory(s: Store, u: nat, t: Ticket)
    requires StoreOk(s) && History(s) && Dated(s, u, t.day) && t.clock.gen == s.gen
    ensures var s' := Open(s, u, t).0; Shape(s') ==> History(s')
  {
    hide LedgerOk, BirthsOk, PointersOk;
    var (s', e) := Open(s, u, t);
    if Shape(s') && e == |s.led.rows| + 1 {
      var n := |s.led.rows|;
      assert s'.births[..n] == s.births && s'.passed[..n] == s.passed && s'.led.rows[..n] == s.led.rows;
      assert forall i :: 0 <= i < n ==> s'.led.rows[i] == s.led.rows[i] && s'.births[i] == s.births[i];
      assert forall c :: Current(s', c) <==> c == e || Current(s, c);
      forall c | Current(s', c) && c !in s'.live ensures IdleZeroAt(s', c) {
        if c != e { assert IdleZeroAt(s, c); }
      }
      forall c | c in s'.live ensures Current(s', c) { assert PublishedOk(s, c); }
    } else {
      assert s'.led.rows == s.led.rows && s'.births == s.births && s'.passed == s.passed;
      assert forall c :: Current(s', c) <==> Current(s, c);
      forall c | Current(s', c) && c !in s'.live ensures IdleZeroAt(s', c) { assert IdleZeroAt(s, c); }
    }
  }

  /** The epoch of today that a sync chooses was created in this life of the maps. */
  lemma OpenCurrent(s: Store, u: nat, t: Ticket, b: nat)
    requires Shape(s) && History(s) && Dated(s, u, t.day) && t.clock.gen == s.gen
    requires NoneActive(s, u, t.day) || (Current(s, b) && Row(s.led, b).user == u)
    ensures var (s', e) := Open(s, u, t); Shape(s') ==> Current(s', e)
  {
    var (s', e) := Open(s, u, t);
    if Shape(s') && e <= |s.led.rows| && !Current(s, e) {
      assert false;
    }
  }

  lemma ChargeHistory(s: Store, x: Flight)
    requires StoreOk(s) && History(s) && FlightOk(s, x) && x.stage.WantCharge?
    ensures var s' := ChargeCell(s, x, x.stage.limit, x.stage.cell); Shape(s') ==> History(s')
  {
    hide LedgerOk, BirthsOk, PointersOk, EntriesOk, LiveOk, FlightOk, LiveExact, IdleZero;
    var s' := ChargeCell(s, x, x.stage.limit, x.stage.cell);
    ChargeReady(s, x);
    if Shape(s') {
      ChargeIdle(s, x);
      ChargeExact(s, x);
      FlightLive(s, x);
      assert forall c :: Current(s', c) <==> Current(s, c);
    }
  }

  lemma FlightLive(s: Store, x: Flight)
    requires StoreOk(s) && History(s) && FlightOk(s, x)
    ensures Current(s, x.b)
  {
    hide LedgerOk, BirthsOk, PointersOk, EntriesOk, LiveOk;
  }

  lemma ChargeIdle(s: Store, x: Flight)
    requires Shape(s) && EntriesOk(s) && LiveOk(s) && IdleZero(s) && FlightOk(s, x) && x.stage.WantCharge?
    ensures var s' := ChargeCell(s, x, x.stage.limit, x.stage.cell); Shape(s') ==> IdleZero(s')
  {
    var s' := ChargeCell(s, x, x.stage.limit, x.stage.cell);
    assert PublishedOk(s, x.b);
    if Shape(s') {
      forall c | Current(s', c) && c !in s'.live ensures IdleZeroAt(s', c) {
        assert Current(s, c) && IdleZeroAt(s, c);
        if c in s.ker.usage { assert UsageOk(s, c); }
      }
    }
  }

  lemma ChargeExact(s: Store, x: Flight)
    requires StoreOk(s) && LiveExact(s) && FlightOk(s, x) && x.stage.WantCharge?
    ensures var s' := ChargeCell(s, x, x.stage.limit, x.stage.cell); Shape(s') ==> LiveExact(s')
  {
    hide LedgerOk, BirthsOk, PointersOk, EntriesOk;
    var s' := ChargeCell(s, x, x.stage.limit, x.stage.cell);
    ChargeReady(s, x);
    if Shape(s') {
      forall c | c in s'.live ensures Current(s', c) && s'.passed[c - 1] == Total(s'.cells[s'.live[c]]) {
        assert PublishedOk(s, c) && PublishedOk(s, x.b) && Current(s, c);
      }
    }
  }

  /** All that any epoch ever let through is within its durable grant. */
  lemma PassedWithinGrant(s: Store, b: nat)
    requires StoreOk(s) && History(s) && Has(s.led, b)
    ensures s.passed[b - 1] <= Row(s.led, b).granted
  {
    hide LedgerOk, BirthsOk, PointersOk, EntriesOk;
    if Current(s, b) {
      if b in s.live { assert PublishedOk(s, b); } else { assert IdleZeroAt(s, b); }
    }
  }

  lemma EmptyHistory(s: Store, s': Store)
    requires StoreOk(s) && History(s) && Shape(s') && s' == EmptyMaps(s).(bt := s'.bt, offset := s'.offset)
    requires BirthsOk(s)
    ensures History(s')
  {
    hide LedgerOk, PointersOk, EntriesOk, LiveOk;
    forall i | 0 <= i < |s.births| ensures s.births[i].gen != s'.gen && s.passed[i] <= s.led.rows[i].granted {
      assert ReadingOk(s, s.births[i], s.led.rows[i].day);
      PassedWithinGrant(s, i + 1);
    }
    assert forall c :: !Current(s', c);
  }

  // ---------------------------------------------------------------- steps

  lemma ReadDated(s: Store, u: nat, p: Proc)
    requires StoreOk(s) && History(s) && ProcOk(s, u, p) && ProcDated(s, u, p) && Reads(p)
    ensures ProcDated(s, u, NextRead(s, u, p))
  {
    hide LedgerOk, BirthsOk, LiveOk, IdleZero, LiveExact, OldWithin, StaleBehind, DaysKnown, Chosen, Funded;
    if p.ReadUsage? {
      if p.b in s.ker.usage { assert UsageOk(s, p.b); }
    }
  }

  lemma ChosenActive(s: Store, u: nat, p: Proc)
    requires StoreOk(s) && p.GetEpoch? && ProcOk(s, u, p) && ProcDated(s, u, p) && History(s)
    ensures var (s', e) := Open(s, u, p.t); Shape(s') ==> Current(s', e) && History(s')
  {
    hide StoreOk, History, Open;
    GetEpochTicket(s, u, p);
    assert Shape(s) by { ShapeFits(s); }
    OpenCurrent(s, u, p.t, p.b);
    OpenHistory(s, u, p.t);
  }

  lemma ShapeFits(s: Store)
    requires StoreOk(s)
    ensures Shape(s) && BirthsOk(s)
  {
  }

  lemma OpenDays(s: Store, u: nat, t: Ticket, v: nat)
    requires v != u && |s.births| == |s.led.rows|
    ensures SameDays(s, Open(s, u, t).0, v)
  {
  }

  lemma RewriteDays(s: Store, s': Store, u: nat, v: nat)
    requires Shape(s) && Rewrites(s, s', u)
    ensures SameDays(s, s', v)
  {
    hide LedgerOk;
    forall i | 0 <= i < |s.led.rows|
      ensures s'.led.rows[i].user == s.led.rows[i].user && s'.led.rows[i].day == s.led.rows[i].day
      ensures s'.led.rows[i].status == Active ==> s.led.rows[i].status == Active
    {
      assert RewritesRow(s, Row(s.led, i + 1), Row(s'.led, i + 1), u, i + 1);
    }
  }

  /** The bucket whose snapshot a sync commits or closes has map entries, so it is of this life. */
  lemma EntryCurrent(s: Store, b: nat)
    requires Shape(s) && History(s) && (b in s.ker.meta || b in s.ker.grants || b in s.ker.usage)
    ensures Current(s, b)
  {
  }

  lemma RowRewrites(s: Store, u: nat, b: nat, snap: Snapshot, l: Ledger)
    requires Mine(s, u, b) && Counted(s, b, snap) && LedgerOk(l) && l == s.led.(rows := l.rows) && |l.rows| == |s.led.rows|
    requires forall i :: 0 <= i < |l.rows| && i != b - 1 ==> l.rows[i] == s.led.rows[i]
    requires var e, e' := Row(s.led, b), l.rows[b - 1];
      && e' == e.(status := e'.status, granted := e'.granted, rx := snap.used.rx, tx := snap.used.tx)
      && (e'.status == Active ==> e.status == Active) && (e.granted <= e'.granted || e'.granted == snap.grant)
    ensures Rewrites(s, s.(led := l), u)
  {
    hide LedgerOk;
    var s' := s.(led := l);
    forall c | Has(s.led, c) ensures RewritesRow(s, Row(s.led, c), Row(s'.led, c), u, c) {}
  }

  /** A snapshot transaction on one current row: checkpoint or closeSnapshot. */
  lemma SnapshotHistory(s: Store, u: nat, b: nat, snap: Snapshot, l: Ledger)
    requires StoreOk(s) && History(s) && Mine(s, u, b) && Counted(s, b, snap) && LedgerOk(l)
    requires l == s.led.(rows := l.rows) && |l.rows| == |s.led.rows|
    requires forall i :: 0 <= i < |l.rows| && i != b - 1 ==> l.rows[i] == s.led.rows[i]
    requires var e, e' := Row(s.led, b), l.rows[b - 1];
      && e' == e.(status := e'.status, granted := e'.granted, rx := snap.used.rx, tx := snap.used.tx)
      && (e'.status == Active ==> e.status == Active) && (e.granted <= e'.granted || e'.granted == snap.grant)
    ensures var s' := s.(led := l); Shape(s') && History(s') && forall v :: SameDays(s, s', v)
  {
    hide LedgerOk, BirthsOk, EntriesOk, PointersOk, LiveOk, History, SameDays, Rewrites;
    var s' := s.(led := l);
    RowRewrites(s, u, b, snap, l);
    EntryCurrent(s, b);
    RewriteHistory(s, s', u);
    forall v ensures SameDays(s, s', v) { RewriteDays(s, s', u, v); }
  }

  lemma RetireHistoryKept(s: Store, u: nat, l: Ledger)
    requires StoreOk(s) && History(s) && l.limits == s.led.limits && |l.rows| == |s.led.rows|
    requires forall i :: 0 <= i < |l.rows| ==>
               l.rows[i] == s.led.rows[i] || (s.led.rows[i].user == u && l.rows[i] == s.led.rows[i].(status := Closed))
    ensures var s' := s.(led := l); Shape(s') && History(s') && forall v :: SameDays(s, s', v)
  {
    hide LedgerOk, BirthsOk, EntriesOk, PointersOk, LiveOk, History, SameDays;
    var s' := s.(led := l);
    ClosingKeepsLedger(s.led, l);
    assert Rewrites(s, s', u);
    RewriteHistory(s, s', u);
    forall v ensures SameDays(s, s', v) { RewriteDays(s, s', u, v); }
  }

  lemma MapDays(s: Store, s': Store)
    requires s' == s.(ker := s'.ker, live := s'.live, cells := s'.cells, owner := s'.owner, passed := s'.passed)
    requires |s.births| == |s.led.rows|
    ensures forall v :: SameDays(s, s', v)
  {
  }

  lemma NeverBroken(s: Store, u: nat, p: Proc)
    requires ProcOk(s, u, p)
    ensures !p.Broken?
  {
  }

  lemma StepDated(w: World, u: nat)
    requires Tracked(w) && u in w.procs && Inv(Act(w, u, w.procs[u]))
    ensures Tracked(Act(w, u, w.procs[u]))
  {
    hide StoreOk, History, ProcDated, ProcOk, SameDays, FlightOk, NextRead, Open, StepCommit;
    var s, p := w.s, w.procs[u];
    var w' := Act(w, u, p);
    assert ProcOk(s, u, p) && ProcDated(s, u, p);
    NeverBroken(s, u, p);
    ShapeFits(s);
    ShapeFits(w'.s);
    match p {
      case DropMeta(_, _) => DropDated(w, u);
      case DropGrant(_, _) => DropDated(w, u);
      case DropUsage(_, _) => DropDated(w, u);
      case SweepDrop(_, _) => DropDated(w, u);
      case Retire(_, _) => RetireDated(w, u);
      case SweepRows(_, _) => RetireDated(w, u);
      case GetEpoch(_, _, _) => GetEpochDated(w, u);
      case CloseOld(_, _, _, _) => CloseDated(w, u);
      case Commit(_, _, _) => CommitDated(w, u);
      case PutGrant(_, _) => WriteDated(w, u);
      case PutUsage(_, _) => WriteDated(w, u);
      case Raise(_, _) => WriteDated(w, u);
      case PutMeta(_, _) => WriteDated(w, u);
      case PutPointer(_, _) => WriteDated(w, u);
      case Sweep(_) => SweepDated(w, u);
      case _ => MapDays(s, s); ReadDated(s, u, p); SettleDated(w, w', u);
    }
  }

  lemma SweepDated(w: World, u: nat)
    requires Tracked(w) && u in w.procs && w.procs[u].Sweep? && Inv(Act(w, u, w.procs[u]))
    ensures Tracked(Act(w, u, w.procs[u]))
  {
    hide StoreOk, History, ProcOk, SameDays, FlightOk;
    ShapeFits(w.s);
    MapDays(w.s, w.s);
    SettleDated(w, Act(w, u, w.procs[u]), u);
  }

  lemma DropDated(w: World, u: nat)
    requires Tracked(w) && u in w.procs && Inv(Act(w, u, w.procs[u]))
    requires var p := w.procs[u]; p.DropMeta? || p.DropGrant? || p.DropUsage? || p.SweepDrop?
    ensures Tracked(Act(w, u, w.procs[u]))
  {
    hide *;
    if w.procs[u].SweepDrop? { SweepDropTracked(w, u); } else { PartialDropTracked(w, u); }
  }

  lemma PartialDropTracked(w: World, u: nat)
    requires Tracked(w) && u in w.procs && Inv(Act(w, u, w.procs[u]))
    requires var p := w.procs[u]; p.DropMeta? || p.DropGrant? || p.DropUsage?
    ensures Tracked(Act(w, u, w.procs[u]))
  {
    hide StoreOk, History, ProcOk, ProcDated, SameDays, FlightOk;
    var s, p := w.s, w.procs[u];
    var w' := Act(w, u, p);
    assert ProcOk(s, u, p) && ProcDated(s, u, p);
    ShapeFits(s);
    ShapeFits(w'.s);
    MapDays(s, w'.s);
    DeleteHistory(s, w'.s, p.b);
    DropStepDated(s, u, p, w'.s, w'.procs[u]);
    SettleDated(w, w', u);
  }

  lemma SweepDropTracked(w: World, u: nat)
    requires Tracked(w) && u in w.procs && Inv(Act(w, u, w.procs[u])) && w.procs[u].SweepDrop?
    ensures Tracked(Act(w, u, w.procs[u]))
  {
    hide StoreOk, History, ProcOk, ProcDated, SameDays, FlightOk;
    var s, p := w.s, w.procs[u];
    var w' := Act(w, u, p);
    assert ProcDated(s, u, p);
    ShapeFits(s);
    ShapeFits(w'.s);
    MapDays(s, w'.s);
    if |p.ids| > 0 { DeleteHistory(s, w'.s, p.ids[0]); SweepDropDated(w'.s, u, w'.procs[u]); }
    SettleDated(w, w', u);
  }

  lemma SweepDropDated(s: Store, u: nat, p: Proc)
    requires p.SweepDrop?
    ensures ProcDated(s, u, p)
  {
  }

  lemma DropStepDated(s: Store, u: nat, p: Proc, s': Store, next: Proc)
    requires ProcOk(s, u, p) && ProcDated(s, u, p) && s' == s.(ker := s'.ker)
    requires || (p.DropMeta? && next == DropGrant(p.t, p.b)) || (p.DropGrant? && next == DropUsage(p.t, p.b))
             || (p.DropUsage? && next == GetEpoch(p.t, p.b, None))
    ensures ProcDated(s', u, next)
  {
  }

  lemma RetireDated(w: World, u: nat)
    requires Tracked(w) && u in w.procs && Inv(Act(w, u, w.procs[u])) && (w.procs[u].Retire? || w.procs[u].SweepRows?)
    ensures Tracked(Act(w, u, w.procs[u]))
  {
    hide StoreOk, History, ProcOk, SameDays, FlightOk;
    var s, p := w.s, w.procs[u];
    var w' := Act(w, u, p);
    assert ProcOk(s, u, p) && ProcDated(s, u, p);
    RetireHistoryKept(s, u, w'.s.led);
    if p.Retire? { assert NoneActive(w'.s, u, p.t.day); }
    SettleDated(w, w', u);
  }

  lemma GetEpochDated(w: World, u: nat)
    requires Tracked(w) && u in w.procs && w.procs[u].GetEpoch? && Inv(Act(w, u, w.procs[u]))
    ensures Tracked(Act(w, u, w.procs[u]))
  {
    hide StoreOk, History, ProcOk, SameDays, FlightOk, Open;
    var s, p := w.s, w.procs[u];
    var w' := Act(w, u, p);
    assert ProcOk(s, u, p) && ProcDated(s, u, p);
    ShapeFits(s);
    ShapeFits(w'.s);
    ChosenActive(s, u, p);
    forall v | v != u ensures SameDays(s, w'.s, v) { OpenDays(s, u, p.t, v); }
    SettleDated(w, w', u);
  }

  lemma CloseDated(w: World, u: nat)
    requires Tracked(w) && u in w.procs && w.procs[u].CloseOld? && Inv(Act(w, u, w.procs[u]))
    ensures Tracked(Act(w, u, w.procs[u]))
  {
    hide StoreOk, History, SameDays, FlightOk, CloseSnapshot;
    var s, p := w.s, w.procs[u];
    assert ProcOk(s, u, p) && ProcDated(s, u, p);
    CloseHistory(s, u, p);
    SettleDated(w, Act(w, u, p), u);
  }

  lemma CloseHistory(s: Store, u: nat, p: Proc)
    requires StoreOk(s) && History(s) && p.CloseOld? && ProcOk(s, u, p) && ProcDated(s, u, p)
    ensures var r := CloseSnapshot(s.led, p.b, u, p.prev.grant, p.prev.used);
            && r.Done?
            && var s' := s.(led := r.value);
               Shape(s') && History(s') && ProcDated(s', u, PutGrant(p.e, p.row)) && forall v :: SameDays(s, s', v)
  {
    hide EntriesOk, PointersOk, LiveOk, BirthsOk, History, SameDays;
    GrantFits(s, p.b);
    CloseSnapshotFits(s.led, p.b, u, p.prev.grant, p.prev.used);
    SnapshotHistory(s, u, p.b, p.prev, CloseSnapshot(s.led, p.b, u, p.prev.grant, p.prev.used).value);
  }

  lemma CommitDated(w: World, u: nat)
    requires Tracked(w) && u in w.procs && w.procs[u].Commit? && Inv(Act(w, u, w.procs[u]))
    ensures Tracked(Act(w, u, w.procs[u]))
  {
    hide StoreOk, History, SameDays, FlightOk, StepCommit, ProcOk, ProcDated;
    var s, p := w.s, w.procs[u];
    var w' := Act(w, u, p);
    assert ProcOk(s, u, p) && ProcDated(s, u, p);
    CommitShape(w, u, p);
    CommitHistory(s, u, p, w'.s.led, w'.procs[u]);
    SettleDated(w, w', u);
  }

  lemma CommitHistory(s: Store, u: nat, p: Proc, l: Ledger, next: Proc)
    requires StoreOk(s) && History(s) && p.Commit? && ProcOk(s, u, p) && ProcDated(s, u, p) && LedgerOk(l)
    requires l == s.led.(rows := l.rows) && |l.rows| == |s.led.rows| && Mine(s, u, p.e)
    requires forall i :: 0 <= i < |l.rows| && i != p.e - 1 ==> l.rows[i] == s.led.rows[i]
    requires var row := Row(l, p.e);
      && row == Row(s.led, p.e).(granted := row.granted, rx := p.snap.used.rx, tx := p.snap.used.tx)
      && Row(s.led, p.e).granted <= row.granted
    requires (next.Raise? || next.PutMeta?) && next.e == p.e
    ensures var s' := s.(led := l); Shape(s') && History(s') && ProcDated(s', u, next) && forall v :: SameDays(s, s', v)
  {
    hide StoreOk, History, SameDays, LedgerOk;
    SnapshotHistory(s, u, p.e, p.snap, l);
  }

  lemma WriteDated(w: World, u: nat)
    requires Tracked(w) && u in w.procs && Inv(Act(w, u, w.procs[u]))
    requires var p := w.procs[u]; p.PutGrant? || p.PutUsage? || p.Raise? || p.PutMeta? || p.PutPointer?
    ensures Tracked(Act(w, u, w.procs[u]))
  {
    hide StoreOk, History, ProcOk, ProcDated, SameDays, FlightOk;
    var s, p := w.s, w.procs[u];
    var w' := Act(w, u, p);
    assert ProcOk(s, u, p) && ProcDated(s, u, p);
    ShapeFits(s);
    ShapeFits(w'.s);
    WriteCurrent(s, u, p);
    match p {
      case PutGrant(e, row) => WriteHistory(s, w'.s, e); EpochDated(w'.s, u, w'.procs[u], e);
      case Raise(e, row) => WriteHistory(s, w'.s, e); EpochDated(w'.s, u, w'.procs[u], e);
      case PutMeta(e, row) => WriteHistory(s, w'.s, e); EpochDated(w'.s, u, w'.procs[u], e);
      case PutUsage(e, row) => UsageHistory(s, e); EpochDated(w'.s, u, w'.procs[u], e);
      case PutPointer(e, row) => PublishHistory(s, u, e);
    }
    MapDays(s, w'.s);
    SettleDated(w, w', u);
  }

  lemma WriteCurrent(s: Store, u: nat, p: Proc)
    requires ProcOk(s, u, p) && ProcDated(s, u, p) && (p.PutGrant? || p.PutUsage? || p.Raise? || p.PutMeta? || p.PutPointer?)
    ensures Current(s, p.e) && Row(s.led, p.e) == p.row
    ensures p.PutUsage? ==> p.e !in s.live
    ensures p.PutPointer? ==> p.e in s.ker.usage
    ensures p.Raise? ==> p.e in s.ker.grants
  {
  }

  lemma EpochDated(s: Store, u: nat, p: Proc, e: nat)
    requires Current(s, e) && (p.PutUsage? || p.Commit? || p.PutMeta? || p.PutPointer?) && p.e == e
    ensures ProcDated(s, u, p)
  {
  }

  lemma HookDated(w: World, f: nat)
    requires Tracked(w) && f in w.flights && Inv(Hook(w, f, w.flights[f]))
    ensures Tracked(Hook(w, f, w.flights[f]))
  {
    hide StoreOk, History, SameDays, ProcOk, ProcDated, FlightOk;
    var s, x := w.s, w.flights[f];
    var w' := Hook(w, f, x);
    ShapeFits(s);
    ShapeFits(w'.s);
    assert FlightOk(s, x);
    if x.stage.WantCharge? { ChargeHistory(s, x); }
    MapDays(s, w'.s);
    forall v | v in w'.procs ensures ProcDated(w'.s, v, w'.procs[v]) { DatedKept(s, w'.s, v, w.procs[v]); }
  }

  lemma ClockHistory(s: Store, s': Store)
    requires Shape(s) && History(s) && ClockOnly(s, s')
    requires forall u :: u in s.lastDay ==> u in s'.lastDay && s.lastDay[u] <= s'.lastDay[u]
    ensures Shape(s') && History(s')
  {
    assert forall c :: Current(s', c) <==> Current(s, c);
    forall c | Current(s', c) && c !in s'.live ensures IdleZeroAt(s', c) { assert IdleZeroAt(s, c); }
  }

  lemma ClockDays(s: Store, s': Store, u: nat)
    requires |s.births| == |s.led.rows| && ClockOnly(s, s') && u in s'.lastDay && s'.lastDay == s.lastDay[u := s'.lastDay[u]]
    ensures forall v :: v != u ==> SameDays(s, s', v)
  {
  }

  lemma EnvironmentDated(w: World, ev: Event, p: Policy)
    requires Tracked(w) && Forward(p) && Enabled(w, ev, p) && !ev.Step? && !ev.Advance? && Inv(Apply(w, ev))
    ensures Tracked(Apply(w, ev))
  {
    if ev.BeginSync? || ev.BeginSweep? || ev.Fail? {
      hide *;
      BeginDated(w, ev, p);
    } else {
      hide StoreOk, History, SameDays, ProcOk, FlightOk, Act, Hook, Shape;
      var s, w' := w.s, Apply(w, ev);
      ShapeFits(s);
      ShapeFits(w'.s);
      match ev
      case Reboot(offset) => EmptyHistory(s, w'.s);
      case ResetPins => EmptyHistory(s, w'.s);
      case Restart(cfg) => ClockHistory(s, w'.s);
      case Tick(ns) => ClockHistory(s, w'.s);
      case Retime(offset) => ClockHistory(s, w'.s);
      case Arrive(_, _, _, _) =>
    }
  }

  lemma BeginDated(w: World, ev: Event, p: Policy)
    requires Tracked(w) && Forward(p) && Enabled(w, ev, p) && (ev.BeginSync? || ev.BeginSweep? || ev.Fail?) && Inv(Apply(w, ev))
    ensures Tracked(Apply(w, ev))
  {
    hide StoreOk, History, SameDays, ProcOk, FlightOk, Act, Hook, Shape;
    var s, w' := w.s, Apply(w, ev);
    ShapeFits(s);
    ShapeFits(w'.s);
    if ev.BeginSync? {
      ClockHistory(s, w'.s);
      ClockDays(s, w'.s, ev.user);
    } else {
      MapDays(s, s);
    }
    SettleDated(w, w', ev.user);
  }

  lemma {:induction false} RunTracked(cfg: Config, offset: nat, run: seq<Event>, p: Policy)
    requires cfg.Valid() && Forward(p) && Legal(Init(cfg, offset), run, p)
    ensures Tracked(After(Init(cfg, offset), run))
  {
    if |run| > 0 {
      hide Inv, History, ProcDated, Enabled, Act, Hook;
      var w, ev := After(Init(cfg, offset), run[..|run| - 1]), run[|run| - 1];
      RunTracked(cfg, offset, run[..|run| - 1], p);
      EventKeeps(w, ev, p);
      EventTracked(w, ev, p);
    }
  }

  lemma EventTracked(w: World, ev: Event, p: Policy)
    requires Tracked(w) && Forward(p) && Enabled(w, ev, p) && Inv(Apply(w, ev))
    ensures Tracked(Apply(w, ev))
  {
    hide Tracked, Inv, Act, Hook;
    match ev
    case Step(user) => StepDated(w, user);
    case Advance(f) => HookDated(w, f);
    case _ => EnvironmentDated(w, ev, p);
  }

  lemma ReachableTracked(p: Policy, w: World)
    requires Forward(p) && Reachable(p, w)
    ensures Tracked(w)
  {
    hide Tracked, Legal, After, Init;
    var cfg: Config, offset: nat, run: seq<Event> :|
      cfg.Valid() && Legal(Init(cfg, offset), run, p) && After(Init(cfg, offset), run) == w;
    RunTracked(cfg, offset, run, p);
  }
}
