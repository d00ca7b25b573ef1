/** What every reachable state of the quota protocol keeps, whatever days the clock reports: the joint
    invariant of ledger, kernel maps, packets in flight and syncs in progress, and its preservation. */
module QuotaInvariant {
  import opened Words
  import opened QuotaLedger
  import opened QuotaKernel
  import opened QuotaProtocol

  ghost predicate Inv(w: World) {
    && StoreOk(w.s)
    && (forall f :: f in w.flights ==> FlightOk(w.s, w.flights[f]))
    && (forall u :: u in w.procs ==> ProcOk(w.s, u, w.procs[u]))
  }

  ghost predicate StoreOk(s: Store) {
    && Shape(s)
    && LedgerOk(s.led)
    && BirthsOk(s)
    && EntriesOk(s)
    && PointersOk(s)
    && LiveOk(s)
  }

  ghost predicate Shape(s: Store) {
    && |s.births| == |s.passed| == |s.led.rows|
    && |s.owner| == |s.cells|
    && s.cfg.Valid()
    && forall c :: 0 <= c < |s.cells| ==> Total(s.cells[c]) <= TWO50
  }

  ghost predicate ReadingOk(s: Store, r: Reading, day: nat) {
    && r.gen <= s.gen
    && r.wallBt <= r.bt && (r.gen == s.gen ==> r.bt <= s.bt)
    && day == DayOf(r.wallBt + r.offset)
  }

  /** A row's deadline comes from the clock readings of the sync that created it. */
  ghost predicate BirthsOk(s: Store)
    requires |s.births| == |s.led.rows|
  {
    forall i :: 0 <= i < |s.births| ==>
      && ReadingOk(s, s.births[i], s.led.rows[i].day)
      && s.led.rows[i].deadline == DeadlineOf(s.births[i], s.led.rows[i].day)
  }

  predicate HasUsage(s: Store, b: nat) {
    b in s.ker.usage && s.ker.usage[b] < |s.cells|
  }

  function CellOf(s: Store, b: nat): Counter
    requires HasUsage(s, b)
  {
    s.cells[s.ker.usage[b]]
  }

  /** Kernel grant at most durable grant; ledger counters at most live ones; usage within the grant. */
  ghost predicate EntriesOk(s: Store) {
    && (forall b :: b in s.ker.meta ==> Has(s.led, b) && s.ker.meta[b] == Meta(Row(s.led, b).user, Row(s.led, b).deadline))
    && (forall b :: b in s.ker.grants ==> Has(s.led, b) && s.ker.grants[b] <= Row(s.led, b).granted)
    && (forall b :: b in s.ker.usage ==> Has(s.led, b) && UsageOk(s, b))
  }

  ghost predicate UsageOk(s: Store, b: nat)
    requires Has(s.led, b)
  {
    && HasUsage(s, b) && s.ker.usage[b] < |s.owner| && s.owner[s.ker.usage[b]] == b
    && Row(s.led, b).rx <= CellOf(s, b).rx && Row(s.led, b).tx <= CellOf(s, b).tx
    && Total(CellOf(s, b)) <= Row(s.led, b).granted
    && (b in s.ker.grants ==> Total(CellOf(s, b)) <= s.ker.grants[b])
  }

  /** A published pointer names a bucket with all three entries, owned by that user. */
  ghost predicate PointersOk(s: Store) {
    forall u :: u in s.ker.pointer ==>
      var b := s.ker.pointer[u];
      Has(s.led, b) && Row(s.led, b).user == u && Complete(s.ker, b) && b in s.live
  }

  /** A bucket that was ever published keeps its cell; while its row is active it is the current one. */
  ghost predicate LiveOk(s: Store) {
    forall b :: b in s.live ==> Has(s.led, b) && PublishedOk(s, b)
  }

  ghost predicate PublishedOk(s: Store, b: nat)
    requires b in s.live && Has(s.led, b)
  {
    && s.live[b] < |s.cells| && s.live[b] < |s.owner| && s.owner[s.live[b]] == b
    && Total(s.cells[s.live[b]]) <= Row(s.led, b).granted
    && (b in s.ker.usage ==> s.ker.usage[b] == s.live[b])
    && Row(s.led, b).user in s.ker.pointer
    && (Row(s.led, b).status == Active ==> s.ker.pointer[Row(s.led, b).user] == b)
  }

  ghost predicate FlightOk(s: Store, x: Flight) {
    && x.b in s.live && Has(s.led, x.b) && Row(s.led, x.b).user == x.user
    && match x.stage
       case WantMeta => true
       case WantGrant(bm) => bm == Meta(x.user, Row(s.led, x.b).deadline)
       case WantUsage(bm, limit) => bm == Meta(x.user, Row(s.led, x.b).deadline) && LimitOk(s, x.b, limit)
       case WantCharge(limit, cell, at) =>
         cell == s.live[x.b] && LimitOk(s, x.b, limit) && at < Row(s.led, x.b).deadline && at <= s.bt
  }

  /** The limit that a hook read before its lock never exceeds what is authorized later. */
  ghost predicate LimitOk(s: Store, b: nat, limit: nat)
    requires Has(s.led, b)
  {
    limit <= Row(s.led, b).granted && (b in s.ker.grants ==> limit <= s.ker.grants[b])
  }

  // ---------------------------------------------------------------- syncs in progress

  ghost predicate TicketOk(s: Store, t: Ticket) {
    t.clock.gen == s.gen && ReadingOk(s, t.clock, t.day)
  }

  /** The bucket a sync starts from: the published one, else the latest active epoch of the ledger. */
  ghost predicate Anchor(s: Store, u: nat, b: nat) {
    if u in s.ker.pointer then s.ker.pointer[u] == b
    else b == 0 || (Has(s.led, b) && Row(s.led, b).user == u)
  }

  ghost predicate Mine(s: Store, u: nat, b: nat) {
    Has(s.led, b) && Row(s.led, b).user == u
  }

  /** A snapshot lies between the ledger's counters and the live ones, under the kernel grant. */
  ghost predicate Counted(s: Store, b: nat, snap: Snapshot) {
    var used := snap.used;
    && Has(s.led, b) && HasUsage(s, b) && b in s.ker.grants && s.ker.grants[b] == snap.grant
    && Row(s.led, b).rx <= used.rx <= CellOf(s, b).rx && Row(s.led, b).tx <= used.tx <= CellOf(s, b).tx
    && used.rx + used.tx <= snap.grant
  }

  /** The epoch chosen in step 7, and the closing of the bucket it replaces. */
  ghost predicate Chosen(s: Store, u: nat, e: nat, row: Epoch) {
    && Mine(s, u, e) && Row(s.led, e) == row && row.status == Active
    && (u in s.ker.pointer && s.ker.pointer[u] != e ==>
          Has(s.led, s.ker.pointer[u]) && Row(s.led, s.ker.pointer[u]).status != Active)
  }

  /** After step 10 the low watermark is covered or the day is fully allocated. */
  ghost predicate Funded(s: Store, row: Epoch) {
    || row.granted - row.rx - row.tx > s.cfg.low
    || ((row.user, row.day) in s.led.limits && Held(s.led.rows, row.user, row.day) == s.led.limits[(row.user, row.day)])
  }

  ghost predicate ProcOk(s: Store, u: nat, p: Proc) {
    match p
    case ReadBoot(day, offset, wallBt) => wallBt <= s.bt && day == DayOf(wallBt + offset)
    case FindPointer(t) => TicketOk(s, t)
    case FindActive(t) => TicketOk(s, t) && u !in s.ker.pointer
    case ReadMeta(t, b) => TicketOk(s, t) && Anchor(s, u, b)
    case ReadGrant(t, b, bm) => TicketOk(s, t) && Anchor(s, u, b) && bm == Find(s.ker.meta, b)
    case ReadUsage(t, b, bm, g) =>
      TicketOk(s, t) && Anchor(s, u, b) && bm == Find(s.ker.meta, b) && g == Find(s.ker.grants, b)
    case DropMeta(t, b) => TicketOk(s, t) && Mine(s, u, b) && u !in s.ker.pointer
    case DropGrant(t, b) => TicketOk(s, t) && Mine(s, u, b) && u !in s.ker.pointer
    case DropUsage(t, b) => TicketOk(s, t) && Mine(s, u, b) && u !in s.ker.pointer
    case Retire(t, b) => TicketOk(s, t) && u !in s.ker.pointer
    case GetEpoch(t, b, seen) =>
      TicketOk(s, t) &&
      (match seen
       case None => u !in s.ker.pointer
       case Some(snap) => Anchor(s, u, b) && Mine(s, u, b) && b in s.ker.meta && Counted(s, b, snap))
    case CloseOld(b, prev, e, row) =>
      && Anchor(s, u, b) && Mine(s, u, b) && b in s.ker.meta && Counted(s, b, prev) && b != e
      && Mine(s, u, e) && Row(s.led, e) == row && row.status == Active
    case PutGrant(e, row) => Chosen(s, u, e, row) && e !in s.live
    case PutUsage(e, row) => Chosen(s, u, e, row) && e !in s.live && Find(s.ker.grants, e) == Some(row.granted)
    case Commit(e, row, seen) => Chosen(s, u, e, row) && Counted(s, e, seen)
    case Raise(e, row) => Chosen(s, u, e, row) && e in s.ker.grants && e in s.ker.usage && Funded(s, row)
    case PutMeta(e, row) =>
      Chosen(s, u, e, row) && Find(s.ker.grants, e) == Some(row.granted) && e in s.ker.usage && Funded(s, row)
    case PutPointer(e, row) =>
      && Chosen(s, u, e, row) && Find(s.ker.grants, e) == Some(row.granted) && e in s.ker.usage
      && e in s.ker.meta && Funded(s, row)
    case Sweep(day) => true
    case SweepRows(day, current) => Find(s.ker.pointer, u) == Some(current)
    case SweepList(day, current) => Find(s.ker.pointer, u) == Some(current)
    case SweepDrop(ids, stage) => u in s.ker.pointer && forall id :: id in ids ==> Mine(s, u, id) && id != s.ker.pointer[u]
    case Broken(check) => false
  }

  // ---------------------------------------------------------------- what one user's step leaves to another

  /** `s'` looks to user `v`'s sync as `s` did: same pointer, rows and entries; counters only grew. */
  ghost predicate SameFor(s: Store, s': Store, v: nat) {
    && Find(s'.ker.pointer, v) == Find(s.ker.pointer, v)
    && s'.cfg == s.cfg && s'.gen == s.gen && s.bt <= s'.bt
    && |s.led.rows| <= |s'.led.rows|
    && (forall b :: Mine(s, v, b) ==> SameBucket(s, s', b))
    && |s.cells| <= |s'.cells|
    && (forall c :: 0 <= c < |s.cells| ==> s.cells[c].rx <= s'.cells[c].rx && s.cells[c].tx <= s'.cells[c].tx)
    && (forall d :: Held(s'.led.rows, v, d) == Held(s.led.rows, v, d))
    && (forall d :: (v, d) in s.led.limits ==> (v, d) in s'.led.limits && s'.led.limits[(v, d)] == s.led.limits[(v, d)])
  }

  ghost predicate SameBucket(s: Store, s': Store, b: nat)
    requires Has(s.led, b)
  {
    && Has(s'.led, b) && Row(s'.led, b) == Row(s.led, b)
    && Find(s'.ker.meta, b) == Find(s.ker.meta, b)
    && Find(s'.ker.grants, b) == Find(s.ker.grants, b)
    && Find(s'.ker.usage, b) == Find(s.ker.usage, b)
    && Find(s'.live, b) == Find(s.live, b)
  }

  lemma PointerSame(s: Store, s': Store, v: nat)
    requires SameFor(s, s', v)
    ensures Find(s'.ker.pointer, v) == Find(s.ker.pointer, v)
    ensures v in s.ker.pointer <==> v in s'.ker.pointer
    ensures v in s.ker.pointer ==> s'.ker.pointer[v] == s.ker.pointer[v]
    ensures s.bt <= s'.bt
  {
    if v in s'.ker.pointer { assert Find(s'.ker.pointer, v).Some?; }
  }

  lemma TicketKept(s: Store, s': Store, v: nat, t: Ticket)
    requires SameFor(s, s', v) && TicketOk(s, t)
    ensures TicketOk(s', t)
  {
  }

  lemma AnchorKept(s: Store, s': Store, v: nat, b: nat)
    requires SameFor(s, s', v) && StoreOk(s) && StoreOk(s') && Anchor(s, v, b)
    ensures Anchor(s', v, b) && Find(s'.ker.meta, b) == Find(s.ker.meta, b) && Find(s'.ker.grants, b) == Find(s.ker.grants, b)
  {
    assert Mine(s, v, b) || b == 0;
    if v in s.ker.pointer { assert Find(s.ker.pointer, v) == Some(b); }
  }

  lemma MineKept(s: Store, s': Store, v: nat, b: nat)
    requires SameFor(s, s', v) && Mine(s, v, b)
    ensures Mine(s', v, b) && SameBucket(s, s', b) && Row(s'.led, b) == Row(s.led, b)
    ensures b in s.ker.meta ==> b in s'.ker.meta
    ensures b in s.ker.usage ==> b in s'.ker.usage
    ensures b in s'.live ==> b in s.live
  {
    assert SameBucket(s, s', b);
    if b in s.ker.meta { assert Find(s.ker.meta, b).Some?; }
    if b in s.ker.usage { assert Find(s.ker.usage, b).Some?; }
    if b in s'.live { assert Find(s'.live, b).Some?; }
  }

  lemma CountedKept(s: Store, s': Store, v: nat, b: nat, snap: Snapshot)
    requires SameFor(s, s', v) && Mine(s, v, b) && Counted(s, b, snap)
    ensures Counted(s', b, snap)
  {
    MineKept(s, s', v, b);
    assert Find(s.ker.grants, b) == Some(snap.grant) && Find(s.ker.usage, b) == Some(s.ker.usage[b]);
  }

  lemma ChosenKept(s: Store, s': Store, v: nat, e: nat, row: Epoch)
    requires SameFor(s, s', v) && StoreOk(s) && Chosen(s, v, e, row)
    ensures Chosen(s', v, e, row) && SameBucket(s, s', e)
    ensures e in s.ker.meta ==> e in s'.ker.meta
    ensures e in s.ker.usage ==> e in s'.ker.usage
    ensures e in s.ker.grants ==> e in s'.ker.grants
    ensures e in s'.live ==> e in s.live
    ensures Funded(s, row) ==> Funded(s', row)
  {
    MineKept(s, s', v, e);
    if e in s.ker.grants { assert Find(s.ker.grants, e).Some?; }
    if v in s'.ker.pointer {
      assert Find(s'.ker.pointer, v).Some?;
      MineKept(s, s', v, s.ker.pointer[v]);
    }
  }

  lemma ChosenMine(s: Store, v: nat, e: nat, row: Epoch)
    requires Chosen(s, v, e, row)
    ensures Mine(s, v, e)
  {
  }

  lemma ProcKept(s: Store, s': Store, v: nat, p: Proc)
    requires StoreOk(s) && StoreOk(s') && ProcOk(s, v, p) && SameFor(s, s', v)
    ensures ProcOk(s', v, p)
  {
    hide *;
    if p.ReadBoot? || p.FindPointer? || p.FindActive? || p.ReadMeta? || p.ReadGrant? || p.ReadUsage?
       || p.DropMeta? || p.DropGrant? || p.DropUsage? || p.Retire? {
      LookupKept(s, s', v, p);
    } else {
      WritingKept(s, s', v, p);
    }
  }

  lemma LookupKept(s: Store, s': Store, v: nat, p: Proc)
    requires StoreOk(s) && StoreOk(s') && ProcOk(s, v, p) && SameFor(s, s', v)
    requires p.ReadBoot? || p.FindPointer? || p.FindActive? || p.ReadMeta? || p.ReadGrant? || p.ReadUsage?
             || p.DropMeta? || p.DropGrant? || p.DropUsage? || p.Retire?
    ensures ProcOk(s', v, p)
  {
    hide SameFor, EntriesOk, PointersOk, LiveOk, Shape, BirthsOk, LedgerOk, TicketOk, Counted, Chosen, Funded, Anchor;
    PointerSame(s, s', v);
    match p
    case ReadBoot(day, offset, wallBt) =>
    case FindPointer(t) => TicketKept(s, s', v, t);
    case FindActive(t) => TicketKept(s, s', v, t);
    case ReadMeta(t, b) => TicketKept(s, s', v, t); AnchorKept(s, s', v, b);
    case ReadGrant(t, b, bm) => TicketKept(s, s', v, t); AnchorKept(s, s', v, b);
    case ReadUsage(t, b, bm, g) => TicketKept(s, s', v, t); AnchorKept(s, s', v, b);
    case DropMeta(t, b) => TicketKept(s, s', v, t); MineKept(s, s', v, b);
    case DropGrant(t, b) => TicketKept(s, s', v, t); MineKept(s, s', v, b);
    case DropUsage(t, b) => TicketKept(s, s', v, t); MineKept(s, s', v, b);
    case Retire(t, b) => TicketKept(s, s', v, t);
  }

  lemma WritingKept(s: Store, s': Store, v: nat, p: Proc)
    requires StoreOk(s) && StoreOk(s') && ProcOk(s, v, p) && SameFor(s, s', v)
    requires !(p.ReadBoot? || p.FindPointer? || p.FindActive? || p.ReadMeta? || p.ReadGrant? || p.ReadUsage?
               || p.DropMeta? || p.DropGrant? || p.DropUsage? || p.Retire?)
    ensures ProcOk(s', v, p)
  {
    hide SameFor, EntriesOk, PointersOk, LiveOk, Shape, BirthsOk, LedgerOk, TicketOk, Counted, Chosen, Funded, Anchor;
    PointerSame(s, s', v);
    match p
    case GetEpoch(t, b, seen) =>
      TicketKept(s, s', v, t);
      if seen.Some? { AnchorKept(s, s', v, b); MineKept(s, s', v, b); CountedKept(s, s', v, b, seen.value); }
    case CloseOld(b, prev, e, row) =>
      AnchorKept(s, s', v, b); MineKept(s, s', v, b); CountedKept(s, s', v, b, prev); MineKept(s, s', v, e);
    case PutGrant(e, row) => ChosenKept(s, s', v, e, row);
    case PutUsage(e, row) => ChosenKept(s, s', v, e, row);
    case Commit(e, row, seen) => ChosenMine(s, v, e, row); ChosenKept(s, s', v, e, row); CountedKept(s, s', v, e, seen);
    case Raise(e, row) => ChosenKept(s, s', v, e, row);
    case PutMeta(e, row) => ChosenKept(s, s', v, e, row);
    case PutPointer(e, row) => ChosenKept(s, s', v, e, row);
    case Sweep(day) =>
    case SweepRows(day, current) =>
    case SweepList(day, current) =>
    case SweepDrop(ids, stage) =>
      forall id | id in ids ensures Mine(s', v, id) { MineKept(s, s', v, id); }
    case Broken(check) =>
  }
}
