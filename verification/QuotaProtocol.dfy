/** SyncEpochToEbpf, cleanupHistory and the packet hook as one transition system.  A step is one database
    transaction, one map operation, one clock reading or one locked charge; every step of every user's
    sync, every packet and every failure may interleave with every other. */
module QuotaProtocol {
  import opened Words
  import opened QuotaLedger
  import opened QuotaKernel

  const DAY_NS: nat := 86_400_000_000_000
  const GRACE_NS: nat := 30_000_000_000

  /** The numbers that validate() of laxcode-manager/config.go accepts. */
  datatype Config = Config(limit: nat, chunk: nat, low: nat) {
    predicate Valid() { 0 < low < chunk <= limit <= TWO50 }
  }

  /** The two clock readings behind a deadline: time.Now() at boot time `wallBt` under wall offset `offset`,
      then bootNS() at `bt`; `gen` numbers the lives of the kernel maps. */
  datatype Reading = Reading(gen: nat, offset: nat, wallBt: nat, bt: nat)

  function DayOf(wall: nat): nat { wall / DAY_NS }
  function DayEnd(day: nat): nat { (day + 1) * DAY_NS }

  /** boot + uint64(next.Sub(now) + 30s) */
  function DeadlineOf(r: Reading, day: nat): int {
    r.bt + (DayEnd(day) - (r.wallBt + r.offset)) + GRACE_NS
  }

  datatype Ticket = Ticket(day: nat, clock: Reading)

  datatype Snapshot = Snapshot(grant: nat, used: Usage)

  /** What a sync or a cleanup holding the user's lock does next, with its local variables. */
  datatype Proc =
    | ReadBoot(day: nat, offset: nat, wallBt: nat)
    | FindPointer(t: Ticket)
    | FindActive(t: Ticket)
    | ReadMeta(t: Ticket, b: nat)
    | ReadGrant(t: Ticket, b: nat, bm: Option<Meta>)
    | ReadUsage(t: Ticket, b: nat, bm: Option<Meta>, g: Option<nat>)
    | DropMeta(t: Ticket, b: nat)
    | DropGrant(t: Ticket, b: nat)
    | DropUsage(t: Ticket, b: nat)
    | Retire(t: Ticket, b: nat)
    | GetEpoch(t: Ticket, b: nat, seen: Option<Snapshot>)
    | CloseOld(b: nat, prev: Snapshot, e: nat, row: Epoch)
    | PutGrant(e: nat, row: Epoch)
    | PutUsage(e: nat, row: Epoch)
    | Commit(e: nat, row: Epoch, snap: Snapshot)
    | Raise(e: nat, row: Epoch)
    | PutMeta(e: nat, row: Epoch)
    | PutPointer(e: nat, row: Epoch)
    | Sweep(day: nat)
    | SweepRows(day: nat, current: nat)
    | SweepList(day: nat, current: nat)
    | SweepDrop(ids: seq<nat>, stage: nat)
    | Broken(check: Check)

  /** A packet inside the hook: its user's bucket id is read, then three lookups, then the locked charge. */
  datatype Stage =
    | WantMeta
    | WantGrant(bm: Meta)
    | WantUsage(bm: Meta, limit: nat)
    | WantCharge(limit: nat, cell: nat, at: nat)

  datatype Flight = Flight(user: nat, len: nat, ingress: bool, b: nat, stage: Stage)

  /** The shared state.  The last five fields are history: the days each user's syncs read, the clock
      readings and bytes let through per epoch, the cell of every bucket published since the maps were last
      empty, and the owner of each cell. */
  datatype Store = Store(
    led: Ledger, ker: Kernel, cells: seq<Counter>, cfg: Config, gen: nat, bt: nat, offset: nat,
    lastDay: map<nat, nat>, births: seq<Reading>, passed: seq<nat>, live: map<nat, nat>, owner: seq<nat>)

  datatype World = World(s: Store, procs: map<nat, Proc>, flights: map<nat, Flight>)

  function Init(cfg: Config, offset: nat): World {
    World(Store(Ledger(map[], []), EMPTY_MAPS, [], cfg, 0, 0, offset, map[], [], [], map[], []), map[], map[])
  }

  datatype Event =
    | Tick(ns: nat)
    | Retime(offset: nat)
    | Reboot(offset: nat)
    | ResetPins
    | Restart(cfg: Config)
    | Fail(user: nat)
    | BeginSync(user: nat)
    | BeginSweep(user: nat, day: nat)
    | Step(user: nat)
    | Arrive(f: nat, user: nat, len: nat, ingress: bool)
    | Advance(f: nat)

  /** Which day may follow which in the days that one user's syncs read from the clock. */
  type Policy = (nat, nat) -> bool

  function Today(s: Store): nat { DayOf(s.bt + s.offset) }

  predicate Enabled(w: World, ev: Event, p: Policy) {
    match ev
    case Restart(cfg) => cfg.Valid()
    case Fail(user) => user in w.procs
    case BeginSync(user) => user !in w.procs && (user in w.s.lastDay ==> p(w.s.lastDay[user], Today(w.s)))
    case BeginSweep(user, day) => user !in w.procs
    case Step(user) => user in w.procs && !w.procs[user].Broken?
    case Arrive(f, user, len, ingress) => f !in w.flights && user in w.s.ker.pointer && len < 0x1_0000_0000
    case Advance(f) => f in w.flights
    case _ => true
  }

  /** The shared state becomes `s` and the user's sync goes on with `next`. */
  function Goto(w: World, s: Store, user: nat, next: Proc): World {
    World(s, w.procs[user := next], w.flights)
  }

  function Leave(w: World, s: Store, user: nat): World {
    World(s, w.procs - {user}, w.flights)
  }

  /** All four maps vanish, with every packet in flight and every sync. */
  function EmptyMaps(s: Store): Store {
    s.(ker := EMPTY_MAPS, cells := [], owner := [], live := map[], gen := s.gen + 1)
  }

  function Apply(w: World, ev: Event): World {
    match ev
    case Tick(ns) => w.(s := w.s.(bt := w.s.bt + ns))
    case Retime(offset) => w.(s := w.s.(offset := offset))
    case Reboot(offset) => World(EmptyMaps(w.s).(bt := 0, offset := offset), map[], map[])
    case ResetPins => World(EmptyMaps(w.s), map[], map[])
    case Restart(cfg) => World(w.s.(cfg := cfg), map[], w.flights)
    case Fail(user) => Leave(w, w.s, user)
    case BeginSync(user) =>
      Goto(w, w.s.(lastDay := w.s.lastDay[user := Today(w.s)]), user, ReadBoot(Today(w.s), w.s.offset, w.s.bt))
    case BeginSweep(user, day) => Goto(w, w.s, user, Sweep(day))
    case Step(user) => if user in w.procs then Act(w, user, w.procs[user]) else w
    case Arrive(f, user, len, ingress) =>
      if user in w.s.ker.pointer
      then w.(flights := w.flights[f := Flight(user, len, ingress, w.s.ker.pointer[user], WantMeta)]) else w
    case Advance(f) => if f in w.flights then Hook(w, f, w.flights[f]) else w
  }

  // ---------------------------------------------------------------- the packet hook

  function Fly(w: World, f: nat, x: Flight, next: Option<Stage>): World {
    if next.Some? then w.(flights := w.flights[f := x.(stage := next.value)]) else w.(flights := w.flights - {f})
  }

  function Hook(w: World, f: nat, x: Flight): World {
    match x.stage
    case WantMeta => Fly(w, f, x, if x.b in w.s.ker.meta then Some(WantGrant(w.s.ker.meta[x.b])) else None)
    case WantGrant(bm) => Fly(w, f, x, if x.b in w.s.ker.grants then Some(WantUsage(bm, w.s.ker.grants[x.b])) else None)
    case WantUsage(bm, limit) =>
      Fly(w, f, x, if x.b in w.s.ker.usage && bm.user == x.user && w.s.bt < bm.deadline
                   then Some(WantCharge(limit, w.s.ker.usage[x.b], w.s.bt)) else None)
    case WantCharge(limit, cell, at) => Fly(w.(s := ChargeCell(w.s, x, limit, cell)), f, x, None)
  }

  function ChargeCell(s: Store, x: Flight, limit: nat, cell: nat): Store {
    if cell < |s.cells| && s.cells[cell].rx < TWO64 && s.cells[cell].tx < TWO64 && limit < TWO64 && 1 <= x.b <= |s.passed|
    then
      var (c, pass) := Charge(s.cells[cell], limit, x.len, x.ingress);
      s.(cells := s.cells[cell := c],
         passed := if pass then s.passed[x.b - 1 := s.passed[x.b - 1] + x.len] else s.passed)
    else s
  }

  // ---------------------------------------------------------------- a sync, step by step

  function Act(w: World, u: nat, p: Proc): World {
    var s := w.s;
    match p
    case DropMeta(t, b) => Goto(w, DeleteMeta(s, b), u, DropGrant(t, b))
    case DropGrant(t, b) => Goto(w, DeleteGrant(s, b), u, DropUsage(t, b))
    case DropUsage(t, b) => Goto(w, DeleteUsage(s, b), u, GetEpoch(t, b, None))
    case Retire(t, b) => Goto(w, s.(led := RetireDay(s.led, u, t.day)), u, GetEpoch(t, b, None))
    case GetEpoch(t, b, seen) => StepGetEpoch(w, u, t, b, seen)
    case CloseOld(b, prev, e, row) =>
      (match CloseSnapshot(s.led, b, u, prev.grant, prev.used)
       case Done(l) => Goto(w, s.(led := l), u, PutGrant(e, row))
       case Fault(check) => Goto(w, s, u, Broken(check)))
    case PutGrant(e, row) => Goto(w, WriteGrant(s, e, row.granted), u, PutUsage(e, row))
    case PutUsage(e, row) =>
      Goto(w, WriteUsage(s, e, row), u, Commit(e, row, Snapshot(row.granted, Usage(row.rx, row.tx))))
    case Commit(e, row, seen) => StepCommit(w, u, e, row, seen)
    case Raise(e, row) =>
      if e in s.ker.grants then Goto(w, WriteGrant(s, e, row.granted), u, PutMeta(e, row))
      else Goto(w, s, u, Broken(GrantEntryMissing))
    case PutMeta(e, row) => Goto(w, WriteMeta(s, e, Meta(u, row.deadline)), u, PutPointer(e, row))
    case PutPointer(e, row) => Leave(w, Publish(s, u, e), u)
    case Sweep(day) =>
      if u in s.ker.pointer then Goto(w, s, u, SweepRows(day, s.ker.pointer[u])) else Leave(w, s, u)
    case SweepRows(day, current) =>
      Goto(w, s.(led := RetireHistory(s.led, u, day, current)), u, SweepList(day, current))
    case SweepDrop(ids, stage) =>
      if |ids| == 0 then Leave(w, s, u)
      else if stage == 0 then Goto(w, DeleteMeta(s, ids[0]), u, SweepDrop(ids, 1))
      else if stage == 1 then Goto(w, DeleteGrant(s, ids[0]), u, SweepDrop(ids, 2))
      else Goto(w, DeleteUsage(s, ids[0]), u, SweepDrop(ids[1..], 0))
    case _ => Goto(w, s, u, NextRead(s, u, p))
  }

  /** The steps that only read: two clocks, the pointer, the ledger's candidate, the three entries. */
  function NextRead(s: Store, u: nat, p: Proc): Proc {
    match p
    case ReadBoot(day, offset, wallBt) => FindPointer(Ticket(day, Reading(s.gen, offset, wallBt, s.bt)))
    case FindPointer(t) => if u in s.ker.pointer then ReadMeta(t, s.ker.pointer[u]) else FindActive(t)
    case FindActive(t) => ReadMeta(t, LatestActive(s.led.rows, u))
    case ReadMeta(t, b) => ReadGrant(t, b, Find(s.ker.meta, b))
    case ReadGrant(t, b, bm) => ReadUsage(t, b, bm, Find(s.ker.grants, b))
    case ReadUsage(t, b, bm, g) => Classify(u, t, b, bm, g, CountersOf(s, b))
    case SweepList(day, current) => SweepDrop(Historical(s.led.rows, u, day, current), 0)
    case _ => p
  }

  function DeleteMeta(s: Store, b: nat): Store { s.(ker := s.ker.(meta := s.ker.meta - {b})) }
  function DeleteGrant(s: Store, b: nat): Store { s.(ker := s.ker.(grants := s.ker.grants - {b})) }
  function DeleteUsage(s: Store, b: nat): Store { s.(ker := s.ker.(usage := s.ker.usage - {b})) }

  function WriteGrant(s: Store, e: nat, bytes: nat): Store { s.(ker := s.ker.(grants := s.ker.grants[e := bytes])) }
  function WriteMeta(s: Store, e: nat, m: Meta): Store { s.(ker := s.ker.(meta := s.ker.meta[e := m])) }

  /** A usage update makes a new element with the ledger's counters. */
  function WriteUsage(s: Store, e: nat, row: Epoch): Store {
    s.(ker := s.ker.(usage := s.ker.usage[e := |s.cells|]),
       cells := s.cells + [Counter(row.rx, row.tx, 0, 0)], owner := s.owner + [e])
  }

  function Publish(s: Store, u: nat, e: nat): Store {
    s.(ker := s.ker.(pointer := s.ker.pointer[u := e]),
       live := if e in s.ker.usage then s.live[e := s.ker.usage[e]] else s.live)
  }

  /** bucket's third read: the counters, taken under the element's lock. */
  function CountersOf(s: Store, b: nat): Option<Usage> {
    if b in s.ker.usage && s.ker.usage[b] < |s.cells|
    then Some(Usage(s.cells[s.ker.usage[b]].rx, s.cells[s.ker.usage[b]].tx)) else None
  }

  /** Steps 4, 5 and 6: a partial bucket is dropped, a lost one retires the day, a complete one is kept. */
  function Classify(u: nat, t: Ticket, b: nat, bm: Option<Meta>, g: Option<nat>, used: Option<Usage>): Proc {
    if bm.Some? && g.Some? && used.Some? then
      if bm.value.user != u then Broken(WrongOwner) else GetEpoch(t, b, Some(Snapshot(g.value, used.value)))
    else if bm.None? && g.None? && used.None? then Retire(t, b)
    else DropMeta(t, b)
  }

  /** The transaction of step 7, with the history of a new row. */
  function Open(s: Store, u: nat, t: Ticket): (r: (Store, nat))
    ensures Has(r.0.led, r.1)
  {
    var deadline := DeadlineOf(t.clock, t.day);
    var (l, e) := Ensure(s.led, u, t.day, s.cfg.limit, if deadline < 0 then 0 else deadline);
    var created := |l.rows| > |s.led.rows|;
    (s.(led := l, births := if created then s.births + [t.clock] else s.births,
        passed := if created then s.passed + [0] else s.passed), e)
  }

  /** Step 7, and the choice between a live bucket (10), a replaced one (8) and a rebuild (9). */
  function StepGetEpoch(w: World, u: nat, t: Ticket, b: nat, seen: Option<Snapshot>): World {
    var (s, e) := Open(w.s, u, t);
    var row := Row(s.led, e);
    Goto(w, s, u,
         match seen
         case None => PutGrant(e, row)
         case Some(snap) => if b == e then Commit(e, row, snap) else CloseOld(b, snap, e, row))
  }

  /** Step 10: compare with the ledger, then commit usage and authorization before publishing a grant. */
  function StepCommit(w: World, u: nat, e: nat, row: Epoch, seen: Snapshot): World {
    var rx, tx := seen.used.rx, seen.used.tx;
    if seen.grant > row.granted || rx > seen.grant || tx > Sub64(seen.grant, rx) then
      Goto(w, w.s, u, Broken(KernelAboveLedger))
    else
      var remaining := Sub64(Sub64(seen.grant, rx), tx);
      match Checkpoint(w.s.led, e, seen.used, remaining <= w.s.cfg.low, w.s.cfg.chunk)
      case Fault(check) => Goto(w, w.s, u, Broken(check))
      case Done(l) =>
        if !Has(l, e) then w
        else
          var row' := Row(l, e);
          Goto(w, w.s.(led := l), u, if seen.grant != row'.granted then Raise(e, row') else PutMeta(e, row'))
  }

  // ---------------------------------------------------------------- runs

  function After(w: World, run: seq<Event>): World {
    if |run| == 0 then w else Apply(After(w, run[..|run| - 1]), run[|run| - 1])
  }

  predicate Legal(w: World, run: seq<Event>, p: Policy) {
    |run| == 0 || (Legal(w, run[..|run| - 1], p) && Enabled(After(w, run[..|run| - 1]), run[|run| - 1], p))
  }

  /** The world that some legal run from an empty ledger and empty maps ends in. */
  ghost predicate Reachable(p: Policy, w: World) {
    exists cfg: Config, offset: nat, run: seq<Event> ::
      cfg.Valid() && Legal(Init(cfg, offset), run, p) && After(Init(cfg, offset), run) == w
  }

  /** Bytes the kernel let through on the epochs of a user's day. */
  function PassedOn(rows: seq<Epoch>, passed: seq<nat>, user: nat, day: nat): nat {
    if |rows| == 0 || |passed| != |rows| then 0
    else
      var n := |rows| - 1;
      PassedOn(rows[..n], passed[..n], user, day) + if On(rows[n], user, day) then passed[n] else 0
  }
}
