/** Which daily limit a user's day gets: the one configured when a sync first opens the day, for good. */
module QuotaLimits {
  import opened Words
  import opened QuotaLedger
  import opened QuotaKernel
  import opened QuotaProtocol
  import opened QuotaPreservation
  import opened QuotaTheorems
  import opened QuotaSolo

  // ---------------------------------------------------------------- one event

  /** The event opens the day `t.day` of user `u`: step 7 of that user's sync. */
  predicate Opens(w: World, ev: Event, u: nat, day: nat) {
    ev == Step(u) && u in w.procs && w.procs[u].GetEpoch? && w.procs[u].t.day == day
  }

  /** No event changes or drops a limit; only step 7 adds one, for its own user and day, as configured.  Only a
      restart changes the configuration. */
  lemma OneEvent(w: World, ev: Event)
    ensures Apply(w, ev).s.cfg == if ev.Restart? then ev.cfg else w.s.cfg
    ensures forall u, day :: Opens(w, ev, u, day) ==> LimitSet(w.s.led.limits, Apply(w, ev).s.led.limits, u, day, w.s.cfg.limit)
    ensures (forall u, day :: !Opens(w, ev, u, day)) ==> Apply(w, ev).s.led.limits == w.s.led.limits
  {
    hide Act, LimitSet;
    if ev.Step? && ev.user in w.procs {
      OneStep(w, ev.user, w.procs[ev.user]);
      assert w.procs[ev.user].GetEpoch? ==> Opens(w, ev, ev.user, w.procs[ev.user].t.day);
    }
  }

  lemma OneStep(w: World, u: nat, p: Proc)
    ensures Act(w, u, p).s.cfg == w.s.cfg
    ensures p.GetEpoch? ==> LimitSet(w.s.led.limits, Act(w, u, p).s.led.limits, u, p.t.day, w.s.cfg.limit)
    ensures !p.GetEpoch? ==> Act(w, u, p).s.led.limits == w.s.led.limits
  {
    hide NextRead, DeadlineOf, Sum, Historical;
    if p.GetEpoch? {
      hide StepCommit, Checkpoint, CloseSnapshot;
    } else {
      hide Open;
    }
  }

  // ---------------------------------------------------------------- every run

  /** The configuration in force after a run: that of its last restart. */
  function Configured(cfg: Config, run: seq<Event>): Config {
    if |run| == 0 then cfg
    else if run[|run| - 1].Restart? then run[|run| - 1].cfg
    else Configured(cfg, run[..|run| - 1])
  }

  /** Event `i` of the run opened the day `k` of a user, which had no limit yet, under the configuration `c`. */
  ghost predicate OpenedAt(w: World, run: seq<Event>, i: nat, k: (nat, nat), c: Config) {
    && i < |run|
    && k !in After(w, run[..i]).s.led.limits
    && Opens(After(w, run[..i]), run[i], k.0, k.1)
    && c == Configured(w.s.cfg, run[..i])
  }

  /** The limit is what was configured when the day was opened. */
  ghost predicate WasConfigured(w: World, run: seq<Event>, k: (nat, nat), limit: nat) {
    exists i: nat, c: Config :: OpenedAt(w, run, i, k, c) && limit == c.limit
  }

  lemma OpenedBefore(w: World, run: seq<Event>, n: nat, k: (nat, nat), limit: nat)
    requires n <= |run| && WasConfigured(w, run[..n], k, limit)
    ensures WasConfigured(w, run, k, limit)
  {
    hide After, Opens, Configured;
    var i: nat, c: Config :| OpenedAt(w, run[..n], i, k, c) && limit == c.limit;
    assert run[..n][..i] == run[..i];
    assert OpenedAt(w, run, i, k, c);
  }

  /** In every run each limit is the one that was configured when the day was opened. */
  lemma {:induction false} LimitsAreConfigured(w: World, run: seq<Event>)
    requires w.s.led.limits == map[]
    ensures var s := After(w, run).s;
            s.cfg == Configured(w.s.cfg, run) && forall k :: k in s.led.limits ==> WasConfigured(w, run, k, s.led.limits[k])
  {
    hide Apply, Opens, WasConfigured;
    if |run| > 0 {
      var n := |run| - 1;
      var v := After(w, run[..n]);
      LimitsAreConfigured(w, run[..n]);
      OneEvent(v, run[n]);
      forall k | k in Apply(v, run[n]).s.led.limits ensures WasConfigured(w, run, k, Apply(v, run[n]).s.led.limits[k]) {
        if k in v.s.led.limits { OpenedBefore(w, run, n, k, v.s.led.limits[k]); } else { OpenedNow(w, run, k); }
      }
    }
  }

  lemma OpenedNow(w: World, run: seq<Event>, k: (nat, nat))
    requires |run| > 0
    requires var v := After(w, run[..|run| - 1]);
             && v.s.cfg == Configured(w.s.cfg, run[..|run| - 1])
             && k !in v.s.led.limits && k in Apply(v, run[|run| - 1]).s.led.limits
    ensures WasConfigured(w, run, k, Apply(After(w, run[..|run| - 1]), run[|run| - 1]).s.led.limits[k])
  {
    hide After, Apply, Configured;
    var n := |run| - 1;
    OneEvent(After(w, run[..n]), run[n]);
    assert OpenedAt(w, run, n, k, Configured(w.s.cfg, run[..n]));
  }

  /** A limit once stored never changes. */
  lemma {:induction false} LimitsRemain(w: World, run: seq<Event>)
    ensures forall k :: k in w.s.led.limits ==>
              k in After(w, run).s.led.limits && After(w, run).s.led.limits[k] == w.s.led.limits[k]
  {
    if |run| > 0 {
      hide Apply, Opens;
      LimitsRemain(w, run[..|run| - 1]);
      OneEvent(After(w, run[..|run| - 1]), run[|run| - 1]);
    }
  }

  /** Without a restart there is one configuration, and its limit is every day's. */
  lemma LimitsAreTheLimit(cfg: Config, offset: nat, run: seq<Event>)
    requires forall i :: 0 <= i < |run| ==> !run[i].Restart?
    ensures var s := After(Init(cfg, offset), run).s;
            s.cfg == cfg && forall k :: k in s.led.limits ==> s.led.limits[k] == cfg.limit
  {
    hide After, Opens;
    LimitsAreConfigured(Init(cfg, offset), run);
    forall i: nat | i <= |run| ensures Configured(cfg, run[..i]) == cfg { NeverRestarted(cfg, run[..i]); }
    assert run[..|run|] == run;
  }

  lemma {:induction false} NeverRestarted(cfg: Config, run: seq<Event>)
    requires forall i :: 0 <= i < |run| ==> !run[i].Restart?
    ensures Configured(cfg, run) == cfg
  {
    if |run| > 0 { NeverRestarted(cfg, run[..|run| - 1]); }
  }

  // ---------------------------------------------------------------- a user's first day

  /** A legal run leads from the first world to the second. */
  ghost predicate Leads(p: Policy, v: World, w: World) {
    exists run :: Legal(v, run, p) && After(v, run) == w
  }

  lemma Onward(p: Policy, v: World, w: World, ev: Event)
    requires Leads(p, v, w) && Enabled(w, ev, p)
    ensures Leads(p, v, Apply(w, ev))
  {
    hide Apply, Enabled;
    var run :| Legal(v, run, p) && After(v, run) == w;
    var longer := run + [ev];
    assert longer[..|longer| - 1] == run;
    assert Legal(v, longer, p) && After(v, longer) == Apply(w, ev);
  }

  lemma OneStepOn(p: Policy, v: World, s: Store, proc: Proc)
    requires Leads(p, v, At(s, 1, proc)) && !proc.Broken?
    ensures Leads(p, v, Act(At(s, 1, proc), 1, proc))
  {
    hide Act, Leads;
    Onward(p, v, At(s, 1, proc), Step(1));
  }

  lemma OneReadOn(p: Policy, v: World, s: Store, proc: Proc, next: Proc)
    requires Leads(p, v, At(s, 1, proc)) && Reads(proc) && next == NextRead(s, 1, proc)
    ensures Leads(p, v, At(s, 1, next))
  {
    hide Leads, NextRead;
    OneStepOn(p, v, s, proc);
    ActRead(s, 1, proc);
  }

  function DayRow(granted: nat): Epoch {
    Epoch(1, 0, Active, granted, 0, 0, DAY_NS + GRACE_NS)
  }

  function DayLedger(cfg: Config, granted: nat): Ledger {
    Ledger(map[(1, 0) := cfg.limit], [DayRow(granted)])
  }

  /** User 1's day 0 has been opened and its first chunk recorded. */
  function FirstDay(cfg: Config): Store {
    var s := Init(cfg, 0).s;
    s.(led := DayLedger(cfg, cfg.chunk), lastDay := map[1 := 0], births := [Reading(0, 0, 0, 0)], passed := [0],
       ker := Kernel(map[1 := 1], map[1 := Meta(1, DAY_NS + GRACE_NS)], map[1 := cfg.chunk], map[1 := 0]),
       cells := [Counter(0, 0, 0, 0)], owner := [1], live := map[1 := 0])
  }

  lemma DayOpens(p: Policy, cfg: Config)
    ensures var s, t := Init(cfg, 0).s, Ticket(0, Reading(0, 0, 0, 0));
            var s' := s.(lastDay := map[1 := 0], led := DayLedger(cfg, 0), births := [t.clock], passed := [0]);
            Leads(p, Rest(s), At(s', 1, PutGrant(1, DayRow(0))))
  {
    hide Leads, Act, NextRead, Open;
    var s, t := Init(cfg, 0).s, Ticket(0, Reading(0, 0, 0, 0));
    var s0 := s.(lastDay := map[1 := 0]);
    Begun(p, cfg);
    Lookups(s0);
    OneReadOn(p, Rest(s), s0, ReadBoot(0, 0, 0), FindPointer(t));
    OneReadOn(p, Rest(s), s0, FindPointer(t), FindActive(t));
    OneReadOn(p, Rest(s), s0, FindActive(t), ReadMeta(t, 0));
    OneReadOn(p, Rest(s), s0, ReadMeta(t, 0), ReadGrant(t, 0, None));
    OneReadOn(p, Rest(s), s0, ReadGrant(t, 0, None), ReadUsage(t, 0, None, None));
    OneReadOn(p, Rest(s), s0, ReadUsage(t, 0, None, None), Retire(t, 0));
    OneStepOn(p, Rest(s), s0, Retire(t, 0));
    ActRetire(s0, 1, t, 0);
    assert RetireDay(s0.led, 1, 0) == s0.led;
    OneStepOn(p, Rest(s), s0, GetEpoch(t, 0, None));
    ActGetEpoch(s0, 1, t, 0, None);
    DayOpened(s0);
  }

  lemma Begun(p: Policy, cfg: Config)
    ensures var s := Init(cfg, 0).s; Leads(p, Rest(s), At(s.(lastDay := map[1 := 0]), 1, ReadBoot(0, 0, 0)))
  {
    var s := Init(cfg, 0).s;
    assert Legal(Rest(s), [], p) && After(Rest(s), []) == Rest(s);
    hide Leads;
    assert Leads(p, Rest(s), Rest(s)) by { Arrived(p, Rest(s)); }
    Onward(p, Rest(s), Rest(s), BeginSync(1));
    assert Apply(Rest(s), BeginSync(1)) == At(s.(lastDay := map[1 := 0]), 1, ReadBoot(0, 0, 0));
  }

  lemma Arrived(p: Policy, w: World)
    ensures Leads(p, w, w)
  {
    assert Legal(w, [], p) && After(w, []) == w;
  }

  lemma Lookups(s: Store)
    requires s.ker == EMPTY_MAPS && s.led.rows == [] && s.gen == s.bt == 0
    ensures var t := Ticket(0, Reading(0, 0, 0, 0));
            && NextRead(s, 1, ReadBoot(0, 0, 0)) == FindPointer(t) && NextRead(s, 1, FindPointer(t)) == FindActive(t)
            && NextRead(s, 1, FindActive(t)) == ReadMeta(t, 0) && NextRead(s, 1, ReadMeta(t, 0)) == ReadGrant(t, 0, None)
            && NextRead(s, 1, ReadGrant(t, 0, None)) == ReadUsage(t, 0, None, None)
            && NextRead(s, 1, ReadUsage(t, 0, None, None)) == Retire(t, 0)
  {
  }

  lemma DayOpened(s: Store)
    requires s.led == Ledger(map[], []) && s.births == [] && s.passed == []
    ensures var t := Ticket(0, Reading(0, 0, 0, 0));
            Open(s, 1, t) == (s.(led := DayLedger(s.cfg, 0), births := [t.clock], passed := [0]), 1)
  {
    assert DeadlineOf(Reading(0, 0, 0, 0), 0) == DAY_NS + GRACE_NS;
    assert ActiveOn([], 1, 0) == 0;
    assert [] + [DayRow(0)] == [DayRow(0)];
    assert s.births + [Reading(0, 0, 0, 0)] == [Reading(0, 0, 0, 0)] && s.passed + [0] == [0];
  }

  lemma DayFunded(cfg: Config)
    requires cfg.Valid()
    ensures Checkpoint(DayLedger(cfg, 0), 1, Usage(0, 0), true, cfg.chunk) == Done(DayLedger(cfg, cfg.chunk))
    ensures Held([DayRow(cfg.chunk)], 1, 0) == cfg.chunk
  {
    HeldOnDay(0);
    HeldOnDay(cfg.chunk);
    hide Held;
    assert [DayRow(0)][0 := DayRow(cfg.chunk)] == [DayRow(cfg.chunk)];
  }

  lemma HeldOnDay(granted: nat)
    ensures Held([DayRow(granted)], 1, 0) == granted
  {
    SumAppend([], DayRow(granted), 1, 0, GrantedColumn());
    assert [] + [DayRow(granted)] == [DayRow(granted)];
  }

  /** A user's first sync stores the configured limit and publishes one chunk of it, whatever the two are; the report
      shows the whole limit with all but that chunk still to be had. */
  lemma FirstDayHasTheWholeLimit(p: Policy, cfg: Config)
    requires cfg.Valid()
    ensures var w := Rest(FirstDay(cfg));
            && Reachable(p, w) && w.s.led.limits == map[(1, 0) := cfg.limit]
            && w.s.ker.pointer == map[1 := 1] && w.s.ker.grants == map[1 := cfg.chunk]
            && forall configured :: MakeReport(w.s.led, configured, 1, 0).Done? &&
                 var r := MakeReport(w.s.led, configured, 1, 0).value;
                 r.limit == cfg.limit && r.held == cfg.chunk && r.allocatable == cfg.limit - cfg.chunk && r.confirmed == 0
  {
    hide Leads, Act, Checkpoint, Reachable, LedgerOk, Sum, MakeReport;
    var s, t := Init(cfg, 0).s, Ticket(0, Reading(0, 0, 0, 0));
    DayOpens(p, cfg);
    DayFunded(cfg);
    var s0 := s.(lastDay := map[1 := 0], led := DayLedger(cfg, 0), births := [t.clock], passed := [0]);
    DayPublished(p, Rest(s), s0, cfg);
    LeadsIsReachable(p, cfg, Rest(FirstDay(cfg)));
    NoCheckFires(p, Rest(FirstDay(cfg)));
    var l := DayLedger(cfg, cfg.chunk);
    SumAppend([], DayRow(cfg.chunk), 1, 0, UsedColumn());
    assert [] + [DayRow(cfg.chunk)] == [DayRow(cfg.chunk)];
    assert Sum([], 1, 0, UsedColumn()) == 0 by { SumNone([], 1, 0, UsedColumn()); }
    forall configured ensures MakeReport(l, configured, 1, 0).Done? &&
                 var r := MakeReport(l, configured, 1, 0).value;
                 r.limit == cfg.limit && r.held == cfg.chunk && r.allocatable == cfg.limit - cfg.chunk && r.confirmed == 0 {
      ReportIsExact(l, configured, 1, 0);
    }
  }

  lemma LeadsIsReachable(p: Policy, cfg: Config, w: World)
    requires cfg.Valid() && Leads(p, Rest(Init(cfg, 0).s), w)
    ensures Reachable(p, w)
  {
    hide Legal, After;
  }

  /** Steps 9 to 12 of the first sync. */
  lemma DayPublished(p: Policy, v: World, s: Store, cfg: Config)
    requires cfg.Valid() && Leads(p, v, At(s, 1, PutGrant(1, DayRow(0))))
    requires s == Init(cfg, 0).s.(lastDay := map[1 := 0], led := DayLedger(cfg, 0), births := [Reading(0, 0, 0, 0)], passed := [0])
    requires Checkpoint(DayLedger(cfg, 0), 1, Usage(0, 0), true, cfg.chunk) == Done(DayLedger(cfg, cfg.chunk))
    ensures Leads(p, v, Rest(FirstDay(cfg)))
  {
    hide Leads, Act, StepCommit, Checkpoint;
    var row, snap := DayRow(0), Snapshot(0, Usage(0, 0));
    OneStepOn(p, v, s, PutGrant(1, row));
    var s1 := WriteGrant(s, 1, 0);
    ActGrant(s, 1, 1, row);
    OneStepOn(p, v, s1, PutUsage(1, row));
    var s2 := WriteUsage(s1, 1, row);
    ActUsage(s1, 1, 1, row);
    OneStepOn(p, v, s2, Commit(1, row, snap));
    var s3 := s2.(led := DayLedger(cfg, cfg.chunk));
    ActCommit(s2, 1, 1, row, snap, s3.led);
    DayRaised(p, v, s3, DayRow(cfg.chunk));
    assert Publish(WriteMeta(WriteGrant(s3, 1, cfg.chunk), 1, Meta(1, DAY_NS + GRACE_NS)), 1, 1) == FirstDay(cfg);
  }

  lemma DayRaised(p: Policy, v: World, s: Store, row: Epoch)
    requires Leads(p, v, At(s, 1, Raise(1, row))) && 1 in s.ker.grants
    ensures Leads(p, v, Rest(Publish(WriteMeta(WriteGrant(s, 1, row.granted), 1, Meta(1, row.deadline)), 1, 1)))
  {
    hide Leads, Act, WriteGrant, WriteMeta, Publish;
    OneStepOn(p, v, s, Raise(1, row));
    var s' := WriteGrant(s, 1, row.granted);
    ActRaise(s, 1, 1, row);
    OneStepOn(p, v, s', PutMeta(1, row));
    var s'' := WriteMeta(s', 1, Meta(1, row.deadline));
    ActMeta(s', 1, 1, row);
    OneStepOn(p, v, s'', PutPointer(1, row));
    ActPointer(s'', 1, 1, row);
  }

  /** With 1000 bytes a day in chunks of 100, the day's limit is 1000. */
  lemma AThousandBytes(p: Policy)
    ensures exists w :: Reachable(p, w) && w.s.cfg == Config(1000, 100, 10) && w.s.led.limits == map[(1, 0) := 1000]
                        && w.s.ker.grants == map[1 := 100]
  {
    hide Reachable;
    FirstDayHasTheWholeLimit(p, Config(1000, 100, 10));
    assert FirstDay(Config(1000, 100, 10)).cfg == Config(1000, 100, 10);
  }
}
