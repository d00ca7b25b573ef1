/** What happens when a user's day goes backwards across a reboot: an epoch left active by the earlier boot is
    rebuilt from a ledger that missed its last bytes, and a day's traffic exceeds its limit.  Hence the limit
    holds in every run exactly when the clock never hands out an earlier day. */
module QuotaRegression {
  import opened Words
  import opened QuotaLedger
  import opened QuotaKernel
  import opened QuotaProtocol
  import opened QuotaInvariant
  import opened QuotaPreservation
  import opened QuotaSafety
  import opened QuotaTheorems
  import opened QuotaSolo

  const TINY: Config := Config(2, 2, 1)

  /** `w` is reached by a legal run from an empty ledger. */
  ghost predicate Reached(offset: nat, p: Policy, w: World) {
    exists run :: Legal(Init(TINY, offset), run, p) && After(Init(TINY, offset), run) == w
  }

  lemma Extend(offset: nat, p: Policy, w: World, ev: Event)
    requires Reached(offset, p, w) && Enabled(w, ev, p)
    ensures Reached(offset, p, Apply(w, ev))
  {
    hide Apply, Enabled;
    var run :| Legal(Init(TINY, offset), run, p) && After(Init(TINY, offset), run) == w;
    var run' := run + [ev];
    assert run'[..|run' | - 1] == run && run'[|run'| - 1] == ev;
    assert Legal(Init(TINY, offset), run', p) && After(Init(TINY, offset), run') == Apply(w, ev);
  }

  lemma StepOn(offset: nat, p: Policy, s: Store, proc: Proc)
    requires Reached(offset, p, At(s, 1, proc)) && !proc.Broken?
    ensures Reached(offset, p, Act(At(s, 1, proc), 1, proc))
  {
    hide Act, Reached;
    Extend(offset, p, At(s, 1, proc), Step(1));
  }

  lemma ReadOn(offset: nat, p: Policy, s: Store, proc: Proc)
    requires Reached(offset, p, At(s, 1, proc)) && Reads(proc)
    ensures Reached(offset, p, At(s, 1, NextRead(s, 1, proc)))
  {
    hide Reached, NextRead;
    StepOn(offset, p, s, proc);
    assert Act(At(s, 1, proc), 1, proc) == At(s, 1, NextRead(s, 1, proc));
  }

  lemma Begin(offset: nat, p: Policy, s: Store, day: nat)
    requires Reached(offset, p, Rest(s)) && s.bt == 0 && s.offset == day * DAY_NS
    requires 1 in s.lastDay ==> p(s.lastDay[1], day)
    ensures Reached(offset, p, At(s.(lastDay := s.lastDay[1 := day]), 1, FindPointer(Ticket(day, Reading(s.gen, s.offset, 0, 0)))))
  {
    hide Reached;
    var s0 := s.(lastDay := s.lastDay[1 := day]);
    assert Today(s) == day;
    Extend(offset, p, Rest(s), BeginSync(1));
    assert Apply(Rest(s), BeginSync(1)) == At(s0, 1, ReadBoot(day, s.offset, 0));
    ReadOn(offset, p, s0, ReadBoot(day, s.offset, 0));
  }

  /** Steps 9 to 12 for epoch `e`, whose checkpoint answers with `l`. */
  lemma Rebuild(offset: nat, p: Policy, s: Store, e: nat, row: Epoch, l: Ledger)
    requires Reached(offset, p, At(s, 1, PutGrant(e, row))) && s.cfg == TINY && Has(l, e)
    requires row.rx == row.tx == 0 && row.granted <= 2 && Row(l, e).granted == 2 && Row(l, e).deadline == row.deadline
    requires Checkpoint(s.led, e, Usage(0, 0), row.granted <= 1, 2) == Done(l)
    ensures Reached(offset, p, Rest(Rebuilt(s, e, row, l)))
  {
    hide Reached, Act, StepCommit;
    var snap := Snapshot(row.granted, Usage(0, 0));
    var row' := Row(l, e);
    StepOn(offset, p, s, PutGrant(e, row));
    var s1 := WriteGrant(s, e, row.granted);
    ActGrant(s, 1, e, row);
    StepOn(offset, p, s1, PutUsage(e, row));
    var s2 := WriteUsage(s1, e, row);
    ActUsage(s1, 1, e, row);
    StepOn(offset, p, s2, Commit(e, row, snap));
    var s3 := s2.(led := l);
    ActCommit(s2, 1, e, row, snap, l);
    var s4 := WriteGrant(s3, e, 2);
    if row.granted != 2 {
      StepOn(offset, p, s3, Raise(e, row'));
      ActRaise(s3, 1, e, row');
    } else {
      assert s4 == s3;
    }
    StepOn(offset, p, s4, PutMeta(e, row'));
    var s5 := WriteMeta(s4, e, Meta(1, row.deadline));
    ActMeta(s4, 1, e, row');
    StepOn(offset, p, s5, PutPointer(e, row'));
    ActPointer(s5, 1, e, row');
    assert Publish(s5, 1, e) == Rebuilt(s, e, row, l);
  }

  function Rebuilt(s: Store, e: nat, row: Epoch, l: Ledger): Store {
    s.(led := l,
       ker := Kernel(s.ker.pointer[1 := e], s.ker.meta[e := Meta(1, row.deadline)], s.ker.grants[e := 2],
                     s.ker.usage[e := |s.cells|]),
       cells := s.cells + [Counter(0, 0, 0, 0)], owner := s.owner + [e], live := s.live[e := |s.cells|])
  }

  /** A day without rows, and maps that are empty. */
  ghost predicate FreshDay(s: Store, day: nat) {
    && s.cfg == TINY && s.ker == EMPTY_MAPS && s.cells == [] && s.owner == [] && s.live == map[] && s.bt == 0
    && s.offset == day * DAY_NS && (1, day) !in s.led.limits
    && |s.births| == |s.led.rows| == |s.passed|
    && forall i :: 0 <= i < |s.led.rows| ==> s.led.rows[i].day != day
  }

  function NewRow(day: nat, granted: nat): Epoch {
    Epoch(1, day, Active, granted, 0, 0, DAY_NS + GRACE_NS)
  }

  /** The ledger after user 1's undisturbed sync of a fresh day. */
  function FreshLedger(l: Ledger, day: nat, granted: nat): Ledger {
    Ledger(l.limits[(1, day) := 2], l.rows + [NewRow(day, granted)])
  }

  function Synced(s: Store, day: nat): Store {
    var s1 := s.(lastDay := s.lastDay[1 := day], births := s.births + [Reading(s.gen, s.offset, 0, 0)], passed := s.passed + [0]);
    Rebuilt(s1, |s.led.rows| + 1, NewRow(day, 0), FreshLedger(s.led, day, 2))
  }

  lemma FreshSync(offset: nat, p: Policy, s: Store, day: nat)
    requires Reached(offset, p, Rest(s)) && FreshDay(s, day) && (1 in s.lastDay ==> p(s.lastDay[1], day))
    ensures Reached(offset, p, Rest(Synced(s, day)))
  {
    hide Reached, Act, Rebuilt, Checkpoint;
    var t := Ticket(day, Reading(s.gen, s.offset, 0, 0));
    var s0 := s.(lastDay := s.lastDay[1 := day]);
    var e := |s.led.rows| + 1;
    FreshLookup(offset, p, s, day);
    StepOn(offset, p, s0, GetEpoch(t, LatestActive(s.led.rows, 1), None));
    FreshOpen(s0, day, t, LatestActive(s.led.rows, 1));
    FreshCheckpoint(s.led, day);
    var s1 := s0.(led := FreshLedger(s.led, day, 0), births := s.births + [t.clock], passed := s.passed + [0]);
    Rebuild(offset, p, s1, e, NewRow(day, 0), FreshLedger(s.led, day, 2));
    RebuiltFrom(s1, s0.(births := s1.births, passed := s1.passed), e, NewRow(day, 0), FreshLedger(s.led, day, 2));
  }

  lemma RebuiltFrom(s: Store, s': Store, e: nat, row: Epoch, l: Ledger)
    requires s' == s.(led := s'.led)
    ensures Rebuilt(s, e, row, l) == Rebuilt(s', e, row, l)
  {
  }

  lemma FreshOpen(s0: Store, day: nat, t: Ticket, b: nat)
    requires s0.cfg == TINY && t == Ticket(day, Reading(s0.gen, day * DAY_NS, 0, 0)) && (1, day) !in s0.led.limits
    requires |s0.births| == |s0.led.rows| == |s0.passed|
    requires forall i :: 0 <= i < |s0.led.rows| ==> s0.led.rows[i].day != day
    ensures var s1 := s0.(led := FreshLedger(s0.led, day, 0), births := s0.births + [t.clock], passed := s0.passed + [0]);
            Act(At(s0, 1, GetEpoch(t, b, None)), 1, GetEpoch(t, b, None)) == At(s1, 1, PutGrant(|s0.led.rows| + 1, NewRow(day, 0)))
  {
    assert DeadlineOf(t.clock, day) == DAY_NS + GRACE_NS;
    assert ActiveOn(s0.led.rows, 1, day) == 0;
  }

  /** From the sync's start to its lookup of today's epoch: nothing is in the maps and nothing to retire. */
  lemma FreshLookup(offset: nat, p: Policy, s: Store, day: nat)
    requires Reached(offset, p, Rest(s)) && FreshDay(s, day) && (1 in s.lastDay ==> p(s.lastDay[1], day))
    ensures var t := Ticket(day, Reading(s.gen, s.offset, 0, 0));
            Reached(offset, p, At(s.(lastDay := s.lastDay[1 := day]), 1, GetEpoch(t, LatestActive(s.led.rows, 1), None)))
  {
    hide Reached, Act, At, Rest;
    var t := Ticket(day, Reading(s.gen, s.offset, 0, 0));
    var s0 := s.(lastDay := s.lastDay[1 := day]);
    var b := LatestActive(s.led.rows, 1);
    Begin(offset, p, s, day);
    ReadOn(offset, p, s0, FindPointer(t));
    ReadOn(offset, p, s0, FindActive(t));
    ReadOn(offset, p, s0, ReadMeta(t, b));
    ReadOn(offset, p, s0, ReadGrant(t, b, None));
    ReadOn(offset, p, s0, ReadUsage(t, b, None, None));
    StepOn(offset, p, s0, Retire(t, b));
    assert RetireDay(s0.led, 1, day).rows == s0.led.rows;
    ActRetire(s0, 1, t, b);
  }

  lemma FreshCheckpoint(l: Ledger, day: nat)
    requires forall i :: 0 <= i < |l.rows| ==> l.rows[i].day != day
    ensures Checkpoint(FreshLedger(l, day, 0), |l.rows| + 1, Usage(0, 0), true, 2) == Done(FreshLedger(l, day, 2))
  {
    SumNone(l.rows, 1, day, GrantedColumn());
    SumAppend(l.rows, NewRow(day, 0), 1, day, GrantedColumn());
    assert FreshLedger(l, day, 0).rows[|l.rows| := NewRow(day, 2)] == FreshLedger(l, day, 2).rows;
  }

  // ---------------------------------------------------------------- a packet of two bytes

  ghost predicate Chargeable(s: Store, e: nat) {
    && s.ker.pointer == map[1 := e] && e in s.ker.meta && s.ker.meta[e] == Meta(1, DAY_NS + GRACE_NS)
    && e in s.ker.grants && s.ker.grants[e] == 2
    && e in s.ker.usage && s.ker.usage[e] < |s.cells| && s.cells[s.ker.usage[e]] == Counter(0, 0, 0, 0)
    && s.bt == 0 && 1 <= e <= |s.passed|
  }

  function Charged(s: Store, e: nat): Store
    requires Chargeable(s, e)
  {
    s.(cells := s.cells[s.ker.usage[e] := Counter(2, 0, 0, 0)], passed := s.passed[e - 1 := s.passed[e - 1] + 2])
  }

  lemma Packet(offset: nat, p: Policy, s: Store, e: nat)
    requires Reached(offset, p, Rest(s)) && Chargeable(s, e)
    ensures Reached(offset, p, Rest(Charged(s, e)))
  {
    hide Reached, Hook;
    var m, c := s.ker.meta[e], s.ker.usage[e];
    var x := Flight(1, 2, true, e, WantMeta);
    Extend(offset, p, Rest(s), Arrive(0, 1, 2, true));
    Lookups(s, e);
    HookOn(offset, p, s, x);
    HookOn(offset, p, s, x.(stage := WantGrant(m)));
    HookOn(offset, p, s, x.(stage := WantUsage(m, 2)));
    HookOn(offset, p, s, x.(stage := WantCharge(2, c, 0)));
  }

  function Aloft(s: Store, x: Flight): World {
    World(s, map[], map[0 := x])
  }

  lemma HookOn(offset: nat, p: Policy, s: Store, x: Flight)
    requires Reached(offset, p, Aloft(s, x))
    ensures Reached(offset, p, Hook(Aloft(s, x), 0, x))
  {
    hide Hook, Reached;
    Extend(offset, p, Aloft(s, x), Advance(0));
  }

  lemma Lookups(s: Store, e: nat)
    requires Chargeable(s, e)
    ensures var m, c, x := s.ker.meta[e], s.ker.usage[e], Flight(1, 2, true, e, WantMeta);
            && Hook(Aloft(s, x), 0, x) == Aloft(s, x.(stage := WantGrant(m)))
            && (var y := x.(stage := WantGrant(m)); Hook(Aloft(s, y), 0, y) == Aloft(s, x.(stage := WantUsage(m, 2))))
            && (var y := x.(stage := WantUsage(m, 2)); Hook(Aloft(s, y), 0, y) == Aloft(s, x.(stage := WantCharge(2, c, 0))))
            && (var y := x.(stage := WantCharge(2, c, 0)); Hook(Aloft(s, y), 0, y) == Rest(Charged(s, e)))
  {
    var y := Flight(1, 2, true, e, WantCharge(2, s.ker.usage[e], 0));
    assert Aloft(s, y).flights - {0} == map[];
  }

  // ---------------------------------------------------------------- the counterexample

  /** Day `b`, two bytes, reboot into day `a`, clock back to day `b`: two more bytes on a limit of two. */
  lemma GoingBackOverspends(p: Policy, a: nat, b: nat)
    requires b < a && p(b, a) && p(a, b)
    ensures exists w :: Reached(b * DAY_NS, p, w) && !WithinLimits(w.s)
  {
    hide Reached, Act, Synced, Charged;
    var offset := b * DAY_NS;
    var s0 := Init(TINY, offset).s;
    Start(offset, p);
    FreshSync(offset, p, s0, b);
    var s1 := Synced(s0, b);
    FirstDay(s0, b);
    Packet(offset, p, s1, 1);
    var s2 := Charged(s1, 1);
    SpentDay(s1);
    var s3 := EmptyMaps(s2).(bt := 0, offset := a * DAY_NS);
    Extend(offset, p, Rest(s2), Reboot(a * DAY_NS));
    FreshSync(offset, p, s3, a);
    var s4 := Synced(s3, a);
    SecondDay(s3, a, b);
    var s5 := s4.(offset := b * DAY_NS);
    Extend(offset, p, Rest(s4), Retime(b * DAY_NS));
    BackSync(offset, p, s5, a, b);
    var s6 := BackSynced(s5, a, b);
    Packet(offset, p, s6, 1);
    Overspent(s6, a, b);
    assert Reached(offset, p, Rest(Charged(s6, 1))) && !WithinLimits(Rest(Charged(s6, 1)).s);
  }

  lemma Start(offset: nat, p: Policy)
    ensures Reached(offset, p, Rest(Init(TINY, offset).s))
  {
    assert Legal(Init(TINY, offset), [], p) && After(Init(TINY, offset), []) == Rest(Init(TINY, offset).s);
  }

  lemma FirstDay(s: Store, b: nat)
    requires s == Init(TINY, b * DAY_NS).s
    ensures var s1 := Synced(s, b);
            && Chargeable(s1, 1) && s1.led == Ledger(map[(1, b) := 2], [NewRow(b, 2)]) && s1.passed == [0]
            && s1.cfg == TINY && s1.lastDay == map[1 := b] && |s1.births| == 1
  {
  }

  lemma SpentDay(s: Store)
    requires Chargeable(s, 1) && s.passed == [0]
    ensures var s' := Charged(s, 1);
            s'.passed == [2] && s' == s.(cells := s'.cells, passed := s'.passed)
  {
  }

  /** Two rows, both active, the pointer on the later day's. */
  ghost predicate TwoDays(s: Store, a: nat, b: nat) {
    && s.cfg == TINY && s.bt == 0 && s.lastDay == map[1 := a]
    && s.led == Ledger(map[(1, b) := 2, (1, a) := 2], [NewRow(b, 2), NewRow(a, 2)]) && s.passed == [2, 0]
    && s.ker == Kernel(map[1 := 2], map[2 := Meta(1, DAY_NS + GRACE_NS)], map[2 := 2], map[2 := 0])
    && s.cells == [Counter(0, 0, 0, 0)] && |s.births| == 2
  }

  lemma SecondDay(s: Store, a: nat, b: nat)
    requires b < a && s.cfg == TINY && s.bt == 0 && s.lastDay == map[1 := b] && s.ker == EMPTY_MAPS && s.cells == []
    requires s.led == Ledger(map[(1, b) := 2], [NewRow(b, 2)]) && s.passed == [2] && |s.births| == 1 && s.live == map[]
    ensures TwoDays(Synced(s, a), a, b)
  {
  }

  /** The ledger once the later day's epoch is closed. */
  function BackLedger(a: nat, b: nat): Ledger {
    Ledger(map[(1, b) := 2, (1, a) := 2], [NewRow(b, 2), NewRow(a, 2).(status := Closed)])
  }

  function BackSynced(s: Store, a: nat, b: nat): Store {
    Rebuilt(s.(lastDay := s.lastDay[1 := b]), 1, NewRow(b, 2), BackLedger(a, b))
  }

  /** Back on day `b`: the bucket of day `a` is complete and closed, and day `b`'s stale row is rebuilt. */
  lemma BackSync(offset: nat, p: Policy, s: Store, a: nat, b: nat)
    requires b < a && Reached(offset, p, Rest(s)) && TwoDays(s, a, b) && s.offset == b * DAY_NS && p(a, b)
    ensures Reached(offset, p, Rest(BackSynced(s, a, b)))
  {
    hide Reached, Act, At, Rest, Rebuilt;
    var t := Ticket(b, Reading(s.gen, s.offset, 0, 0));
    var s0 := s.(lastDay := s.lastDay[1 := b]);
    var m, snap, row := Meta(1, DAY_NS + GRACE_NS), Snapshot(2, Usage(0, 0)), NewRow(b, 2);
    Begin(offset, p, s, b);
    ReadOn(offset, p, s0, FindPointer(t));
    ReadOn(offset, p, s0, ReadMeta(t, 2));
    ReadOn(offset, p, s0, ReadGrant(t, 2, Some(m)));
    ReadOn(offset, p, s0, ReadUsage(t, 2, Some(m), Some(2)));
    StepOn(offset, p, s0, GetEpoch(t, 2, Some(snap)));
    BackOpen(s0, a, b, t);
    StepOn(offset, p, s0, CloseOld(2, snap, 1, row));
    BackClose(s0, a, b);
    var s1 := s0.(led := BackLedger(a, b));
    BackCheckpoint(a, b);
    Rebuild(offset, p, s1, 1, row, BackLedger(a, b));
    RebuiltFrom(s1, s0, 1, row, BackLedger(a, b));
  }

  lemma BackOpen(s: Store, a: nat, b: nat, t: Ticket)
    requires b < a && s.cfg == TINY && t == Ticket(b, Reading(s.gen, b * DAY_NS, 0, 0))
    requires s.led == Ledger(map[(1, b) := 2, (1, a) := 2], [NewRow(b, 2), NewRow(a, 2)])
    ensures var pc := GetEpoch(t, 2, Some(Snapshot(2, Usage(0, 0))));
            Act(At(s, 1, pc), 1, pc) == At(s, 1, CloseOld(2, Snapshot(2, Usage(0, 0)), 1, NewRow(b, 2)))
  {
    assert On(s.led.rows[0], 1, b) && s.led.rows[0].status == Active;
    assert ActiveOn(s.led.rows, 1, b) == 1;
  }

  lemma BackClose(s: Store, a: nat, b: nat)
    requires s.led == Ledger(map[(1, b) := 2, (1, a) := 2], [NewRow(b, 2), NewRow(a, 2)])
    ensures var pc := CloseOld(2, Snapshot(2, Usage(0, 0)), 1, NewRow(b, 2));
            Act(At(s, 1, pc), 1, pc) == At(s.(led := BackLedger(a, b)), 1, PutGrant(1, NewRow(b, 2)))
  {
    assert s.led.rows[1 := NewRow(a, 2).(status := Closed)] == BackLedger(a, b).rows;
  }

  lemma BackCheckpoint(a: nat, b: nat)
    requires b < a
    ensures Checkpoint(BackLedger(a, b), 1, Usage(0, 0), false, 2) == Done(BackLedger(a, b))
  {
    var rows := BackLedger(a, b).rows;
    SumAppend([], rows[0], 1, b, GrantedColumn());
    SumAppend([rows[0]], rows[1], 1, b, GrantedColumn());
    assert [] + [rows[0]] == [rows[0]] && [rows[0]] + [rows[1]] == rows;
    assert rows[0 := NewRow(b, 2)] == rows;
  }

  lemma Overspent(s: Store, a: nat, b: nat)
    requires b < a && s.led == BackLedger(a, b) && s.passed == [2, 0] && Chargeable(s, 1)
    ensures !WithinLimits(Charged(s, 1))
  {
    var s' := Charged(s, 1);
    assert s'.passed == [4, 0];
    assert s'.led.rows[..1] == [NewRow(b, 2)] && s'.passed[..1] == [4];
    assert PassedOn([NewRow(b, 2)], [4], 1, b) == 4;
    assert PassedOn(s'.led.rows, s'.passed, 1, b) == PassedOn(s'.led.rows[..1], s'.passed[..1], 1, b);
    assert (1, b) in s'.led.limits;
  }

  /** The exact condition: where the clock may always move forward, the daily limit holds in every reachable
      state if and only if no user's day can ever go backwards. */
  lemma LimitHoldsExactlyForward(p: Policy)
    requires forall a: nat, b: nat :: a <= b ==> p(a, b)
    ensures (forall w: World :: Reachable(p, w) ==> WithinLimits(w.s)) <==> Forward(p)
  {
    hide WithinLimits, Reachable, Reached;
    if Forward(p) {
      forall w: World | Reachable(p, w) ensures WithinLimits(w.s) { LimitHolds(p, w); }
    } else {
      var a: nat, b: nat :| p(a, b) && b < a;
      GoingBackOverspends(p, a, b);
      var w: World :| Reached(b * DAY_NS, p, w) && !WithinLimits(w.s);
      ReachedIsReachable(b * DAY_NS, p, w);
    }
  }

  lemma ReachedIsReachable(offset: nat, p: Policy, w: World)
    requires Reached(offset, p, w)
    ensures Reachable(p, w)
  {
    hide Legal, After, Init;
    assert TINY.Valid();
  }
}
