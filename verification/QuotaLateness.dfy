/** How late a packet may be charged: the thirty seconds of grace are exceeded exactly when time passes between the
    two clock readings behind an epoch's deadline. */
module QuotaLateness {
  import opened Words
  import opened QuotaLedger
  import opened QuotaKernel
  import opened QuotaProtocol
  import opened QuotaInvariant
  import opened QuotaPreservation
  import opened QuotaSafety
  import opened QuotaTheorems
  import opened QuotaSolo
  import opened QuotaRegression

  /** A packet on epoch `b` is about to be charged that passed its deadline test thirty seconds or more after the
      epoch's day, by the wall clock that the epoch's sync had read. */
  ghost predicate Late(w: World, b: nat) {
    && Has(w.s.led, b) && b <= |w.s.births|
    && exists f :: f in w.flights && w.flights[f].b == b && w.flights[f].stage.WantCharge?
                   && w.flights[f].stage.at + w.s.births[b - 1].offset >= DayEnd(Row(w.s.led, b).day) + GRACE_NS
  }

  ghost predicate LateLater(p: Policy, w: World, b: nat) {
    exists run :: Legal(w, run, p) && Late(After(w, run), b)
  }

  // ---------------------------------------------------------------- what later events keep

  lemma {:induction false} RunsJoin(w: World, a: seq<Event>, b: seq<Event>, p: Policy)
    ensures After(w, a + b) == After(After(w, a), b)
    ensures Legal(w, a, p) && Legal(After(w, a), b, p) ==> Legal(w, a + b, p)
  {
    if |b| == 0 {
      assert a + b == a;
    } else {
      hide Apply, Enabled;
      var n := |b| - 1;
      assert (a + b)[..|a + b| - 1] == a + b[..n];
      RunsJoin(w, a, b[..n], p);
    }
  }

  lemma StillReachable(p: Policy, w: World, run: seq<Event>)
    requires Reachable(p, w) && Legal(w, run, p)
    ensures Reachable(p, After(w, run))
  {
    hide Legal, After, Init;
    var cfg: Config, offset: nat, before: seq<Event> :|
      cfg.Valid() && Legal(Init(cfg, offset), before, p) && After(Init(cfg, offset), before) == w;
    RunsJoin(Init(cfg, offset), before, run, p);
  }

  lemma BirthsStay(w: World, ev: Event)
    ensures w.s.births <= Apply(w, ev).s.births
  {
    hide Act;
    if ev.Step? && ev.user in w.procs { StepBirths(w, ev.user, w.procs[ev.user]); }
  }

  /** Only opening a new row adds a reading. */
  lemma StepBirths(w: World, u: nat, p: Proc)
    ensures w.s.births <= Act(w, u, p).s.births
  {
    hide Ensure, NextRead, Checkpoint, CloseSnapshot, RetireDay, RetireHistory, DeadlineOf;
    if p.GetEpoch? {
      hide StepCommit;
    } else {
      hide Open;
    }
  }

  lemma {:induction false} BirthsRemain(w: World, run: seq<Event>)
    ensures w.s.births <= After(w, run).s.births
  {
    if |run| > 0 {
      hide Apply;
      BirthsRemain(w, run[..|run| - 1]);
      BirthsStay(After(w, run[..|run| - 1]), run[|run| - 1]);
    }
  }

  // ---------------------------------------------------------------- the exact condition

  /** A published epoch whose deadline has not passed yet can still charge a packet thirty seconds or more after its
      day if and only if time passed between the two clock readings behind the deadline. */
  lemma LateExactlyWithDelay(p: Policy, w: World, u: nat)
    requires Forward(p) && Reachable(p, w) && u in w.s.ker.pointer
    requires w.s.ker.pointer[u] in w.s.ker.meta && w.s.bt < w.s.ker.meta[w.s.ker.pointer[u]].deadline
    ensures var b := w.s.ker.pointer[u];
            && 0 < b <= |w.s.births|
            && (LateLater(p, w, b) <==> w.s.births[b - 1].bt > w.s.births[b - 1].wallBt)
  {
    var b := w.s.ker.pointer[u];
    DeadlinesAreCurrent(p, w, b);
    var r := w.s.births[b - 1];
    hide Reachable, Late, Legal, After, Forward;
    if r.bt > r.wallBt {
      DelayedIsLate(p, w, u);
    }
    if LateLater(p, w, b) {
      var run :| Legal(w, run, p) && Late(After(w, run), b);
      StillReachable(p, w, run);
      BirthsRemain(w, run);
      LateIsDelayed(p, After(w, run), b);
    }
  }

  lemma LateIsDelayed(p: Policy, w: World, b: nat)
    requires Forward(p) && Reachable(p, w) && Late(w, b)
    ensures w.s.births[b - 1].bt > w.s.births[b - 1].wallBt
  {
    var f :| f in w.flights && w.flights[f].b == b && w.flights[f].stage.WantCharge?
             && w.flights[f].stage.at + w.s.births[b - 1].offset >= DayEnd(Row(w.s.led, b).day) + GRACE_NS;
    ChargedOnTime(p, w, f);
  }

  /** One nanosecond before the deadline a packet arrives and passes its test. */
  lemma DelayedIsLate(p: Policy, w: World, u: nat)
    requires Forward(p) && Reachable(p, w) && u in w.s.ker.pointer
    requires var b := w.s.ker.pointer[u];
             && b in w.s.ker.meta && w.s.bt < w.s.ker.meta[b].deadline && 0 < b <= |w.s.births|
             && w.s.births[b - 1].bt > w.s.births[b - 1].wallBt
    ensures LateLater(p, w, w.s.ker.pointer[u])
  {
    var b := w.s.ker.pointer[u];
    PointersAreComplete(p, w, u);
    DeadlinesAreCurrent(p, w, b);
    var at := w.s.ker.meta[b].deadline - 1;
    var f := Unused(w.flights.Keys);
    PassesAt(w, p, u, f, at);
    var tick, arrive, go := Tick(at - w.s.bt), Arrive(f, u, 1, true), Advance(f);
    var w1 := Apply(w, tick);
    var w2 := Apply(w1, arrive);
    var w3 := Apply(w2, go);
    var w4 := Apply(w3, go);
    var w5 := Apply(w4, go);
    assert Late(w5, b) by { assert f in w5.flights; }
    hide *;
    Nothing(w, p);
    var run1 := [] + [tick];
    var run2 := run1 + [arrive];
    var run3 := run2 + [go];
    var run4 := run3 + [go];
    OneMore(w, [], p, w, tick, w1);
    OneMore(w, run1, p, w1, arrive, w2);
    OneMore(w, run2, p, w2, go, w3);
    OneMore(w, run3, p, w3, go, w4);
    OneMore(w, run4, p, w4, go, w5);
    Sooner(p, w, run4 + [go], b);
  }

  lemma Sooner(p: Policy, w: World, run: seq<Event>, b: nat)
    requires Legal(w, run, p) && Late(After(w, run), b)
    ensures LateLater(p, w, b)
  {
  }

  /** A packet that arrives at boot time `at` and looks all three entries up. */
  lemma PassesAt(w: World, p: Policy, u: nat, f: nat, at: nat)
    requires u in w.s.ker.pointer && f !in w.flights && w.s.bt <= at
    requires var b := w.s.ker.pointer[u]; Complete(w.s.ker, b) && w.s.ker.meta[b].user == u && at < w.s.ker.meta[b].deadline
    ensures var tick, arrive, go := Tick(at - w.s.bt), Arrive(f, u, 1, true), Advance(f);
            var w1 := Apply(w, tick);
            var w2 := Apply(w1, arrive);
            var w3 := Apply(w2, go);
            var w4 := Apply(w3, go);
            var w5 := Apply(w4, go);
            && Enabled(w, tick, p) && Enabled(w1, arrive, p) && Enabled(w2, go, p) && Enabled(w3, go, p) && Enabled(w4, go, p)
            && w5.s == w.s.(bt := at) && f in w5.flights && w5.flights[f].b == w.s.ker.pointer[u]
            && w5.flights[f].stage.WantCharge? && w5.flights[f].stage.at == at
  {
  }

  lemma Nothing(w: World, p: Policy)
    ensures Legal(w, [], p) && After(w, []) == w
  {
  }

  lemma OneMore(w: World, run: seq<Event>, p: Policy, w1: World, ev: Event, w2: World)
    requires Legal(w, run, p) && After(w, run) == w1 && Enabled(w1, ev, p) && Apply(w1, ev) == w2
    ensures Legal(w, run + [ev], p) && After(w, run + [ev]) == w2
  {
    hide Apply, Enabled;
    assert (run + [ev])[..|run|] == run;
  }

  /** A number that is not in use. */
  lemma Unused(used: set<nat>) returns (f: nat)
    ensures f !in used
  {
    f := Bound(used);
  }

  lemma {:induction false} Bound(used: set<nat>) returns (n: nat)
    ensures forall i :: i in used ==> i < n
  {
    if used == {} {
      n := 0;
    } else {
      var i :| i in used;
      assert forall j :: j in used ==> j == i || j in used - {i};
      var m := Bound(used - {i});
      n := if m > i then m else i + 1;
    }
  }

  // ---------------------------------------------------------------- a late packet, for every delay

  function FirstRow(delay: nat, granted: nat): Epoch {
    Epoch(1, 0, Active, granted, 0, 0, delay + DAY_NS + GRACE_NS)
  }

  function FirstLedger(delay: nat, granted: nat): Ledger {
    Ledger(map[(1, 0) := 2], [FirstRow(delay, granted)])
  }

  /** The store once user 1 has a bucket for day 0, `delay` nanoseconds after the wall clock was read. */
  function FirstBucket(delay: nat): Store {
    Rebuilt(Init(TINY, 0).s.(bt := delay, lastDay := map[1 := 0], births := [Reading(0, 0, 0, delay)], passed := [0],
                             led := FirstLedger(delay, 0)), 1, FirstRow(delay, 0), FirstLedger(delay, 2))
  }

  lemma FirstSync(p: Policy, delay: nat)
    ensures Reached(0, p, Rest(FirstBucket(delay)))
  {
    hide Reached, Act, NextRead, Rebuilt, Checkpoint;
    var s, t := Init(TINY, 0).s, Ticket(0, Reading(0, 0, 0, delay));
    var s0 := s.(lastDay := map[1 := 0]);
    var s1 := s0.(bt := delay);
    Start(0, p);
    Extend(0, p, Rest(s), BeginSync(1));
    assert Apply(Rest(s), BeginSync(1)) == At(s0, 1, ReadBoot(0, 0, 0));
    Extend(0, p, At(s0, 1, ReadBoot(0, 0, 0)), Tick(delay));
    assert Apply(At(s0, 1, ReadBoot(0, 0, 0)), Tick(delay)) == At(s1, 1, ReadBoot(0, 0, 0));
    FirstReads(s1, t);
    ReadOn(0, p, s1, ReadBoot(0, 0, 0));
    ReadOn(0, p, s1, FindPointer(t));
    ReadOn(0, p, s1, FindActive(t));
    ReadOn(0, p, s1, ReadMeta(t, 0));
    ReadOn(0, p, s1, ReadGrant(t, 0, None));
    ReadOn(0, p, s1, ReadUsage(t, 0, None, None));
    StepOn(0, p, s1, Retire(t, 0));
    ActRetire(s1, 1, t, 0);
    assert RetireDay(s1.led, 1, 0) == s1.led;
    StepOn(0, p, s1, GetEpoch(t, 0, None));
    FirstOpen(s1, t, delay);
    FirstCheckpoint(delay);
    var s2 := s1.(births := [t.clock], passed := [0], led := FirstLedger(delay, 0));
    Rebuild(0, p, s2, 1, FirstRow(delay, 0), FirstLedger(delay, 2));
  }

  lemma FirstReads(s: Store, t: Ticket)
    requires s.ker == EMPTY_MAPS && s.led.rows == [] && t == Ticket(0, Reading(s.gen, 0, 0, s.bt))
    ensures NextRead(s, 1, ReadBoot(0, 0, 0)) == FindPointer(t) && NextRead(s, 1, FindPointer(t)) == FindActive(t)
    ensures NextRead(s, 1, FindActive(t)) == ReadMeta(t, 0) && NextRead(s, 1, ReadMeta(t, 0)) == ReadGrant(t, 0, None)
    ensures NextRead(s, 1, ReadGrant(t, 0, None)) == ReadUsage(t, 0, None, None)
    ensures NextRead(s, 1, ReadUsage(t, 0, None, None)) == Retire(t, 0)
  {
  }

  lemma FirstOpen(s: Store, t: Ticket, delay: nat)
    requires s == Init(TINY, 0).s.(bt := delay, lastDay := map[1 := 0]) && t == Ticket(0, Reading(0, 0, 0, delay))
    ensures Act(At(s, 1, GetEpoch(t, 0, None)), 1, GetEpoch(t, 0, None))
            == At(s.(births := [t.clock], passed := [0], led := FirstLedger(delay, 0)), 1, PutGrant(1, FirstRow(delay, 0)))
  {
    assert DeadlineOf(t.clock, 0) == delay + DAY_NS + GRACE_NS;
  }

  lemma FirstCheckpoint(delay: nat)
    ensures Checkpoint(FirstLedger(delay, 0), 1, Usage(0, 0), true, 2) == Done(FirstLedger(delay, 2))
  {
    var rows := [FirstRow(delay, 0)];
    assert Held(rows, 1, 0) == 0 by {
      SumAppend([], FirstRow(delay, 0), 1, 0, GrantedColumn());
      assert [] + [FirstRow(delay, 0)] == rows;
    }
    hide Held, Add64, Sub64;
    assert rows[0 := FirstRow(delay, 2)] == [FirstRow(delay, 2)];
  }

  /** The grace period can really be exceeded, by anything less than the delay, however long that is. */
  lemma AnyDelayIsReached(p: Policy, delay: nat)
    requires Forward(p) && delay > 0
    ensures exists w, b :: Reachable(p, w) && Late(w, b) && w.s.births[b - 1].bt == w.s.births[b - 1].wallBt + delay
  {
    hide Reachable, Reached, Forward, Late, LateLater;
    var w := Rest(FirstBucket(delay));
    FirstSync(p, delay);
    ReachedIsReachable(0, p, w);
    assert w.s.ker.pointer == map[1 := 1] && 1 in w.s.ker.meta && w.s.ker.meta[1].deadline == delay + DAY_NS + GRACE_NS;
    LateExactlyWithDelay(p, w, 1);
    LateOneIsReached(p, w, 1);
  }

  lemma LateOneIsReached(p: Policy, w: World, b: nat)
    requires Reachable(p, w) && LateLater(p, w, b) && 0 < b <= |w.s.births|
    ensures exists w' :: Reachable(p, w') && Late(w', b) && b <= |w'.s.births| && w'.s.births[b - 1] == w.s.births[b - 1]
  {
    hide Reachable, Late, Legal, After;
    var run :| Legal(w, run, p) && Late(After(w, run), b);
    StillReachable(p, w, run);
    BirthsRemain(w, run);
  }
}
