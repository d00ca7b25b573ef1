/** The manager in its own, imperative form: the ledger's transactions, the map operations and the complete
    synchronization sequence as methods that update fields.  SyncEpochToEbpf is proved to take exactly the
    steps of the transition system, so what every run of that system keeps holds of it. */
module QuotaManager {
  import opened Words
  import opened QuotaLedger
  import opened QuotaKernel
  import opened QuotaProtocol
  import opened QuotaInvariant
  import opened QuotaPreservation
  import opened QuotaSolo

  /** A sync ends with its epoch, with a consistency check, or with a database or map call that failed. */
  datatype Result = Synced(epoch: nat) | Refused(check: Check) | Interrupted

  class Manager {
    var limits: map<(nat, nat), nat>
    var rows: seq<Epoch>
    var userBucket: map<nat, nat>
    var bucketMeta: map<nat, Meta>
    var grants: map<nat, nat>
    var usage: map<nat, nat>
    var counters: seq<Counter>
    var cfg: Config
    ghost var past: Store

    /** The shared state of the transition system; clocks and history come from `past`. */
    ghost function View(): Store
      reads this
    {
      past.(led := Ledger(limits, rows), ker := Kernel(userBucket, bucketMeta, grants, usage), cells := counters, cfg := cfg)
    }

    // ---------------------------------------------------------------- ledger transactions

    method RetireToday(user: nat, day: nat)
      modifies this`rows
      ensures View() == old(View()).(led := RetireDay(old(View()).led, user, day))
      ensures Retired(old(rows), rows, set i | 0 <= i < |rows| && rows[i].user == user && rows[i].day == day)
    {
      var table := rows;
      rows := seq(|table|, i requires 0 <= i < |table| => CloseIf(table[i], On(table[i], user, day)));
    }

    method RetireOlder(user: nat, day: nat, current: nat)
      modifies this`rows
      ensures View() == old(View()).(led := RetireHistory(old(View()).led, user, day, current))
      ensures Retired(old(rows), rows, set i | 0 <= i < |rows| && rows[i].user == user && rows[i].day <= day && i + 1 != current)
    {
      var table := rows;
      rows := seq(|table|, i requires 0 <= i < |table| =>
        CloseIf(table[i], table[i].user == user && table[i].day <= day && i + 1 != current));
    }

    /** ensure: INSERT OR IGNORE the day, INSERT the active row where none exists, and read it back. */
    method EnsureEpoch(user: nat, t: Ticket) returns (id: nat)
      modifies this`limits, this`rows, this`past
      ensures View() == Open(old(View()), user, t).0 && id == Open(old(View()), user, t).1
      ensures 1 <= id <= |rows|
      ensures LimitSet(old(limits), limits, user, t.day, cfg.limit)
      ensures rows[id - 1].user == user && rows[id - 1].day == t.day && rows[id - 1].status == Active
      ensures rows == old(rows) || (id == |rows| == |old(rows)| + 1 && rows[..|old(rows)|] == old(rows)
                                    && rows[id - 1].granted == rows[id - 1].rx == rows[id - 1].tx == 0)
    {
      ghost var s := View();
      if (user, t.day) !in limits {
        limits := limits[(user, t.day) := cfg.limit];
      }
      id := ActiveOn(rows, user, t.day);
      if id == 0 {
        var deadline := DeadlineOf(t.clock, t.day);
        rows := rows + [Epoch(user, t.day, Active, 0, 0, 0, if deadline < 0 then 0 else deadline)];
        past := past.(births := past.births + [t.clock], passed := past.passed + [0]);
        id := |rows|;
      }
    }

    method CommitUsage(id: nat, u: Usage, refill: bool) returns (r: Outcome<Epoch>)
      modifies this`rows
      ensures var was := old(View());
              match Checkpoint(was.led, id, u, refill, was.cfg.chunk)
              case Done(l) => Has(l, id) && View() == was.(led := l) && r == Done(Row(l, id))
              case Fault(check) => View() == was && r == Fault(check)
    {
      if !(1 <= id <= |rows|) { return Fault(NoSuchRow); }
      var e := rows[id - 1];
      if e.status != Active || u.rx < e.rx || u.tx < e.tx || u.rx > e.granted || u.tx > Sub64(e.granted, u.rx) {
        return Fault(SnapshotViolatesEpoch);
      }
      if (e.user, e.day) !in limits { return Fault(NoSuchDay); }
      var held, limit := Held(rows, e.user, e.day), limits[(e.user, e.day)];
      if held > limit { return Fault(OverDailyLimit); }
      var delta := 0;
      if refill && Add64(Add64(u.rx, u.tx), cfg.chunk) > e.granted && held >= 0 {
        delta := Min(Sub64(Add64(Add64(u.rx, u.tx), cfg.chunk), e.granted), Sub64(limit, held));
      }
      e := e.(granted := Add64(e.granted, delta), rx := u.rx, tx := u.tx);
      if u.rx + u.tx > e.granted { return Fault(RowConstraint); }
      rows := rows[id - 1 := e];
      return Done(e);
    }

    method CloseBucket(id: nat, user: nat, grant: nat, u: Usage) returns (r: Outcome<bool>)
      modifies this`rows
      ensures var was := old(View());
              match CloseSnapshot(was.led, id, user, grant, u)
              case Done(l) => View() == was.(led := l) && r.Done?
              case Fault(check) => View() == was && r == Fault(check)
    {
      if u.rx > grant || u.tx > Sub64(grant, u.rx) { return Fault(UsageAboveGrant); }
      if !(1 <= id <= |rows|) { return Fault(OldBucketMismatch); }
      var e := rows[id - 1];
      if !(e.user == user && e.granted >= grant && e.rx <= u.rx && e.tx <= u.tx) { return Fault(OldBucketMismatch); }
      if u.rx + u.tx > grant { return Fault(RowConstraint); }
      rows := rows[id - 1 := e.(status := Closed, granted := grant, rx := u.rx, tx := u.tx)];
      return Done(true);
    }

    // ---------------------------------------------------------------- map operations

    method Bucket(b: nat) returns (bm: Option<Meta>, g: Option<nat>, used: Option<Usage>)
      ensures bm == Find(View().ker.meta, b) && g == Find(View().ker.grants, b) && used == CountersOf(View(), b)
    {
      bm, g, used := None, None, None;
      if b in bucketMeta { bm := Some(bucketMeta[b]); }
      if b in grants { g := Some(grants[b]); }
      if b in usage && usage[b] < |counters| {
        var c := counters[usage[b]];
        used := Some(Usage(c.rx, c.tx));
      }
    }

    /** Deletes from the three maps in the order bucket_meta, grants, usage; a missing key is no error. A failing call
        ends it, and what `done` calls deleted before stays deleted. */
    method DeleteBucket(b: nat) returns (done: nat)
      modifies this`bucketMeta, this`grants, this`usage
      ensures done <= 3 && View() == Deleted(old(View()), b, done)
    {
      var names := ["bucket_meta", "grants", "usage"];
      done := 0;
      while done < 3
        invariant 0 <= done <= 3 && View() == Deleted(old(View()), b, done)
      {
        if * { return; }
        if names[done] == "bucket_meta" { bucketMeta := bucketMeta - {b}; }
        else if names[done] == "grants" { grants := grants - {b}; }
        else { usage := usage - {b}; }
        done := done + 1;
      }
    }

    /** cleanupHistory: wherever it stops it took exactly steps of the transition system; without a failing call nothing
        of the user's older buckets remains in the maps. */
    method CleanupHistory(user: nat, day: nat) returns (ok: bool, ghost run: seq<Event>, ghost left: map<nat, Proc>)
      modifies this`rows, this`bucketMeta, this`grants, this`usage
      ensures OnlySteps(run, user)
      ensures After(At(old(View()), user, Sweep(day)), run) == World(View(), left, map[])
      ensures user !in userBucket ==> !ok && View() == old(View())
      ensures ok ==>
                var current := userBucket[user];
                && left == map[] && View().led == RetireHistory(old(View()).led, user, day, current)
                && Retired(old(rows), rows, set i | 0 <= i < |rows| && rows[i].user == user && rows[i].day <= day && i + 1 != current)
                && forall id: nat :: 1 <= id <= |rows| && rows[id - 1].user == user && rows[id - 1].day <= day && id != current
                     ==> Vacant(View().ker, id)
      ensures forall id: nat :: !(1 <= id <= |rows| && rows[id - 1].user == user && rows[id - 1].day <= day)
                                || (user in userBucket && id == userBucket[user])
                ==> SameEntries(old(View()).ker, View().ker, id)
    {
      hide Act, After, OnlySteps, RetireHistory, SameEntries, Vacant;
      ghost var w0 := At(View(), user, Sweep(day));
      SoloStart(w0, user);
      run, left := [], map[user := Sweep(day)];
      SameAsBefore(View().ker);
      if * { return false, run, left; }
      Snoc(w0, run, user, View(), Sweep(day));
      ActSweep(View(), user, day);
      run := run + [Step(user)];
      if user !in userBucket { return false, run, map[]; }
      var current := userBucket[user];
      left := map[user := SweepRows(day, current)];
      if * { return false, run, left; }
      Snoc(w0, run, user, View(), SweepRows(day, current));
      ActSweepRows(View(), user, day, current);
      run := run + [Step(user)];
      RetireOlder(user, day, current);
      left := map[user := SweepList(day, current)];
      if * { return false, run, left; }
      run := TrackRead(w0, run, user, View(), SweepList(day, current));
      ok, run, left := DeleteBuckets(user, Historical(rows, user, day, current), w0, run);
    }

    method DeleteBuckets(user: nat, ids: seq<nat>, ghost w0: World, ghost run0: seq<Event>)
      returns (ok: bool, ghost run: seq<Event>, ghost left: map<nat, Proc>)
      requires Tracks(w0, run0, user, View(), SweepDrop(ids, 0))
      modifies this`bucketMeta, this`grants, this`usage
      ensures OnlySteps(run, user) && After(w0, run) == World(View(), left, map[]) && (ok ==> left == map[])
      ensures ok ==> forall id :: id in ids ==> Vacant(View().ker, id)
      ensures forall id :: id !in ids ==> SameEntries(old(View()).ker, View().ker, id)
    {
      hide Act, After, OnlySteps, SweptTo, SameEntries, Vacant, Deleted;
      ghost var k := View().ker;
      NothingSwept(k, ids);
      run := run0;
      var i := 0;
      while i < |ids|
        invariant 0 <= i <= |ids| && Tracks(w0, run, user, View(), SweepDrop(ids[i..], 0))
        invariant SweptTo(k, View().ker, ids, i)
      {
        ghost var s := View();
        var done := DeleteBucket(ids[i]);
        run := TrackDrop(w0, run, user, s, ids[i..], done);
        SweptOne(k, s, ids, i, done);
        assert ids[i..][1..] == ids[i + 1..];
        if done < 3 { return false, run, map[user := SweepDrop(ids[i..], done)]; }
        i := i + 1;
      }
      AllSwept(k, View().ker, ids);
      assert ids[i..] == [];
      Snoc(w0, run, user, View(), SweepDrop([], 0));
      ActSweepDrop(View(), user, [], 0);
      return true, run + [Step(user)], map[];
    }

    // ---------------------------------------------------------------- the synchronization sequence

    /** Steps 3 to 12 under the user's lock.  The call may fail before or after any transaction or map write and leave
        the rest undone; `left` is what the transition system would do next. */
    method SyncEpochToEbpf(user: nat, t: Ticket) returns (r: Result, ghost run: seq<Event>, ghost left: map<nat, Proc>)
      modifies this`limits, this`rows, this`userBucket, this`bucketMeta, this`grants, this`usage, this`counters, this`past
      ensures OnlySteps(run, user)
      ensures After(At(old(View()), user, FindPointer(t)), run) == World(View(), left, map[])
      ensures r.Synced? ==> left == map[] && user in userBucket && userBucket[user] == r.epoch
      ensures r.Refused? ==> left == map[user := Broken(r.check)]
      ensures Inv(At(old(View()), user, FindPointer(t))) ==> !r.Refused? && StoreOk(View())
      ensures limits == old(limits) || LimitSet(old(limits), limits, user, t.day, cfg.limit)
      ensures r.Synced? ==> LimitSet(old(limits), limits, user, t.day, cfg.limit)
    {
      hide Act, Inv, StoreOk, Classify, After, OnlySteps, LimitSet;
      ghost var w0 := At(View(), user, FindPointer(t));
      var halt: Option<Proc>;
      SoloStart(w0, user);
      var bucket, bm, g, used;
      bucket, bm, g, used, run := ReadBucket(user, t, w0);
      left := map[user := Classify(user, t, bucket, bm, g, used)];
      SoloInv(w0, run, user, View(), left);
      if * { return Interrupted, run, left; }
      var seen;
      seen, halt, run := Preprocess(user, t, bucket, bm, g, used, w0, run);
      left := map[user := if halt.Some? then halt.value else GetEpoch(t, bucket, seen)];
      SoloInv(w0, run, user, View(), left);
      assert halt.Some? ==> left[user] == halt.value;
      if halt.Some? { return Ended(halt.value), run, left; }
      var e, row, snap;
      e, row, snap, halt, run := OpenToday(user, t, bucket, seen, w0, run);
      left := map[user := if halt.Some? then halt.value else Next(e, row, snap)];
      SoloInv(w0, run, user, View(), left);
      assert halt.Some? ==> left[user] == halt.value;
      if halt.Some? { return Ended(halt.value), run, left; }
      var now;
      now, halt, run := Initialize(user, e, row, snap, w0, run);
      left := map[user := if halt.Some? then halt.value else Commit(e, row, now)];
      SoloInv(w0, run, user, View(), left);
      assert halt.Some? ==> left[user] == halt.value;
      if halt.Some? { return Ended(halt.value), run, left; }
      var row';
      row', halt, run := Authorize(user, e, row, now, w0, run);
      left := map[user := if halt.Some? then halt.value else PutMeta(e, row')];
      SoloInv(w0, run, user, View(), left);
      assert halt.Some? ==> left[user] == halt.value;
      if halt.Some? { return Ended(halt.value), run, left; }
      halt, run := PublishBucket(user, e, row', w0, run);
      left := if halt.Some? then map[user := halt.value] else map[];
      SoloInv(w0, run, user, View(), left);
      assert halt.Some? ==> left[user] == halt.value;
      if halt.Some? { return Ended(halt.value), run, left; }
      return Synced(e), run, left;
    }

    /** 3. The published bucket, or the ledger's latest active epoch; then its three entries. */
    method ReadBucket(user: nat, t: Ticket, ghost w0: World)
      returns (b: nat, bm: Option<Meta>, g: Option<nat>, used: Option<Usage>, ghost run: seq<Event>)
      requires Tracks(w0, [], user, View(), FindPointer(t))
      ensures Tracks(w0, run, user, View(), Classify(user, t, b, bm, g, used))
    {
      hide Classify;
      run := TrackRead(w0, [], user, View(), FindPointer(t));
      if user in userBucket {
        b := userBucket[user];
      } else {
        b := LatestActive(rows, user);
        run := TrackRead(w0, run, user, View(), FindActive(t));
      }
      bm, g, used := Bucket(b);
      run := TrackRead(w0, run, user, View(), ReadMeta(t, b));
      run := TrackRead(w0, run, user, View(), ReadGrant(t, b, bm));
      run := TrackRead(w0, run, user, View(), ReadUsage(t, b, bm, g));
    }

    /** 4, 5 and 6. Delete a partial insertion, retire the day of lost maps, or keep a complete bucket. */
    method Preprocess(user: nat, t: Ticket, b: nat, bm: Option<Meta>, g: Option<nat>, used: Option<Usage>,
                      ghost w0: World, ghost run0: seq<Event>)
      returns (seen: Option<Snapshot>, halt: Option<Proc>, ghost run: seq<Event>)
      requires Tracks(w0, run0, user, View(), Classify(user, t, b, bm, g, used))
      modifies this`rows, this`bucketMeta, this`grants, this`usage
      ensures Tracks(w0, run, user, View(), if halt.Some? then halt.value else GetEpoch(t, b, seen))
      ensures bm.Some? && g.Some? && used.Some? ==>
                View() == old(View()) && if bm.value.user == user then halt.None? && seen == Some(Snapshot(g.value, used.value))
                                         else halt == Some(Broken(WrongOwner))
      ensures bm.None? && g.None? && used.None? ==>
                && View().ker == old(View()).ker
                && if halt.Some? then rows == old(rows)
                   else Retired(old(rows), rows, set i | 0 <= i < |rows| && rows[i].user == user && rows[i].day == t.day)
      ensures !(bm.Some? && g.Some? && used.Some?) && !(bm.None? && g.None? && used.None?) ==>
                && rows == old(rows) && (forall id: nat :: id != b ==> SameEntries(old(View()).ker, View().ker, id))
                && (halt.None? ==> Vacant(View().ker, b) && seen.None?)
    {
      hide Act, After, OnlySteps;
      seen, halt, run := None, None, run0;
      ghost var s := View();
      if bm.Some? && g.Some? && used.Some? {
        if bm.value.user != user { halt := Some(Broken(WrongOwner)); } else { seen := Some(Snapshot(g.value, used.value)); }
      } else if bm.None? && g.None? && used.None? {
        if * { return None, Some(Retire(t, b)), run; }
        Snoc(w0, run, user, s, Retire(t, b));
        ActRetire(s, user, t, b);
        RetireToday(user, t.day);
        run := run + [Step(user)];
      } else {
        var done := DeleteBucket(b);
        DeletedOnly(s, b, done);
        run := TrackPartial(w0, run, user, s, t, b, done);
        if done < 3 { halt := Some(Partial(t, b, done)); }
      }
    }

    /** 7 and 8. Get or create today's active epoch; close the bucket that it replaces. */
    method OpenToday(user: nat, t: Ticket, b: nat, seen: Option<Snapshot>, ghost w0: World, ghost run0: seq<Event>)
      returns (e: nat, row: Epoch, snap: Option<Snapshot>, halt: Option<Proc>, ghost run: seq<Event>)
      requires Tracks(w0, run0, user, View(), GetEpoch(t, b, seen))
      modifies this`limits, this`rows, this`past
      ensures Tracks(w0, run, user, View(), if halt.Some? then halt.value else Next(e, row, snap))
      ensures limits == old(limits) || LimitSet(old(limits), limits, user, t.day, cfg.limit)
      ensures halt.None? ==> LimitSet(old(limits), limits, user, t.day, cfg.limit)
    {
      hide Act, After, OnlySteps, Open, CloseSnapshot, LimitSet;
      halt, run, snap := None, run0, seen;
      if * { return 0, Epoch(user, t.day, Active, 0, 0, 0, 0), None, Some(GetEpoch(t, b, seen)), run; }
      Snoc(w0, run, user, View(), GetEpoch(t, b, seen));
      ActGetEpoch(View(), user, t, b, seen);
      e := EnsureEpoch(user, t);
      row := rows[e - 1];
      run := run + [Step(user)];
      if seen.Some? && b != e {
        if * { return e, row, None, Some(CloseOld(b, seen.value, e, row)), run; }
        ghost var s := View();
        Snoc(w0, run, user, s, CloseOld(b, seen.value, e, row));
        ActClose(s, user, b, seen.value, e, row);
        var closed := CloseBucket(b, user, seen.value.grant, seen.value.used);
        run, snap := run + [Step(user)], None;
        if closed.Fault? { halt := Some(Broken(closed.check)); }
      }
    }

    /** 9. Unless the bucket is live, initialise grants and usage from the ledger. */
    method Initialize(user: nat, e: nat, row: Epoch, snap: Option<Snapshot>, ghost w0: World, ghost run0: seq<Event>)
      returns (now: Snapshot, halt: Option<Proc>, ghost run: seq<Event>)
      requires Tracks(w0, run0, user, View(), Next(e, row, snap))
      modifies this`grants, this`usage, this`counters, this`past
      ensures Tracks(w0, run, user, View(), if halt.Some? then halt.value else Commit(e, row, now))
    {
      hide Act, After, OnlySteps;
      halt, run, now := None, run0, Snapshot(row.granted, Usage(row.rx, row.tx));
      if snap.None? {
        if * { return now, Some(PutGrant(e, row)), run; }
        ghost var s := View();
        Snoc(w0, run, user, s, PutGrant(e, row));
        ActGrant(s, user, e, row);
        grants := grants[e := row.granted];
        run, s := run + [Step(user)], View();
        if * { return now, Some(PutUsage(e, row)), run; }
        Snoc(w0, run, user, s, PutUsage(e, row));
        ActUsage(s, user, e, row);
        usage := usage[e := |counters|];
        counters := counters + [Counter(row.rx, row.tx, 0, 0)];
        past := past.(owner := past.owner + [e]);
        run := run + [Step(user)];
      } else {
        now := snap.value;
      }
    }

    /** 10. Commit usage and authorization, then publish a raised grant. */
    method Authorize(user: nat, e: nat, row: Epoch, now: Snapshot, ghost w0: World, ghost run0: seq<Event>)
      returns (row': Epoch, halt: Option<Proc>, ghost run: seq<Event>)
      requires Tracks(w0, run0, user, View(), Commit(e, row, now))
      modifies this`rows, this`grants
      ensures Tracks(w0, run, user, View(), if halt.Some? then halt.value else PutMeta(e, row'))
    {
      hide Act, After, OnlySteps, Checkpoint;
      halt, row' := None, row;
      if * { return row', Some(Commit(e, row, now)), run0; }
      ghost var s := View();
      Snoc(w0, run0, user, s, Commit(e, row, now));
      ActCommitFault(s, user, e, row, now);
      run := run0 + [Step(user)];
      if !Consistent(row, now) { return row', Some(Broken(KernelAboveLedger)), run; }
      var committed := CommitUsage(e, now.used, Remaining(now) <= cfg.low);
      if committed.Fault? { return row', Some(Broken(committed.check)), run; }
      row' := committed.value;
      ActCommit(s, user, e, row, now, View().led);
      if now.grant != row'.granted {
        s := View();
        if * { return row', Some(Raise(e, row')), run; }
        Snoc(w0, run, user, s, Raise(e, row'));
        ActRaise(s, user, e, row');
        run := run + [Step(user)];
        if e !in grants { return row', Some(Broken(GrantEntryMissing)), run; }
        grants := grants[e := row'.granted];
      }
    }

    /** 11 and 12. The bucket becomes eligible only once all three entries exist, and the pointer comes last. */
    method PublishBucket(user: nat, e: nat, row: Epoch, ghost w0: World, ghost run0: seq<Event>)
      returns (halt: Option<Proc>, ghost run: seq<Event>)
      requires Tracks(w0, run0, user, View(), PutMeta(e, row))
      modifies this`bucketMeta, this`userBucket, this`past
      ensures if halt.Some? then Tracks(w0, run, user, View(), halt.value) && !halt.value.Broken?
              else OnlySteps(run, user) && After(w0, run) == Rest(View()) && user in userBucket && userBucket[user] == e
    {
      hide Act, After, OnlySteps;
      halt, run := None, run0;
      if * { return Some(PutMeta(e, row)), run; }
      ghost var s := View();
      Snoc(w0, run, user, s, PutMeta(e, row));
      ActMeta(s, user, e, row);
      bucketMeta := bucketMeta[e := Meta(user, row.deadline)];
      run, s := run + [Step(user)], View();
      if * { return Some(PutPointer(e, row)), run; }
      Snoc(w0, run, user, s, PutPointer(e, row));
      ActPointer(s, user, e, row);
      userBucket := userBucket[user := e];
      past := past.(live := if e in usage then past.live[e := usage[e]] else past.live);
      run := run + [Step(user)];
    }

    // ---------------------------------------------------------------- the packet hook, undisturbed

    /** account after parsing: a packet passes exactly when its user's bucket is complete, owned, before its
        deadline and has room; then its bytes are added to that bucket's counters and to nothing else. */
    method Account(user: nat, len: nat, ingress: bool, bootNow: nat) returns (pass: bool)
      requires forall c :: 0 <= c < |counters| ==> Total(counters[c]) <= TWO50
      requires forall b :: b in grants ==> grants[b] <= TWO50
      requires forall b :: b in usage ==> usage[b] < |counters|
      modifies this`counters
      ensures pass <==> Admits(old(View()), user, len, bootNow)
      ensures |counters| == |old(counters)|
      ensures forall c :: 0 <= c < |counters| && !(user in userBucket && userBucket[user] in usage && usage[userBucket[user]] == c)
                ==> counters[c] == old(counters)[c]
      ensures pass ==> var c := usage[userBucket[user]];
                Total(counters[c]) == Total(old(counters)[c]) + len <= grants[userBucket[user]]
                && counters[c].rx == old(counters)[c].rx + (if ingress then len else 0)
      ensures !pass ==> forall c :: 0 <= c < |counters| ==> Total(counters[c]) == Total(old(counters)[c])
    {
      if user !in userBucket { return false; }
      var b := userBucket[user];
      if b !in bucketMeta || b !in grants || b !in usage { return false; }
      if bucketMeta[b].user != user || bootNow >= bucketMeta[b].deadline { return false; }
      var limit := grants[b];
      var c := counters[usage[b]];
      var charged := Charge(c, limit, len, ingress);
      counters := counters[usage[b] := charged.0];
      return charged.1;
    }
  }

  /** Exactly the rows at these places are closed; nothing else of them and no other row changed. */
  ghost predicate Retired(before: seq<Epoch>, after: seq<Epoch>, which: set<int>) {
    |after| == |before| && forall i :: 0 <= i < |before| ==>
      after[i] == if i in which then before[i].(status := Closed) else before[i]
  }

  ghost predicate SameEntries(k: Kernel, k': Kernel, id: nat) {
    Find(k'.meta, id) == Find(k.meta, id) && Find(k'.grants, id) == Find(k.grants, id) && Find(k'.usage, id) == Find(k.usage, id)
  }

  ghost predicate Admits(s: Store, user: nat, len: nat, bootNow: nat) {
    && user in s.ker.pointer
    && var b := s.ker.pointer[user];
       && Complete(s.ker, b) && s.ker.meta[b].user == user && bootNow < s.ker.meta[b].deadline
       && HasUsage(s, b) && Total(CellOf(s, b)) + len <= s.ker.grants[b]
  }

  /** The transition system, stepping user `user`'s sync alone along `run`, is at `p` on the shared state `s`. */
  ghost predicate Tracks(w0: World, run: seq<Event>, user: nat, s: Store, p: Proc) {
    OnlySteps(run, user) && After(w0, run) == At(s, user, p)
  }

  /** The first `n` of the three deletions of a bucket. */
  function Deleted(s: Store, b: nat, n: nat): Store {
    if n == 0 then s
    else if n == 1 then DeleteMeta(s, b)
    else if n == 2 then DeleteGrant(DeleteMeta(s, b), b)
    else DeleteUsage(DeleteGrant(DeleteMeta(s, b), b), b)
  }

  /** The first `i` of these buckets are gone, and all others are as they were. */
  ghost predicate SweptTo(k: Kernel, k': Kernel, ids: seq<nat>, i: nat) {
    && i <= |ids|
    && (forall id :: id in ids[..i] ==> Vacant(k', id))
    && (forall id :: id !in ids[..i] ==> SameEntries(k, k', id))
  }

  lemma NothingSwept(k: Kernel, ids: seq<nat>)
    ensures SweptTo(k, k, ids, 0)
  {
  }

  lemma SweptOne(k: Kernel, s: Store, ids: seq<nat>, i: nat, n: nat)
    requires i < |ids| && n <= 3 && SweptTo(k, s.ker, ids, i)
    ensures n == 3 ==> SweptTo(k, Deleted(s, ids[i], n).ker, ids, i + 1)
    ensures forall id :: id !in ids ==> SameEntries(k, Deleted(s, ids[i], n).ker, id)
  {
    DeletedOnly(s, ids[i], n);
    assert ids[..i + 1] == ids[..i] + [ids[i]];
    hide Deleted, Vacant, SameEntries;
    var k' := Deleted(s, ids[i], n).ker;
    forall id | id !in ids[..i] && id != ids[i] ensures SameEntries(k, k', id) { SameTwice(k, s.ker, k', id); }
    assert forall id :: id !in ids ==> id !in ids[..i] && id != ids[i];
  }

  lemma DeletedOnly(s: Store, b: nat, n: nat)
    requires n <= 3
    ensures var k' := Deleted(s, b, n).ker;
            && (n == 3 ==> Vacant(k', b))
            && forall id :: (Vacant(s.ker, id) ==> Vacant(k', id)) && (id != b ==> SameEntries(s.ker, k', id))
  {
  }

  lemma SameTwice(a: Kernel, b: Kernel, c: Kernel, id: nat)
    requires SameEntries(a, b, id) && SameEntries(b, c, id)
    ensures SameEntries(a, c, id)
  {
  }

  lemma SameAsBefore(k: Kernel)
    ensures forall id :: SameEntries(k, k, id)
  {
  }

  lemma AllSwept(k: Kernel, k': Kernel, ids: seq<nat>)
    requires SweptTo(k, k', ids, |ids|)
    ensures forall id :: id in ids ==> Vacant(k', id)
    ensures forall id :: id !in ids ==> SameEntries(k, k', id)
  {
    assert ids[..|ids|] == ids;
  }

  /** Where a sync stands that has made `n` of the three deletions of a partial bucket. */
  function Partial(t: Ticket, b: nat, n: nat): Proc {
    if n == 0 then DropMeta(t, b) else if n == 1 then DropGrant(t, b) else if n == 2 then DropUsage(t, b) else GetEpoch(t, b, None)
  }

  /** A sync that stops at a check is refused, any other is interrupted. */
  function Ended(p: Proc): Result {
    if p.Broken? then Refused(p.check) else Interrupted
  }

  lemma TrackPartial(w0: World, run: seq<Event>, user: nat, s: Store, t: Ticket, b: nat, n: nat) returns (run': seq<Event>)
    requires n <= 3 && Tracks(w0, run, user, s, Partial(t, b, 0))
    ensures Tracks(w0, run', user, Deleted(s, b, n), Partial(t, b, n))
  {
    hide Act;
    run' := run;
    if n > 0 {
      run' := TrackPartial(w0, run, user, s, t, b, n - 1);
      var s' := Deleted(s, b, n - 1);
      Snoc(w0, run', user, s', Partial(t, b, n - 1));
      ActDrop(s', user, t, b);
      run' := run' + [Step(user)];
    }
  }

  lemma TrackDrop(w0: World, run: seq<Event>, user: nat, s: Store, ids: seq<nat>, n: nat) returns (run': seq<Event>)
    requires n <= 3 && |ids| > 0 && Tracks(w0, run, user, s, SweepDrop(ids, 0))
    ensures Tracks(w0, run', user, Deleted(s, ids[0], n), if n < 3 then SweepDrop(ids, n) else SweepDrop(ids[1..], 0))
  {
    hide Act;
    run' := run;
    if n > 0 {
      run' := TrackDrop(w0, run, user, s, ids, n - 1);
      var s' := Deleted(s, ids[0], n - 1);
      Snoc(w0, run', user, s', SweepDrop(ids, n - 1));
      ActSweepDrop(s', user, ids, n - 1);
      run' := run' + [Step(user)];
    }
  }

  /** A sync with a live snapshot goes straight to step 10, otherwise through step 9. */
  function Next(e: nat, row: Epoch, snap: Option<Snapshot>): Proc {
    match snap
    case None => PutGrant(e, row)
    case Some(now) => Commit(e, row, now)
  }

  lemma SoloStart(w0: World, user: nat)
    ensures OnlySteps([], user) && After(w0, []) == w0
  {
  }

  lemma TrackRead(w0: World, run: seq<Event>, user: nat, s: Store, p: Proc) returns (run': seq<Event>)
    requires Tracks(w0, run, user, s, p) && Reads(p)
    ensures Tracks(w0, run', user, s, NextRead(s, user, p))
  {
    hide NextRead, Act;
    Snoc(w0, run, user, s, p);
    ActRead(s, user, p);
    run' := run + [Step(user)];
  }

  /** A sync that steps alone from a state satisfying the invariant ends in one, and no check fires. */
  lemma SoloInv(w0: World, run: seq<Event>, user: nat, s: Store, left: map<nat, Proc>)
    requires OnlySteps(run, user) && After(w0, run) == World(s, left, map[])
    ensures Inv(w0) ==> StoreOk(s) && forall u :: u in left ==> !left[u].Broken?
  {
    hide StoreOk;
    if Inv(w0) {
      SoloKeeps(w0, run, user);
      assert forall u :: u in left ==> ProcOk(s, u, left[u]);
    }
  }
}
