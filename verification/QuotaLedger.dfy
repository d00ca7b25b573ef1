/** The durable side of the network quota (laxcode-manager/ledger.go): epoch rows, daily limits and
    the transactions that change them.  Row `i` of the table carries the id `i + 1`; id 0 is the zero
    value that the source uses for "no epoch". */
module QuotaLedger {
  import opened Words

  datatype Status = Active | Closed

  datatype Epoch = Epoch(user: nat, day: nat, status: Status, granted: nat, rx: nat, tx: nat, deadline: nat)

  /** `limits` is the table user_days, keyed by user and day. */
  datatype Ledger = Ledger(limits: map<(nat, nat), nat>, rows: seq<Epoch>)

  datatype Usage = Usage(rx: nat, tx: nat)

  /** The internal consistency checks of the manager, each of which disables the guard when it fires. */
  datatype Check =
    | WrongOwner
    | KernelAboveLedger
    | SnapshotViolatesEpoch
    | OverDailyLimit
    | UsageAboveGrant
    | OldBucketMismatch
    | NoSuchRow
    | NoSuchDay
    | GrantEntryMissing
    | RowConstraint

  datatype Outcome<+T> = Done(value: T) | Fault(check: Check)

  predicate Has(l: Ledger, id: nat) {
    1 <= id <= |l.rows|
  }

  function Row(l: Ledger, id: nat): Epoch
    requires Has(l, id)
  {
    l.rows[id - 1]
  }

  predicate On(e: Epoch, user: nat, day: nat) {
    e.user == user && e.day == day
  }

  // ---------------------------------------------------------------- sums over a user's day

  /** SUM of a column over the rows of one user and day. */
  function Sum(rows: seq<Epoch>, user: nat, day: nat, column: Epoch -> int): int {
    if |rows| == 0 then 0
    else
      var last := rows[|rows| - 1];
      Sum(rows[..|rows| - 1], user, day, column) + if On(last, user, day) then column(last) else 0
  }

  function GrantedColumn(): Epoch -> int { (e: Epoch) => e.granted }
  function UsedColumn(): Epoch -> int { (e: Epoch) => e.rx + e.tx }
  function UncertainColumn(): Epoch -> int { (e: Epoch) => if e.status == Closed then e.granted - e.rx - e.tx else 0 }
  function UnusedColumn(): Epoch -> int { (e: Epoch) => if e.status == Active then e.granted - e.rx - e.tx else 0 }

  function Held(rows: seq<Epoch>, user: nat, day: nat): int {
    Sum(rows, user, day, GrantedColumn())
  }

  lemma {:induction false} SumUpdate(rows: seq<Epoch>, i: nat, e: Epoch, user: nat, day: nat, column: Epoch -> int)
    requires i < |rows| && e.user == rows[i].user && e.day == rows[i].day
    ensures Sum(rows[i := e], user, day, column)
         == Sum(rows, user, day, column) + if On(e, user, day) then column(e) - column(rows[i]) else 0
  {
    var n := |rows| - 1;
    if i < n {
      assert rows[i := e][..n] == rows[..n][i := e];
      SumUpdate(rows[..n], i, e, user, day, column);
    } else {
      assert rows[i := e][..n] == rows[..n];
    }
  }

  lemma SumAppend(rows: seq<Epoch>, e: Epoch, user: nat, day: nat, column: Epoch -> int)
    ensures Sum(rows + [e], user, day, column)
         == Sum(rows, user, day, column) + if On(e, user, day) then column(e) else 0
  {
    assert (rows + [e])[..|rows|] == rows;
  }

  /** Rows that agree on user, day and a column have the same sum of that column. */
  lemma {:induction false} SumSame(a: seq<Epoch>, b: seq<Epoch>, user: nat, day: nat, column: Epoch -> int)
    requires |a| == |b|
    requires forall i :: 0 <= i < |a| ==> a[i].user == b[i].user && a[i].day == b[i].day && column(a[i]) == column(b[i])
    ensures Sum(a, user, day, column) == Sum(b, user, day, column)
  {
    if |a| > 0 {
      SumSame(a[..|a| - 1], b[..|b| - 1], user, day, column);
    }
  }

  lemma {:induction false} SumNone(rows: seq<Epoch>, user: nat, day: nat, column: Epoch -> int)
    requires forall i :: 0 <= i < |rows| ==> !On(rows[i], user, day)
    ensures Sum(rows, user, day, column) == 0
  {
    if |rows| > 0 {
      SumNone(rows[..|rows| - 1], user, day, column);
    }
  }

  /** One row of the day is at most the sum of a column that is never negative. */
  lemma {:induction false} SumCovers(rows: seq<Epoch>, i: nat, user: nat, day: nat, column: Epoch -> int)
    requires i < |rows| && On(rows[i], user, day)
    requires forall k :: 0 <= k < |rows| ==> column(rows[k]) >= 0
    ensures 0 <= column(rows[i]) <= Sum(rows, user, day, column)
  {
    var n := |rows| - 1;
    SumNonNegative(rows[..n], user, day, column);
    if i < n {
      SumCovers(rows[..n], i, user, day, column);
    }
  }

  lemma {:induction false} SumNonNegative(rows: seq<Epoch>, user: nat, day: nat, column: Epoch -> int)
    requires forall k :: 0 <= k < |rows| ==> column(rows[k]) >= 0
    ensures Sum(rows, user, day, column) >= 0
  {
    if |rows| > 0 {
      SumNonNegative(rows[..|rows| - 1], user, day, column);
    }
  }

  // ---------------------------------------------------------------- what every ledger keeps

  /** The schema's constraints (row CHECK, foreign key, partial unique index) and the daily budget. */
  ghost predicate LedgerOk(l: Ledger) {
    && (forall i :: 0 <= i < |l.rows| ==> RowOk(l, l.rows[i]))
    && OneActive(l.rows)
    && (forall k :: k in l.limits ==> 0 < l.limits[k] <= TWO50 && Held(l.rows, k.0, k.1) <= l.limits[k])
  }

  ghost predicate RowOk(l: Ledger, e: Epoch) {
    e.rx + e.tx <= e.granted && (e.user, e.day) in l.limits
  }

  ghost predicate OneActive(rows: seq<Epoch>) {
    forall i, j :: 0 <= i < j < |rows| && rows[i].status == Active && rows[j].status == Active
               ==> !On(rows[i], rows[j].user, rows[j].day)
  }

  lemma HeldCovers(l: Ledger, id: nat)
    requires LedgerOk(l) && Has(l, id)
    ensures Row(l, id).granted <= Held(l.rows, Row(l, id).user, Row(l, id).day) <= TWO50
  {
    var e := Row(l, id);
    assert RowOk(l, e);
    assert (e.user, e.day) in l.limits;
    SumCovers(l.rows, id - 1, e.user, e.day, GrantedColumn());
  }

  // ---------------------------------------------------------------- queries

  /** The id of the active row of a user's day, or 0. */
  function ActiveOn(rows: seq<Epoch>, user: nat, day: nat): (id: nat)
    ensures id <= |rows|
    ensures id != 0 ==> On(rows[id - 1], user, day) && rows[id - 1].status == Active
    ensures id == 0 ==> forall i :: 0 <= i < |rows| && On(rows[i], user, day) ==> rows[i].status != Active
  {
    if |rows| == 0 then 0
    else
      var last := rows[|rows| - 1];
      assert forall i :: 0 <= i < |rows| - 1 ==> rows[i] == rows[..|rows| - 1][i];
      if On(last, user, day) && last.status == Active then |rows|
      else ActiveOn(rows[..|rows| - 1], user, day)
  }

  /** latestActive: the user's active row of the latest day, the larger id first; 0 when there is none. */
  function LatestActive(rows: seq<Epoch>, user: nat): (id: nat)
    ensures id <= |rows|
    ensures id != 0 ==> rows[id - 1].user == user && rows[id - 1].status == Active
    ensures forall i :: 0 <= i < |rows| && rows[i].user == user && rows[i].status == Active ==>
              id != 0 && (rows[i].day < rows[id - 1].day || (rows[i].day == rows[id - 1].day && i < id))
  {
    if |rows| == 0 then 0
    else
      var last := rows[|rows| - 1];
      var best := LatestActive(rows[..|rows| - 1], user);
      if last.user == user && last.status == Active && (best == 0 || rows[best - 1].day <= last.day) then |rows|
      else best
  }

  /** historicalEpochs: ids of the user's rows up to `day`, without `current`. */
  function Historical(rows: seq<Epoch>, user: nat, day: nat, current: nat): (ids: seq<nat>)
    ensures forall id :: id in ids <==>
              1 <= id <= |rows| && rows[id - 1].user == user && rows[id - 1].day <= day && id != current
  {
    if |rows| == 0 then []
    else
      var last := rows[|rows| - 1];
      Historical(rows[..|rows| - 1], user, day, current)
      + if last.user == user && last.day <= day && |rows| != current then [|rows|] else []
  }

  // ---------------------------------------------------------------- transactions

  function CloseIf(e: Epoch, close: bool): Epoch {
    if close then e.(status := Closed) else e
  }

  /** Step 5 of a sync: retire every active row of the user's day. */
  function RetireDay(l: Ledger, user: nat, day: nat): Ledger {
    l.(rows := seq(|l.rows|, i requires 0 <= i < |l.rows| => CloseIf(l.rows[i], On(l.rows[i], user, day))))
  }

  /** The cleanup's UPDATE: retire the user's rows up to `day`, except `current`. */
  function RetireHistory(l: Ledger, user: nat, day: nat, current: nat): Ledger {
    l.(rows := seq(|l.rows|, i requires 0 <= i < |l.rows| =>
      CloseIf(l.rows[i], l.rows[i].user == user && l.rows[i].day <= day && i + 1 != current)))
  }

  /** ensure: create the user's day and its active row where they are missing. */
  function Ensure(l: Ledger, user: nat, day: nat, limit: nat, deadline: nat): (r: (Ledger, nat)) {
    var limits := if (user, day) in l.limits then l.limits else l.limits[(user, day) := limit];
    var found := ActiveOn(l.rows, user, day);
    if found != 0 then (l.(limits := limits), found)
    else (Ledger(limits, l.rows + [Epoch(user, day, Active, 0, 0, 0, deadline)]), |l.rows| + 1)
  }

  /** checkpoint: store a usage snapshot and, on refill, raise the grant within the day's budget. */
  function Checkpoint(l: Ledger, id: nat, u: Usage, refill: bool, chunk: nat): Outcome<Ledger> {
    if !Has(l, id) then Fault(NoSuchRow)
    else
      var e := Row(l, id);
      if e.status != Active || u.rx < e.rx || u.tx < e.tx || u.rx > e.granted || u.tx > Sub64(e.granted, u.rx) then
        Fault(SnapshotViolatesEpoch)
      else if (e.user, e.day) !in l.limits then Fault(NoSuchDay)
      else
        var held, limit := Held(l.rows, e.user, e.day), l.limits[(e.user, e.day)];
        if held > limit then Fault(OverDailyLimit)
        else
          var want := Add64(Add64(u.rx, u.tx), chunk);
          var delta := if refill && want > e.granted && held >= 0
                       then Min(Sub64(want, e.granted), Sub64(limit, held)) else 0;
          var granted := Add64(e.granted, delta);
          if u.rx + u.tx > granted then Fault(RowConstraint)
          else Done(l.(rows := l.rows[id - 1 := e.(granted := granted, rx := u.rx, tx := u.tx)]))
  }

  /** closeSnapshot: close a replaced bucket at its kernel values.  The status is not tested, and the
      stored grant may fall to the kernel's. */
  function CloseSnapshot(l: Ledger, id: nat, user: nat, grant: nat, u: Usage): Outcome<Ledger> {
    if u.rx > grant || u.tx > Sub64(grant, u.rx) then Fault(UsageAboveGrant)
    else if !Has(l, id) then Fault(OldBucketMismatch)
    else
      var e := Row(l, id);
      if !(e.user == user && e.granted >= grant && e.rx <= u.rx && e.tx <= u.tx) then Fault(OldBucketMismatch)
      else if u.rx + u.tx > grant then Fault(RowConstraint)
      else Done(l.(rows := l.rows[id - 1 := e.(status := Closed, granted := grant, rx := u.rx, tx := u.tx)]))
  }

  // ---------------------------------------------------------------- what each transaction keeps

  lemma ClosingKeepsLedger(l: Ledger, l': Ledger)
    requires LedgerOk(l) && l'.limits == l.limits && |l'.rows| == |l.rows|
    requires forall i :: 0 <= i < |l.rows| ==> l'.rows[i] == l.rows[i] || l'.rows[i] == l.rows[i].(status := Closed)
    ensures LedgerOk(l')
  {
    forall i | 0 <= i < |l'.rows| ensures RowOk(l', l'.rows[i]) {
      assert RowOk(l, l.rows[i]);
    }
    forall k | k in l'.limits ensures Held(l'.rows, k.0, k.1) <= l'.limits[k] {
      SumSame(l.rows, l'.rows, k.0, k.1, GrantedColumn());
    }
  }

  /** Every limit stays as it was; a day without one gets the configured limit. */
  predicate LimitSet(before: map<(nat, nat), nat>, after: map<(nat, nat), nat>, user: nat, day: nat, limit: nat) {
    after == if (user, day) in before then before else before[(user, day) := limit]
  }

  lemma EnsureKeepsLedger(l: Ledger, user: nat, day: nat, limit: nat, deadline: nat)
    requires LedgerOk(l) && 0 < limit <= TWO50
    ensures LedgerOk(Ensure(l, user, day, limit, deadline).0)
  {
    var (l', id) := Ensure(l, user, day, limit, deadline);
    forall i | 0 <= i < |l'.rows| ensures RowOk(l', l'.rows[i]) {
      assert i < |l.rows| ==> RowOk(l, l.rows[i]);
    }
    forall k | k in l'.limits ensures Held(l'.rows, k.0, k.1) <= l'.limits[k] {
      if k !in l.limits {
        forall i | 0 <= i < |l.rows| ensures !On(l.rows[i], k.0, k.1) {
          assert RowOk(l, l.rows[i]);
        }
        SumNone(l.rows, k.0, k.1, GrantedColumn());
      }
      SumAppend(l.rows, Epoch(user, day, Active, 0, 0, 0, deadline), k.0, k.1, GrantedColumn());
    }
  }

  /** Replacing one row within the budget keeps the ledger. */
  lemma ReplaceKeepsLedger(l: Ledger, id: nat, e: Epoch)
    requires LedgerOk(l) && Has(l, id)
    requires e.user == Row(l, id).user && e.day == Row(l, id).day && e.rx + e.tx <= e.granted
    requires e.status == Active ==> Row(l, id).status == Active
    requires Held(l.rows, e.user, e.day) - Row(l, id).granted + e.granted <= l.limits[(e.user, e.day)]
    ensures LedgerOk(l.(rows := l.rows[id - 1 := e]))
  {
    var l' := l.(rows := l.rows[id - 1 := e]);
    forall i | 0 <= i < |l'.rows| ensures RowOk(l', l'.rows[i]) {
      assert RowOk(l, l.rows[i]);
    }
    forall k | k in l'.limits ensures Held(l'.rows, k.0, k.1) <= l'.limits[k] {
      SumUpdate(l.rows, id - 1, e, k.0, k.1, GrantedColumn());
    }
  }

  /** checkpoint on a snapshot that fits the row: no check fires and nothing wraps, the grant never
      falls, only this row changes, and a refill raises it to a whole chunk beyond the usage, or as far as the day's limit goes. */
  lemma CheckpointFunds(l: Ledger, id: nat, u: Usage, refill: bool, chunk: nat)
    requires LedgerOk(l) && Has(l, id) && chunk <= TWO50
    requires Row(l, id).status == Active && Row(l, id).rx <= u.rx && Row(l, id).tx <= u.tx
    requires u.rx + u.tx <= Row(l, id).granted
    ensures var e, r := Row(l, id), Checkpoint(l, id, u, refill, chunk);
            && r.Done? && LedgerOk(r.value) && |r.value.rows| == |l.rows|
            && var e' := Row(r.value, id);
            && r.value == l.(rows := l.rows[id - 1 := e'])
            && e' == e.(granted := e'.granted, rx := u.rx, tx := u.tx) && e.granted <= e'.granted
            && e'.granted == (if refill && u.rx + u.tx + chunk > e.granted
                              then Min(u.rx + u.tx + chunk, e.granted + l.limits[(e.user, e.day)] - Held(l.rows, e.user, e.day))
                              else e.granted)
            && (refill ==> e'.granted - u.rx - u.tx >= chunk
                           || Held(r.value.rows, e.user, e.day) == l.limits[(e.user, e.day)])
  {
    var e := Row(l, id);
    HeldCovers(l, id);
    assert RowOk(l, l.rows[id - 1]);
    var held, limit := Held(l.rows, e.user, e.day), l.limits[(e.user, e.day)];
    assert held <= limit;
    var want := Add64(Add64(u.rx, u.tx), chunk);
    assert want == u.rx + u.tx + chunk;
    var delta := if refill && want > e.granted then Min(Sub64(want, e.granted), Sub64(limit, held)) else 0;
    var e' := e.(granted := e.granted + delta, rx := u.rx, tx := u.tx);
    assert Checkpoint(l, id, u, refill, chunk) == Done(l.(rows := l.rows[id - 1 := e']));
    ReplaceKeepsLedger(l, id, e');
    SumUpdate(l.rows, id - 1, e', e.user, e.day, GrantedColumn());
  }

  /** closeSnapshot at kernel values that fit the row: no check fires and only this row changes. */
  lemma CloseSnapshotFits(l: Ledger, id: nat, user: nat, grant: nat, u: Usage)
    requires LedgerOk(l) && Has(l, id) && Row(l, id).user == user
    requires u.rx + u.tx <= grant <= Row(l, id).granted && Row(l, id).rx <= u.rx && Row(l, id).tx <= u.tx
    ensures var r := CloseSnapshot(l, id, user, grant, u);
            && r.Done? && LedgerOk(r.value) && r.value.limits == l.limits
            && r.value.rows == l.rows[id - 1 := Row(l, id).(status := Closed, granted := grant, rx := u.rx, tx := u.tx)]
  {
    HeldCovers(l, id);
    assert RowOk(l, l.rows[id - 1]);
    ReplaceKeepsLedger(l, id, Row(l, id).(status := Closed, granted := grant, rx := u.rx, tx := u.tx));
  }

  // ---------------------------------------------------------------- the usage report

  datatype Report = Report(limit: nat, observed: nat, confirmed: nat, held: nat, allocatable: nat, uncertain: nat,
                           exhausted: bool)

  const HANDSHAKE_BYTES: nat := 128

  /** report: read-only totals of a user's day; a user or day without a row reports the configured limit. */
  function MakeReport(l: Ledger, configured: nat, user: nat, day: nat): Outcome<Report>
    requires forall i :: 0 <= i < |l.rows| ==> l.rows[i].rx + l.rows[i].tx <= l.rows[i].granted
  {
    if (user, day) !in l.limits then Done(Report(configured, 0, 0, 0, configured, 0, false))
    else
      SumNonNegative(l.rows, user, day, UsedColumn());
      SumNonNegative(l.rows, user, day, GrantedColumn());
      SumNonNegative(l.rows, user, day, UncertainColumn());
      var limit := l.limits[(user, day)];
      var confirmed: nat := Sum(l.rows, user, day, UsedColumn());
      var held: nat := Held(l.rows, user, day);
      var uncertain: nat := Sum(l.rows, user, day, UncertainColumn());
      if held > limit then Fault(OverDailyLimit)
      else
        var allocatable := Sub64(limit, held);
        Done(Report(limit, confirmed, confirmed, held, allocatable, uncertain,
                    allocatable == 0 && Sub64(Sub64(limit, confirmed), uncertain) < HANDSHAKE_BYTES))
  }

  lemma {:induction false} SumSplits(rows: seq<Epoch>, user: nat, day: nat)
    ensures Sum(rows, user, day, UsedColumn()) + Sum(rows, user, day, UncertainColumn())
          + Sum(rows, user, day, UnusedColumn()) == Held(rows, user, day)
  {
    if |rows| > 0 {
      SumSplits(rows[..|rows| - 1], user, day);
    }
  }

  /** In every ledger the report's check stays silent, confirmed + uncertain <= held <= limit, and a day is
      exhausted exactly when it is fully allocated and its active epochs have under 128 unused bytes. */
  lemma ReportIsExact(l: Ledger, configured: nat, user: nat, day: nat)
    requires LedgerOk(l)
    ensures MakeReport(l, configured, user, day).Done?
    ensures (user, day) !in l.limits ==>
              var r := MakeReport(l, configured, user, day).value;
              && r.limit == r.allocatable == configured && !r.exhausted
              && r.observed == r.confirmed == r.held == r.uncertain == 0
    ensures (user, day) in l.limits ==>
              var r := MakeReport(l, configured, user, day).value;
              && r.observed == r.confirmed == Sum(l.rows, user, day, UsedColumn())
              && r.held == Sum(l.rows, user, day, GrantedColumn()) && r.uncertain == Sum(l.rows, user, day, UncertainColumn())
              && r.confirmed + r.uncertain <= r.held <= r.limit == l.limits[(user, day)]
              && r.allocatable == r.limit - r.held
              && (r.exhausted <==> r.held == r.limit && Sum(l.rows, user, day, UnusedColumn()) < HANDSHAKE_BYTES)
  {
    assert forall i :: 0 <= i < |l.rows| ==> RowOk(l, l.rows[i]);
    SumNonNegative(l.rows, user, day, UnusedColumn());
    SumSplits(l.rows, user, day);
  }
}
