/** Concurrent clients of one session's repository. */
module Clients {
  import opened Words
  import opened Messages
  import opened Lineage
  import opened SessionState
  import opened Repository

  /** `committed` is the context of the last successful commit (or the first load), `numbers` every number ever
      committed, in commit order. */
  datatype World = World(store: Store, views: map<nat, Context>, committed: Context, numbers: seq<nat>)

  /** What a client may hear of a commit: its result, nothing although the transaction ran, or a failure before it. */
  datatype Report = Heard | Lost | NotRun

  /** A compaction replaces the messages and raises the generation; everything else in the three commits is one
      step of the aggregate from the client's view. */
  datatype Event =
    | Create(mode: string, workDir: string)
    | Load(k: nat, mode: string, workDir: string)
    | Reserve
    | Reconcile(k: nat, input: int)
    | Append(k: nat, m: Message, report: Report)
    | Upsert(k: nat, content: string, est: Estimator, report: Report)
    | Compact(k: nat, messages: seq<Message>, used: Tokens, window: Tokens, report: Report)

  ghost predicate Initial(w: World) {
    w.store == Store(None, map[], map[], 0) && w.views == map[] && w.committed == EmptyContext() && w.numbers == []
  }

  // ---------------------------------------------------------------- commits

  datatype Commit =
    | Creating(context: Context)
    | Updating(context: Context)
    | Renewing(context: Context)

  /** The candidate that a client builds from its view, and the transaction it asks for. */
  ghost function Asked(view: Context, e: Event): Option<Commit> {
    match e
    case Append(_, m, _) =>
      if Identify(view.last, m).Refused? then None else Some(Creating(Appended(view, Identify(view.last, m).msg)))
    case Upsert(_, content, est, _) =>
      if |view.messages| == 0 then Some(Creating(Upserted(view, content, est))) else Some(Updating(Upserted(view, content, est)))
    case Compact(_, messages, used, window, _) =>
      if view.generation == MAX64 then None
      else Some(Renewing(view.(generation := view.generation + 1, messages := messages, used := used, window := window)))
    case _ => None
  }

  ghost function FaultOf(s: Store, c: Commit): Option<CommitFault> {
    match c
    case Creating(x) =>
      if |x.messages| == 0 then Some(StaleSequence)
      else CreateFault(s, x, x.messages[|x.messages| - 1], x.messages[|x.messages| - 1])
    case Updating(x) => if |x.messages| == 0 then Some(StaleSequence) else UpdateFault(s, x, x.messages[0])
    case Renewing(x) => NextFault(s, x)
  }

  ghost function Applied(s: Store, c: Commit): Store
    requires FaultOf(s, c).None?
  {
    match c
    case Creating(x) => Created(s, x, x.messages[|x.messages| - 1], x.messages[|x.messages| - 1])
    case Updating(x) => Updated(s, x, x.messages[0])
    case Renewing(x) => NextGeneration(s, x)
  }

  ghost predicate Accepted(w: World, k: nat, e: Event, report: Report) {
    && k in w.views && Asked(w.views[k], e).Some? && !report.NotRun?
    && FaultOf(w.store, Asked(w.views[k], e).value).None?
  }

  ghost function Committed(w: World, k: nat, e: Event, report: Report): World {
    if !Accepted(w, k, e, report) then w
    else
      var asked := Asked(w.views[k], e).value;
      var c := asked.context.(revision := asked.context.revision + 1);
      World(Applied(w.store, asked), if report.Heard? then w.views[k := c] else w.views, c,
            if asked.Creating? then w.numbers + [c.last] else w.numbers)
  }

  // ---------------------------------------------------------------- the other events

  function RowFor(mode: string, workDir: string): Row {
    Row(mode, workDir, 0, 1, 0, Tokens(0, 0), Tokens(0, 0))
  }

  /** The stored context as the client's aggregate restores it. */
  function View(c: Context, mode: string, workDir: string): Context {
    c.(mode := if c.mode == "" then mode else c.mode, workDir := if c.workDir == "" then workDir else c.workDir)
  }

  /** What GetRequestContext returns. */
  ghost predicate Reads(s: Store, c: Context) {
    if s.head.None? then c == EmptyContext()
    else Valid(c) && exists msgs :: RowsAre(s.memory, s.head.value.generation, msgs) && c == ContextOf(s.head.value, msgs)
  }

  ghost predicate Step(w: World, e: Event, w': World) {
    match e
    case Create(mode, workDir) =>
      w' == if w.store.head.Some? then w
            else w.(store := w.store.(head := Some(RowFor(mode, workDir))),
                    committed := ContextOf(RowFor(mode, workDir), []))
    case Load(k, mode, workDir) =>
      w' == w || exists c :: Reads(w.store, c) && w' == w.(views := w.views[k := View(c, mode, workDir)])
    case Reserve => w' == w.(store := Reserved(w.store))
    case Reconcile(k, input) =>
      w' == if k in w.views then w.(views := w.views[k := Reconciled(w.views[k], input)]) else w
    case Append(k, _, report) => w' == Committed(w, k, e, report)
    case Upsert(k, _, _, report) => w' == Committed(w, k, e, report)
    case Compact(k, _, _, _, report) => w' == Committed(w, k, e, report)
  }

  ghost predicate Next(w: World, w': World) {
    exists e :: Step(w, e, w')
  }

  ghost predicate IsRun(run: seq<World>) {
    |run| > 0 && Initial(run[0]) && forall i :: 0 <= i < |run| - 1 ==> Next(run[i], run[i + 1])
  }

  ghost predicate Reachable(w: World) {
    exists run :: IsRun(run) && run[|run| - 1] == w
  }

  // ---------------------------------------------------------------- the invariant

  function Revision(s: Store): nat {
    if s.head.None? then 0 else s.head.value.revision
  }

  function LastNumber(s: Store): nat {
    if s.head.None? then 0 else s.head.value.last
  }

  function Generation(s: Store): nat {
    if s.head.None? then 1 else s.head.value.generation
  }

  /** The head row and the rows of its generation are the committed context. */
  ghost predicate HeadOk(w: World) {
    && Valid(w.committed)
    && RowsAre(w.store.memory, Generation(w.store), w.committed.messages)
    && w.committed.revision == Revision(w.store) && w.committed.last == LastNumber(w.store)
    && w.committed.generation == Generation(w.store)
    && (w.store.head.Some? ==> w.store.head.value == RowOf(w.committed, w.committed.revision))
    && (w.store.head.None? ==> w.committed == EmptyContext())
  }

  /** No row lies beyond the head. */
  ghost predicate Bounded(s: Store) {
    && (forall g: nat, n: nat :: (g, n) in s.memory ==> g <= Generation(s) && n <= LastNumber(s))
    && forall n: nat :: n in s.originals ==> n <= LastNumber(s)
  }

  /** A view at the head's revision has the head's messages. */
  ghost predicate ViewOk(w: World, view: Context) {
    && view.revision <= Revision(w.store)
    && (view.revision == Revision(w.store) ==>
          view.messages == w.committed.messages && view.last == w.committed.last && view.generation == w.committed.generation)
  }

  ghost predicate ViewsOk(w: World) {
    forall k :: k in w.views ==> ViewOk(w, w.views[k])
  }

  ghost predicate NumbersOk(w: World) {
    && Increasing(w.numbers) && (forall i :: 0 <= i < |w.numbers| ==> w.numbers[i] <= LastNumber(w.store))
    && forall n: nat :: n in w.store.originals <==> n in w.numbers
  }

  ghost predicate Inv(w: World) {
    HeadOk(w) && Bounded(w.store) && ViewsOk(w) && NumbersOk(w)
  }

  // ---------------------------------------------------------------- what the checks of a commit establish

  lemma CreatingFacts(s: Store, x: Context, m: Message)
    requires CreateFault(s, x, m, m).None?
    ensures Valid(x) && x.revision == Revision(s) && x.generation == Generation(s)
    ensures x.last == m.number > LastNumber(s) && m.number !in s.originals && (x.generation, m.number) !in s.memory
  {
    hide Valid;
  }

  lemma UpdatingFacts(s: Store, x: Context)
    requires |x.messages| > 0 && UpdateFault(s, x, x.messages[0]).None?
    ensures Valid(x) && s.head.Some? && x.revision == Revision(s) && x.generation == Generation(s) && x.last == LastNumber(s)
  {
    hide Valid, ContainsFirst;
  }

  lemma RenewingFacts(s: Store, x: Context)
    requires NextFault(s, x).None?
    ensures Valid(x) && s.head.Some? && x.revision == Revision(s)
    ensures x.generation == Generation(s) + 1 && x.last == LastNumber(s)
    ensures Inserted(s.memory, x.generation, x.messages, |x.messages|).Some?
  {
    hide Valid, Inserted;
  }

  // ---------------------------------------------------------------- rows

  lemma RowsAppend(memory: map<(nat, nat), Message>, g: nat, msgs: seq<Message>, m: Message)
    requires RowsAre(memory, g, msgs) && forall i :: 0 <= i < |msgs| ==> msgs[i].number < m.number
    ensures RowsAre(memory[(g, m.number) := m], g, msgs + [m])
  {
    var memory', msgs' := memory[(g, m.number) := m], msgs + [m];
    forall n: nat | (g, n) in memory' ensures HasNumber(msgs', n) {
      if n == m.number {
        assert msgs'[|msgs|].number == n;
      } else {
        assert HasNumber(msgs, n);
        var i :| 0 <= i < |msgs| && msgs[i].number == n;
        assert msgs'[i].number == n;
      }
    }
  }

  lemma RowsReplaceFirst(memory: map<(nat, nat), Message>, g: nat, msgs: seq<Message>, m: Message)
    requires RowsAre(memory, g, msgs) && |msgs| > 0 && m.number == msgs[0].number
    ensures RowsAre(memory[(g, m.number) := m], g, msgs[0 := m])
  {
    var memory', msgs' := memory[(g, m.number) := m], msgs[0 := m];
    forall n: nat | (g, n) in memory' ensures HasNumber(msgs', n) {
      if n == m.number {
        assert msgs'[0].number == n;
      } else {
        assert HasNumber(msgs, n);
        var i :| 0 <= i < |msgs| && msgs[i].number == n;
        assert msgs'[i].number == n;
      }
    }
  }

  ghost predicate OthersSame(a: map<(nat, nat), Message>, b: map<(nat, nat), Message>, g: nat) {
    forall h: nat, n: nat :: h != g ==> ((h, n) in a <==> (h, n) in b)
  }

  /** A generation without rows takes a whole list of rising numbers, and no other generation changes. */
  lemma {:induction false} RowsInserted(memory: map<(nat, nat), Message>, g: nat, msgs: seq<Message>, n: nat)
    requires n <= |msgs| && (forall k: nat :: (g, k) !in memory)
    requires forall i, j :: 0 <= i < j < |msgs| ==> msgs[i].number < msgs[j].number
    ensures var r := Inserted(memory, g, msgs, n);
            r.Some? && RowsAre(r.value, g, msgs[..n]) && OthersSame(r.value, memory, g)
  {
    if n == 0 {
      assert RowsAre(memory, g, msgs[..0]);
    } else {
      hide RowsAre, OthersSame;
      RowsInserted(memory, g, msgs, n - 1);
      var before, m := Inserted(memory, g, msgs, n - 1).value, msgs[n - 1];
      NotTaken(before, g, msgs, n - 1);
      InsertedNext(memory, g, msgs, n - 1);
      hide Inserted;
      RowsAppend(before, g, msgs[..n - 1], m);
      assert msgs[..n] == msgs[..n - 1] + [m];
      OneRowMore(before, memory, g, m.number, m);
    }
  }

  lemma InsertedNext(memory: map<(nat, nat), Message>, g: nat, msgs: seq<Message>, n: nat)
    requires n < |msgs| && Inserted(memory, g, msgs, n).Some?
    requires (g, msgs[n].number) !in Inserted(memory, g, msgs, n).value
    ensures Inserted(memory, g, msgs, n + 1) == Some(Inserted(memory, g, msgs, n).value[(g, msgs[n].number) := msgs[n]])
  {
  }

  lemma OneRowMore(a: map<(nat, nat), Message>, b: map<(nat, nat), Message>, g: nat, n: nat, m: Message)
    requires OthersSame(a, b, g)
    ensures OthersSame(a[(g, n) := m], b, g)
  {
  }

  lemma NotTaken(memory: map<(nat, nat), Message>, g: nat, msgs: seq<Message>, n: nat)
    requires n < |msgs| && RowsAre(memory, g, msgs[..n])
    requires forall i, j :: 0 <= i < j < |msgs| ==> msgs[i].number < msgs[j].number
    ensures (g, msgs[n].number) !in memory
  {
    if (g, msgs[n].number) in memory { RowIsMessage(memory, g, msgs[..n], msgs[n].number); }
  }

  // ---------------------------------------------------------------- commits keep the invariant

  lemma ViewsAfter(w: World, w': World, k: nat)
    requires ViewsOk(w) && Revision(w'.store) == Revision(w.store) + 1
    requires w'.committed.revision == Revision(w'.store) && w'.committed.last == LastNumber(w'.store)
             && w'.committed.generation == Generation(w'.store)
    requires w'.views == w.views || w'.views == w.views[k := w'.committed]
    ensures ViewsOk(w')
  {
  }

  ghost predicate Moved(w: World, w': World, k: nat, s: Store, x: Context) {
    && w'.store == s && w'.committed == x.(revision := x.revision + 1)
    && (w'.views == w.views || w'.views == w.views[k := w'.committed])
  }

  lemma CreatingKeeps(w: World, w': World, k: nat, x: Context, m: Message)
    requires Inv(w) && CreateFault(w.store, x, m, m).None? && x.messages == w.committed.messages + [m]
    requires Moved(w, w', k, Created(w.store, x, m, m), x) && w'.numbers == w.numbers + [m.number]
    ensures Inv(w')
  {
    hide Valid, RowsAre, CreateFault, Increasing;
    CreatingFacts(w.store, x, m);
    assert Revision(w'.store) == x.revision + 1 && LastNumber(w'.store) == x.last && Generation(w'.store) == x.generation;
    CreatedHead(w, w', x, m);
    CreatedBounded(w.store, x, m);
    ViewsAfter(w, w', k);
    CreatedNumbers(w, w', x, m);
  }

  lemma CreatedHead(w: World, w': World, x: Context, m: Message)
    requires HeadOk(w) && CreateFault(w.store, x, m, m).None? && x.messages == w.committed.messages + [m]
    requires w'.store == Created(w.store, x, m, m) && w'.committed == x.(revision := x.revision + 1)
    ensures HeadOk(w')
  {
    hide Valid, RowsAre, CreateFault;
    CreatingFacts(w.store, x, m);
    NumbersUpToLast(w.committed);
    RowsAppend(w.store.memory, x.generation, w.committed.messages, m);
    ValidAtAnyRevision(x, x.revision + 1);
  }

  lemma NumbersUpToLast(c: Context)
    requires Valid(c)
    ensures forall i :: 0 <= i < |c.messages| ==> 0 < c.messages[i].number <= c.last
    ensures forall i, j :: 0 <= i < j < |c.messages| ==> c.messages[i].number < c.messages[j].number
  {
    hide OriginalsValid, SystemFirst;
  }

  lemma CreatedBounded(s: Store, x: Context, m: Message)
    requires Bounded(s) && CreateFault(s, x, m, m).None?
    ensures Bounded(Created(s, x, m, m))
  {
    hide Valid, CreateFault;
    CreatingFacts(s, x, m);
  }

  lemma CreatedNumbers(w: World, w': World, x: Context, m: Message)
    requires NumbersOk(w) && CreateFault(w.store, x, m, m).None?
    requires w'.store == Created(w.store, x, m, m) && w'.numbers == w.numbers + [m.number]
    ensures NumbersOk(w')
  {
    hide Valid, CreateFault;
    CreatingFacts(w.store, x, m);
  }

  lemma UpdatingKeeps(w: World, w': World, k: nat, x: Context)
    requires Inv(w) && FirstReplaced(w.committed.messages, x.messages) && UpdateFault(w.store, x, x.messages[0]).None?
    requires Moved(w, w', k, Updated(w.store, x, x.messages[0]), x) && w'.numbers == w.numbers
    ensures Inv(w')
  {
    hide Valid, RowsAre, UpdateFault, Increasing;
    UpdatingFacts(w.store, x);
    assert Revision(w'.store) == x.revision + 1 && LastNumber(w'.store) == x.last && Generation(w'.store) == x.generation;
    RowsReplaceFirst(w.store.memory, x.generation, w.committed.messages, x.messages[0]);
    ValidAtAnyRevision(x, x.revision + 1);
    UpdatedBounded(w, x);
    ViewsAfter(w, w', k);
  }

  lemma UpdatedBounded(w: World, x: Context)
    requires HeadOk(w) && Bounded(w.store) && |x.messages| > 0 && UpdateFault(w.store, x, x.messages[0]).None?
    ensures Bounded(Updated(w.store, x, x.messages[0]))
  {
    hide UpdateFault, RowsAre;
    UpdatingFacts(w.store, x);
    NumbersUpToLast(x);
    hide Valid;
  }

  lemma RenewingKeeps(w: World, w': World, k: nat, x: Context)
    requires Inv(w) && NextFault(w.store, x).None?
    requires Moved(w, w', k, NextGeneration(w.store, x), x) && w'.numbers == w.numbers
    ensures Inv(w')
  {
    hide Valid, RowsAre, NextFault, Increasing, Inserted;
    RenewingFacts(w.store, x);
    assert Revision(w'.store) == x.revision + 1 && LastNumber(w'.store) == x.last && Generation(w'.store) == x.generation;
    NumbersUpToLast(x);
    RowsInserted(w.store.memory, x.generation, x.messages, |x.messages|);
    assert x.messages[..|x.messages|] == x.messages;
    ValidAtAnyRevision(x, x.revision + 1);
    RenewedBounded(w.store, x);
    ViewsAfter(w, w', k);
  }

  lemma RowIsMessage(memory: map<(nat, nat), Message>, g: nat, msgs: seq<Message>, n: nat)
    requires RowsAre(memory, g, msgs) && (g, n) in memory
    ensures exists i :: 0 <= i < |msgs| && msgs[i].number == n
  {
    assert HasNumber(msgs, n);
  }

  lemma RenewedBounded(s: Store, x: Context)
    requires Bounded(s) && NextFault(s, x).None?
    ensures Bounded(NextGeneration(s, x))
  {
    hide NextFault, RowsAre, Inserted;
    RenewingFacts(s, x);
    NumbersUpToLast(x);
    hide Valid;
    RowsInserted(s.memory, x.generation, x.messages, |x.messages|);
    assert x.messages[..|x.messages|] == x.messages;
    var memory := NextGeneration(s, x).memory;
    forall g: nat, n: nat | (g, n) in memory
      ensures g <= x.generation && n <= x.last
    {
      if g == x.generation {
        RowIsMessage(memory, g, x.messages, n);
      } else {
        assert (g, n) in s.memory;
      }
    }
  }

  // ---------------------------------------------------------------- steps keep the invariant

  ghost predicate FirstReplaced(a: seq<Message>, b: seq<Message>) {
    |a| > 0 && |b| > 0 && b == a[0 := b[0]] && b[0].number == a[0].number
  }

  /** The candidates a client builds change the view's messages as the three commits expect. */
  lemma AskedFacts(view: Context, e: Event)
    requires Asked(view, e).Some?
    ensures var asked := Asked(view, e).value;
            var x := asked.context;
            && x.revision == view.revision
            && (asked.Creating? ==> |x.messages| > 0 && x.messages == view.messages + [x.messages[|x.messages| - 1]])
            && (asked.Updating? ==> FirstReplaced(view.messages, x.messages))
  {
  }

  lemma CommittedKeeps(w: World, k: nat, e: Event, report: Report)
    requires Inv(w)
    ensures Inv(Committed(w, k, e, report))
  {
    if Accepted(w, k, e, report) {
      var view, asked, w' := w.views[k], Asked(w.views[k], e).value, Committed(w, k, e, report);
      var x := asked.context;
      AskedFacts(view, e);
      AcceptedIsFresh(w, k, e, report);
      AcceptedMoves(w, k, e, report);
      hide Inv, CreateFault, UpdateFault, NextFault, Asked, Committed, Applied, Moved;
      match asked
      case Creating(_) => CreatingKeeps(w, w', k, x, x.messages[|x.messages| - 1]);
      case Updating(_) => UpdatingKeeps(w, w', k, x);
      case Renewing(_) => RenewingKeeps(w, w', k, x);
    }
  }

  lemma AcceptedMoves(w: World, k: nat, e: Event, report: Report)
    requires Accepted(w, k, e, report)
    ensures var asked, w' := Asked(w.views[k], e).value, Committed(w, k, e, report);
            && Moved(w, w', k, Applied(w.store, asked), asked.context)
            && w'.numbers == (if asked.Creating? then w.numbers + [asked.context.last] else w.numbers)
            && (asked.Creating? ==> asked.context.last == asked.context.messages[|asked.context.messages| - 1].number)
  {
    hide FaultOf, Asked, Applied;
    var asked := Asked(w.views[k], e).value;
    if asked.Creating? { CreatedLast(w.store, asked.context); }
  }

  lemma CreatedLast(s: Store, x: Context)
    requires FaultOf(s, Creating(x)).None?
    ensures |x.messages| > 0 && x.last == x.messages[|x.messages| - 1].number
  {
    CreatingFacts(s, x, x.messages[|x.messages| - 1]);
  }

  /** Only a view at the head's revision is accepted, and it has the head's messages. */
  lemma AcceptedIsFresh(w: World, k: nat, e: Event, report: Report)
    requires Inv(w) && Accepted(w, k, e, report)
    ensures w.views[k].revision == Revision(w.store) && w.views[k].messages == w.committed.messages
  {
    hide CreateFault, UpdateFault, NextFault, Asked, HeadOk, Bounded, NumbersOk;
    var asked := Asked(w.views[k], e).value;
    var x := asked.context;
    AskedFacts(w.views[k], e);
    match asked
    case Creating(_) => CreatingFacts(w.store, x, x.messages[|x.messages| - 1]);
    case Updating(_) => UpdatingFacts(w.store, x);
    case Renewing(_) => RenewingFacts(w.store, x);
    assert ViewOk(w, w.views[k]);
  }

  lemma ReadsCommitted(w: World, c: Context)
    requires Inv(w) && Reads(w.store, c)
    ensures c == w.committed
  {
    if w.store.head.Some? {
      var g := w.store.head.value.generation;
      hide Valid;
      var msgs :| RowsAre(w.store.memory, g, msgs) && c == ContextOf(w.store.head.value, msgs);
      RowsReadOnce(w.store.memory, g, msgs, w.committed.messages);
    }
  }

  lemma CreateKeeps(w: World, mode: string, workDir: string)
    requires Inv(w)
    ensures forall w' :: Step(w, Create(mode, workDir), w') ==> Inv(w')
  {
  }

  lemma LoadKeeps(w: World, k: nat, mode: string, workDir: string, w': World)
    requires Inv(w) && Step(w, Load(k, mode, workDir), w')
    ensures Inv(w')
  {
    if w' != w {
      var c :| Reads(w.store, c) && w' == w.(views := w.views[k := View(c, mode, workDir)]);
      ReadsCommitted(w, c);
      SeenIsOk(w, k, View(c, mode, workDir));
    }
  }

  lemma SeenIsOk(w: World, k: nat, view: Context)
    requires Inv(w)
    requires view.revision == w.committed.revision && view.messages == w.committed.messages
             && view.last == w.committed.last && view.generation == w.committed.generation
    ensures Inv(w.(views := w.views[k := view]))
  {
    hide Valid, RowsAre, Increasing, Bounded;
  }

  lemma StepKeeps(w: World, e: Event, w': World)
    requires Inv(w) && Step(w, e, w')
    ensures Inv(w')
  {
    match e
    case Create(mode, workDir) => CreateKeeps(w, mode, workDir);
    case Load(k, mode, workDir) => LoadKeeps(w, k, mode, workDir, w');
    case Reserve => assert w'.store.head == w.store.head;
    case Reconcile(k, input) => assert forall view :: ViewOk(w, view) ==> ViewOk(w, Reconciled(view, input));
    case Append(k, _, report) => CommittedKeeps(w, k, e, report);
    case Upsert(k, _, _, report) => CommittedKeeps(w, k, e, report);
    case Compact(k, _, _, _, report) => CommittedKeeps(w, k, e, report);
  }

  lemma {:induction false} RunKeeps(run: seq<World>)
    requires IsRun(run)
    ensures Inv(run[|run| - 1])
  {
    var n := |run| - 1;
    if n > 0 {
      hide Inv, Step, Initial;
      RunKeeps(run[..n]);
      assert Next(run[n - 1], run[n]);
      var e :| Step(run[n - 1], e, run[n]);
      StepKeeps(run[n - 1], e, run[n]);
    } else {
      InitialInv(run[0]);
    }
  }

  lemma InitialInv(w: World)
    requires Initial(w)
    ensures Inv(w)
  {
  }

  // ---------------------------------------------------------------- the results

  lemma ReachableInv(w: World)
    requires Reachable(w)
    ensures Inv(w)
  {
    hide Inv, Next, Initial;
    var run :| IsRun(run) && run[|run| - 1] == w;
    RunKeeps(run);
  }

  /** Whatever the clients did and however often a result was lost: a load returns exactly the context of the last
      commit that ran, and it is valid. */
  lemma LoadReturnsTheLastCommit(w: World, c: Context)
    requires Reachable(w)
    ensures Reads(w.store, c) <==> c == w.committed
    ensures Valid(w.committed)
  {
    ReachableInv(w);
    if Reads(w.store, c) { ReadsCommitted(w, c); }
    if w.store.head.Some? {
      assert RowsAre(w.store.memory, w.store.head.value.generation, w.committed.messages);
      assert w.committed == ContextOf(w.store.head.value, w.committed.messages);
    }
  }

  /** In no run is an original row ever altered or lost. */
  lemma {:induction false} OriginalsNeverChange(run: seq<World>, i: nat, j: nat, n: nat)
    requires IsRun(run) && i <= j < |run| && n in run[i].store.originals
    ensures n in run[j].store.originals && run[j].store.originals[n] == run[i].store.originals[n]
    decreases j
  {
    if i < j {
      hide Next, Initial;
      OriginalsNeverChange(run, i, j - 1, n);
      NextKeepsOriginals(run[j - 1], run[j], n);
    }
  }

  lemma NextKeepsOriginals(w: World, w': World, n: nat)
    requires Next(w, w') && n in w.store.originals
    ensures n in w'.store.originals && w'.store.originals[n] == w.store.originals[n]
  {
    hide Step;
    var e :| Step(w, e, w');
    StepKeepsOriginals(w, e, w', n);
  }

  lemma StepKeepsOriginals(w: World, e: Event, w': World, n: nat)
    requires Step(w, e, w') && n in w.store.originals
    ensures n in w'.store.originals && w'.store.originals[n] == w.store.originals[n]
  {
    hide Inserted;
    match e
    case Append(k, _, report) => AppliedOriginals(w, k, e, report, n);
    case Upsert(k, _, _, report) => AppliedOriginals(w, k, e, report, n);
    case Compact(k, _, _, _, report) => AppliedOriginals(w, k, e, report, n);
    case _ =>
  }

  lemma AppliedOriginals(w: World, k: nat, e: Event, report: Report, n: nat)
    requires n in w.store.originals
    ensures var s := Committed(w, k, e, report).store; n in s.originals && s.originals[n] == w.store.originals[n]
  {
    if Accepted(w, k, e, report) {
      hide Asked;
      var asked := Asked(w.views[k], e).value;
      var x := asked.context;
      if asked.Creating? { CreatingFacts(w.store, x, x.messages[|x.messages| - 1]); }
    }
  }

  /** The original row of a number is the last message of the context whose commit added it, in every run and ever after. */
  lemma OriginalIsWhatWasCommitted(run: seq<World>, i: nat, j: nat, n: nat)
    requires IsRun(run) && i < j < |run| && n !in run[i].store.originals && n in run[i + 1].store.originals
    ensures var msgs := run[i + 1].committed.messages;
            && |msgs| > 0 && msgs[|msgs| - 1].number == n
            && n in run[j].store.originals && run[j].store.originals[n] == msgs[|msgs| - 1]
  {
    assert Next(run[i], run[i + 1]);
    hide Step, Initial;
    var e :| Step(run[i], e, run[i + 1]);
    StepAddsOriginal(run[i], e, run[i + 1], n);
    hide Next;
    OriginalsNeverChange(run, i + 1, j, n);
  }

  lemma StepAddsOriginal(w: World, e: Event, w': World, n: nat)
    requires Step(w, e, w') && n !in w.store.originals && n in w'.store.originals
    ensures var msgs := w'.committed.messages;
            |msgs| > 0 && msgs[|msgs| - 1].number == n && w'.store.originals[n] == msgs[|msgs| - 1]
  {
    hide Inserted, Asked, CreateFault, UpdateFault, NextFault;
    match e
    case Append(k, _, report) => CommitAddsOriginal(w, k, e, report, n);
    case Upsert(k, _, _, report) => CommitAddsOriginal(w, k, e, report, n);
    case Compact(k, _, _, _, report) => CommitAddsOriginal(w, k, e, report, n);
    case _ =>
  }

  lemma CommitAddsOriginal(w: World, k: nat, e: Event, report: Report, n: nat)
    requires n !in w.store.originals && n in Committed(w, k, e, report).store.originals
    ensures var w' := Committed(w, k, e, report);
            var msgs := w'.committed.messages;
            |msgs| > 0 && msgs[|msgs| - 1].number == n && w'.store.originals[n] == msgs[|msgs| - 1]
  {
    hide Asked, CreateFault, UpdateFault, NextFault, Inserted;
  }

  /** Committed numbers strictly rise, and there is one original row for each of them. */
  lemma NumbersOnlyRise(w: World)
    requires Reachable(w)
    ensures Increasing(w.numbers)
    ensures forall n: nat :: n in w.store.originals <==> n in w.numbers
  {
    ReachableInv(w);
  }

  /** No insert of any commit meets a row with its key. */
  lemma InsertsNeverCollide(w: World, k: nat, e: Event)
    requires Reachable(w) && k in w.views && Asked(w.views[k], e).Some?
    ensures FaultOf(w.store, Asked(w.views[k], e).value) != Some(Duplicate)
  {
    ReachableInv(w);
    hide Asked, CreateFault, NextFault, UpdateFault;
    match Asked(w.views[k], e).value
    case Creating(x) => if |x.messages| > 0 { CreatingMeetsNoRow(w.store, x, x.messages[|x.messages| - 1]); }
    case Updating(x) => if |x.messages| > 0 { UpdatingInsertsNothing(w.store, x, x.messages[0]); }
    case Renewing(x) => RenewingMeetsNoRow(w.store, x);
  }

  lemma CreatingMeetsNoRow(s: Store, x: Context, m: Message)
    requires Bounded(s)
    ensures CreateFault(s, x, m, m) != Some(Duplicate)
  {
    hide Valid;
  }

  lemma UpdatingInsertsNothing(s: Store, x: Context, m: Message)
    ensures UpdateFault(s, x, m) != Some(Duplicate)
  {
    hide Valid, ContainsFirst;
  }

  lemma RenewingMeetsNoRow(s: Store, x: Context)
    requires Bounded(s)
    ensures NextFault(s, x) != Some(Duplicate)
  {
    hide Inserted;
    if Valid(x) && s.head.Some? && x.generation == s.head.value.generation + 1 {
      NumbersUpToLast(x);
      hide Valid;
      RowsInserted(s.memory, x.generation, x.messages, |x.messages|);
    }
  }

  /** A client behind the head never commits; and it is behind exactly when someone's commit, or its own with the
      result lost, has run since it loaded or heard. */
  lemma StaleNeverCommits(w: World, k: nat, e: Event, report: Report)
    requires Reachable(w) && k in w.views
    ensures w.views[k].revision <= Revision(w.store)
    ensures w.views[k].revision < Revision(w.store) ==> !Accepted(w, k, e, report)
    ensures Accepted(w, k, e, Lost) ==> var w' := Committed(w, k, e, Lost); w'.views[k].revision < Revision(w'.store)
  {
    ReachableInv(w);
    assert ViewOk(w, w.views[k]);
    if Accepted(w, k, e, report) { AcceptedIsFresh(w, k, e, report); }
    if Accepted(w, k, e, Lost) {
      AcceptedIsFresh(w, k, e, Lost);
      AcceptedRevision(w, k, e, Lost);
    }
  }

  lemma AcceptedRevision(w: World, k: nat, e: Event, report: Report)
    requires Inv(w) && Accepted(w, k, e, report)
    ensures Revision(Committed(w, k, e, report).store) == Revision(w.store) + 1
  {
    AcceptedIsFresh(w, k, e, report);
    AskedFacts(w.views[k], e);
    hide Inv, Asked, CreateFault, UpdateFault, NextFault;
  }

  /** Being behind ends only with a load. */
  lemma StaleUntilLoaded(w: World, e: Event, w': World, k: nat)
    requires Reachable(w) && Step(w, e, w') && k in w.views && w.views[k].revision < Revision(w.store)
    requires !(e.Load? && e.k == k)
    ensures k in w'.views && w'.views[k].revision < Revision(w'.store)
  {
    ReachableInv(w);
    match e
    case Append(j, _, report) => OthersCommit(w, j, e, report, k);
    case Upsert(j, _, _, report) => OthersCommit(w, j, e, report, k);
    case Compact(j, _, _, _, report) => OthersCommit(w, j, e, report, k);
    case _ =>
  }

  lemma OthersCommit(w: World, j: nat, e: Event, report: Report, k: nat)
    requires Inv(w) && k in w.views && w.views[k].revision < Revision(w.store)
    ensures var w' := Committed(w, j, e, report); k in w'.views && w'.views[k].revision < Revision(w'.store)
  {
    if Accepted(w, j, e, report) {
      AcceptedIsFresh(w, j, e, report);
      AcceptedRevision(w, j, e, report);
    }
  }

  /** A stored session takes an appended message exactly when the client is at the head's revision, keeps work
      directory and mode, has a system prompt, and the number is the next one or the last one reserved. */
  lemma AppendIsAcceptedExactlyWhenFresh(w: World, k: nat, m: Message, report: Report)
    requires Reachable(w) && k in w.views && w.store.head.Some? && !report.NotRun?
    requires Identify(w.views[k].last, m).Identified?
    ensures var view, row, number := w.views[k], w.store.head.value, Identify(w.views[k].last, m).msg.number;
            Accepted(w, k, Append(k, m, report), report) <==>
              && view.revision == row.revision != MAX64 && row.last != MAX64 && |view.messages| > 0
              && (row.workDir == "" || view.workDir == row.workDir) && (row.mode == "" || view.mode == row.mode)
              && (number == row.last + 1 || number == w.store.reserved)
  {
    ReachableInv(w);
    var view, msg := w.views[k], Identify(w.views[k].last, m).msg;
    if view.revision == w.store.head.value.revision {
      assert ViewOk(w, view);
      ViewIsValid(w, view);
      AppendedIsValid(view, m);
      AppendedFault(w.store, Appended(view, msg), msg);
      hide Valid, RowsAre, Increasing, CreateFault, Bounded, HeadOk, ViewsOk, NumbersOk, ViewOk;
      assert Appended(view, msg).messages[|view.messages|] == msg;
    } else {
      hide Asked, FaultOf, Inv;
      if Accepted(w, k, Append(k, m, report), report) { AcceptedIsFresh(w, k, Append(k, m, report), report); }
    }
  }

  /** A changed system prompt is taken exactly when the client is at the head's revision and keeps the work directory. */
  lemma PromptIsAcceptedExactlyWhenFresh(w: World, k: nat, content: string, est: Estimator, report: Report)
    requires Reachable(w) && k in w.views && w.store.head.Some? && |w.views[k].messages| > 0 && !report.NotRun?
    ensures var view, row := w.views[k], w.store.head.value;
            Accepted(w, k, Upsert(k, content, est, report), report) <==>
              view.revision == row.revision != MAX64 && (row.workDir == "" || view.workDir == row.workDir)
  {
    ReachableInv(w);
    var view, e := w.views[k], Upsert(k, content, est, report);
    var x := Upserted(view, content, est);
    assert ViewOk(w, view);
    if view.revision == w.store.head.value.revision {
      ViewIsValid(w, view);
      UpsertedIsValid(view, content, est);
      FirstRowIsThere(w);
      hide Valid, RowsAre, HeadOk, Bounded, NumbersOk, ViewsOk, OriginalsValid;
      assert ContainsFirst(x.messages, x.messages[0]);
    } else {
      hide Asked, FaultOf, Inv;
      if Accepted(w, k, e, report) { AcceptedIsFresh(w, k, e, report); }
    }
  }

  lemma FirstRowIsThere(w: World)
    requires HeadOk(w) && |w.committed.messages| > 0
    ensures (Generation(w.store), w.committed.messages[0].number) in w.store.memory
  {
    hide Valid;
  }

  /** A compaction is taken exactly when the client is at the head's revision, keeps the work directory, and the new
      generation is valid and not past the greatest number. */
  lemma CompactionIsAcceptedExactlyWhenFresh(w: World, k: nat, messages: seq<Message>, used: Tokens, window: Tokens, report: Report)
    requires Reachable(w) && k in w.views && w.store.head.Some? && !report.NotRun?
    ensures var view, row := w.views[k], w.store.head.value;
            Accepted(w, k, Compact(k, messages, used, window, report), report) <==>
              && view.revision == row.revision != MAX64 && row.generation != MAX64
              && (row.workDir == "" || view.workDir == row.workDir)
              && Valid(view.(generation := view.generation + 1, messages := messages, used := used, window := window))
  {
    ReachableInv(w);
    var view, e := w.views[k], Compact(k, messages, used, window, report);
    assert ViewOk(w, view);
    if view.revision == w.store.head.value.revision {
      hide Valid, RowsAre, NumbersOk, ViewsOk, Inserted;
      if view.generation != MAX64 {
        RenewingMeetsNoRow(w.store, view.(generation := view.generation + 1, messages := messages, used := used, window := window));
      }
    } else {
      hide Asked, FaultOf, Inv;
      if Accepted(w, k, e, report) { AcceptedIsFresh(w, k, e, report); }
    }
  }

  /** The first prompt of a session without messages is taken exactly when the client is at the head's revision and keeps
      what work directory and mode the head row has, if there is one. */
  lemma FirstPromptIsAccepted(w: World, k: nat, content: string, est: Estimator, report: Report)
    requires Reachable(w) && k in w.views && w.views[k].messages == [] && !report.NotRun?
    ensures var view := w.views[k];
            Accepted(w, k, Upsert(k, content, est, report), report) <==>
              && view.revision == Revision(w.store) != MAX64
              && (w.store.head.Some? ==>
                    && (w.store.head.value.workDir == "" || view.workDir == w.store.head.value.workDir)
                    && (w.store.head.value.mode == "" || view.mode == w.store.head.value.mode))
  {
    ReachableInv(w);
    var view, e := w.views[k], Upsert(k, content, est, report);
    assert ViewOk(w, view);
    if view.revision == Revision(w.store) {
      ViewIsValid(w, view);
      UpsertedIsValid(view, content, est);
      EmptyHead(w);
      var x := Upserted(view, content, est);
      hide Valid, RowsAre, HeadOk, NumbersOk, ViewsOk, OriginalsValid;
      assert x.messages == [SystemMessage(view, content)] && x.last == 1;
    } else {
      hide Asked, FaultOf, Inv;
      if Accepted(w, k, e, report) { AcceptedIsFresh(w, k, e, report); }
    }
  }

  /** Without messages nothing was committed: the numbers start at 1. */
  lemma EmptyHead(w: World)
    requires HeadOk(w) && w.committed.messages == []
    ensures w.committed.last == LastNumber(w.store) == 0
    ensures w.store.head.None? ==> w.committed.generation == 1 && w.committed.revision == 0
  {
  }

  lemma AppendedFault(s: Store, x: Context, m: Message)
    requires Bounded(s) && s.head.Some? && |x.messages| > 0 && x.messages[|x.messages| - 1] == m
    requires m.original == [m.number] && m.number == x.last > s.head.value.last && x.revision == s.head.value.revision
             && x.generation == s.head.value.generation
    ensures CreateFault(s, x, m, m).None? <==>
              && Valid(x) && x.revision != MAX64 && s.head.value.last != MAX64
              && (s.head.value.workDir == "" || x.workDir == s.head.value.workDir)
              && (s.head.value.mode == "" || x.mode == s.head.value.mode)
              && (m.number == s.head.value.last + 1 || m.number == s.reserved)
  {
    hide Valid;
  }

  lemma ViewIsValid(w: World, view: Context)
    requires Inv(w) && ViewOk(w, view) && view.revision == Revision(w.store)
    ensures Valid(view)
  {
    hide RowsAre, Increasing, OriginalsValid, NumbersValid, SystemFirst;
    assert w.committed.last == view.last;
  }

  // ---------------------------------------------------------------- the repository makes these steps

  /** The transactions of the repository are exactly those of the steps: refused for the same reason with nothing
      changed, or applied. */
  method Submit(repo: SqliteSessionRepo, c: Commit) returns (r: Outcome)
    modifies repo
    ensures match FaultOf(old(repo.store), c)
            case Some(fault) => r == Fault(fault) && repo.store == old(repo.store)
            case None => r == Done(c.context.revision + 1) && repo.store == Applied(old(repo.store), c)
    ensures forall w: World, k: nat, e: Event, report: Report ::
              w.store == old(repo.store) && k in w.views && Asked(w.views[k], e) == Some(c) && !report.NotRun?
              ==> Committed(w, k, e, report).store == repo.store
  {
    hide CreateFault, UpdateFault, NextFault, Created, Updated, NextGeneration, Asked;
    var x := c.context;
    match c
    case Creating(_) =>
      if |x.messages| == 0 { return Fault(StaleSequence); }
      r := repo.CommitCreateMessage(x, x.messages[|x.messages| - 1], x.messages[|x.messages| - 1]);
    case Updating(_) =>
      if |x.messages| == 0 { return Fault(StaleSequence); }
      r := repo.CommitUpdateMessage(x, x.messages[0]);
    case Renewing(_) =>
      r := repo.CommitNextMemoryGeneration(x);
  }

  /** What the repository loads is what a step reads. */
  method Fetch(repo: SqliteSessionRepo) returns (r: Loaded)
    ensures r.Loaded? ==> Reads(repo.store, r.context)
  {
    assert Reads(Store(None, map[], map[], 0), EmptyContext());
    r := repo.GetRequestContext();
    if r.Loaded? && repo.store.head.None? { assert r.context == EmptyContext(); }
  }

  /** And its reservations are theirs. */
  method Reserve(repo: SqliteSessionRepo) returns (number: Option<nat>)
    modifies repo
    ensures repo.store == Reserved(old(repo.store)) && (number.Some? ==> number.value == repo.store.reserved)
  {
    number := repo.ReserveMessageSequence();
  }
}
