/** The session repository of internal/infrastructure/sessionrepo: the tables of one session and the transactions
    on them. A transaction either writes everything it says or nothing. */
module Repository {
  import opened Words
  import opened Messages
  import opened Lineage
  import opened SessionState
  import Summary

  /** A row of request_contexts. */
  datatype Row = Row(
    mode: string, workDir: string, revision: nat, generation: nat, last: nat, used: Tokens, window: Tokens)

  /** Memory rows are keyed by generation and number, original rows by number; reserved 0 stands for no row. */
  datatype Store = Store(
    head: Option<Row>, memory: map<(nat, nat), Message>, originals: map<nat, Message>, reserved: nat)

  datatype CommitFault =
    | Invalid | Conflict | StaleSequence | StaleGeneration | WorkDirIsImmutable | ModeIsImmutable | Duplicate

  datatype Outcome = Done(revision: nat) | Fault(why: CommitFault)

  function RowOf(c: Context, revision: nat): Row {
    Row(c.mode, c.workDir, revision, c.generation, c.last, c.used, c.window)
  }

  function ContextOf(row: Row, messages: seq<Message>): Context {
    Context(row.mode, row.workDir, row.revision, row.generation, row.last, messages, row.used, row.window)
  }

  // ---------------------------------------------------------------- what the transactions do

  function CreatedFault(c: Context, original: Message, memory: Message): Option<CommitFault> {
    if original.number == 0 || original.number != c.last || original.original != [original.number] then Some(StaleSequence)
    else if original != memory || |c.messages| == 0 || c.messages[|c.messages| - 1] != memory then Some(StaleSequence)
    else None
  }

  /** validateCreateTransition. */
  function TransitionFault(c: Context, head: Option<Row>, reserved: nat): Option<CommitFault> {
    match head
    case None =>
      if c.revision != 0 then Some(Conflict)
      else if c.generation != 1 then Some(StaleGeneration)
      else if c.last != 1 || |c.messages| != 1 then Some(StaleSequence)
      else None
    case Some(row) =>
      if row.workDir != "" && c.workDir != row.workDir then Some(WorkDirIsImmutable)
      else if row.mode != "" && c.mode != row.mode then Some(ModeIsImmutable)
      else if row.revision != c.revision then Some(Conflict)
      else if row.generation != c.generation then Some(StaleGeneration)
      else if row.last == MAX64 || c.last <= row.last || (c.last != row.last + 1 && c.last != reserved) then Some(StaleSequence)
      else None
  }

  ghost function CreateFault(s: Store, c: Context, original: Message, memory: Message): Option<CommitFault> {
    if !Valid(c) then Some(Invalid)
    else if CreatedFault(c, original, memory).Some? then CreatedFault(c, original, memory)
    else if c.revision == MAX64 then Some(Conflict)
    else if TransitionFault(c, s.head, s.reserved).Some? then TransitionFault(c, s.head, s.reserved)
    else if original.number in s.originals || (c.generation, memory.number) in s.memory then Some(Duplicate)
    else None
  }

  function Created(s: Store, c: Context, original: Message, memory: Message): Store {
    Store(Some(RowOf(c, c.revision + 1)), s.memory[(c.generation, memory.number) := memory],
          s.originals[original.number := original], s.reserved)
  }

  /** The checks that an update and a new generation share. */
  function HeadFault(s: Store, c: Context): Option<CommitFault> {
    if s.head.None? || s.head.value.revision != c.revision then Some(Conflict)
    else if s.head.value.workDir != "" && c.workDir != s.head.value.workDir then Some(WorkDirIsImmutable)
    else if s.head.value.last != c.last then Some(StaleSequence)
    else None
  }

  /** The first message of that number, if any, is the given one. */
  function ContainsFirst(msgs: seq<Message>, m: Message): bool {
    |msgs| > 0 && if msgs[0].number == m.number then msgs[0] == m else ContainsFirst(msgs[1..], m)
  }

  ghost function UpdateFault(s: Store, c: Context, m: Message): Option<CommitFault> {
    if !Valid(c) then Some(Invalid)
    else if !ContainsFirst(c.messages, m) then Some(StaleSequence)
    else if c.revision == MAX64 then Some(Conflict)
    else if HeadFault(s, c).Some? then HeadFault(s, c)
    else if s.head.value.generation != c.generation then Some(StaleGeneration)
    else if (c.generation, m.number) !in s.memory then Some(StaleSequence)
    else None
  }

  function Updated(s: Store, c: Context, m: Message): Store {
    s.(head := Some(RowOf(c, c.revision + 1)), memory := s.memory[(c.generation, m.number) := m])
  }

  /** The rows of the first `n` messages added; None when one of them is taken already. */
  function Inserted(memory: map<(nat, nat), Message>, generation: nat, msgs: seq<Message>, n: nat): Option<map<(nat, nat), Message>>
    requires n <= |msgs|
  {
    if n == 0 then Some(memory)
    else
      var before := Inserted(memory, generation, msgs, n - 1);
      var key := (generation, msgs[n - 1].number);
      if before.None? || key in before.value then None else Some(before.value[key := msgs[n - 1]])
  }

  ghost function NextFault(s: Store, c: Context): Option<CommitFault> {
    if !Valid(c) then Some(Invalid)
    else if c.revision == MAX64 then Some(Conflict)
    else if HeadFault(s, c).Some? then HeadFault(s, c)
    else if s.head.value.generation == MAX64 || c.generation != s.head.value.generation + 1 then Some(StaleGeneration)
    else if Inserted(s.memory, c.generation, c.messages, |c.messages|).None? then Some(Duplicate)
    else None
  }

  function NextGeneration(s: Store, c: Context): Store
    requires Inserted(s.memory, c.generation, c.messages, |c.messages|).Some?
  {
    s.(head := Some(RowOf(c, c.revision + 1)), memory := Inserted(s.memory, c.generation, c.messages, |c.messages|).value)
  }

  /** `msgs` is what the rows of a generation read in order of number. */
  ghost predicate RowsAre(memory: map<(nat, nat), Message>, generation: nat, msgs: seq<Message>) {
    && (forall i, j :: 0 <= i < j < |msgs| ==> msgs[i].number < msgs[j].number)
    && (forall i :: 0 <= i < |msgs| ==>
          (generation, msgs[i].number) in memory && Read(memory, generation, msgs[i].number) == msgs[i])
    && forall n: nat :: (generation, n) in memory ==> HasNumber(msgs, n)
  }

  /** A row read back carries the number it is filed under. */
  function Read(memory: map<(nat, nat), Message>, generation: nat, n: nat): Message
    requires (generation, n) in memory
  {
    memory[(generation, n)].(number := n)
  }

  predicate HasNumber(msgs: seq<Message>, n: nat) {
    exists i :: 0 <= i < |msgs| && msgs[i].number == n
  }

  function EmptyContext(): Context {
    Context("", "", 0, 1, 0, [], Tokens(0, 0), Tokens(0, 0))
  }

  datatype Loaded = Loaded(context: Context) | Unreadable

  // ---------------------------------------------------------------- the transactions as the source runs them

  /** The reservation after one more number was taken. */
  function Reserved(s: Store): Store {
    if s.head.None? then s
    else
      var last := s.head.value.last;
      s.(reserved := if s.reserved == 0 then last + 1 else (if s.reserved >= last then s.reserved else last) + 1)
  }

  predicate SameRow<K(==), V(==)>(a: map<K, V>, b: map<K, V>, key: K) {
    (key in a <==> key in b) && (key in a ==> a[key] == b[key])
  }

  /** One row is written under its key, and every other row is as before. */
  ghost predicate OnlyRow<K(!new), V>(a: map<K, V>, b: map<K, V>, key: K, row: V) {
    key in b && b[key] == row && forall k :: k != key ==> (k in a <==> k in b) && (k in a ==> a[k] == b[k])
  }

  /** The head row says what the context says, one revision on. */
  predicate HeadIs(s: Store, c: Context) {
    s.head == Some(Row(c.mode, c.workDir, c.revision + 1, c.generation, c.last, c.used, c.window))
  }

  lemma UpdatedIs(s: Store, c: Context, m: Message)
    ensures HeadIs(Updated(s, c, m), c) && OnlyRow(s.memory, Updated(s, c, m).memory, (c.generation, m.number), m)
  {
  }

  class SqliteSessionRepo {
    var store: Store

    constructor ()
      ensures store == Store(None, map[], map[], 0)
    {
      store := Store(None, map[], map[], 0);
    }

    method GetRequestContext() returns (r: Loaded)
      ensures store.head.None? ==> r == Loaded(EmptyContext())
      ensures store.head.Some? ==>
                exists msgs ::
                  && RowsAre(store.memory, store.head.value.generation, msgs)
                  && var c := ContextOf(store.head.value, msgs); r == if Valid(c) then Loaded(c) else Unreadable
    {
      if store.head.None? { return Loaded(EmptyContext()); }
      var generation, memory := store.head.value.generation, store.memory;
      var numbers := set key | key in memory.Keys && key.0 == generation :: key.1;
      var sorted := Summary.Sort(numbers);
      var msgs: seq<Message> := [];
      var i := 0;
      while i < |sorted|
        invariant 0 <= i <= |sorted| && |msgs| == i
        invariant forall j :: 0 <= j < i ==> (generation, sorted[j]) in memory && msgs[j] == Read(memory, generation, sorted[j])
        invariant forall j :: 0 <= j < i ==> msgs[j].number == sorted[j]
      {
        assert sorted[i] in numbers;
        msgs := msgs + [Read(memory, generation, sorted[i])];
        i := i + 1;
      }
      forall n: nat | (generation, n) in memory ensures HasNumber(msgs, n) {
        assert (generation, n) in memory.Keys && n in numbers;
        assert n in sorted;
        var j :| 0 <= j < |sorted| && sorted[j] == n;
        assert msgs[j].number == n;
      }
      assert RowsAre(memory, generation, msgs);
      var c := ContextOf(store.head.value, msgs);
      var ok := Validate(c);
      if !ok { return Unreadable; }
      return Loaded(c);
    }

    method CommitCreateMessage(c: Context, original: Message, memory: Message) returns (r: Outcome)
      modifies this
      ensures match CreateFault(old(store), c, original, memory)
              case Some(fault) => r == Fault(fault) && store == old(store)
              case None => r == Done(c.revision + 1) && store == Created(old(store), c, original, memory)
      ensures r.Done? ==>
                && HeadIs(store, c) && store.reserved == old(store.reserved)
                && OnlyRow(old(store.originals), store.originals, c.last, original)
                && OnlyRow(old(store.memory), store.memory, (c.generation, c.last), memory)
    {
      var ok := Validate(c);
      if !ok { return Fault(Invalid); }
      if original.number == 0 || original.number != c.last { return Fault(StaleSequence); }
      if |original.original| != 1 || original.original[0] != original.number { return Fault(StaleSequence); }
      assert original.original == [original.number];
      if original != memory { return Fault(StaleSequence); }
      if |c.messages| == 0 || c.messages[|c.messages| - 1] != memory { return Fault(StaleSequence); }
      if c.revision == MAX64 { return Fault(Conflict); }
      var fault := TransitionFault(c, store.head, store.reserved);
      if fault.Some? { return Fault(fault.value); }
      if original.number in store.originals || (c.generation, memory.number) in store.memory { return Fault(Duplicate); }
      store := store.(head := Some(RowOf(c, c.revision + 1)));
      store := store.(originals := store.originals[original.number := original]);
      store := store.(memory := store.memory[(c.generation, memory.number) := memory]);
      return Done(c.revision + 1);
    }

    method CommitUpdateMessage(c: Context, m: Message) returns (r: Outcome)
      modifies this
      ensures match UpdateFault(old(store), c, m)
              case Some(fault) => r == Fault(fault) && store == old(store)
              case None => r == Done(c.revision + 1) && store == Updated(old(store), c, m)
      ensures r.Done? ==>
                && HeadIs(store, c) && store.reserved == old(store.reserved) && store.originals == old(store.originals)
                && m in c.messages && OnlyRow(old(store.memory), store.memory, (c.generation, m.number), m)
    {
      hide Valid, RowOf, OnlyRow, HeadIs;
      var ok := Validate(c);
      if !ok { return Fault(Invalid); }
      var i := 0;
      while i < |c.messages| && c.messages[i].number != m.number
        invariant 0 <= i <= |c.messages| && ContainsFirst(c.messages, m) == ContainsFirst(c.messages[i..], m)
      {
        i := i + 1;
      }
      if i == |c.messages| || c.messages[i] != m { return Fault(StaleSequence); }
      if c.revision == MAX64 { return Fault(Conflict); }
      if store.head.None? || store.head.value.revision != c.revision { return Fault(Conflict); }
      if store.head.value.workDir != "" && c.workDir != store.head.value.workDir { return Fault(WorkDirIsImmutable); }
      if store.head.value.last != c.last { return Fault(StaleSequence); }
      if store.head.value.generation != c.generation { return Fault(StaleGeneration); }
      if (c.generation, m.number) !in store.memory { return Fault(StaleSequence); }
      store := store.(memory := store.memory[(c.generation, m.number) := m]);
      store := store.(head := Some(RowOf(c, c.revision + 1)));
      UpdatedIs(old(store), c, m);
      return Done(c.revision + 1);
    }

    method CommitNextMemoryGeneration(c: Context) returns (r: Outcome)
      modifies this
      ensures match NextFault(old(store), c)
              case Some(fault) => r == Fault(fault) && store == old(store)
              case None => r == Done(c.revision + 1) && store == NextGeneration(old(store), c)
      ensures r.Done? ==>
                && HeadIs(store, c) && store.reserved == old(store.reserved) && store.originals == old(store.originals)
                && (forall i :: 0 <= i < |c.messages| ==>
                      var key := (c.generation, c.messages[i].number);
                      key in store.memory && store.memory[key] == c.messages[i] && key !in old(store.memory))
                && forall g: nat, n: nat :: g != c.generation || !HasNumber(c.messages, n) ==>
                     SameRow(old(store.memory), store.memory, (g, n))
    {
      var ok := Validate(c);
      if !ok { return Fault(Invalid); }
      if c.revision == MAX64 { return Fault(Conflict); }
      if store.head.None? || store.head.value.revision != c.revision { return Fault(Conflict); }
      if store.head.value.workDir != "" && c.workDir != store.head.value.workDir { return Fault(WorkDirIsImmutable); }
      if store.head.value.last != c.last { return Fault(StaleSequence); }
      if store.head.value.generation == MAX64 || c.generation != store.head.value.generation + 1 {
        return Fault(StaleGeneration);
      }
      var memory := store.memory;
      var i := 0;
      while i < |c.messages|
        invariant 0 <= i <= |c.messages| && Inserted(store.memory, c.generation, c.messages, i) == Some(memory)
        invariant store == old(store)
      {
        if (c.generation, c.messages[i].number) in memory {
          StaysTaken(store.memory, c.generation, c.messages, i + 1, |c.messages|);
          return Fault(Duplicate);
        }
        memory := memory[(c.generation, c.messages[i].number) := c.messages[i]];
        i := i + 1;
      }
      InsertedRows(store.memory, c.generation, c.messages, |c.messages|);
      assert c.messages[..|c.messages|] == c.messages;
      store := store.(memory := memory);
      store := store.(head := Some(RowOf(c, c.revision + 1)));
      return Done(c.revision + 1);
    }

    /** A number after the last message and after every number reserved before. */
    method ReserveMessageSequence() returns (number: Option<nat>)
      modifies this
      ensures store == Reserved(old(store))
      ensures store.head == old(store.head) && store.memory == old(store.memory) && store.originals == old(store.originals)
      ensures number.None? <==> old(store.head).None?
      ensures number.None? ==> store == old(store)
      ensures number.Some? ==>
                && store.reserved == number.value
                && number.value > old(store).head.value.last && number.value > old(store).reserved
                && (number.value == old(store).head.value.last + 1 || number.value == old(store).reserved + 1)
    {
      if store.head.None? { return None; }
      var last := store.head.value.last;
      if store.reserved == 0 {
        store := store.(reserved := last + 1);
      } else {
        store := store.(reserved := (if store.reserved >= last then store.reserved else last) + 1);
      }
      return Some(store.reserved);
    }
  }

  lemma {:induction false} StaysTaken(memory: map<(nat, nat), Message>, generation: nat, msgs: seq<Message>, i: nat, n: nat)
    requires i <= n <= |msgs| && Inserted(memory, generation, msgs, i).None?
    ensures Inserted(memory, generation, msgs, n).None?
    decreases n
  {
    if i < n { StaysTaken(memory, generation, msgs, i, n - 1); }
  }

  /** Rows inserted one after the other are all there, were not before, and nothing else changed. */
  lemma {:induction false} InsertedRows(memory: map<(nat, nat), Message>, generation: nat, msgs: seq<Message>, n: nat)
    requires n <= |msgs| && Inserted(memory, generation, msgs, n).Some?
    ensures var out := Inserted(memory, generation, msgs, n).value;
            && (forall i :: 0 <= i < n ==>
                  var key := (generation, msgs[i].number); key in out && out[key] == msgs[i] && key !in memory)
            && forall g: nat, k: nat :: g != generation || !HasNumber(msgs[..n], k) ==> SameRow(memory, out, (g, k))
  {
    if n > 0 {
      InsertedRows(memory, generation, msgs, n - 1);
      var before := Inserted(memory, generation, msgs, n - 1).value;
      assert forall k: nat :: HasNumber(msgs[..n - 1], k) ==> HasNumber(msgs[..n], k) by {
        forall k: nat | HasNumber(msgs[..n - 1], k) ensures HasNumber(msgs[..n], k) {
          var i :| 0 <= i < n - 1 && msgs[..n - 1][i].number == k;
          assert msgs[..n][i].number == k;
        }
      }
      assert HasNumber(msgs[..n], msgs[n - 1].number) by { assert msgs[..n][n - 1] == msgs[n - 1]; }
    }
  }

  /** The rows of a generation read as one list only. */
  lemma RowsReadOnce(memory: map<(nat, nat), Message>, generation: nat, a: seq<Message>, b: seq<Message>)
    requires RowsAre(memory, generation, a) && RowsAre(memory, generation, b)
    ensures a == b
  {
    var x, y := Numbers(a), Numbers(b);
    forall n: nat ensures n in x <==> n in y {
      assert n in x <==> HasNumber(a, n);
      assert n in y <==> HasNumber(b, n);
    }
    IncreasingUnique(x, y);
    assert |a| == |x| && |b| == |y|;
    forall i | 0 <= i < |a| ensures a[i] == b[i] {
      assert x[i] == y[i];
    }
  }

  function Numbers(msgs: seq<Message>): (r: seq<nat>)
    ensures |r| == |msgs| && forall i :: 0 <= i < |msgs| ==> r[i] == msgs[i].number
  {
    seq(|msgs|, i requires 0 <= i < |msgs| => msgs[i].number)
  }
}
