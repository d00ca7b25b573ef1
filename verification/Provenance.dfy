/** Runs of the operations that change a working set, with the log of every number ever committed. */
module Provenance {
  import opened Words
  import opened Messages
  import opened Lineage
  import opened SessionState
  import Compress
  import Summary

  datatype State = State(context: Context, log: seq<nat>)

  /** Account covers what leaves the messages alone: token accounts, revision and generation. */
  datatype Op =
    | Upsert(content: string, est: Estimator)
    | Append(m: Message)
    | Repack(out: seq<Message>)
    | Merge(b: nat, summary: string, merged: seq<Message>)
    | Account(revision: nat, generation: nat, used: Tokens, window: Tokens)

  /** Texts, reasoning and archive references of assistant and tool messages may change; nothing else does. */
  ghost predicate Repacked(a: seq<Message>, b: seq<Message>) {
    && |a| == |b|
    && forall i :: 0 <= i < |a| ==>
         if Compress.Trimmable(a[i])
         then b[i] == a[i].(content := b[i].content, reasoning := b[i].reasoning, artifact := b[i].artifact)
         else b[i] == a[i]
  }

  /** A message is appended after the system prompt only: without one the candidate would not be valid. */
  ghost predicate Enabled(s: State, op: Op) {
    match op
    case Upsert(_, _) => true
    case Append(m) => |s.context.messages| > 0 && Identify(s.context.last, m).Identified?
    case Repack(out) => Repacked(s.context.messages, out)
    case Merge(b, summary, merged) => Summary.MergeOf(s.context.messages, b, summary, merged)
    case Account(_, generation, _, _) => generation > 0
  }

  ghost function Do(s: State, op: Op): State
    requires Enabled(s, op)
  {
    var c := s.context;
    match op
    case Upsert(content, est) =>
      State(Upserted(c, content, est), if |c.messages| == 0 then s.log + [c.last + 1] else s.log)
    case Append(m) =>
      var msg := Identify(c.last, m).msg;
      State(Appended(c, msg), s.log + [msg.number])
    case Repack(out) => State(c.(messages := out), s.log)
    case Merge(_, _, merged) => State(c.(messages := merged), s.log)
    case Account(revision, generation, used, window) =>
      State(c.(revision := revision, generation := generation, used := used, window := window), s.log)
  }

  ghost predicate Next(s: State, t: State) {
    exists op :: Enabled(s, op) && t == Do(s, op)
  }

  ghost predicate Initial(s: State) {
    s.context.messages == [] && s.context.last == 0 && s.context.generation == 1 && s.log == []
  }

  ghost predicate IsRun(run: seq<State>) {
    |run| > 0 && Initial(run[0]) && forall i :: 0 <= i < |run| - 1 ==> Next(run[i], run[i + 1])
  }

  ghost predicate Reachable(s: State) {
    exists run :: IsRun(run) && run[|run| - 1] == s
  }

  // ---------------------------------------------------------------- every operation keeps the partition

  ghost predicate Sound(s: State) {
    Valid(s.context) && Partition(s.context.messages, s.log)
  }

  lemma RepackedKeeps(s: State, out: seq<Message>)
    requires Sound(s) && Repacked(s.context.messages, out)
    ensures Sound(Do(s, Repack(out)))
  {
    hide Flat, Increasing, Valid;
    FlatOfSameOriginals(s.context.messages, out);
    ValidOfSameIdentity(s.context, out);
  }

  lemma MergeKeeps(s: State, b: nat, summary: string, out: seq<Message>)
    requires Sound(s) && Summary.MergeOf(s.context.messages, b, summary, out)
    ensures Sound(Do(s, Merge(b, summary, out)))
  {
    hide Valid, Partition, Summary.MergeOf;
    Summary.MergeKeepsPartition(s.context.messages, b, summary, out, s.log);
    MergeIsValid(s, b, summary, out);
  }

  lemma MergeIsValid(s: State, b: nat, summary: string, out: seq<Message>)
    requires Sound(s) && Summary.MergeOf(s.context.messages, b, summary, out) && Partition(out, s.log)
    ensures Valid(s.context.(messages := out))
  {
    SummaryListIsValid(s, b, out);
    hide Partition, OriginalsValid, Summary.MergeOf;
    var msgs, last := s.context.messages, s.context.last;
    MergeNumbers(msgs, b, summary, out, last);
    forall i | 0 <= i < |out| ensures OriginalsValid(out[i], last) && (out[i].role == System <==> i == 0) {
      Summary.MergeAt(msgs, b, summary, out, i);
    }
    Summary.MergeAt(msgs, b, summary, out, |out| - 1);
  }

  lemma MergeNumbers(msgs: seq<Message>, b: nat, summary: string, out: seq<Message>, last: nat)
    requires Summary.MergeOf(msgs, b, summary, out) && NumbersValid(msgs, last)
    ensures NumbersValid(out, last)
  {
    hide Summary.MergeOf;
    forall i | 0 <= i < |out| ensures 0 < out[i].number <= last {
      Summary.MergeAt(msgs, b, summary, out, i);
    }
    forall i, j | 0 <= i < j < |out| ensures out[i].number < out[j].number {
      Summary.MergeAt(msgs, b, summary, out, i);
      Summary.MergeAt(msgs, b, summary, out, j);
    }
  }

  lemma SummaryListIsValid(s: State, b: nat, out: seq<Message>)
    requires Sound(s) && 1 < b < |s.context.messages| && |out| > 1 && Partition(out, s.log)
    requires forall x :: x in out[1].original <==> Covered(s.context.messages[1..b], x)
    ensures OriginalsValid(out[1], s.context.last)
  {
    var msgs, list := s.context.messages, out[1].original;
    ListsLieBetweenNumbers(out, s.log, 1);
    forall k | 0 <= k < |list| ensures 0 < list[k] <= s.context.last {
      assert list[k] in list;
      var i: nat :| StandsFor(msgs[1..b], i, list[k]);
      assert list[k] in msgs[i + 1].original && OriginalsValid(msgs[i + 1], s.context.last);
    }
  }

  lemma AppendKeeps(s: State, m: Message)
    requires Sound(s) && Enabled(s, Append(m))
    ensures Sound(Do(s, Append(m)))
  {
    AppendedIsValid(s.context, m);
    forall k | 0 <= k < |s.log| ensures s.log[k] <= s.context.last {
      LogUpToLast(s, s.log[k]);
    }
    hide Valid, Partition;
    PartitionGrows(s.context.messages, s.log, Identify(s.context.last, m).msg);
  }

  lemma LogUpToLast(s: State, x: nat)
    requires Sound(s) && x in s.log
    ensures x <= s.context.last
  {
    FlatCovers(s.context.messages, x);
    var i: nat :| StandsFor(s.context.messages, i, x);
    assert OriginalsValid(s.context.messages[i], s.context.last);
  }

  lemma UpsertKeeps(s: State, content: string, est: Estimator)
    requires Sound(s)
    ensures Sound(Do(s, Upsert(content, est)))
  {
    var t := Do(s, Upsert(content, est));
    UpsertedIsValid(s.context, content, est);
    if |s.context.messages| == 0 {
      FlatOfOne(t.context.messages[0]);
    } else {
      FlatOfSameOriginals(s.context.messages, t.context.messages);
    }
  }

  lemma StepKeeps(s: State, op: Op)
    requires Sound(s) && Enabled(s, op)
    ensures Sound(Do(s, op))
  {
    hide Partition;
    match op
    case Upsert(content, est) => UpsertKeeps(s, content, est);
    case Append(m) => AppendKeeps(s, m);
    case Repack(out) => RepackedKeeps(s, out);
    case Merge(b, summary, merged) => MergeKeeps(s, b, summary, merged);
    case Account(_, _, _, _) =>
  }

  lemma {:induction false} RunKeeps(run: seq<State>)
    requires IsRun(run)
    ensures Sound(run[|run| - 1])
  {
    var n := |run| - 1;
    if n > 0 {
      hide Sound, Do, Enabled;
      RunKeeps(run[..n]);
      assert Next(run[n - 1], run[n]);
      var op :| Enabled(run[n - 1], op) && run[n] == Do(run[n - 1], op);
      StepKeeps(run[n - 1], op);
    }
  }

  // ---------------------------------------------------------------- the results

  /** In every run the working set stays valid and its lists stay an ordered partition of every number committed. */
  lemma ListsPartitionTheLog(s: State)
    requires Reachable(s)
    ensures Valid(s.context) && Partition(s.context.messages, s.log)
  {
    hide Valid, Partition;
    var run :| IsRun(run) && run[|run| - 1] == s;
    RunKeeps(run);
  }

  /** Each list lies between its message's number and the next one's; every committed number has exactly one home,
      and none was committed that is not in the log. */
  lemma EveryNumberHasOneHome(s: State, x: nat)
    requires Reachable(s)
    ensures x in s.log <==> Covered(s.context.messages, x)
    ensures x in s.log ==>
              exists i: nat :: StandsFor(s.context.messages, i, x) && forall j: nat :: StandsFor(s.context.messages, j, x) ==> j == i
    ensures forall i: nat :: StandsFor(s.context.messages, i, x) ==>
              && s.context.messages[i].number <= x
              && (i + 1 < |s.context.messages| ==> x < s.context.messages[i + 1].number)
  {
    ListsPartitionTheLog(s);
    FlatCovers(s.context.messages, x);
    if x in s.log { OneHome(s.context.messages, s.log, x); }
    forall i: nat | StandsFor(s.context.messages, i, x)
      ensures s.context.messages[i].number <= x
              && (i + 1 < |s.context.messages| ==> x < s.context.messages[i + 1].number)
    {
      ListsLieBetweenNumbers(s.context.messages, s.log, i);
    }
  }

  /** A summary merge at a proper boundary is never refused. */
  lemma MergeIsNeverRefused(s: State, b: nat, content: string)
    requires Reachable(s) && 1 < b < |s.context.messages| && content != ""
    ensures Summary.FirstFault(s.context.messages, b, content) == None
  {
    ListsPartitionTheLog(s);
    Summary.NeverRefused(s.context.messages, b, content, s.log);
  }
}
