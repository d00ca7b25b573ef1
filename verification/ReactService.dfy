/** The service of internal/application/reactservice: context compaction (local trimming first, a model summary
    second, one commit at the end), recovery, and the loop between model and tools. */
module ReactService {
  import opened Words
  import opened Messages
  import opened Lineage
  import opened Pairing
  import opened SessionState
  import opened ToolGroups
  import Compress
  import CompressedTexts
  import Provenance
  import Summary

  const TRIGGER_PERCENT: nat := 80
  const TARGET_PERCENT: nat := 60

  /** The fields of a message that a provider is sent. */
  datatype Sent = Sent(role: Role, content: string, reasoning: string, calls: seq<Call>, callId: string, other: string)

  function Serialized(msgs: seq<Message>): seq<Sent> {
    seq(|msgs|, i requires 0 <= i < |msgs| =>
      Sent(msgs[i].role, msgs[i].content, msgs[i].reasoning, msgs[i].calls, msgs[i].callId, msgs[i].other))
  }

  type Counter = seq<Sent> -> nat

  datatype Fault =
    | InvalidBudget | CountFailed | ArchiveMissing | ArchiveFailed | CompressRefused | TargetNotReached | SummaryFailed
    | GenerationExhausted | CommitFailed

  /** One call of the summary model: what it was given, and what came back. */
  datatype SummaryCall = SummaryCall(source: seq<Message>, previous: string, most: int, reply: Option<string>, used: Tokens)

  function UsedBy(calls: seq<SummaryCall>): Tokens {
    if |calls| == 0 then Tokens(0, 0) else UsedBy(calls[..|calls| - 1]).Plus(calls[|calls| - 1].used)
  }

  /** The provider's token count, which may fail, the summary model and the model itself; it remembers its summaries and
      its answers. */
  class Provider {
    var summaries: seq<SummaryCall>
    var answers: seq<Message>
    const counter: Counter
    const window: int
    const reservedOutput: int

    constructor (counter: Counter, window: int, reservedOutput: int)
      ensures this.counter == counter && this.window == window && this.reservedOutput == reservedOutput
    {
      this.counter := counter;
      this.window := window;
      this.reservedOutput := reservedOutput;
      summaries, answers := [], [];
    }

    /** A history that may be sent: below the trigger, or compacted to the target. */
    predicate Fits(msgs: seq<Message>) {
      var maxInput, count := window - reservedOutput, counter(Serialized(msgs));
      count < maxInput * TRIGGER_PERCENT / 100 || count <= maxInput * TARGET_PERCENT / 100
    }

    method CountInputTokens(msgs: seq<Message>) returns (count: Option<nat>)
      ensures count.Some? ==> count.value == counter(Serialized(msgs))
    {
      var up: bool := *;
      return if up then Some(counter(Serialized(msgs))) else None;
    }

    /** Any text may come back, or none. */
    method GenerateContextSummary(source: seq<Message>, previous: string, most: int) returns (text: Option<string>, used: Tokens)
      modifies this`summaries
      ensures summaries == old(summaries) + [SummaryCall(source, previous, most, text, used)]
    {
      var up: bool := *;
      var t: string := *;
      used := *;
      text := if up then Some(t) else None;
      summaries := summaries + [SummaryCall(source, previous, most, text, used)];
    }

    /** A call to the model: verified callers only ever send histories in which every call is closed, and none before its
        exact count was found to fit. */
    method GenerateStream(msgs: seq<Message>) returns (reply: Option<Message>)
      requires AllClosed(msgs) && NoOrphans(msgs) && SystemFirst(msgs) && Fits(msgs)
      modifies this`answers
      ensures reply.Some? ==> reply.value.role == Assistant && answers == old(answers) + [reply.value]
    {
      var up: bool := *;
      var m: Message := *;
      if !up { return None; }
      m := m.(role := Assistant);
      answers := answers + [m];
      return Some(m);
    }
  }

  /** The stored head of the session. A commit may be refused, or run without its result being heard. */
  class Store {
    var head: Context

    constructor (head: Context)
      ensures this.head == head
    {
      this.head := head;
    }

    method Commit(candidate: Context) returns (heard: bool)
      modifies this
      ensures head == old(head)
              || (candidate.revision == old(head).revision && Valid(candidate) && head == candidate.(revision := candidate.revision + 1))
      ensures heard ==>
                candidate.revision == old(head).revision && Valid(candidate) && head == candidate.(revision := candidate.revision + 1)
    {
      var valid := Validate(candidate);
      if !valid { return false; }
      var refused: bool := *;
      if refused || candidate.revision != head.revision { return false; }
      head := candidate.(revision := candidate.revision + 1);
      var lost: bool := *;
      return !lost;
    }
  }

  class CompactionRun {
    const candidate: Session
    const protectedStart: nat
    const target: nat
    var current: nat
    var summarySource: seq<Message>
    var passes: nat
    var summaryCalls: nat
    var summaryUsed: Tokens

    constructor (candidate: Session, protectedStart: nat, target: nat, current: nat)
      ensures this.candidate == candidate && this.protectedStart == protectedStart && this.target == target
      ensures this.current == current && summarySource == [] && passes == 0 && summaryCalls == 0 && summaryUsed == Tokens(0, 0)
    {
      this.candidate := candidate;
      this.protectedStart := protectedStart;
      this.target := target;
      this.current := current;
      summarySource := [];
      passes, summaryCalls, summaryUsed := 0, 0, Tokens(0, 0);
    }
  }

  // ---------------------------------------------------------------- what one message's commit may do

  /** One message handed to the session: the session and the stored head before and after. */
  datatype Turn = Turn(m: Message, before: Context, head: Context, after: Context, head': Context, heard: bool)

  /** The message is appended under its number and committed against the head's revision; the session follows only when
      it hears of the commit. */
  ghost predicate Turned(t: Turn) {
    match Identify(t.before.last, t.m)
    case Refused(_) => !t.heard && t.after == t.before && t.head' == t.head
    case Identified(m) =>
      var candidate := Appended(t.before, m);
      var next := candidate.(revision := candidate.revision + 1);
      var runs := candidate.revision == t.head.revision && Valid(candidate) && t.head' == next;
      if t.heard then runs && t.after == next else t.after == t.before && (t.head' == t.head || runs)
  }

  /** Turns that follow each other. */
  ghost predicate Chained(turns: seq<Turn>, before: Context, head: Context, after: Context, head': Context) {
    if |turns| == 0 then after == before && head' == head
    else
      var n := |turns| - 1;
      && Chained(turns[..n], before, head, turns[n].before, turns[n].head)
      && Turned(turns[n]) && after == turns[n].after && head' == turns[n].head'
  }

  /** One result for each of the calls, in order, until a commit is not heard. */
  ghost predicate FillsIn(turns: seq<Turn>, calls: seq<Call>, ok: bool) {
    && |turns| <= |calls|
    && (forall i :: 0 <= i < |turns| ==>
          && turns[i].m == ToolMessage(0, calls[i].id, turns[i].m.content)
          && turns[i].m.role == Tool && turns[i].m.callId == calls[i].id)
    && (forall i :: 0 <= i < |turns| - 1 ==> turns[i].heard)
    && if ok then |turns| == |calls| && (|turns| > 0 ==> turns[|turns| - 1].heard) else |turns| > 0 && !turns[|turns| - 1].heard
  }

  lemma NoTurns(calls: seq<Call>, c: Context, head: Context)
    ensures Chained([], c, head, c, head) && FillsIn([], [], true) && FillsIn([], calls[..0], true)
  {
  }

  lemma ChainedOn(turns: seq<Turn>, t: Turn, before: Context, head: Context)
    requires Chained(turns, before, head, t.before, t.head) && Turned(t)
    ensures Chained(turns + [t], before, head, t.after, t.head')
  {
    assert (turns + [t])[..|turns|] == turns;
  }

  lemma FillsInOn(turns: seq<Turn>, t: Turn, calls: seq<Call>, content: string)
    requires |turns| < |calls| && FillsIn(turns, calls[..|turns|], true) && t.m == ToolMessage(0, calls[|turns|].id, content)
    ensures t.heard ==> FillsIn(turns + [t], calls[..|turns| + 1], true)
    ensures !t.heard ==> FillsIn(turns + [t], calls, false)
  {
    var turns', n := turns + [t], |turns|;
    assert forall i :: 0 <= i < n ==> turns'[i] == turns[i] && calls[..n][i] == calls[i];
    assert forall i :: 0 <= i < n ==> turns'[i].heard;
  }

  // ---------------------------------------------------------------- what a compaction may do to the messages

  /** The lists of a working set partition what they list. */
  ghost predicate Listed(msgs: seq<Message>) {
    Partition(msgs, Flat(msgs))
  }

  /** Only artifact references of tool messages before `b` were added. */
  ghost predicate Archived(msgs: seq<Message>, out: seq<Message>, b: nat) {
    && |out| == |msgs|
    && forall i :: 0 <= i < |msgs| ==>
         if i < b && msgs[i].role == Tool then out[i] == msgs[i].(artifact := out[i].artifact) else out[i] == msgs[i]
  }

  /** The messages to be summarized: with the new artifact references, but before anything is trimmed. */
  ghost predicate SourceOf(msgs: seq<Message>, source: seq<Message>, b: nat) {
    && 1 < b <= |msgs| && |source| == b - 1
    && forall i :: 0 <= i < b - 1 ==>
         source[i] == (if msgs[i + 1].role == Tool then msgs[i + 1].(artifact := source[i].artifact) else msgs[i + 1])
  }

  ghost predicate HaveArtifacts(msgs: seq<Message>, indices: seq<nat>) {
    forall i :: i in indices ==> i < |msgs| && msgs[i].artifact.Some?
  }

  lemma StartsWithin(msgs: seq<Message>, out: seq<Message>, b: nat)
    requires b == Boundary(msgs) && |out| == |msgs|
    ensures b <= |out|
  {
    BoundaryStartsGroup(msgs);
  }

  lemma ArchivedIsSource(msgs: seq<Message>, out: seq<Message>, b: nat)
    requires Archived(msgs, out, b) && 1 < b <= |msgs|
    ensures |out| == |msgs| && SourceOf(msgs, out[1..b], b)
  {
  }

  lemma ArtifactsStay(msgs: seq<Message>, mid: seq<Message>, out: seq<Message>, least: nat, est: Estimator, indices: seq<nat>)
    requires HaveArtifacts(mid, indices)
    requires exists edits :: Compress.ShortestPrefix(mid, least, est, edits) && out == Compress.ApplyAll(mid, edits, est).0
    ensures HaveArtifacts(out, indices)
  {
    hide Compress.ApplyAll, Compress.Plan, Boundary;
    var edits :| Compress.ShortestPrefix(mid, least, est, edits) && out == Compress.ApplyAll(mid, edits, est).0;
    Compress.CompressionKeeps(mid, edits, est);
  }

  lemma ArchivedCountsTheSame(msgs: seq<Message>, out: seq<Message>, b: nat)
    requires Archived(msgs, out, b)
    ensures |out| == |msgs| && Serialized(out) == Serialized(msgs)
  {
    assert forall i :: 0 <= i < |msgs| ==> Serialized(out)[i] == Serialized(msgs)[i];
  }

  /** Messages at or after the protected start are kept, those before are only repacked. */
  ghost predicate Shrunk(msgs: seq<Message>, out: seq<Message>, b: nat) {
    Provenance.Repacked(msgs, out) && forall i :: b <= i < |msgs| ==> out[i] == msgs[i]
  }

  /** Local compression, then perhaps a summary merged in before the protected start. */
  ghost predicate Compacts(msgs: seq<Message>, out: seq<Message>) {
    exists mid :: CompactsAt(msgs, out, mid)
  }

  lemma CompactKeeps(msgs: seq<Message>, out: seq<Message>)
    requires Paired(msgs) && SystemFirst(msgs) && AllClosed(msgs) && HasUser(msgs) && Compacts(msgs, out)
    ensures Paired(out) && AllClosed(out) && HasUser(out)
  {
    hide Paired, AllClosed, HasUser, Boundary, Summary.MergeOf;
    var mid :| CompactsAt(msgs, out, mid);
    RepackedBoundary(msgs, mid);
    assert SystemFirst(mid);
    SkeletonKeeps(msgs, mid);
    if out != mid {
      var summary :| Summary.MergeOf(mid, Boundary(msgs), summary, out);
      MergedAtGroup(mid, summary, out, Boundary(msgs));
      MergeKeeps(mid, Boundary(msgs), summary, out);
    }
  }

  lemma MergedAtGroup(mid: seq<Message>, summary: string, out: seq<Message>, b: nat)
    requires SystemFirst(mid) && b == Boundary(mid) && Summary.MergeOf(mid, b, summary, out)
    ensures b < |mid| && IsCallGroup(mid[b]) && mid[0].role == System
  {
    BoundaryStartsGroup(mid);
  }

  lemma ShrunkSteps(msgs: seq<Message>, mid: seq<Message>, out: seq<Message>, b: nat)
    requires Shrunk(msgs, mid, b) && b == Boundary(msgs) && Compress.Trims(mid, out, Boundary(mid))
    ensures Shrunk(msgs, out, b)
  {
    RepackedBoundary(msgs, mid);
  }

  lemma ArchivedShrinks(msgs: seq<Message>, out: seq<Message>, b: nat)
    requires Archived(msgs, out, b)
    ensures Shrunk(msgs, out, b)
  {
  }

  lemma RepackedBoundary(msgs: seq<Message>, mid: seq<Message>)
    requires Provenance.Repacked(msgs, mid)
    ensures SameSkeleton(msgs, mid) && Boundary(mid) == Boundary(msgs)
  {
    ScanOfSkeleton(msgs, mid, |msgs|);
  }

  lemma RepackedPartition(msgs: seq<Message>, mid: seq<Message>, log: seq<nat>)
    requires Provenance.Repacked(msgs, mid) && Partition(msgs, log)
    ensures Partition(mid, log)
  {
    FlatOfSameOriginals(msgs, mid);
    hide Flat, Increasing;
  }

  // ---------------------------------------------------------------- the phases as the source runs them

  class ReActService {
    const session: Session
    const store: Store
    const provider: Provider
    const hasArchive: bool
    const hasSummarizer: bool

    constructor (session: Session, store: Store, provider: Provider, hasArchive: bool, hasSummarizer: bool)
      ensures this.session == session && this.store == store && this.provider == provider
      ensures this.hasArchive == hasArchive && this.hasSummarizer == hasSummarizer
    {
      this.session := session;
      this.store := store;
      this.provider := provider;
      this.hasArchive := hasArchive;
      this.hasSummarizer := hasSummarizer;
    }

    /** The exact count that a compaction has to reach. */
    function Target(): nat {
      var maxInput := provider.window - provider.reservedOutput;
      if maxInput > 0 then maxInput * TARGET_PERCENT / 100 else 0
    }

    function Count(msgs: seq<Message>): nat
    {
      provider.counter(Serialized(msgs))
    }

    lemma CountsTheSame(a: seq<Message>, b: seq<Message>)
      requires Serialized(a) == Serialized(b)
      ensures Count(a) == Count(b)
    {
    }

    /** The provider's exact count, which may fail. */
    method CountInput(msgs: seq<Message>) returns (count: Option<nat>)
      ensures count.Some? ==> count.value == Count(msgs)
    {
      count := provider.CountInputTokens(msgs);
    }

    /** The session turns to the candidate only when the commit is heard. */
    method Commit(candidate: Session) returns (heard: bool)
      requires candidate != session
      modifies session, store
      ensures var next := candidate.context.(revision := candidate.context.revision + 1);
              && (store.head == old(store.head)
                  || (candidate.context.revision == old(store.head).revision && store.head == next && Valid(candidate.context)))
              && (heard ==> candidate.context.revision == old(store.head).revision)
              && if heard then Valid(candidate.context) && session.context == next == store.head else session.context == old(session.context)
    {
      heard := store.Commit(candidate.context);
      if heard {
        session.context := candidate.context.(revision := candidate.context.revision + 1);
        session.sysToken := candidate.sysToken;
      }
    }

    /** A pass for the missing tokens saved nothing by the estimate, or the exact count did not fall. */
    ghost predicate Stuck(msgs: seq<Message>, out: seq<Message>, least: nat, est: Estimator) {
      exists edits ::
        && Compress.ShortestPrefix(msgs, least, est, edits) && out == Compress.ApplyAll(msgs, edits, est).0
        && (Compress.ApplyAll(msgs, edits, est).1 == 0 || Count(out) >= Count(msgs))
    }

    /** One pass of the local compression, for as many tokens as are missing; `more` says that it helped. */
    ghost predicate Pass(msgs: seq<Message>, out: seq<Message>, target: nat, est: Estimator, more: bool) {
      Count(msgs) > target && exists edits ::
        && Compress.ShortestPrefix(msgs, Count(msgs) - target, est, edits) && out == Compress.ApplyAll(msgs, edits, est).0
        && (more ==> Compress.ApplyAll(msgs, edits, est).1 > 0 && Count(out) < Count(msgs))
    }

    /** Pass after pass, each from where the one before it ended; all but the last one helped. */
    ghost predicate Passes(steps: seq<seq<Message>>, target: nat, est: Estimator) {
      |steps| > 0 && forall k :: 0 <= k < |steps| - 1 ==> Pass(steps[k], steps[k + 1], target, est, k < |steps| - 2)
    }

    ghost predicate TrimsTo(msgs: seq<Message>, out: seq<Message>, target: nat, est: Estimator) {
      exists steps :: Passes(steps, target, est) && steps[0] == msgs && steps[|steps| - 1] == out
    }

    ghost predicate AllHelped(steps: seq<seq<Message>>, target: nat, est: Estimator) {
      |steps| > 0 && forall k :: 0 <= k < |steps| - 1 ==> Pass(steps[k], steps[k + 1], target, est, true)
    }

    lemma OnePassMore(steps: seq<seq<Message>>, out: seq<Message>, target: nat, est: Estimator, saved: int)
      requires AllHelped(steps, target, est) && Count(steps[|steps| - 1]) > target
      requires var msgs := steps[|steps| - 1];
               exists edits ::
                 && Compress.ShortestPrefix(msgs, Count(msgs) - target, est, edits)
                 && out == Compress.ApplyAll(msgs, edits, est).0 && saved == Compress.ApplyAll(msgs, edits, est).1
      ensures Passes(steps + [out], target, est)
      ensures saved > 0 && Count(out) < Count(steps[|steps| - 1]) ==> AllHelped(steps + [out], target, est)
    {
      hide Count, Compress.ShortestPrefix, Compress.ApplyAll;
      var n, steps' := |steps|, steps + [out];
      assert Pass(steps[n - 1], out, target, est, false);
      assert saved > 0 && Count(out) < Count(steps[n - 1]) ==> Pass(steps[n - 1], out, target, est, true);
      forall k | 0 <= k < n - 1 ensures Pass(steps'[k], steps'[k + 1], target, est, true) {
        assert steps'[k] == steps[k] && steps'[k + 1] == steps[k + 1];
      }
    }

    lemma NoPass(msgs: seq<Message>, target: nat, est: Estimator)
      ensures AllHelped([msgs], target, est)
    {
    }

    lemma TrimmedTo(steps: seq<seq<Message>>, target: nat, est: Estimator)
      requires AllHelped(steps, target, est) || Passes(steps, target, est)
      ensures TrimsTo(steps[0], steps[|steps| - 1], target, est)
    {
      if AllHelped(steps, target, est) {
        forall k | 0 <= k < |steps| - 1 ensures Pass(steps[k], steps[k + 1], target, est, k < |steps| - 2) {
          assert Pass(steps[k], steps[k + 1], target, est, true);
        }
      }
      assert Passes(steps, target, est);
    }

    /** The large old results archived, then trimmed. */
    ghost predicate Local(msgs: seq<Message>, out: seq<Message>, target: nat, est: Estimator) {
      exists archived :: Archived(msgs, archived, Boundary(msgs)) && TrimsTo(archived, out, target, est)
    }

    lemma LocalFrom(msgs: seq<Message>, archived: seq<Message>, out: seq<Message>, target: nat, est: Estimator)
      requires Archived(msgs, archived, Boundary(msgs)) && TrimsTo(archived, out, target, est)
      ensures Local(msgs, out, target, est)
    {
    }

    /** The whole compaction: local, and with the last reply of the summary model merged in if it was asked. */
    ghost predicate Made(msgs: seq<Message>, out: seq<Message>, calls: seq<SummaryCall>, target: nat, est: Estimator) {
      exists mid ::
        Local(msgs, mid, target, est)
        && if |calls| == 0 then out == mid else StillAbove(msgs, mid, target, est) && Summarized(mid, out, Boundary(msgs), calls)
    }

    /** The last pass did not help and had started above the target. */
    ghost predicate StillAbove(msgs: seq<Message>, out: seq<Message>, target: nat, est: Estimator) {
      exists current: nat :: StuckFrom(msgs, Boundary(msgs), current, out, target, est)
    }

    lemma MadeLocally(msgs: seq<Message>, out: seq<Message>, calls: seq<SummaryCall>, target: nat, est: Estimator)
      requires Local(msgs, out, target, est) && |calls| == 0
      ensures Made(msgs, out, calls, target, est)
    {
    }

    lemma MadeBySummary(msgs: seq<Message>, mid: seq<Message>, out: seq<Message>, calls: seq<SummaryCall>, target: nat, est: Estimator)
      requires Local(msgs, mid, target, est) && StillAbove(msgs, mid, target, est) && Summarized(mid, out, Boundary(msgs), calls)
      ensures Made(msgs, out, calls, target, est)
    {
    }

    lemma FitsNow(msgs: seq<Message>)
      requires var maxInput := provider.window - provider.reservedOutput;
               Count(msgs) < maxInput * TRIGGER_PERCENT / 100 || Count(msgs) <= maxInput * TARGET_PERCENT / 100
      ensures provider.Fits(msgs)
    {
    }

    /** Archives the large results, then trims as long as the exact count falls and is above the target. */
    method CompactLocally(run: CompactionRun, indices: seq<nat>, ghost msgs: seq<Message>) returns (fault: Option<Fault>)
      requires run.candidate.context.messages == msgs && run.protectedStart == Boundary(msgs) && run.current == Count(msgs)
      requires forall i :: i in indices ==> i < |msgs| && i < Boundary(msgs) && msgs[i].role == Tool
      requires run.summarySource == []
      modifies run, run.candidate
      ensures run.candidate.context == old(run.candidate.context).(messages := run.candidate.context.messages)
      ensures fault.None? ==> Shrunk(msgs, run.candidate.context.messages, run.protectedStart)
      ensures fault.None? ==> (|run.summarySource| > 0 <==> run.protectedStart > 1)
      ensures fault.None? ==> HaveArtifacts(run.candidate.context.messages, indices)
      ensures fault.None? && run.protectedStart > 1 ==> SourceOf(msgs, run.summarySource, run.protectedStart)
      ensures fault.None? && run.current <= run.target ==> Count(run.candidate.context.messages) == run.current
      ensures fault.None? && run.current > run.target ==>
                StuckFrom(msgs, run.protectedStart, run.current, run.candidate.context.messages, run.target, run.candidate.est)
      ensures fault.None? ==> Local(msgs, run.candidate.context.messages, run.target, run.candidate.est)
      ensures run.current <= old(run.current) && run.summaryCalls == old(run.summaryCalls) && run.summaryUsed == old(run.summaryUsed)
      ensures fault != Some(InvalidBudget)
    {
      hide *;
      var b, c := run.protectedStart, run.candidate;
      fault := ArchiveOutputs(c, indices, b, msgs);
      if fault.Some? { return fault; }
      ghost var archived := c.context.messages;
      ArchivedCountsTheSame(msgs, archived, b);
      ArchivedShrinks(msgs, archived, b);
      StartsWithin(msgs, archived, b);
      if b > 1 {
        run.summarySource := c.context.messages[1..b];
        ArchivedIsSource(msgs, archived, b);
      }
      CountsTheSame(msgs, archived);
      fault := Trim(run, msgs, indices);
      if fault.None? { LocalFrom(msgs, archived, c.context.messages, run.target, c.est); }
    }

    /** The large results go to the archive; their messages get the references. */
    method ArchiveOutputs(c: Session, indices: seq<nat>, b: nat, ghost msgs: seq<Message>) returns (fault: Option<Fault>)
      requires c.context.messages == msgs && forall i :: i in indices ==> i < |msgs| && i < b && msgs[i].role == Tool
      modifies c
      ensures c.context == old(c.context).(messages := c.context.messages) && fault != Some(InvalidBudget)
      ensures fault.None? ==> Archived(msgs, c.context.messages, b) && HaveArtifacts(c.context.messages, indices)
    {
      var k := 0;
      while k < |indices|
        invariant 0 <= k <= |indices| && c.context == old(c.context).(messages := c.context.messages)
        invariant Archived(msgs, c.context.messages, b) && HaveArtifacts(c.context.messages, indices[..k])
      {
        if !hasArchive { return Some(ArchiveMissing); }
        var up: bool := *;
        if !up { return Some(ArchiveFailed); }
        var ref: Artifact := *;
        var i := indices[k];
        assert i in indices && indices[..k + 1] == indices[..k] + [i];
        c.context := c.context.(messages := c.context.messages[i := c.context.messages[i].(artifact := Some(ref))]);
        k := k + 1;
      }
      assert indices[..k] == indices;
      return None;
    }

    /** Compresses by the missing tokens until the exact count is within the target, a pass saves nothing, or the exact
        count no longer falls. */
    method Trim(run: CompactionRun, ghost msgs: seq<Message>, ghost indices: seq<nat>) returns (fault: Option<Fault>)
      requires run.protectedStart == Boundary(msgs) && Shrunk(msgs, run.candidate.context.messages, run.protectedStart)
      requires run.current == Count(run.candidate.context.messages) && HaveArtifacts(run.candidate.context.messages, indices)
      modifies run`current, run`passes, run.candidate`context
      ensures run.candidate.context == old(run.candidate.context).(messages := run.candidate.context.messages)
      ensures run.current <= old(run.current) && fault != Some(InvalidBudget)
      ensures fault.None? ==>
                TrimsTo(old(run.candidate.context.messages), run.candidate.context.messages, run.target, run.candidate.est)
      ensures fault.None? ==>
                && Shrunk(msgs, run.candidate.context.messages, run.protectedStart)
                && HaveArtifacts(run.candidate.context.messages, indices)
                && (run.current <= run.target ==> Count(run.candidate.context.messages) == run.current)
                && (run.current > run.target ==>
                      StuckFrom(msgs, run.protectedStart, run.current, run.candidate.context.messages, run.target, run.candidate.est))
    {
      hide *;
      var b, c := run.protectedStart, run.candidate;
      ghost var before := c.context;
      ghost var steps := [c.context.messages];
      NoPass(c.context.messages, run.target, c.est);
      while run.current > run.target
        invariant AllHelped(steps, run.target, c.est)
        invariant |steps| > 0 && steps[0] == before.messages && steps[|steps| - 1] == c.context.messages
        invariant c.context == before.(messages := c.context.messages) && Shrunk(msgs, c.context.messages, b)
        invariant Count(c.context.messages) == run.current <= old(run.current)
        invariant HaveArtifacts(c.context.messages, indices)
        decreases run.current
      {
        ghost var mid, least := c.context.messages, run.current - run.target;
        var saved := c.Compact(run.current - run.target);
        run.passes := run.passes + 1;
        CompactedShrinks(msgs, mid, c.context.messages, least, c.est, b);
        ArtifactsStay(msgs, mid, c.context.messages, least, c.est, indices);
        OnePassMore(steps, c.context.messages, run.target, c.est, saved);
        TrimmedTo(steps + [c.context.messages], run.target, c.est);
        if saved <= 0 {
          StopsHere(msgs, b, mid, c.context.messages, run.target, c.est, saved);
          return None;
        }
        var next := CountInput(c.context.messages);
        if next.None? { return Some(CountFailed); }
        if next.value >= run.current {
          StopsHere(msgs, b, mid, c.context.messages, run.target, c.est, saved);
          return None;
        }
        run.current := next.value;
        steps := steps + [c.context.messages];
      }
      TrimmedTo(steps, run.target, c.est);
      return None;
    }

    /** The last pass started from messages of this count, and saved nothing or did not make the exact count fall. */
    ghost predicate StuckFrom(msgs: seq<Message>, b: nat, current: nat, out: seq<Message>, target: nat, est: Estimator) {
      current > target && exists mid :: Shrunk(msgs, mid, b) && Count(mid) == current && Stuck(mid, out, current - target, est)
    }

    lemma StopsHere(msgs: seq<Message>, b: nat, mid: seq<Message>, out: seq<Message>, target: nat, est: Estimator, saved: int)
      requires Shrunk(msgs, mid, b) && Count(mid) > target
      requires exists edits ::
                 && Compress.ShortestPrefix(mid, Count(mid) - target, est, edits)
                 && out == Compress.ApplyAll(mid, edits, est).0 && saved == Compress.ApplyAll(mid, edits, est).1
      requires saved <= 0 || Count(out) >= Count(mid)
      ensures StuckFrom(msgs, b, Count(mid), out, target, est)
    {
      hide Shrunk, Count, Compress.ShortestPrefix, Compress.ApplyAll;
      assert Stuck(mid, out, Count(mid) - target, est);
    }

    /** One summary of everything before the protected start, and one shorter retry; the candidate changes only when
        the exact count reaches the target. */
    method CompactWithSummary(run: CompactionRun) returns (fault: Option<Fault>)
      requires Listed(run.candidate.context.messages)
      requires |run.summarySource| > 0 ==>
                 && 1 < run.protectedStart < |run.candidate.context.messages|
                 && run.candidate.context.messages[0].role == System
                 && SameNumbers(run.candidate.context.messages, run.summarySource, run.protectedStart)
      requires run.summaryCalls == 0 && run.summaryUsed == Tokens(0, 0)
      modifies run, run.candidate, provider`summaries
      ensures run.summaryCalls <= 2 && old(provider.summaries) <= provider.summaries
      ensures var calls := provider.summaries[|old(provider.summaries)|..];
              && |calls| == run.summaryCalls && run.summaryUsed == UsedBy(calls)
              && RequestsOk(calls, run.summarySource)
              && Budgeted(old(run.candidate.context.messages), run.protectedStart, calls, run.target)
      ensures fault != Some(InvalidBudget) && (fault.Some? ==> run.candidate.context == old(run.candidate.context))
      ensures fault.None? ==>
                && Summarized(old(run.candidate.context.messages), run.candidate.context.messages, run.protectedStart,
                              provider.summaries[|old(provider.summaries)|..])
                && run.current == Count(run.candidate.context.messages) <= run.target
                && run.candidate.context == old(run.candidate.context).(
                     messages := run.candidate.context.messages,
                     used := old(run.candidate.context).used.Plus(run.summaryUsed))
    {
      hide *;
      ghost var before := provider.summaries;
      NothingSaid(before);
      NoRequests(run.candidate.context.messages, run.protectedStart, run.summarySource, run.target);
      if !hasSummarizer || |run.summarySource| == 0 { return Some(TargetNotReached); }
      var c, b := run.candidate, run.protectedStart;
      var msgs := c.context.messages;
      var prefix := SummaryPrefix(run.summarySource[0].number, run.summarySource[|run.summarySource| - 1].number);
      HeaderOf(msgs, run.summarySource, b);
      NeverRefused(msgs, b, prefix);
      var base := Summary.MergeSummary(msgs, b, prefix);
      assert base.Merged?; // never refused, so the source's error return is dead
      var baseInput := CountInput(base.out);
      if baseInput.None? { return Some(CountFailed); }
      var most: int := run.target - baseInput.value;
      if most <= 0 { return Some(TargetNotReached); }

      var text, used := provider.GenerateContextSummary(run.summarySource, "", most);
      run.summaryCalls := run.summaryCalls + 1;
      run.summaryUsed := run.summaryUsed.Plus(used);
      ghost var first := SummaryCall(run.summarySource, "", most, text, used);
      assert provider.summaries[|before|..] == [first];
      OneRequest(msgs, b, first, base.out, run.target);
      if text.None? { return Some(SummaryFailed); }
      NeverRefused(msgs, b, prefix + text.value);
      var merged := Summary.MergeSummary(msgs, b, prefix + text.value);
      assert merged.Merged?;
      var next := CountInput(merged.out);
      if next.None? { return Some(CountFailed); }

      ghost var calls := [first];
      if next.value > run.target {
        var stricter: int := most - (next.value - run.target);
        if stricter <= 0 { return Some(TargetNotReached); }
        text, used := provider.GenerateContextSummary([], text.value, stricter);
        run.summaryCalls := run.summaryCalls + 1;
        run.summaryUsed := run.summaryUsed.Plus(used);
        ghost var second := SummaryCall([], first.reply.value, stricter, text, used);
        calls := [first, second];
        assert provider.summaries[|before|..] == calls;
        TwoRequests(msgs, b, first, base.out, second, merged.out, run.target);
        if text.None? { return Some(SummaryFailed); }
        NeverRefused(msgs, b, prefix + text.value);
        merged := Summary.MergeSummary(msgs, b, prefix + text.value);
        assert merged.Merged?;
        next := CountInput(merged.out);
        if next.None? { return Some(CountFailed); }
      }
      if next.value > run.target { return Some(TargetNotReached); }
      c.context := c.context.(messages := merged.out);
      c.context := c.context.(used := c.context.used.Plus(run.summaryUsed));
      run.current := next.value;
      LastReplyMerged(msgs, merged.out, b, calls);
      return None;
    }

    /** The first summary may take what the rest of the context leaves of the target. It is asked for again only when it
        came out too long, and then for less by what was too much. */
    ghost predicate Budgeted(msgs: seq<Message>, b: nat, calls: seq<SummaryCall>, target: nat) {
      |calls| > 0 ==>
        && 1 < b < |msgs|
        && (exists base :: Summary.MergeOf(msgs, b, Header(msgs, b), base) && calls[0].most == target - Count(base) > 0)
        && (|calls| > 1 ==>
              && calls[0].reply.Some?
              && exists first :: Summary.MergeOf(msgs, b, Header(msgs, b) + calls[0].reply.value, first) && Count(first) > target
                                 && calls[1].most == calls[0].most - (Count(first) - target) > 0)
    }

    lemma NoRequests(msgs: seq<Message>, b: nat, source: seq<Message>, target: nat)
      ensures RequestsOk([], source) && Budgeted(msgs, b, [], target) && UsedBy([]) == Tokens(0, 0)
    {
    }

    lemma OneRequest(msgs: seq<Message>, b: nat, call: SummaryCall, base: seq<Message>, target: nat)
      requires 1 < b < |msgs| && Summary.MergeOf(msgs, b, Header(msgs, b), base)
      requires call.previous == "" && call.most == target - Count(base) > 0
      ensures RequestsOk([call], call.source) && Budgeted(msgs, b, [call], target)
      ensures UsedBy([call]) == Tokens(0, 0).Plus(call.used)
    {
      hide Summary.MergeOf, Header, Count;
      OneUsed(call);
    }

    lemma TwoRequests(msgs: seq<Message>, b: nat, call: SummaryCall, base: seq<Message>, retry: SummaryCall, first: seq<Message>, target: nat)
      requires 1 < b < |msgs| && Summary.MergeOf(msgs, b, Header(msgs, b), base)
      requires call.previous == "" && call.most == target - Count(base) > 0 && call.reply.Some?
      requires Summary.MergeOf(msgs, b, Header(msgs, b) + call.reply.value, first) && Count(first) > target
      requires retry.source == [] && retry.previous == call.reply.value && retry.most == call.most - (Count(first) - target) > 0
      ensures RequestsOk([call, retry], call.source) && Budgeted(msgs, b, [call, retry], target)
      ensures UsedBy([call, retry]) == Tokens(0, 0).Plus(call.used).Plus(retry.used)
    {
      hide Summary.MergeOf, Header, Count;
      TwoUsed(call, retry);
    }

    lemma Above(msgs: seq<Message>, current: nat, out: seq<Message>, target: nat, est: Estimator)
      requires StuckFrom(msgs, Boundary(msgs), current, out, target, est)
      ensures StillAbove(msgs, out, target, est)
    {
    }

    /** Both phases on a candidate whose exact count is above the trigger. */
    method Shrink(candidate: Session, target: nat, current: nat)
      returns (fault: Option<Fault>, reached: nat, summaryCalls: nat)
      requires Valid(candidate.context) && Listed(candidate.context.messages)
      requires current == Count(candidate.context.messages)
      modifies candidate, provider`summaries
      ensures summaryCalls <= 2 && fault != Some(InvalidBudget) && old(provider.summaries) <= provider.summaries
      ensures summaryCalls == |provider.summaries| - |old(provider.summaries)|
      ensures fault.None? ==>
                && Compacts(old(candidate.context).messages, candidate.context.messages)
                && reached == Count(candidate.context.messages) <= target
                && Told(old(candidate.context), candidate.context, provider.summaries[|old(provider.summaries)|..])
                && Made(old(candidate.context.messages), candidate.context.messages,
                        provider.summaries[|old(provider.summaries)|..], target, candidate.est)
                && candidate.context == old(candidate.context).(messages := candidate.context.messages, used := candidate.context.used)
    {
      hide *;
      ghost var before, said := candidate.context, provider.summaries;
      var b := ProtectedStart(candidate.context.messages);
      var run := new CompactionRun(candidate, b, target, current);
      var indices := Compress.ArtifactCandidates(candidate.context.messages, candidate.est);
      OldResults(before.messages, indices, candidate.est);
      NothingSaid(said);
      fault := CompactLocally(run, indices, before.messages);
      if fault.Some? { return fault, run.current, run.summaryCalls; }
      ghost var mid := candidate.context.messages;
      ShrunkIsSound(before, mid, b);
      LocallyCompacted(before, mid, b);
      if run.current > run.target {
        Above(before.messages, run.current, mid, target, candidate.est);
        if |run.summarySource| > 0 { SourceNumbers(before.messages, mid, run.summarySource, b); }
        fault := CompactWithSummary(run);
        if fault.Some? { return fault, run.current, run.summaryCalls; }
        SummaryCompacted(before, mid, candidate.context, b, provider.summaries[|said|..]);
        MadeBySummary(before.messages, mid, candidate.context.messages, provider.summaries[|said|..], target, candidate.est);
      } else {
        MadeLocally(before.messages, mid, provider.summaries[|said|..], target, candidate.est);
      }
      return None, run.current, run.summaryCalls;
    }

    /** Below the trigger only the window account changes. Above it, either the session ends at a stored next
        generation whose count is at most the target and is the window account, or it is left exactly as it was. */
    method CompactContext() returns (fault: Option<Fault>, ghost summaryCalls: nat)
      requires Valid(session.context) && Listed(session.context.messages)
      modifies session, store, provider`summaries
      ensures summaryCalls <= 2 && old(provider.summaries) <= provider.summaries
      ensures summaryCalls == |provider.summaries| - |old(provider.summaries)|
      ensures fault.None? && Count(old(session.context.messages))
                             >= (provider.window - provider.reservedOutput) * TRIGGER_PERCENT / 100 ==>
                && Told(old(session.context), session.context, provider.summaries[|old(provider.summaries)|..])
                && Made(old(session.context.messages), session.context.messages, provider.summaries[|old(provider.summaries)|..],
                        Target(), session.est)
      ensures store.head != old(store.head) ==>
                && Told(old(session.context), store.head, provider.summaries[|old(provider.summaries)|..])
                && Made(old(session.context.messages), store.head.messages, provider.summaries[|old(provider.summaries)|..],
                        Target(), session.est)
      ensures fault.None? ==> provider.Fits(session.context.messages)
      ensures fault.Some? ==> session.context == old(session.context)
      ensures fault == Some(InvalidBudget) <==>
                provider.window <= 0 || provider.reservedOutput <= 0 || provider.window - provider.reservedOutput <= 0
      ensures fault.None? ==>
                var before, maxInput := old(session.context), provider.window - provider.reservedOutput;
                if Count(before.messages) < maxInput * TRIGGER_PERCENT / 100
                then session.context == Reconciled(before, Count(before.messages)) && store.head == old(store.head)
                else Compacted(before, session.context, maxInput * TARGET_PERCENT / 100) && store.head == session.context
      ensures store.head == old(store.head)
              || Compacted(old(session.context), store.head, (provider.window - provider.reservedOutput) * TARGET_PERCENT / 100)
    {
      hide Valid, Listed, Compacts, Count, Told, Made, Provider.Fits, Reconciled;
      summaryCalls := 0;
      var maxInput := provider.window - provider.reservedOutput;
      if provider.window <= 0 || provider.reservedOutput <= 0 || maxInput <= 0 { return Some(InvalidBudget), 0; }
      var counted := CountInput(session.context.messages);
      if counted.None? { return Some(CountFailed), 0; }
      var current := counted.value;
      var trigger := maxInput * TRIGGER_PERCENT / 100;
      var target := maxInput * TARGET_PERCENT / 100;
      if current < trigger {
        session.ReconcileWindowInput(current);
        FitsNow(session.context.messages);
        return None, 0;
      }
      var candidate := new Session.CopyOf(session);
      var reached: nat, calls: nat;
      fault, reached, calls := Shrink(candidate, target, current);
      summaryCalls := calls;
      if fault.Some? { return fault, summaryCalls; }
      ghost var before, shrunk := old(session.context), candidate.context;
      candidate.ReconcileWindowInput(reached);
      var ok := candidate.AdvanceMemoryGeneration();
      if !ok { return Some(GenerationExhausted), summaryCalls; }
      ToldStays(before, shrunk, candidate.context.(revision := candidate.context.revision + 1),
                provider.summaries[|old(provider.summaries)|..]);
      var heard := Commit(candidate);
      if !heard { return Some(CommitFailed), summaryCalls; }
      FitsNow(session.context.messages);
      return None, summaryCalls;
    }

    // -------------------------------------------------------------- chatting

    /** One more message: numbered in a candidate, committed, and only then part of the session. */
    method HandleTurnMsg(m: Message) returns (ok: bool)
      requires Sound(session.context) && Paired(session.context.messages + [m])
      modifies session, store
      ensures Sound(session.context) && (Sound(old(store.head)) ==> Sound(store.head))
      ensures !ok ==> session.context == old(session.context)
      ensures ok ==> Extends(old(session.context.messages), session.context.messages, m) && store.head == session.context
      ensures Turned(Turn(m, old(session.context), old(store.head), session.context, store.head, ok))
    {
      hide Sound, Valid, Turned, Paired, AppendedTo;
      ghost var before, head := session.context, store.head;
      var candidate, r := session.WithAppendedMessage(m);
      if candidate == null {
        TurnRefused(m, before, head);
        return false;
      }
      SoundAppended(session.context, m);
      ok := Commit(candidate);
      TurnDone(m, before, head, session.context, store.head, ok);
    }

    lemma TurnRefused(m: Message, before: Context, head: Context)
      requires Identify(before.last, m).Refused?
      ensures Turned(Turn(m, before, head, before, head, false))
    {
    }

    lemma TurnDone(m: Message, before: Context, head: Context, after: Context, head': Context, heard: bool)
      requires Identify(before.last, m).Identified?
      requires var candidate := Appended(before, Identify(before.last, m).msg);
               var next := candidate.(revision := candidate.revision + 1);
               && (head' == head || (candidate.revision == head.revision && head' == next && Valid(candidate)))
               && (heard ==> candidate.revision == head.revision)
               && if heard then Valid(candidate) && after == next == head' else after == before
      ensures Turned(Turn(m, before, head, after, head', heard))
    {
      hide Valid;
    }

    /** Answers the calls left open, one committed result each; `turns` says what each commit did. */
    method RecoverBeforeChat() returns (ok: bool, ghost turns: seq<Turn>)
      requires Sound(session.context)
      modifies session, store
      ensures Chained(turns, old(session.context), old(store.head), session.context, store.head)
      ensures FillsIn(turns, if NeedsRecovery(old(session.context.messages)) then Missing(old(session.context.messages)) else [], ok)
      ensures Sound(session.context) && (Sound(old(store.head)) ==> Sound(store.head))
      ensures HasUser(old(session.context.messages)) ==> HasUser(session.context.messages)
      ensures ok ==> AllClosed(session.context.messages)
    {
      hide Valid, Listed;
      SettledOrOwed(session.context.messages);
      var needed := CheckRecovery(session.context.messages);
      turns := [];
      NoTurns(Missing(session.context.messages), session.context, store.head);
      if !needed { return true, turns; }
      var missing := MissingToolResults(session.context.messages);
      hide Paired, Owes, AllClosed, HasUser, NeedsRecovery, Missing, Turned, Chained, FillsIn;
      var i := 0;
      while i < |missing|
        invariant 0 <= i <= |missing| && Sound(session.context) && Owes(session.context.messages, missing[i..])
        invariant Sound(old(store.head)) ==> Sound(store.head)
        invariant HasUser(old(session.context.messages)) ==> HasUser(session.context.messages)
        invariant Chained(turns, old(session.context), old(store.head), session.context, store.head)
        invariant |turns| == i && FillsIn(turns, missing[..i], true)
      {
        var content: string := *;
        var m := ToolMessage(0, missing[i].id, content);
        ghost var msgs, before, head := session.context.messages, session.context, store.head;
        SoundIsPaired(session.context);
        ResultKeeps(msgs, m, missing[i..]);
        var heard := HandleTurnMsg(m);
        ghost var turn := Turn(m, before, head, session.context, store.head, heard);
        ChainedOn(turns, turn, old(session.context), old(store.head));
        FillsInOn(turns, turn, missing, content);
        turns := turns + [turn];
        if !heard { return false, turns; }
        ExtendedOwes(msgs, session.context.messages, m, missing[i..][1..]);
        assert missing[i..][1..] == missing[i + 1..];
        i := i + 1;
      }
      assert missing[..i] == missing;
      NothingOwed(session.context.messages);
      return true, turns;
    }

    lemma CompactedSound(before: Context, after: Context, target: int)
      requires Sound(before) && Settled(before.messages) && Compacted(before, after, target)
      ensures Sound(after) && Settled(after.messages)
    {
      hide Sound, Settled, Compacts, Count;
      CompactsSound(before, after);
    }

    /** Compaction before a model call; whatever it did, nothing is open. */
    method Prepare() returns (ready: bool)
      requires Sound(session.context) && Settled(session.context.messages)
      modifies session, store, provider`summaries
      ensures Sound(session.context) && Settled(session.context.messages)
      ensures Sound(old(store.head)) ==> Sound(store.head)
      ensures ready ==> provider.Fits(session.context.messages)
    {
      ghost var before, head := session.context, store.head;
      var fault, calls := CompactContext();
      hide Sound, Settled, Compacted, Count, Valid, Listed;
      forall after, target | Compacted(before, after, target) ensures Sound(after) && Settled(after.messages) {
        CompactedSound(before, after, target);
      }
      ReconciledSound(before, Count(before.messages));
      return fault.None?;
    }

    /** The loop between model and tools; `turns` bounds how many model calls are looked at. */
    method Think(turns: nat) returns (reply: Option<Message>)
      requires Sound(session.context) && Settled(session.context.messages)
      modifies session, store, provider
      ensures reply.Some? ==> |provider.answers| > |old(provider.answers)| && provider.answers[|provider.answers| - 1] == reply.value
      ensures Sound(session.context) && (Sound(old(store.head)) ==> Sound(store.head))
      ensures reply.Some? ==> AllClosed(session.context.messages) && Answers(session.context.messages, reply.value)
    {
      hide Valid, Listed, Paired, AllClosed, HasUser, Owes;
      var turn := 0;
      while turn < turns
        invariant Sound(session.context) && Settled(session.context.messages)
        invariant Sound(old(store.head)) ==> Sound(store.head)
        invariant old(provider.answers) <= provider.answers
      {
        turn := turn + 1;
        var ready := Prepare();
        if !ready { return None; }
        SoundIsPaired(session.context);
        var m := provider.GenerateStream(session.context.messages);
        if m.None? { return None; }
        ghost var msgs := session.context.messages;
        SpeakKeeps(msgs, m.value);
        var ok := HandleTurnMsg(m.value);
        if !ok { return None; }
        ExtendedSpoken(msgs, session.context.messages, m.value);
        if |m.value.calls| == 0 { return m; }
        ExtendedOwes(msgs, session.context.messages, m.value, m.value.calls);
        ok := RunTools(m.value.calls);
        if !ok { return None; }
      }
      return None;
    }

    /** One result for each call of the group, in order. */
    method RunTools(calls: seq<Call>) returns (ok: bool)
      requires Sound(session.context) && Owes(session.context.messages, calls) && HasUser(session.context.messages)
      modifies session, store
      ensures Sound(session.context) && (Sound(old(store.head)) ==> Sound(store.head))
      ensures ok ==> Settled(session.context.messages)
    {
      hide Valid, Listed, Paired, AllClosed, HasUser, Owes;
      var i := 0;
      while i < |calls|
        invariant 0 <= i <= |calls| && Sound(session.context) && Owes(session.context.messages, calls[i..])
        invariant HasUser(session.context.messages) && (Sound(old(store.head)) ==> Sound(store.head))
      {
        var m: Message := *;
        m := m.(role := Tool, callId := calls[i].id);
        ghost var msgs := session.context.messages;
        SoundIsPaired(session.context);
        ResultKeeps(msgs, m, calls[i..]);
        var heard := HandleTurnMsg(m);
        if !heard { return false; }
        ExtendedOwes(msgs, session.context.messages, m, calls[i..][1..]);
        assert calls[i..][1..] == calls[i + 1..];
        i := i + 1;
      }
      assert calls[i..] == [];
      NothingOwed(session.context.messages);
      return true;
    }

    /** Completes an unfinished group, then the user's words, then the loop. There is a reply only to the prompt: `asked`
        is the commit of the user message with it. */
    method Chat(prompt: string, turns: nat) returns (reply: Option<Message>, ghost asked: Option<Turn>)
      requires Sound(session.context)
      modifies session, store, provider
      ensures reply.Some? ==> |provider.answers| > |old(provider.answers)| && provider.answers[|provider.answers| - 1] == reply.value
      ensures Sound(session.context) && (Sound(old(store.head)) ==> Sound(store.head))
      ensures reply.Some? ==> AllClosed(session.context.messages) && Answers(session.context.messages, reply.value)
      ensures reply.Some? ==> asked.Some?
      ensures asked.Some? ==>
                var t := asked.value;
                && Turned(t) && t.heard && t.m == UserMessage(t.m.number, prompt) && AllClosed(t.before.messages)
                && t.m.role == User && t.m.content == prompt
                && Extends(t.before.messages, t.after.messages, t.m)
    {
      hide Valid, Listed, Paired, AllClosed, HasUser, Turned, Extends;
      asked := None;
      var ok, fills := RecoverBeforeChat();
      if !ok { return None, asked; }
      var number: nat := *;
      var m := UserMessage(number, prompt);
      ghost var msgs, before, head := session.context.messages, session.context, store.head;
      SoundIsPaired(session.context);
      SpeakKeeps(msgs, m);
      ok := HandleTurnMsg(m);
      if !ok { return None, asked; }
      asked := Some(Turn(m, before, head, session.context, store.head, ok));
      ExtendedSpoken(msgs, session.context.messages, m);
      reply := Think(turns);
    }

    method Resume(turns: nat) returns (reply: Option<Message>)
      requires Sound(session.context)
      modifies session, store, provider
      ensures reply.Some? ==> |provider.answers| > |old(provider.answers)| && provider.answers[|provider.answers| - 1] == reply.value
      ensures Sound(session.context) && (Sound(old(store.head)) ==> Sound(store.head))
      ensures reply.Some? ==> AllClosed(session.context.messages) && Answers(session.context.messages, reply.value)
      ensures !NeedsRecovery(old(session.context.messages)) ==> session.context == old(session.context) && reply.None?
    {
      hide *;
      RecoveryNeedsUser(session.context.messages);
      var needed := CheckRecovery(session.context.messages);
      if !needed { return None; }
      var ok, fills := RecoverBeforeChat();
      if !ok { return None; }
      SettledIs(session.context.messages);
      reply := Think(turns);
    }

    /** A next generation of `before`: compacted messages within the target, counted exactly in the window account. */
    ghost predicate Compacted(before: Context, after: Context, target: int) {
      && Compacts(before.messages, after.messages)
      && Count(after.messages) <= target && after.window == Tokens(Count(after.messages), 0)
      && after.generation == before.generation + 1 && after.revision == before.revision + 1
      && after.last == before.last && after.mode == before.mode && after.workDir == before.workDir
    }
  }

  // ---------------------------------------------------------------- what the loop keeps

  ghost predicate Sound(c: Context) {
    Valid(c) && Listed(c.messages) && Paired(c.messages)
  }

  lemma RecoveryNeedsUser(msgs: seq<Message>)
    ensures NeedsRecovery(msgs) ==> HasUser(msgs)
  {
  }

  lemma SettledIs(msgs: seq<Message>)
    requires AllClosed(msgs) && HasUser(msgs)
    ensures Settled(msgs)
  {
  }

  /** The last message is this answer, without calls, under its number. */
  ghost predicate Answers(msgs: seq<Message>, m: Message) {
    && |msgs| > 0 && m.role == Assistant && |m.calls| == 0
    && var last := msgs[|msgs| - 1]; last == m.(number := last.number, original := [last.number])
  }

  /** `m` was appended under some number. */
  ghost predicate Extends(a: seq<Message>, b: seq<Message>, m: Message) {
    |b| == |a| + 1 && b[..|a|] == a && b[|a|] == m.(number := b[|a|].number, original := [b[|a|].number])
  }

  function ToolMessage(number: nat, id: string, content: string): Message {
    Message(number, [], Tool, content, "", "", [], id, None, Unset, Tokens(0, 0), "")
  }

  function UserMessage(number: nat, content: string): Message {
    Message(number, [], User, content, "", "", [], "", None, Unset, Tokens(0, 0), "")
  }

  lemma SoundIsPaired(c: Context)
    requires Sound(c)
    ensures Paired(c.messages) && OnlyLastOpen(c.messages) && NoOrphans(c.messages) && SystemFirst(c.messages)
  {
  }

  lemma ExtendedSkeleton(a: seq<Message>, b: seq<Message>, m: Message)
    requires Extends(a, b, m)
    ensures SameSkeleton(a + [m], b)
  {
    assert forall i :: 0 <= i < |a| ==> b[i] == b[..|a|][i];
  }

  /** A valid candidate for one more message is sound. */
  lemma SoundAppended(c: Context, m: Message)
    requires Sound(c) && Paired(c.messages + [m]) && Identify(c.last, m).Identified?
    ensures var c' := Appended(c, Identify(c.last, m).msg);
            && (Valid(c') ==> forall revision: nat :: Sound(c'.(revision := revision)))
            && Extends(c.messages, c'.messages, m)
  {
    var c' := Appended(c, Identify(c.last, m).msg);
    assert c'.messages[..|c.messages|] == c.messages;
    ExtendedSkeleton(c.messages, c'.messages, m);
    hide Paired, Valid, Listed;
    SkeletonKeeps(c.messages + [m], c'.messages);
    AppendedIsValid(c, m);
    if |c.messages| > 0 {
      AppendedIsListed(c, m);
      if Valid(c') {
        PartsAreSound(c');
        SoundAtAnyRevision(c');
      }
    }
  }

  lemma PartsAreSound(c: Context)
    requires Valid(c) && Listed(c.messages) && Paired(c.messages)
    ensures Sound(c)
  {
  }

  lemma AppendedIsListed(c: Context, m: Message)
    requires Valid(c) && Listed(c.messages) && |c.messages| > 0 && Identify(c.last, m).Identified?
    ensures Listed(Appended(c, Identify(c.last, m).msg).messages)
  {
    Provenance.AppendKeeps(Provenance.State(c, Flat(c.messages)), m);
  }

  lemma SoundAtAnyRevision(c: Context)
    requires Sound(c)
    ensures forall revision: nat :: Sound(c.(revision := revision))
  {
    forall revision: nat ensures Sound(c.(revision := revision)) { ValidAtAnyRevision(c, revision); }
  }

  lemma SettledOrOwed(msgs: seq<Message>)
    requires Paired(msgs)
    ensures if NeedsRecovery(msgs) then Owes(msgs, Missing(msgs)) else AllClosed(msgs)
  {
    hide *;
    if NeedsRecovery(msgs) { MissingIsOwed(msgs); } else { SettledIsClosed(msgs); }
  }

  /** What a compaction produces is sound, and still nothing is open. */
  lemma CompactsSound(before: Context, after: Context)
    requires Sound(before) && Settled(before.messages)
    requires Compacts(before.messages, after.messages) && after.last == before.last && after.generation > 0
    ensures Sound(after) && Settled(after.messages)
  {
    SoundIsPaired(before);
    hide Valid, Listed, Paired, AllClosed, HasUser, Compacts, SystemFirst;
    CompactKeeps(before.messages, after.messages);
    CompactsListed(before, after.messages);
    OthersDoNotMatter(before.(messages := after.messages), after);
  }

  lemma CompactsListed(before: Context, out: seq<Message>)
    requires Valid(before) && Listed(before.messages) && Compacts(before.messages, out)
    ensures Valid(before.(messages := out)) && Listed(out)
  {
    hide Valid, Listed, Summary.MergeOf, Boundary, Provenance.Repacked;
    var mid :| CompactsAt(before.messages, out, mid);
    RepackedListed(before, mid);
    if out != mid {
      var summary :| Summary.MergeOf(mid, Boundary(before.messages), summary, out);
      MergedListed(before.(messages := mid), Boundary(before.messages), summary, out);
    }
  }

  lemma RepackedListed(c: Context, mid: seq<Message>)
    requires Valid(c) && Listed(c.messages) && Provenance.Repacked(c.messages, mid)
    ensures Valid(c.(messages := mid)) && Listed(mid)
  {
    hide Valid, Partition, Provenance.Repacked;
    Provenance.RepackedKeeps(Provenance.State(c, Flat(c.messages)), mid);
    PartitionIsListed(mid, Flat(c.messages));
  }

  lemma MergedListed(c: Context, b: nat, summary: string, out: seq<Message>)
    requires Valid(c) && Listed(c.messages) && Summary.MergeOf(c.messages, b, summary, out)
    ensures Valid(c.(messages := out)) && Listed(out)
  {
    hide Valid, Partition, Summary.MergeOf;
    Provenance.MergeKeeps(Provenance.State(c, Flat(c.messages)), b, summary, out);
    PartitionIsListed(out, Flat(c.messages));
  }

  lemma PartitionIsListed(msgs: seq<Message>, log: seq<nat>)
    requires Partition(msgs, log)
    ensures Listed(msgs)
  {
  }

  /** Everything is closed and there is a user message. */
  ghost predicate Settled(msgs: seq<Message>) {
    AllClosed(msgs) && HasUser(msgs)
  }

  lemma OthersDoNotMatter(a: Context, b: Context)
    requires Valid(a) && b.messages == a.messages && b.last == a.last && b.generation > 0
    ensures Valid(b)
  {
    hide NumbersValid;
    assert forall m: Message :: OriginalsValid(m, a.last) ==> OriginalsValid(m, b.last);
    hide OriginalsValid;
  }

  lemma ReconciledSound(c: Context, input: int)
    requires Sound(c)
    ensures Sound(Reconciled(c, input)) && Reconciled(c, input).messages == c.messages
  {
    OthersDoNotMatter(c, Reconciled(c, input));
  }

  lemma ExtendedOwes(a: seq<Message>, b: seq<Message>, m: Message, rest: seq<Call>)
    requires Extends(a, b, m) && Owes(a + [m], rest) && Paired(a + [m])
    ensures Owes(b, rest) && (HasUser(a) ==> HasUser(b))
  {
    ExtendedSkeleton(a, b, m);
    SkeletonOwes(a + [m], b, rest);
    SkeletonKeeps(a + [m], b);
    UserStays(a, m);
  }

  lemma ExtendedSpoken(a: seq<Message>, b: seq<Message>, m: Message)
    requires Extends(a, b, m) && Paired(a + [m])
    ensures AllClosed(a + [m]) ==> AllClosed(b)
    ensures HasUser(a) || m.role == User ==> HasUser(b)
    ensures m.role == Assistant && |m.calls| == 0 ==> Answers(b, m)
  {
    ExtendedSkeleton(a, b, m);
    SkeletonKeeps(a + [m], b);
    UserStays(a, m);
  }

  function SummaryPrefix(first: nat, last: nat): (r: string)
    ensures r != ""
  {
    "以下是原始消息 " + ("seq " + Compress.Decimal(first) + "-" + Compress.Decimal(last))
    + " 的结构化历史摘要，不是新的用户请求：\n"
  }

  lemma OneUsed(a: SummaryCall)
    ensures UsedBy([a]) == Tokens(0, 0).Plus(a.used)
  {
    assert [a][..0] == [];
  }

  lemma TwoUsed(a: SummaryCall, b: SummaryCall)
    ensures UsedBy([a, b]) == Tokens(0, 0).Plus(a.used).Plus(b.used)
  {
    OneUsed(a);
    assert [a, b][..1] == [a];
  }

  /** The first request is for the whole source; the second, if any, for a shorter version of the first reply. */
  ghost predicate RequestsOk(calls: seq<SummaryCall>, source: seq<Message>) {
    && |calls| <= 2
    && (|calls| > 0 ==> calls[0].source == source && calls[0].previous == "" && calls[0].most > 0)
    && (|calls| > 1 ==>
          && calls[0].reply.Some? && calls[1].source == [] && calls[1].previous == calls[0].reply.value
          && 0 < calls[1].most < calls[0].most)
  }

  /** What is to be summarized has the numbers of the messages it is replaced for. */
  ghost predicate SameNumbers(msgs: seq<Message>, source: seq<Message>, b: nat) {
    && 1 < b <= |msgs| && |source| == b - 1
    && source[0].number == msgs[1].number && source[b - 2].number == msgs[b - 1].number
  }

  /** Everything before `b` but the system prompt gave way to the last text the summary model returned, under a header
      with the first and the last number it stands for. */
  ghost predicate Summarized(msgs: seq<Message>, out: seq<Message>, b: nat, calls: seq<SummaryCall>) {
    && 1 < b < |msgs| && |calls| > 0 && calls[|calls| - 1].reply.Some?
    && Summary.MergeOf(msgs, b, Header(msgs, b) + calls[|calls| - 1].reply.value, out)
  }

  /** The header names the first and the last number. */
  lemma PrefixNames(first: nat, last: nat)
    ensures CompressedTexts.Contains(SummaryPrefix(first, last), "seq " + Compress.Decimal(first) + "-" + Compress.Decimal(last))
  {
    hide Compress.Decimal;
    CompressedTexts.Within("以下是原始消息 ", "seq " + Compress.Decimal(first) + "-" + Compress.Decimal(last),
                           " 的结构化历史摘要，不是新的用户请求：\n");
  }

  /** The header of a summary of everything before `b` but the system prompt. */
  function Header(msgs: seq<Message>, b: nat): (r: string)
    requires 1 < b <= |msgs|
    ensures r != ""
  {
    SummaryPrefix(msgs[1].number, msgs[b - 1].number)
  }

  lemma HeaderOf(msgs: seq<Message>, source: seq<Message>, b: nat)
    requires b < |msgs| && SameNumbers(msgs, source, b)
    ensures 1 < b && SummaryPrefix(source[0].number, source[|source| - 1].number) == Header(msgs, b)
  {
  }

  lemma NeverRefused(msgs: seq<Message>, b: nat, content: string)
    requires Listed(msgs) && 1 < b < |msgs| && msgs[0].role == System && content != ""
    ensures Summary.FirstFault(msgs, b, content) == None
  {
    hide Flat;
    Summary.NeverRefused(msgs, b, content, Flat(msgs));
  }

  lemma LastReplyMerged(msgs: seq<Message>, out: seq<Message>, b: nat, calls: seq<SummaryCall>)
    requires 1 < b < |msgs| && |calls| > 0 && calls[|calls| - 1].reply.Some?
    requires Summary.MergeOf(msgs, b, Header(msgs, b) + calls[|calls| - 1].reply.value, out)
    ensures Summarized(msgs, out, b, calls)
  {
    hide Summary.MergeOf, Header;
  }

  ghost predicate MergedAt(msgs: seq<Message>, out: seq<Message>, b: nat) {
    exists summary :: Summary.MergeOf(msgs, b, summary, out)
  }

  ghost predicate CompactsAt(msgs: seq<Message>, out: seq<Message>, mid: seq<Message>) {
    Provenance.Repacked(msgs, mid) && (out == mid || MergedAt(mid, out, Boundary(msgs)))
  }

  /** Either there was no summary and messages were only repacked, or the second message is the last text the summary
      model returned, under its header; the calls are added to the total. */
  ghost predicate Told(before: Context, after: Context, calls: seq<SummaryCall>) {
    && after.used.input == before.used.input + UsedBy(calls).input && after.used.output == before.used.output + UsedBy(calls).output
    && if |calls| == 0 then Provenance.Repacked(before.messages, after.messages)
       else
         var b := Boundary(before.messages);
         && 1 < b < |before.messages| && calls[|calls| - 1].reply.Some? && |after.messages| > 1 && after.messages[1].role == User
         && after.messages[1].content
            == Header(before.messages, b) + calls[|calls| - 1].reply.value
  }

  /** What was told does not depend on generation, revision and window account. */
  lemma ToldStays(before: Context, a: Context, b: Context, calls: seq<SummaryCall>)
    requires Told(before, a, calls) && b.messages == a.messages && b.used == a.used
    ensures Told(before, b, calls)
  {
    hide Boundary, UsedBy, Header, Provenance.Repacked;
  }

  lemma NothingSaid(said: seq<SummaryCall>)
    ensures said[|said|..] == []
  {
  }

  lemma LocallyCompacted(before: Context, mid: seq<Message>, b: nat)
    requires b == Boundary(before.messages) && Shrunk(before.messages, mid, b)
    ensures Compacts(before.messages, mid) && Told(before, before.(messages := mid), [])
  {
    hide Boundary;
    assert CompactsAt(before.messages, mid, mid);
  }

  lemma SourceNumbers(msgs: seq<Message>, mid: seq<Message>, source: seq<Message>, b: nat)
    requires Shrunk(msgs, mid, b) && SourceOf(msgs, source, b)
    ensures SameNumbers(mid, source, b)
  {
  }

  lemma SummaryCompacted(before: Context, mid: seq<Message>, after: Context, b: nat, calls: seq<SummaryCall>)
    requires b == Boundary(before.messages) && Shrunk(before.messages, mid, b) && Summarized(mid, after.messages, b, calls)
    requires after.used == before.used.Plus(UsedBy(calls))
    ensures Compacts(before.messages, after.messages) && Told(before, after, calls)
  {
    hide Boundary, UsedBy, SummaryPrefix;
    assert CompactsAt(before.messages, after.messages, mid);
  }

  lemma OldResults(msgs: seq<Message>, indices: seq<nat>, est: Estimator)
    requires forall i :: i in indices ==> Compress.Archivable(msgs, i, est)
    ensures forall i :: i in indices ==> i < Boundary(msgs) <= |msgs| && msgs[i].role == Tool
  {
    hide Boundary, Compress.Archivable;
    BoundaryStartsGroup(msgs);
    forall i | i in indices ensures i < Boundary(msgs) && i < |msgs| && msgs[i].role == Tool {
      Compress.ArchivableIsOldResult(msgs, i, est);
    }
  }

  /** What local compaction leaves is still partitioned, and a summary can be merged in at its boundary. */
  lemma ShrunkIsSound(before: Context, mid: seq<Message>, b: nat)
    requires Valid(before) && Listed(before.messages) && b == Boundary(before.messages) && Shrunk(before.messages, mid, b)
    ensures Provenance.Repacked(before.messages, mid) && Listed(mid)
    ensures b > 1 ==> b < |mid| && mid[0].role == System
  {
    RepackedPartition(before.messages, mid, Flat(before.messages));
    hide Partition, Boundary;
    BoundaryStartsGroup(before.messages);
  }

  lemma CompactedShrinks(msgs: seq<Message>, mid: seq<Message>, out: seq<Message>, least: nat, est: Estimator, b: nat)
    requires Shrunk(msgs, mid, b) && b == Boundary(msgs)
    requires exists edits :: Compress.ShortestPrefix(mid, least, est, edits) && out == Compress.ApplyAll(mid, edits, est).0
    ensures Shrunk(msgs, out, b)
  {
    hide Boundary, Shrunk, Compress.ApplyAll, Compress.Plan;
    var edits :| Compress.ShortestPrefix(mid, least, est, edits) && out == Compress.ApplyAll(mid, edits, est).0;
    Compress.CompressionKeeps(mid, edits, est);
    ShrunkSteps(msgs, mid, out, b);
  }
}
