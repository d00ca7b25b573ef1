/** The deterministic local compression of internal/domain/compactor/compactor.go: an ordered plan of edits
    before the protected start, of which the shortest sufficient prefix is carried out. */
module Compress {
  import opened Words
  import opened Messages
  import opened ToolGroups

  const OLD_OUTPUT_TOKENS: nat := 50
  const CONTENT_LIMIT: nat := 1000

  /** The results of one group are one edit; the savings are compared only between edits. */
  datatype Edit = ClearResults(at: seq<nat>) | ClearReasoning(i: nat) | Truncate(i: nat)

  // ---------------------------------------------------------------- texts

  function Digit(d: nat): char
    requires d < 10
  {
    "0123456789"[d]
  }

  function Decimal(n: nat): string {
    (if n < 10 then "" else Decimal(n / 10)) + [Digit(n % 10)]
  }

  /** clearedToolOutput: the tool's short result, if any, and a reference to the archived text. */
  function Placeholder(m: Message, a: Artifact): string {
    var ref := "[早期工具输出已归档 " + ("call_id=" + m.callId) + " " + ("bytes=" + Decimal(a.size)) + "；read_artifact("
               + ("artifact_id=" + a.id) + ", offset=0, limit=4000) 按需读取]";
    if m.compact != "" then m.compact + "\n" + ref else ref
  }

  /** truncateMiddleRunes at the fixed limit: head, a note of how much is gone, tail. */
  function Truncated(content: string): string
    requires |content| > CONTENT_LIMIT
  {
    content[..CONTENT_LIMIT / 2] + " [...中间" + Decimal(|content| - CONTENT_LIMIT) + "字符已截断...] "
    + content[|content| - (CONTENT_LIMIT - CONTENT_LIMIT / 2)..]
  }

  // ---------------------------------------------------------------- the plan

  /** One edit for each group before the boundary. */
  function ResultEdits(groups: seq<Group>, n: nat, b: nat): seq<Edit>
    requires n <= |groups|
  {
    if n == 0 then []
    else ResultEdits(groups, n - 1, b) + if groups[n - 1].at < b then [ClearResults(groups[n - 1].results)] else []
  }

  function ReasoningEdits(msgs: seq<Message>, n: nat, b: nat): seq<Edit>
    requires n <= |msgs|
  {
    if n == 0 then []
    else ReasoningEdits(msgs, n - 1, b)
         + if msgs[n - 1].role == Assistant && n - 1 < b && msgs[n - 1].reasoning != "" then [ClearReasoning(n - 1)] else []
  }

  function TruncateEdits(msgs: seq<Message>, n: nat, b: nat): seq<Edit>
    requires n <= |msgs|
  {
    if n == 0 then []
    else TruncateEdits(msgs, n - 1, b)
         + if msgs[n - 1].role == Assistant && n - 1 < b && |msgs[n - 1].content| > CONTENT_LIMIT then [Truncate(n - 1)] else []
  }

  /** Archived old tool outputs first, then old reasoning, then old assistant texts. */
  function Plan(msgs: seq<Message>): seq<Edit> {
    var b, groups := Boundary(msgs), Groups(msgs);
    ResultEdits(groups, |groups|, b) + ReasoningEdits(msgs, |msgs|, b) + TruncateEdits(msgs, |msgs|, b)
  }

  // ---------------------------------------------------------------- carrying edits out

  /** replaceContent: only a text that costs less is taken. */
  function Replace(m: Message, content: string, est: Estimator): (Message, nat) {
    if est(content) >= est(m.content) then (m, 0) else (m.(content := content), est(m.content) - est(content))
  }

  function ClearOne(m: Message, est: Estimator): (Message, nat) {
    if m.artifact.None? || est(m.content) <= OLD_OUTPUT_TOKENS then (m, 0)
    else Replace(m, Placeholder(m, m.artifact.value), est)
  }

  function ClearAll(msgs: seq<Message>, at: seq<nat>, n: nat, est: Estimator): (r: (seq<Message>, nat))
    requires n <= |at|
    ensures |r.0| == |msgs|
  {
    if n == 0 then (msgs, 0)
    else
      var (out, saved) := ClearAll(msgs, at, n - 1, est);
      if at[n - 1] < |out| then
        var (m, more) := ClearOne(out[at[n - 1]], est);
        (out[at[n - 1] := m], saved + more)
      else (out, saved)
  }

  function ApplyEdit(msgs: seq<Message>, e: Edit, est: Estimator): (r: (seq<Message>, nat))
    ensures |r.0| == |msgs|
  {
    match e
    case ClearResults(at) => ClearAll(msgs, at, |at|, est)
    case ClearReasoning(i) =>
      if i < |msgs| then (msgs[i := msgs[i].(reasoning := "")], est(msgs[i].reasoning)) else (msgs, 0)
    case Truncate(i) =>
      if i < |msgs| && |msgs[i].content| > CONTENT_LIMIT then
        var (m, more) := Replace(msgs[i], Truncated(msgs[i].content), est);
        (msgs[i := m], more)
      else (msgs, 0)
  }

  function ApplyAll(msgs: seq<Message>, edits: seq<Edit>, est: Estimator): (r: (seq<Message>, nat))
    ensures |r.0| == |msgs|
  {
    if |edits| == 0 then (msgs, 0)
    else
      var n := |edits| - 1;
      var (out, saved) := ApplyAll(msgs, edits[..n], est);
      var (out', more) := ApplyEdit(out, edits[n], est);
      (out', saved + more)
  }

  /** `edits` is the shortest prefix of the plan that saves enough, or the whole plan when none does. */
  ghost predicate ShortestPrefix(msgs: seq<Message>, least: nat, est: Estimator, edits: seq<Edit>) {
    && edits <= Plan(msgs)
    && (forall k :: 0 <= k < |edits| ==> ApplyAll(msgs, edits[..k], est).1 < least)
    && (ApplyAll(msgs, edits, est).1 >= least || edits == Plan(msgs))
  }

  lemma ShortestIsUnique(msgs: seq<Message>, least: nat, est: Estimator, a: seq<Edit>, b: seq<Edit>)
    requires ShortestPrefix(msgs, least, est, a) && ShortestPrefix(msgs, least, est, b)
    ensures a == b
  {
    assert |a| <= |b| ==> b[..|a|] == a;
    assert |b| <= |a| ==> a[..|b|] == b;
  }

  // ---------------------------------------------------------------- what compression keeps

  /** Only texts and reasoning of assistant and tool messages before `b` may differ. */
  ghost predicate Trims(msgs: seq<Message>, out: seq<Message>, b: nat) {
    && |out| == |msgs|
    && forall i :: 0 <= i < |msgs| ==>
         if i < b && Trimmable(msgs[i]) then out[i] == msgs[i].(content := out[i].content, reasoning := out[i].reasoning)
         else out[i] == msgs[i]
  }

  predicate Trimmable(m: Message) {
    m.role == Assistant || m.role == Tool
  }

  function Cost(m: Message, est: Estimator): nat {
    est(m.content) + est(m.reasoning)
  }

  function TotalCost(msgs: seq<Message>, est: Estimator): nat {
    if |msgs| == 0 then 0 else TotalCost(msgs[..|msgs| - 1], est) + Cost(msgs[|msgs| - 1], est)
  }

  lemma {:induction false} TotalCostUpdate(msgs: seq<Message>, i: nat, m: Message, est: Estimator)
    requires i < |msgs|
    ensures TotalCost(msgs[i := m], est) == TotalCost(msgs, est) - Cost(msgs[i], est) + Cost(m, est)
  {
    var n := |msgs| - 1;
    if i < n {
      assert msgs[i := m][..n] == msgs[..n][i := m];
      TotalCostUpdate(msgs[..n], i, m, est);
    } else {
      assert msgs[i := m][..n] == msgs[..n];
    }
  }

  /** An edit touches assistant and tool messages before `b` only. */
  predicate EditBefore(e: Edit, msgs: seq<Message>, b: nat)
    requires b <= |msgs|
  {
    match e
    case ClearResults(at) => forall j :: 0 <= j < |at| ==> at[j] < b && msgs[at[j]].role == Tool
    case ClearReasoning(i) => i < b && msgs[i].role == Assistant
    case Truncate(i) => i < b && msgs[i].role == Assistant
  }

  lemma {:induction false} ClearAllTrims(msgs: seq<Message>, at: seq<nat>, n: nat, b: nat, est: Estimator)
    requires n <= |at| && b <= |msgs| && EditBefore(ClearResults(at), msgs, b)
    ensures var (out, saved) := ClearAll(msgs, at, n, est);
            Trims(msgs, out, b) && TotalCost(out, est) + saved == TotalCost(msgs, est)
  {
    if n > 0 {
      ClearAllTrims(msgs, at, n - 1, b, est);
      var out := ClearAll(msgs, at, n - 1, est).0;
      if at[n - 1] < |out| {
        hide TotalCost, Placeholder;
        TotalCostUpdate(out, at[n - 1], ClearOne(out[at[n - 1]], est).0, est);
      }
    }
  }

  predicate ClearsReasoning(edits: seq<Edit>) {
    exists k :: 0 <= k < |edits| && edits[k].ClearReasoning?
  }

  /** The cost of the empty texts that cleared reasonings leave behind. */
  function Leftover(edits: seq<Edit>, est: Estimator): (r: nat)
    ensures r == 0 <==> est("") == 0 || !ClearsReasoning(edits)
  {
    if |edits| == 0 then 0
    else
      assert forall k :: 0 <= k < |edits| - 1 ==> edits[..|edits| - 1][k] == edits[k];
      Leftover(edits[..|edits| - 1], est) + LeftoverOf(edits[|edits| - 1], est)
  }

  function LeftoverOf(e: Edit, est: Estimator): nat {
    if e.ClearReasoning? then est("") else 0
  }

  lemma UpdateTrims(msgs: seq<Message>, i: nat, m: Message, b: nat, est: Estimator)
    requires i < b <= |msgs| && Trimmable(msgs[i]) && m == msgs[i].(content := m.content, reasoning := m.reasoning)
    ensures Trims(msgs, msgs[i := m], b)
    ensures TotalCost(msgs[i := m], est) == TotalCost(msgs, est) - Cost(msgs[i], est) + Cost(m, est)
  {
    TotalCostUpdate(msgs, i, m, est);
  }

  lemma ReplacePays(m: Message, content: string, est: Estimator)
    ensures var (m', saved) := Replace(m, content, est);
            m' == m.(content := m'.content, reasoning := m'.reasoning) && Cost(m', est) + saved == Cost(m, est)
  {
  }

  lemma ApplyEditTrims(msgs: seq<Message>, e: Edit, b: nat, est: Estimator)
    requires b <= |msgs| && EditBefore(e, msgs, b)
    ensures var (out, saved) := ApplyEdit(msgs, e, est);
            Trims(msgs, out, b) && TotalCost(out, est) + saved == TotalCost(msgs, est) + LeftoverOf(e, est)
  {
    hide TotalCost, Trims, Replace, Truncated, ClearAll;
    match e
    case ClearResults(at) => ClearAllTrims(msgs, at, |at|, b, est);
    case ClearReasoning(i) => UpdateTrims(msgs, i, msgs[i].(reasoning := ""), b, est);
    case Truncate(i) =>
      if |msgs[i].content| > CONTENT_LIMIT {
        var content := Truncated(msgs[i].content);
        ReplacePays(msgs[i], content, est);
        UpdateTrims(msgs, i, Replace(msgs[i], content, est).0, b, est);
      } else {
        TrimsSelf(msgs, b);
      }
  }

  lemma TrimsSelf(msgs: seq<Message>, b: nat)
    ensures Trims(msgs, msgs, b)
  {
  }

  lemma SameRoles(msgs: seq<Message>, out: seq<Message>, e: Edit, b: nat)
    requires b <= |msgs| && Trims(msgs, out, b) && EditBefore(e, msgs, b)
    ensures EditBefore(e, out, b)
  {
  }

  lemma TrimsCompose(a: seq<Message>, b: seq<Message>, c: seq<Message>, to: nat)
    requires Trims(a, b, to) && Trims(b, c, to)
    ensures Trims(a, c, to)
  {
  }

  lemma {:induction false} ApplyAllTrims(msgs: seq<Message>, edits: seq<Edit>, b: nat, est: Estimator)
    requires b <= |msgs| && forall k :: 0 <= k < |edits| ==> EditBefore(edits[k], msgs, b)
    ensures var (out, saved) := ApplyAll(msgs, edits, est);
            Trims(msgs, out, b) && TotalCost(out, est) + saved == TotalCost(msgs, est) + Leftover(edits, est)
  {
    hide ApplyEdit, TotalCost, LeftoverOf, EditBefore, Trims, ClearsReasoning;
    if |edits| == 0 {
      TrimsSelf(msgs, b);
    } else {
      var n := |edits| - 1;
      ApplyAllTrims(msgs, edits[..n], b, est);
      var out := ApplyAll(msgs, edits[..n], est).0;
      SameRoles(msgs, out, edits[n], b);
      ApplyEditTrims(out, edits[n], b, est);
      TrimsCompose(msgs, out, ApplyEdit(out, edits[n], est).0, b);
    }
  }

  lemma {:induction false} ResultEditsBefore(msgs: seq<Message>, groups: seq<Group>, n: nat, b: nat)
    requires n <= |groups| && b <= |msgs| && IsBoundary(groups, b) && AllOk(groups, msgs, |msgs|)
    ensures forall e :: e in ResultEdits(groups, n, b) ==> EditBefore(e, msgs, b)
  {
    if n > 0 {
      ResultEditsBefore(msgs, groups, n - 1, b);
      var g := groups[n - 1];
      assert GroupOk(g, msgs, |msgs|);
      if g.at < b {
        forall j | 0 <= j < |g.results| ensures g.results[j] < b && msgs[g.results[j]].role == Tool {
          assert ResultOk(g, msgs, |msgs|, g.results[j]);
        }
        assert EditBefore(ClearResults(g.results), msgs, b);
      }
    }
  }

  lemma {:induction false} TextEditsBefore(msgs: seq<Message>, n: nat, b: nat)
    requires n <= |msgs| && b <= |msgs|
    ensures forall e :: e in ReasoningEdits(msgs, n, b) ==> EditBefore(e, msgs, b)
    ensures forall e :: e in TruncateEdits(msgs, n, b) ==> EditBefore(e, msgs, b)
  {
    if n > 0 { TextEditsBefore(msgs, n - 1, b); }
  }

  lemma PlanBefore(msgs: seq<Message>)
    ensures Boundary(msgs) <= |msgs| && forall e :: e in Plan(msgs) ==> EditBefore(e, msgs, Boundary(msgs))
  {
    var b, groups := Boundary(msgs), Groups(msgs);
    BoundaryIsGreatest(msgs);
    BoundaryStartsGroup(msgs);
    GroupsInOrder(msgs);
    hide Boundary, Groups;
    ResultEditsBefore(msgs, groups, |groups|, b);
    TextEditsBefore(msgs, |msgs|, b);
  }

  /** Any prefix of the plan leaves the protected messages alone and keeps every role, number, call and result
      id and the boundary itself. */
  lemma CompressionKeeps(msgs: seq<Message>, edits: seq<Edit>, est: Estimator)
    requires edits <= Plan(msgs)
    ensures var out := ApplyAll(msgs, edits, est).0;
            Trims(msgs, out, Boundary(msgs)) && SameSkeleton(msgs, out) && Boundary(out) == Boundary(msgs)
  {
    PlanTrims(msgs, edits, est);
    TrimsKeepsBoundary(msgs, ApplyAll(msgs, edits, est).0, Boundary(msgs));
  }

  /** The savings reported are exactly what the total estimate falls by, if and only if an empty text costs
      nothing or no reasoning was cleared: the source never subtracts the cost of the empty reasoning it leaves. */
  lemma SavedIsExact(msgs: seq<Message>, edits: seq<Edit>, est: Estimator)
    requires edits <= Plan(msgs)
    ensures var (out, saved) := ApplyAll(msgs, edits, est);
            TotalCost(msgs, est) - TotalCost(out, est) == saved <==> est("") == 0 || !ClearsReasoning(edits)
    ensures var (out, saved) := ApplyAll(msgs, edits, est);
            TotalCost(msgs, est) - TotalCost(out, est) <= saved
  {
    hide ApplyAll, Plan, TotalCost, Leftover, ClearsReasoning;
    PlanTrims(msgs, edits, est);
  }

  // ---------------------------------------------------------------- when the savings are exact, before the call

  /** What archiving the results of one group would save, each result by itself. */
  function ResultSavings(msgs: seq<Message>, results: seq<nat>, n: nat, est: Estimator): nat
    requires n <= |results|
  {
    if n == 0 then 0
    else ResultSavings(msgs, results, n - 1, est)
         + if results[n - 1] < |msgs| then ClearOne(msgs[results[n - 1]], est).1 else 0
  }

  /** What archiving all old tool outputs would save. */
  function OutputSavings(msgs: seq<Message>, groups: seq<Group>, n: nat, b: nat, est: Estimator): nat
    requires n <= |groups|
  {
    if n == 0 then 0
    else OutputSavings(msgs, groups, n - 1, b, est)
         + if groups[n - 1].at < b then ResultSavings(msgs, groups[n - 1].results, |groups[n - 1].results|, est) else 0
  }

  predicate OldReasoning(msgs: seq<Message>, i: nat) {
    i < |msgs| && i < Boundary(msgs) && msgs[i].role == Assistant && msgs[i].reasoning != ""
  }

  /** The old tool outputs save too little, and some old reasoning is next. */
  ghost predicate ReachesReasoning(msgs: seq<Message>, least: nat, est: Estimator) {
    && OutputSavings(msgs, Groups(msgs), |Groups(msgs)|, Boundary(msgs), est) < least
    && exists i :: OldReasoning(msgs, i)
  }

  /** Messages that archiving the first `n` results has not reached are as before. */
  lemma {:induction false} ClearAllSaves(msgs: seq<Message>, before: seq<Message>, at: seq<nat>, n: nat, est: Estimator)
    requires n <= |at| && |before| == |msgs|
    requires forall i, j :: 0 <= i < j < |at| ==> at[i] != at[j]
    requires forall j :: 0 <= j < |at| && at[j] < |msgs| ==> before[at[j]] == msgs[at[j]]
    ensures var (out, saved) := ClearAll(before, at, n, est);
            && saved == ResultSavings(msgs, at, n, est)
            && forall i :: 0 <= i < |msgs| && i !in at[..n] ==> out[i] == before[i]
  {
    if n > 0 {
      hide ClearOne;
      ClearAllSaves(msgs, before, at, n - 1, est);
      var out := ClearAll(before, at, n - 1, est).0;
      assert at[..n] == at[..n - 1] + [at[n - 1]];
      assert at[n - 1] !in at[..n - 1];
    }
  }

  /** Only results of the first `n` groups differ. */
  ghost predicate OnlyResults(msgs: seq<Message>, out: seq<Message>, groups: seq<Group>, n: nat) {
    && n <= |groups| && |out| == |msgs|
    && forall i :: 0 <= i < |msgs| && (forall k :: 0 <= k < n ==> i !in groups[k].results) ==> out[i] == msgs[i]
  }

  ghost predicate OutputsSaved(msgs: seq<Message>, groups: seq<Group>, n: nat, b: nat, est: Estimator) {
    && n <= |groups|
    && var (out, saved) := ApplyAll(msgs, ResultEdits(groups, n, b), est);
       saved == OutputSavings(msgs, groups, n, b, est) && OnlyResults(msgs, out, groups, n)
  }

  lemma {:induction false} OutputsSave(msgs: seq<Message>, groups: seq<Group>, n: nat, b: nat, est: Estimator)
    requires n <= |groups| && AllOk(groups, msgs, |msgs|) && Disjoint(groups)
    ensures OutputsSaved(msgs, groups, n, b, est)
  {
    hide *;
    if n > 0 {
      OutputsSave(msgs, groups, n - 1, b, est);
      GroupSaved(msgs, groups, n - 1, b, est);
    } else {
      NothingSaved(msgs, groups, b, est);
    }
  }

  lemma GroupSaved(msgs: seq<Message>, groups: seq<Group>, n: nat, b: nat, est: Estimator)
    requires n < |groups| && AllOk(groups, msgs, |msgs|) && Disjoint(groups) && OutputsSaved(msgs, groups, n, b, est)
    ensures OutputsSaved(msgs, groups, n + 1, b, est)
  {
    hide ApplyAll, ApplyEdit, ResultSavings, AllOk, Disjoint, OnlyResults;
    var edits := ResultEdits(groups, n, b);
    var out := ApplyAll(msgs, edits, est).0;
    if groups[n].at < b {
      ApplyOne(msgs, edits, ClearResults(groups[n].results), est);
      GroupSaves(msgs, out, groups, n, est);
      LastEdit(groups, n + 1, b);
    } else {
      assert ResultEdits(groups, n + 1, b) == edits;
      MoreResults(msgs, out, groups, n);
    }
  }

  lemma NothingSaved(msgs: seq<Message>, groups: seq<Group>, b: nat, est: Estimator)
    ensures OutputsSaved(msgs, groups, 0, b, est)
  {
  }

  lemma MoreResults(msgs: seq<Message>, out: seq<Message>, groups: seq<Group>, n: nat)
    requires n < |groups| && OnlyResults(msgs, out, groups, n)
    ensures OnlyResults(msgs, out, groups, n + 1)
  {
  }

  lemma GroupSaves(msgs: seq<Message>, out: seq<Message>, groups: seq<Group>, n: nat, est: Estimator)
    requires n < |groups| && AllOk(groups, msgs, |msgs|) && Disjoint(groups) && OnlyResults(msgs, out, groups, n)
    ensures var at := groups[n].results;
            var (out', more) := ApplyEdit(out, ClearResults(at), est);
            more == ResultSavings(msgs, at, |at|, est) && OnlyResults(msgs, out', groups, n + 1)
  {
    hide AllOk, Disjoint, ClearAll, ResultSavings;
    var at := groups[n].results;
    UnreachedResults(msgs, out, groups, n);
    ClearAllSaves(msgs, out, at, |at|, est);
    assert at[..|at|] == at;
  }

  lemma LastEdit(groups: seq<Group>, n: nat, b: nat)
    requires 0 < n <= |groups| && groups[n - 1].at < b
    ensures ResultEdits(groups, n, b) == ResultEdits(groups, n - 1, b) + [ClearResults(groups[n - 1].results)]
  {
  }

  lemma UnreachedResults(msgs: seq<Message>, out: seq<Message>, groups: seq<Group>, n: nat)
    requires n < |groups| && AllOk(groups, msgs, |msgs|) && Disjoint(groups) && OnlyResults(msgs, out, groups, n)
    ensures var at := groups[n].results;
            && (forall i, j :: 0 <= i < j < |at| ==> at[i] != at[j])
            && forall j :: 0 <= j < |at| && at[j] < |msgs| ==> out[at[j]] == msgs[at[j]]
  {
    var at := groups[n].results;
    assert GroupOk(groups[n], msgs, |msgs|);
    forall j | 0 <= j < |at| && at[j] < |msgs| ensures out[at[j]] == msgs[at[j]] {
      assert at[j] in groups[n].results;
    }
  }

  lemma {:induction false} SavingsGrow(msgs: seq<Message>, edits: seq<Edit>, k: nat, est: Estimator)
    requires k <= |edits|
    ensures ApplyAll(msgs, edits[..k], est).1 <= ApplyAll(msgs, edits, est).1
    decreases |edits|
  {
    if k < |edits| {
      var n := |edits| - 1;
      SavingsGrow(msgs, edits[..n], k, est);
      ApplyOne(msgs, edits[..n], edits[n], est);
      hide *;
      assert edits[..n][..k] == edits[..k] && edits[..n] + [edits[n]] == edits;
    } else {
      assert edits[..k] == edits;
    }
  }

  lemma {:induction false} ReasoningEditsAre(msgs: seq<Message>, n: nat, b: nat)
    requires n <= |msgs|
    ensures forall e :: e in ReasoningEdits(msgs, n, b) ==> e.ClearReasoning?
    ensures |ReasoningEdits(msgs, n, b)| > 0 <==>
            exists i :: 0 <= i < n && i < b && msgs[i].role == Assistant && msgs[i].reasoning != ""
  {
    if n > 0 { ReasoningEditsAre(msgs, n - 1, b); }
  }

  lemma {:induction false} OtherEditsAre(msgs: seq<Message>, groups: seq<Group>, k: nat, n: nat, b: nat)
    requires k <= |groups| && n <= |msgs|
    ensures forall e :: e in ResultEdits(groups, k, b) ==> e.ClearResults?
    ensures forall e :: e in TruncateEdits(msgs, n, b) ==> e.Truncate?
  {
    if k > 0 { OtherEditsAre(msgs, groups, k - 1, n, b); } else if n > 0 { OtherEditsAre(msgs, groups, k, n - 1, b); }
  }

  /** The edits carried out for a goal clear a reasoning exactly when the old tool outputs save too little and there is
      an old reasoning. */
  lemma ClearsWhenReached(msgs: seq<Message>, least: nat, est: Estimator, edits: seq<Edit>)
    requires ShortestPrefix(msgs, least, est, edits)
    ensures ClearsReasoning(edits) <==> ReachesReasoning(msgs, least, est)
  {
    var b := Boundary(msgs);
    PlanParts(msgs);
    EarlySaves(msgs, est);
    OldReasoningIsNext(msgs);
    OtherEditsAre(msgs, Groups(msgs), |Groups(msgs)|, |msgs|, b);
    hide Plan, Early, Middle, ApplyAll, ResultEdits, ReasoningEdits, TruncateEdits, ClearsReasoning, ShortestPrefix, OldReasoning,
         OutputSavings, Groups, Boundary;
    EditsInOrder(msgs, least, est, edits, Early(msgs), ReasoningEdits(msgs, |msgs|, b), TruncateEdits(msgs, |msgs|, b));
  }

  lemma EarlySaves(msgs: seq<Message>, est: Estimator)
    ensures ApplyAll(msgs, Early(msgs), est).1 == OutputSavings(msgs, Groups(msgs), |Groups(msgs)|, Boundary(msgs), est)
  {
    ScanCollects(msgs, |msgs|);
    hide Boundary, Scan, ApplyAll, ResultEdits, OutputSavings;
    OutputsSave(msgs, Groups(msgs), |Groups(msgs)|, Boundary(msgs), est);
    assert OutputsSaved(msgs, Groups(msgs), |Groups(msgs)|, Boundary(msgs), est);
  }

  lemma OldReasoningIsNext(msgs: seq<Message>)
    ensures var edits := ReasoningEdits(msgs, |msgs|, Boundary(msgs));
            && (forall e :: e in edits ==> e.ClearReasoning?)
            && (|edits| > 0 <==> exists i :: OldReasoning(msgs, i))
  {
    ReasoningEditsAre(msgs, |msgs|, Boundary(msgs));
    hide Boundary, ReasoningEdits;
    if i :| 0 <= i < |msgs| && i < Boundary(msgs) && msgs[i].role == Assistant && msgs[i].reasoning != "" {
      assert OldReasoning(msgs, i);
    }
  }

  lemma EditsInOrder(msgs: seq<Message>, least: nat, est: Estimator, edits: seq<Edit>, early: seq<Edit>, middle: seq<Edit>, late: seq<Edit>)
    requires ShortestPrefix(msgs, least, est, edits) && Plan(msgs) == early + middle + late
    requires forall e :: e in early ==> e.ClearResults?
    requires forall e :: e in middle ==> e.ClearReasoning?
    requires forall e :: e in late ==> e.Truncate?
    ensures ClearsReasoning(edits) <==> ApplyAll(msgs, early, est).1 < least && |middle| > 0
  {
    hide ApplyAll, Plan;
    var plan := early + middle + late;
    forall k | 0 <= k < |edits| ensures edits[k] in (if k < |early| then early else if k < |early| + |middle| then middle else late) {
      assert edits[k] == plan[k];
    }
    if |edits| > |early| {
      assert edits[..|early|] == plan[..|early|] == early;
      if |middle| > 0 { assert edits[|early|] == plan[|early|] == middle[0]; }
    } else {
      assert early[..|edits|] == edits;
      SavingsGrow(msgs, early, |edits|, est);
    }
  }

  /** Before the call: the savings it will report are the exact drop of the total estimate, if and only if an empty text
      costs nothing or the goal does not reach the old reasonings. */
  lemma SavedIsExactForGoal(msgs: seq<Message>, least: nat, est: Estimator, edits: seq<Edit>)
    requires ShortestPrefix(msgs, least, est, edits)
    ensures var (out, saved) := ApplyAll(msgs, edits, est);
            TotalCost(msgs, est) - TotalCost(out, est) == saved <==> est("") == 0 || !ReachesReasoning(msgs, least, est)
  {
    ClearsWhenReached(msgs, least, est, edits);
    hide ApplyAll, Plan, TotalCost, ClearsReasoning, ReachesReasoning;
    SavedIsExact(msgs, edits, est);
  }

  // ---------------------------------------------------------------- savings that are not made

  function Said(reasoning: string, calls: seq<Call>): Message {
    Message(0, [], Assistant, "", "", reasoning, calls, "", None, Unset, Tokens(0, 0), "")
  }

  /** An answer with reasoning and three calls after it. */
  function Reasoned(): seq<Message> {
    var call := Said("", [Call("a", "", "")]);
    [Said("why", []), call, call, call]
  }

  lemma {:induction false} ReasonedGroups(n: nat)
    requires n <= 4
    ensures var groups := Scan(Reasoned(), n).groups;
            && (n == 0 ==> groups == [])
            && (n > 0 ==> |groups| == n - 1 && forall k :: 0 <= k < n - 1 ==> groups[k].at == k + 1)
  {
    if n > 0 {
      ReasonedGroups(n - 1);
      var c := Scan(Reasoned(), n - 1);
      RegisterKeeps(c.(groups := c.groups + [Group(n - 1, [], false)]), Reasoned()[n - 1].calls, |c.groups|);
      hide Register;
    }
  }

  /** With an estimator that charges for an empty text, as the fallback does, more savings are reported than made. */
  lemma SavingsOverstated(est: Estimator)
    requires est("") > 0
    ensures var msgs := Reasoned();
            var (out, saved) := ApplyAll(msgs, Plan(msgs), est);
            ShortestPrefix(msgs, 1, est, Plan(msgs)) && TotalCost(msgs, est) - TotalCost(out, est) < saved
  {
    var msgs := Reasoned();
    ReasonedPlan();
    var plan := Plan(msgs);
    assert plan[..0] == [];
    assert ApplyAll(msgs, plan[..0], est).1 == 0;
    assert ClearsReasoning(plan) by { assert plan[0].ClearReasoning?; }
    hide Plan, ApplyAll, TotalCost;
    SavedIsExact(msgs, plan, est);
  }

  lemma ReasonedPlan()
    ensures Plan(Reasoned()) == [ClearReasoning(0)]
  {
    var msgs := Reasoned();
    ReasonedGroups(4);
    var groups := Groups(msgs);
    assert Boundary(msgs) == 1 by { hide Scan; assert IsBoundary(groups, 1); }
    hide Boundary, Groups, Scan;
    assert ResultEdits(groups, 3, 1) == [];
    assert ReasoningEdits(msgs, 4, 1) == [ClearReasoning(0)];
    assert TruncateEdits(msgs, 4, 1) == [];
  }

  lemma PlanTrims(msgs: seq<Message>, edits: seq<Edit>, est: Estimator)
    requires edits <= Plan(msgs)
    ensures var (out, saved) := ApplyAll(msgs, edits, est);
            && Trims(msgs, out, Boundary(msgs))
            && TotalCost(out, est) + saved == TotalCost(msgs, est) + Leftover(edits, est)
  {
    hide ApplyAll, Plan, TotalCost, Leftover;
    PlanBefore(msgs);
    forall k | 0 <= k < |edits| ensures EditBefore(edits[k], msgs, Boundary(msgs)) { assert edits[k] == Plan(msgs)[k] && edits[k] in Plan(msgs); }
    ApplyAllTrims(msgs, edits, Boundary(msgs), est);
  }

  lemma TrimsKeepsBoundary(msgs: seq<Message>, out: seq<Message>, b: nat)
    requires Trims(msgs, out, b)
    ensures SameSkeleton(msgs, out) && Boundary(out) == Boundary(msgs)
  {
    ScanOfSkeleton(msgs, out, |msgs|);
  }

  // ---------------------------------------------------------------- the loops of the source

  datatype Compressed = NegativeSavings | Compressed(out: seq<Message>, saved: nat)

  lemma ApplyOne(msgs: seq<Message>, edits: seq<Edit>, e: Edit, est: Estimator)
    ensures var (out, saved) := ApplyAll(msgs, edits, est);
            var (out', more) := ApplyEdit(out, e, est);
            ApplyAll(msgs, edits + [e], est) == (out', saved + more)
  {
    assert (edits + [e])[..|edits|] == edits;
  }

  /** No prefix saved enough so far. */
  ghost predicate NotYet(msgs: seq<Message>, least: nat, est: Estimator, edits: seq<Edit>) {
    forall k :: 0 <= k <= |edits| ==> ApplyAll(msgs, edits[..k], est).1 < least
  }

  /** One more edit of the plan either reaches the goal, and then the edits are the shortest prefix, or not yet. */
  lemma OneMore(msgs: seq<Message>, least: nat, est: Estimator, edits: seq<Edit>, e: Edit)
    requires NotYet(msgs, least, est, edits) && edits + [e] <= Plan(msgs)
    ensures if ApplyAll(msgs, edits + [e], est).1 < least then NotYet(msgs, least, est, edits + [e])
            else ShortestPrefix(msgs, least, est, edits + [e])
  {
    hide ApplyAll, Plan;
    forall k | 0 <= k <= |edits| ensures (edits + [e])[..k] == edits[..k] {}
    assert (edits + [e])[..|edits + [e]|] == edits + [e];
  }

  /** The plan used up without reaching the goal. */
  lemma NoMore(msgs: seq<Message>, least: nat, est: Estimator, edits: seq<Edit>)
    requires NotYet(msgs, least, est, edits) && edits == Plan(msgs)
    ensures ShortestPrefix(msgs, least, est, edits)
  {
    hide ApplyAll, Plan;
  }

  lemma {:induction false} ResultEditsPrefix(groups: seq<Group>, i: nat, n: nat, b: nat)
    requires i <= n <= |groups|
    ensures ResultEdits(groups, i, b) <= ResultEdits(groups, n, b)
    decreases n
  {
    if i < n { ResultEditsPrefix(groups, i, n - 1, b); }
  }

  lemma {:induction false} ResultEditsEnd(groups: seq<Group>, i: nat, n: nat, b: nat)
    requires i <= n <= |groups| && Ordered(groups) && (i < |groups| ==> groups[i].at >= b)
    ensures ResultEdits(groups, i, b) == ResultEdits(groups, n, b)
    decreases n
  {
    if i < n { ResultEditsEnd(groups, i, n - 1, b); }
  }

  lemma {:induction false} ReasoningEditsPrefix(msgs: seq<Message>, i: nat, n: nat, b: nat)
    requires i <= n <= |msgs|
    ensures ReasoningEdits(msgs, i, b) <= ReasoningEdits(msgs, n, b)
    decreases n
  {
    if i < n { ReasoningEditsPrefix(msgs, i, n - 1, b); }
  }

  lemma {:induction false} TruncateEditsPrefix(msgs: seq<Message>, i: nat, n: nat, b: nat)
    requires i <= n <= |msgs|
    ensures TruncateEdits(msgs, i, b) <= TruncateEdits(msgs, n, b)
    decreases n
  {
    if i < n { TruncateEditsPrefix(msgs, i, n - 1, b); }
  }

  function Early(msgs: seq<Message>): seq<Edit> {
    ResultEdits(Groups(msgs), |Groups(msgs)|, Boundary(msgs))
  }

  function Middle(msgs: seq<Message>): seq<Edit> {
    Early(msgs) + ReasoningEdits(msgs, |msgs|, Boundary(msgs))
  }

  /** Assistant messages that no edit has reached yet. */
  ghost predicate Untouched(msgs: seq<Message>, out: seq<Message>, from: nat) {
    && |out| == |msgs|
    && forall l :: 0 <= l < |msgs| ==>
         && out[l].role == msgs[l].role
         && (l >= from && msgs[l].role == Assistant ==> out[l] == msgs[l])
         && (msgs[l].role == Assistant ==> out[l].content == msgs[l].content)
  }

  /** Assistant texts from `from` on are the given ones. */
  ghost predicate SameTexts(msgs: seq<Message>, out: seq<Message>, from: nat) {
    && |out| == |msgs|
    && forall l :: 0 <= l < |msgs| ==>
         out[l].role == msgs[l].role && (l >= from && msgs[l].role == Assistant ==> out[l].content == msgs[l].content)
  }

  lemma EmptyEdits(msgs: seq<Message>)
    ensures forall b :: ReasoningEdits(msgs, 0, b) == [] && TruncateEdits(msgs, 0, b) == []
  {
  }

  lemma NothingToDo(msgs: seq<Message>, least: nat, est: Estimator)
    ensures least == 0 || |msgs| == 0 ==> ShortestPrefix(msgs, least, est, [])
    ensures ApplyAll(msgs, [], est) == (msgs, 0)
    ensures least > 0 ==> NotYet(msgs, least, est, [])
    ensures Untouched(msgs, msgs, 0)
  {
  }

  lemma PlanParts(msgs: seq<Message>)
    ensures Plan(msgs) == Middle(msgs) + TruncateEdits(msgs, |msgs|, Boundary(msgs))
    ensures Early(msgs) <= Middle(msgs) <= Plan(msgs)
    ensures Early(msgs) == ResultEdits(Groups(msgs), |Groups(msgs)|, Boundary(msgs))
    ensures Middle(msgs) == Early(msgs) + ReasoningEdits(msgs, |msgs|, Boundary(msgs))
  {
  }

  lemma NextReasoning(msgs: seq<Message>, i: nat, b: nat)
    requires i < |msgs| && b == Boundary(msgs)
    ensures if msgs[i].role == Assistant && i < b && msgs[i].reasoning != ""
            then var next := Early(msgs) + ReasoningEdits(msgs, i, b) + [ClearReasoning(i)];
                 next <= Plan(msgs) && next == Early(msgs) + ReasoningEdits(msgs, i + 1, b)
            else ReasoningEdits(msgs, i + 1, b) == ReasoningEdits(msgs, i, b)
  {
    ReasoningEditsPrefix(msgs, i + 1, |msgs|, b);
  }

  lemma NextTruncate(msgs: seq<Message>, i: nat, b: nat)
    requires i < |msgs| && b == Boundary(msgs)
    ensures if msgs[i].role == Assistant && i < b && |msgs[i].content| > CONTENT_LIMIT
            then var next := Middle(msgs) + TruncateEdits(msgs, i, b) + [Truncate(i)];
                 next <= Plan(msgs) && next == Middle(msgs) + TruncateEdits(msgs, i + 1, b)
            else TruncateEdits(msgs, i + 1, b) == TruncateEdits(msgs, i, b)
  {
    TruncateEditsPrefix(msgs, i + 1, |msgs|, b);
  }

  lemma ClearReasoningStep(msgs: seq<Message>, out: seq<Message>, i: nat, est: Estimator)
    requires i < |msgs| && Untouched(msgs, out, i)
    ensures out[i].role == msgs[i].role && (out[i].role == Assistant ==> out[i] == msgs[i])
    ensures out[i].role != Assistant || out[i].reasoning == "" ==> Untouched(msgs, out, i + 1)
    ensures Untouched(msgs, out[i := out[i].(reasoning := "")], i + 1) && Untouched(msgs, out, i + 1)
    ensures ApplyEdit(out, ClearReasoning(i), est) == (out[i := out[i].(reasoning := "")], est(out[i].reasoning))
  {
  }

  lemma TruncateStep(msgs: seq<Message>, out: seq<Message>, i: nat, est: Estimator)
    requires i < |msgs| && SameTexts(msgs, out, i)
    ensures out[i].role == msgs[i].role && (out[i].role == Assistant ==> out[i].content == msgs[i].content)
    ensures SameTexts(msgs, out, i + 1)
    ensures |out[i].content| > CONTENT_LIMIT ==>
              var (m, more) := Replace(out[i], Truncated(out[i].content), est);
              SameTexts(msgs, out[i := m], i + 1) && ApplyEdit(out, Truncate(i), est) == (out[i := m], more)
  {
  }

  lemma TextsAreUntouched(msgs: seq<Message>, out: seq<Message>)
    requires Untouched(msgs, out, |msgs|)
    ensures SameTexts(msgs, out, 0)
  {
  }

  lemma GroupsInOrder(msgs: seq<Message>)
    ensures Ordered(Groups(msgs)) && AllOk(Groups(msgs), msgs, |msgs|)
  {
    ScanCollects(msgs, |msgs|);
  }

  /** Clearing one more result of a group, in the source's terms. */
  lemma ClearStep(msgs: seq<Message>, before: seq<Message>, g: Group, j: nat, est: Estimator)
    requires GroupOk(g, msgs, |msgs|) && j < |g.results| && Untouched(msgs, ClearAll(before, g.results, j, est).0, 0)
    ensures var (out, saved), i := ClearAll(before, g.results, j, est), g.results[j];
            && i < |out|
            && ClearAll(before, g.results, j + 1, est)
               == (out[i := ClearOne(out[i], est).0], saved + ClearOne(out[i], est).1)
            && Untouched(msgs, out[i := ClearOne(out[i], est).0], 0)
  {
    hide Placeholder;
    assert ResultOk(g, msgs, |msgs|, g.results[j]);
  }

  /** Archived tool outputs of one group. */
  method ClearGroup(msgs: seq<Message>, g: Group, before: seq<Message>, est: Estimator)
    returns (out: seq<Message>, saved: nat)
    requires GroupOk(g, msgs, |msgs|) && Untouched(msgs, before, 0)
    ensures var r := ApplyEdit(before, ClearResults(g.results), est); out == r.0 && saved == r.1 && Untouched(msgs, out, 0)
  {
    out, saved := before, 0;
    var j := 0;
    while j < |g.results|
      invariant 0 <= j <= |g.results|
      invariant out == ClearAll(before, g.results, j, est).0 && saved == ClearAll(before, g.results, j, est).1
      invariant Untouched(msgs, out, 0)
    {
      hide *;
      ClearStep(msgs, before, g, j, est);
      var i := g.results[j];
      var (m, more) := ClearOne(out[i], est);
      out, saved := out[i := m], saved + more;
      j := j + 1;
    }
  }

  /** Compress: archived old tool outputs a group at a time, then old reasoning, then old assistant texts,
      stopping as soon as enough is saved. */
  method SimpleCompress(msgs: seq<Message>, least: int, est: Estimator) returns (r: Compressed, ghost edits: seq<Edit>)
    ensures least < 0 <==> r.NegativeSavings?
    ensures r.Compressed? ==> ShortestPrefix(msgs, least, est, edits) && ApplyAll(msgs, edits, est) == (r.out, r.saved)
  {
    hide Boundary, Groups, Plan, ApplyAll, ApplyEdit, NotYet, ShortestPrefix, GroupOk, IsBoundary, Untouched, SameTexts,
         Early, Middle, ReasoningEdits, TruncateEdits, Truncated, Replace, IsProtectedStart;
    EmptyEdits(msgs);
    edits := [];
    if least < 0 { return NegativeSavings, edits; }
    NothingToDo(msgs, least, est);
    if least == 0 || |msgs| == 0 { return Compressed(msgs, 0), edits; }
    var out, saved := msgs, 0;
    var groups := CollectToolCallGroups(msgs);
    var b := ProtectedStart(msgs);
    GroupsInOrder(msgs);
    PlanParts(msgs);

    var k := 0;
    while k < |groups| && groups[k].at < b
      invariant 0 <= k <= |groups| && edits == ResultEdits(groups, k, b) && Untouched(msgs, out, 0)
      invariant (out, saved) == ApplyAll(msgs, edits, est) && NotYet(msgs, least, est, edits)
    {
      ResultEditsPrefix(groups, k + 1, |groups|, b);
      var more: nat;
      ghost var e := ClearResults(groups[k].results);
      ApplyOne(msgs, edits, e, est);
      OneMore(msgs, least, est, edits, e);
      out, more := ClearGroup(msgs, groups[k], out, est);
      saved := saved + more;
      edits := edits + [e];
      k := k + 1;
      if saved >= least { return Compressed(out, saved), edits; }
    }
    ResultEditsEnd(groups, k, |groups|, b);

    var i := 0;
    while i < |out|
      invariant 0 <= i <= |out| == |msgs| && edits == Early(msgs) + ReasoningEdits(msgs, i, b) && Untouched(msgs, out, i)
      invariant (out, saved) == ApplyAll(msgs, edits, est) && NotYet(msgs, least, est, edits)
    {
      ClearReasoningStep(msgs, out, i, est);
      NextReasoning(msgs, i, b);
      if out[i].role == Assistant && i < b && out[i].reasoning != "" {
        ghost var e := ClearReasoning(i);
        ApplyOne(msgs, edits, e, est);
        OneMore(msgs, least, est, edits, e);
        saved := saved + est(out[i].reasoning);
        out := out[i := out[i].(reasoning := "")];
        edits := edits + [e];
        if saved >= least { return Compressed(out, saved), edits; }
      }
      i := i + 1;
    }

    TextsAreUntouched(msgs, out);
    i := 0;
    while i < |out|
      invariant 0 <= i <= |out| == |msgs| && edits == Middle(msgs) + TruncateEdits(msgs, i, b) && SameTexts(msgs, out, i)
      invariant (out, saved) == ApplyAll(msgs, edits, est) && NotYet(msgs, least, est, edits)
    {
      TruncateStep(msgs, out, i, est);
      NextTruncate(msgs, i, b);
      if out[i].role == Assistant && i < b && |out[i].content| > CONTENT_LIMIT {
        ghost var e := Truncate(i);
        ApplyOne(msgs, edits, e, est);
        OneMore(msgs, least, est, edits, e);
        var (m, more) := Replace(out[i], Truncated(out[i].content), est);
        out, saved := out[i := m], saved + more;
        edits := edits + [e];
        if saved >= least { return Compressed(out, saved), edits; }
      }
      i := i + 1;
    }
    NoMore(msgs, least, est, edits);
    return Compressed(out, saved), edits;
  }

  // ---------------------------------------------------------------- what may be archived first

  ghost predicate Large(msgs: seq<Message>, i: nat, est: Estimator) {
    i < |msgs| && msgs[i].artifact.None? && est(msgs[i].content) > OLD_OUTPUT_TOKENS
  }

  /** `i` is a result of one of the first `n` groups. */
  ghost predicate Answers(groups: seq<Group>, n: nat, i: nat) {
    exists k :: 0 <= k < n && k < |groups| && i in groups[k].results
  }

  /** A large result, not archived yet, of a group that starts before the boundary. */
  ghost predicate Archivable(msgs: seq<Message>, i: nat, est: Estimator) {
    && Large(msgs, i, est)
    && exists k :: 0 <= k < |Groups(msgs)| && Groups(msgs)[k].at < Boundary(msgs) && i in Groups(msgs)[k].results
  }

  ghost predicate Distinct(indices: seq<nat>) {
    forall j, l :: 0 <= j < l < |indices| ==> indices[j] != indices[l]
  }

  /** ArtifactCandidates: exactly the archivable messages, each once. */
  method ArtifactCandidates(msgs: seq<Message>, est: Estimator) returns (indices: seq<nat>)
    ensures forall i :: i in indices <==> Archivable(msgs, i, est)
    ensures Distinct(indices)
  {
    var start := ProtectedStart(msgs);
    var groups := CollectToolCallGroups(msgs);
    assert Disjoint(groups) && Ordered(groups) && AllOk(groups, msgs, |msgs|) by { ScanCollects(msgs, |msgs|); }
    hide Boundary, Groups, Scan, GroupOk, WellCollected, Answers, Archivable, Disjoint, Ordered, Large;
    indices := [];
    NoAnswers(groups);
    var k := 0;
    while k < |groups| && groups[k].at < start
      invariant 0 <= k <= |groups| && forall l :: 0 <= l < k ==> groups[l].at < start
      invariant forall i :: i in indices <==> Large(msgs, i, est) && Answers(groups, k, i)
      invariant Distinct(indices)
    {
      var results := groups[k].results;
      ResultsOfGroup(groups[k], msgs);
      MoreAnswers(groups, k);
      var j := 0;
      while j < |results|
        invariant 0 <= j <= |results|
        invariant forall i :: i in indices <==> Large(msgs, i, est) && (Answers(groups, k, i) || i in results[..j])
        invariant Distinct(indices)
      {
        LargeAt(msgs, results[j], est);
        if msgs[results[j]].artifact.None? && est(msgs[results[j]].content) > OLD_OUTPUT_TOKENS {
          assert results[j] !in indices;
          indices := indices + [results[j]];
        }
        j := j + 1;
      }
      assert results[..j] == results;
      k := k + 1;
    }
    ArchivableAnswers(msgs, k, est);
  }

  lemma LargeAt(msgs: seq<Message>, i: nat, est: Estimator)
    requires i < |msgs|
    ensures Large(msgs, i, est) <==> msgs[i].artifact.None? && est(msgs[i].content) > OLD_OUTPUT_TOKENS
  {
  }

  lemma NoAnswers(groups: seq<Group>)
    ensures forall i :: !Answers(groups, 0, i)
  {
  }

  lemma MoreAnswers(groups: seq<Group>, k: nat)
    requires k < |groups| && Disjoint(groups)
    ensures forall i :: i in groups[k].results ==> !Answers(groups, k, i)
    ensures forall i :: Answers(groups, k + 1, i) <==> Answers(groups, k, i) || i in groups[k].results
  {
  }

  lemma ArchivableAnswers(msgs: seq<Message>, k: nat, est: Estimator)
    requires var groups := Groups(msgs);
             && k <= |groups| && Ordered(groups) && (forall l :: 0 <= l < k ==> groups[l].at < Boundary(msgs))
             && (k < |groups| ==> groups[k].at >= Boundary(msgs))
    ensures forall i :: Archivable(msgs, i, est) <==> Large(msgs, i, est) && Answers(Groups(msgs), k, i)
  {
    hide Boundary, Groups;
  }

  /** What may be archived is a tool result before the boundary. */
  lemma ArchivableIsOldResult(msgs: seq<Message>, i: nat, est: Estimator)
    requires Archivable(msgs, i, est)
    ensures i < Boundary(msgs) && msgs[i].role == Tool
  {
    BoundaryIsGreatest(msgs);
    GroupsInOrder(msgs);
    hide Boundary, Groups;
    var k :| 0 <= k < |Groups(msgs)| && Groups(msgs)[k].at < Boundary(msgs) && i in Groups(msgs)[k].results;
    assert GroupOk(Groups(msgs)[k], msgs, |msgs|);
    var j :| 0 <= j < |Groups(msgs)[k].results| && Groups(msgs)[k].results[j] == i;
    assert ResultOk(Groups(msgs)[k], msgs, |msgs|, i);
  }

  lemma ResultsOfGroup(g: Group, msgs: seq<Message>)
    requires GroupOk(g, msgs, |msgs|)
    ensures forall j :: 0 <= j < |g.results| ==> g.results[j] < |msgs|
    ensures Distinct(g.results)
  {
    forall j | 0 <= j < |g.results| ensures g.results[j] < |msgs| { assert ResultOk(g, msgs, |msgs|, g.results[j]); }
  }
}
