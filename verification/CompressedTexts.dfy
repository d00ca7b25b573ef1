/** What compression makes of each text: the final texts in closed form, and what the texts it writes still say. */
module CompressedTexts {
  import opened Words
  import opened Messages
  import opened ToolGroups
  import opened Compress

  // ---------------------------------------------------------------- which edits are planned

  /** The plan holds exactly the old groups' outputs, the old reasonings and the old long answers: all outputs before all
      reasonings before all texts. */
  lemma PlanHolds(msgs: seq<Message>)
    ensures var plan, groups, b := Plan(msgs), Groups(msgs), Boundary(msgs);
            && (forall at :: ClearResults(at) in plan <==> exists k :: 0 <= k < |groups| && groups[k].at < b && groups[k].results == at)
            && (forall i: nat :: ClearReasoning(i) in plan <==> OldReasoning(msgs, i))
            && (forall i: nat :: Truncate(i) in plan <==> OldLongText(msgs, i))
            && forall j, k :: 0 <= j < k < |plan| ==> Rank(plan[j]) <= Rank(plan[k]) && (Rank(plan[j]) > 0 ==> plan[j] != plan[k])
  {
    var groups, b := Groups(msgs), Boundary(msgs);
    hide Groups, Boundary;
    ResultEditsHold(groups, |groups|, b);
    ReasoningEditsHold(msgs, |msgs|, b);
    TruncateEditsHold(msgs, |msgs|, b);
    InThree(ResultEdits(groups, |groups|, b), ReasoningEdits(msgs, |msgs|, b), TruncateEdits(msgs, |msgs|, b));
    OrderedInThree(ResultEdits(groups, |groups|, b), ReasoningEdits(msgs, |msgs|, b), TruncateEdits(msgs, |msgs|, b));
  }

  function Rank(e: Edit): nat {
    match e
    case ClearResults(_) => 0
    case ClearReasoning(_) => 1
    case Truncate(_) => 2
  }

  predicate OldLongText(msgs: seq<Message>, i: nat) {
    i < |msgs| && i < Boundary(msgs) && msgs[i].role == Assistant && |msgs[i].content| > CONTENT_LIMIT
  }

  lemma InThree(a: seq<Edit>, b: seq<Edit>, c: seq<Edit>)
    ensures forall e :: e in a + b + c <==> e in a || e in b || e in c
  {
  }

  lemma OrderedInThree(a: seq<Edit>, b: seq<Edit>, c: seq<Edit>)
    requires (forall e :: e in a ==> Rank(e) == 0) && (forall e :: e in b ==> Rank(e) == 1) && (forall e :: e in c ==> Rank(e) == 2)
    requires forall j, k :: 0 <= j < k < |b| ==> b[j] != b[k]
    requires forall j, k :: 0 <= j < k < |c| ==> c[j] != c[k]
    ensures var plan := a + b + c;
            forall j, k :: 0 <= j < k < |plan| ==> Rank(plan[j]) <= Rank(plan[k]) && (Rank(plan[j]) > 0 ==> plan[j] != plan[k])
  {
    var plan := a + b + c;
    hide Rank;
    forall k | 0 <= k < |plan| ensures if k < |a| then plan[k] in a else if k < |a| + |b| then plan[k] in b else plan[k] in c {}
  }

  lemma {:induction false} ResultEditsHold(groups: seq<Group>, n: nat, b: nat)
    requires n <= |groups|
    ensures forall e :: e in ResultEdits(groups, n, b) ==> e.ClearResults?
    ensures forall at :: ClearResults(at) in ResultEdits(groups, n, b) <==>
              exists k :: 0 <= k < n && groups[k].at < b && groups[k].results == at
  {
    if n > 0 { ResultEditsHold(groups, n - 1, b); }
  }

  lemma {:induction false} ReasoningEditsHold(msgs: seq<Message>, n: nat, b: nat)
    requires n <= |msgs|
    ensures var edits := ReasoningEdits(msgs, n, b);
            && (forall e :: e in edits ==> e.ClearReasoning? && e.i < n)
            && (forall i: nat :: ClearReasoning(i) in edits <==> i < n && i < b && msgs[i].role == Assistant && msgs[i].reasoning != "")
            && forall j, k :: 0 <= j < k < |edits| ==> edits[j] != edits[k]
  {
    if n > 0 { ReasoningEditsHold(msgs, n - 1, b); }
  }

  lemma {:induction false} TruncateEditsHold(msgs: seq<Message>, n: nat, b: nat)
    requires n <= |msgs|
    ensures var edits := TruncateEdits(msgs, n, b);
            && (forall e :: e in edits ==> e.Truncate? && e.i < n)
            && (forall i: nat :: Truncate(i) in edits <==> i < n && i < b && msgs[i].role == Assistant && |msgs[i].content| > CONTENT_LIMIT)
            && forall j, k :: 0 <= j < k < |edits| ==> edits[j] != edits[k]
  {
    if n > 0 { TruncateEditsHold(msgs, n - 1, b); }
  }

  // ---------------------------------------------------------------- the final texts

  ghost predicate Cleared(edits: seq<Edit>, i: nat) {
    exists k :: 0 <= k < |edits| && edits[k].ClearResults? && i in edits[k].at
  }

  /** A text that costs less takes the place of another. */
  function Cheaper(before: string, after: string, est: Estimator): string {
    if est(after) < est(before) then after else before
  }

  /** What these edits make of message `i`: an archived output over the limit gives way to its reference, a long answer to
      its head and tail, each only when that costs less; a reasoning goes. */
  ghost function Final(m: Message, i: nat, edits: seq<Edit>, est: Estimator): Message {
    var content :=
      if Cleared(edits, i) && m.artifact.Some? && est(m.content) > OLD_OUTPUT_TOKENS
      then Cheaper(m.content, Placeholder(m, m.artifact.value), est)
      else if Truncate(i) in edits && |m.content| > CONTENT_LIMIT then Cheaper(m.content, Truncated(m.content), est)
      else m.content;
    m.(content := content, reasoning := if ClearReasoning(i) in edits then "" else m.reasoning)
  }

  /** Results are tool messages, reasonings and long texts those of answers, and no text is cut twice. */
  ghost predicate Separate(msgs: seq<Message>, edits: seq<Edit>) {
    && (forall i :: 0 <= i < |msgs| && Cleared(edits, i) ==> msgs[i].role == Tool)
    && (forall i :: 0 <= i < |msgs| && Truncate(i) in edits ==> msgs[i].role == Assistant)
    && forall j, k :: 0 <= j < k < |edits| && edits[j].Truncate? ==> edits[j] != edits[k]
  }

  lemma {:induction false} ClearAllIs(before: seq<Message>, at: seq<nat>, n: nat, est: Estimator)
    requires n <= |at|
    ensures var out := ClearAll(before, at, n, est).0;
            forall i :: 0 <= i < |before| ==> out[i] == if i in at[..n] then ClearOne(before[i], est).0 else before[i]
  {
    if n > 0 {
      ClearAllIs(before, at, n - 1, est);
      assert at[..n] == at[..n - 1] + [at[n - 1]];
      if at[n - 1] < |before| { ClearedTwice(before[at[n - 1]], est); }
      hide ClearOne;
    }
  }

  /** Archiving an output again changes nothing. */
  lemma ClearedTwice(m: Message, est: Estimator)
    ensures ClearOne(ClearOne(m, est).0, est).0 == ClearOne(m, est).0
  {
    hide Decimal;
  }

  /** Compression in closed form: the text of every message after any of these edits. */
  lemma {:induction false} FinalTexts(msgs: seq<Message>, edits: seq<Edit>, est: Estimator)
    requires Separate(msgs, edits)
    ensures var out := ApplyAll(msgs, edits, est).0;
            forall i :: 0 <= i < |msgs| ==> out[i] == Final(msgs[i], i, edits, est)
  {
    if |edits| > 0 {
      var n := |edits| - 1;
      var before, e := edits[..n], edits[n];
      assert edits == before + [e];
      SeparateBefore(msgs, before, e);
      FinalTexts(msgs, before, est);
      var mid := ApplyAll(msgs, before, est).0;
      forall i | 0 <= i < |msgs| ensures ApplyEdit(mid, e, est).0[i] == Final(msgs[i], i, edits, est) {
        OneEdit(msgs, mid, before, e, i, est);
      }
    }
  }

  lemma SeparateBefore(msgs: seq<Message>, before: seq<Edit>, e: Edit)
    requires Separate(msgs, before + [e])
    ensures Separate(msgs, before) && (e.Truncate? ==> e !in before)
    ensures forall i :: Cleared(before + [e], i) <==> Cleared(before, i) || (e.ClearResults? && i in e.at)
  {
    var edits, n := before + [e], |before|;
    assert edits[n] == e;
    forall i ensures Cleared(edits, i) <==> Cleared(before, i) || (e.ClearResults? && i in e.at) {
      if Cleared(before, i) {
        var k :| 0 <= k < n && before[k].ClearResults? && i in before[k].at;
        assert edits[k] == before[k];
      }
      if Cleared(edits, i) {
        var k :| 0 <= k < |edits| && edits[k].ClearResults? && i in edits[k].at;
        assert k < n ==> before[k] == edits[k];
      }
    }
    forall j, k | 0 <= j < k < n && before[j].Truncate? ensures before[j] != before[k] { assert edits[j] != edits[k]; }
    if e.Truncate? {
      forall j | 0 <= j < n ensures before[j] != e { assert edits[j] == before[j]; }
    }
  }

  lemma OneEdit(msgs: seq<Message>, mid: seq<Message>, before: seq<Edit>, e: Edit, i: nat, est: Estimator)
    requires i < |msgs| == |mid| && Separate(msgs, before + [e])
    requires forall j :: 0 <= j < |msgs| ==> mid[j] == Final(msgs[j], j, before, est)
    ensures ApplyEdit(mid, e, est).0[i] == Final(msgs[i], i, before + [e], est)
  {
    SeparateBefore(msgs, before, e);
    OneMoreIn(before, e);
    match e
    case ClearResults(at) =>
      hide Placeholder, Truncated;
      ClearAllIs(mid, at, |at|, est);
      assert at[..|at|] == at;
      hide ClearAll, ClearOne, Replace;
      if i in at {
        assert Cleared(before + [e], i);
        ClearedOnce(msgs[i], mid[i], est);
      }
    case ClearReasoning(r) => hide Placeholder, Truncated, ClearAll;
    case Truncate(r) => hide Placeholder, Truncated, ClearAll;
  }

  lemma OneMoreIn(before: seq<Edit>, e: Edit)
    ensures forall x :: x in before + [e] <==> x in before || x == e
  {
  }

  /** Archiving an output: its reference when that costs less. */
  lemma ClearedOnce(m: Message, m': Message, est: Estimator)
    requires m' == m.(content := m'.content, reasoning := m'.reasoning)
    requires m'.content == m.content
             || (m.artifact.Some? && est(m.content) > OLD_OUTPUT_TOKENS
                 && m'.content == Cheaper(m.content, Placeholder(m, m.artifact.value), est))
    ensures ClearOne(m', est).0
            == if m.artifact.Some? && est(m.content) > OLD_OUTPUT_TOKENS
               then m'.(content := Cheaper(m.content, Placeholder(m, m.artifact.value), est)) else m'
  {
    hide Decimal;
  }

  // ---------------------------------------------------------------- in terms of the plan

  lemma PlanIsSeparate(msgs: seq<Message>, edits: seq<Edit>)
    requires edits <= Plan(msgs)
    ensures Separate(msgs, edits)
  {
    PlanBefore(msgs);
    PlanHolds(msgs);
    hide Plan, Boundary, Groups;
    forall k | 0 <= k < |edits| ensures edits[k] in Plan(msgs) && edits[k] == Plan(msgs)[k] {}
  }

  /** Compression carried out for a goal: every text in closed form. */
  lemma CompressedIs(msgs: seq<Message>, least: nat, est: Estimator, edits: seq<Edit>)
    requires ShortestPrefix(msgs, least, est, edits)
    ensures var out := ApplyAll(msgs, edits, est).0;
            |out| == |msgs| && forall i :: 0 <= i < |msgs| ==> out[i] == Final(msgs[i], i, edits, est)
  {
    hide Plan, ApplyAll;
    PlanIsSeparate(msgs, edits);
    FinalTexts(msgs, edits, est);
  }

  // ---------------------------------------------------------------- what the written texts say

  ghost predicate Contains(text: string, part: string) {
    exists i, j :: 0 <= i <= j <= |text| && text[i..j] == part
  }

  lemma Within(before: string, part: string, after: string)
    ensures Contains(before + part + after, part)
  {
    var text := before + part + after;
    assert text[|before|..|before| + |part|] == part;
  }

  /** The reference of an archived output keeps the tool's short result and names the call, the size and the artifact. */
  lemma PlaceholderSays(m: Message, a: Artifact)
    ensures var text := Placeholder(m, a);
            && Contains(text, "artifact_id=" + a.id) && Contains(text, "call_id=" + m.callId) && Contains(text, "bytes=" + Decimal(a.size))
            && (m.compact != "" ==> m.compact <= text)
  {
    hide Decimal, Contains;
    var head := if m.compact != "" then m.compact + "\n" else "";
    var call, size, id := "call_id=" + m.callId, "bytes=" + Decimal(a.size), "artifact_id=" + a.id;
    var opening, reading, closing := "[早期工具输出已归档 ", "；read_artifact(", ", offset=0, limit=4000) 按需读取]";
    Parts(head, opening, call, " ", size, reading, id, closing);
    assert Placeholder(m, a) == head + (opening + call + " " + size + reading + id + closing);
  }

  lemma Parts(head: string, a: string, b: string, c: string, d: string, e: string, f: string, g: string)
    ensures var text := head + (a + b + c + d + e + f + g); Contains(text, b) && Contains(text, d) && Contains(text, f)
  {
    var text := head + (a + b + c + d + e + f + g);
    var n := |head + a|;
    assert text[n..n + |b|] == b;
    var k := n + |b + c|;
    assert text[k..k + |d|] == d;
    var l := k + |d + e|;
    assert text[l..l + |f|] == f;
  }

  /** A cut text keeps its first and its last 500 characters and says how many are gone. */
  lemma TruncatedSays(content: string)
    requires |content| > 1000
    ensures var text := Truncated(content);
            && |text| >= 1000 && text[..500] == content[..500] && text[|text| - 500..] == content[|content| - 500..]
            && Contains(text, Decimal(|content| - 1000))
  {
    hide Decimal;
    var text := Truncated(content);
    var note := " [...中间" + Decimal(|content| - 1000) + "字符已截断...] ";
    assert text == content[..500] + note + content[|content| - 500..];
    assert text == (content[..500] + " [...中间") + Decimal(|content| - 1000) + ("字符已截断...] " + content[|content| - 500..]);
    Within(content[..500] + " [...中间", Decimal(|content| - 1000), "字符已截断...] " + content[|content| - 500..]);
  }

  /** The number that digits stand for. */
  function ValueOf(digits: string): nat {
    if |digits| == 0 then 0 else 10 * ValueOf(digits[..|digits| - 1]) + DigitOf(digits[|digits| - 1])
  }

  function DigitOf(c: char): nat {
    if '0' <= c <= '9' then (c as int - '0' as int) else 0
  }

  lemma {:induction false} DecimalIs(n: nat)
    ensures ValueOf(Decimal(n)) == n && |Decimal(n)| > 0 && (n > 0 ==> Decimal(n)[0] != '0')
    ensures forall i :: 0 <= i < |Decimal(n)| ==> '0' <= Decimal(n)[i] <= '9'
  {
    DigitIs(n % 10);
    hide Digit, DigitOf;
    if n >= 10 {
      DecimalIs(n / 10);
      assert Decimal(n)[..|Decimal(n)| - 1] == Decimal(n / 10);
      assert 10 * (n / 10) + n % 10 == n;
    } else {
      assert Decimal(n)[..0] == "" && n % 10 == n;
    }
  }

  lemma DigitIs(d: nat)
    requires d < 10
    ensures '0' <= Digit(d) <= '9' && DigitOf(Digit(d)) == d && (d > 0 ==> Digit(d) != '0')
  {
  }
}
