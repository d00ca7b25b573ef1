/** How tool calls and tool results of a conversation belong together, and what keeps them so. */
module Pairing {
  import opened Words
  import opened Messages
  import opened ToolGroups
  import Summary

  predicate OnlyTools(msgs: seq<Message>, from: int, to: int) {
    forall k :: 0 <= k < |msgs| && from <= k < to ==> msgs[k].role == Tool
  }

  /** `id` has a tool result after message `i` and before the next message that is none. */
  ghost predicate Answered(msgs: seq<Message>, i: nat, id: string) {
    exists j :: i < j < |msgs| && msgs[j].role == Tool && msgs[j].callId == id && OnlyTools(msgs, i + 1, j)
  }

  ghost predicate Closed(msgs: seq<Message>, i: nat)
    requires i < |msgs|
  {
    forall c :: 0 <= c < |msgs[i].calls| ==> Answered(msgs, i, msgs[i].calls[c].id)
  }

  ghost predicate AllClosed(msgs: seq<Message>) {
    forall i :: 0 <= i < |msgs| && IsCallGroup(msgs[i]) ==> Closed(msgs, i)
  }

  /** Only the last group may be open, and then nothing but tool results follows it. */
  ghost predicate OnlyLastOpen(msgs: seq<Message>) {
    forall i :: 0 <= i < |msgs| && IsCallGroup(msgs[i]) ==> Closed(msgs, i) || OnlyTools(msgs, i + 1, |msgs|)
  }

  ghost predicate AnswersCall(msgs: seq<Message>, k: nat)
    requires k < |msgs|
  {
    exists i :: 0 <= i < k && IsCallGroup(msgs[i]) && Names(msgs[i].calls, msgs[k].callId) && OnlyTools(msgs, i + 1, k)
  }

  /** Every tool result answers a call of the group right before it. */
  ghost predicate NoOrphans(msgs: seq<Message>) {
    forall k :: 0 <= k < |msgs| && msgs[k].role == Tool ==> AnswersCall(msgs, k)
  }

  predicate HasUser(msgs: seq<Message>) {
    exists i :: 0 <= i < |msgs| && msgs[i].role == User
  }

  ghost predicate GroupsHaveUser(msgs: seq<Message>) {
    (exists i :: 0 <= i < |msgs| && IsCallGroup(msgs[i])) ==> HasUser(msgs)
  }

  ghost predicate Paired(msgs: seq<Message>) {
    OnlyLastOpen(msgs) && NoOrphans(msgs) && GroupsHaveUser(msgs)
  }

  /** Every call without a result is still due, and what is due belongs to a group that may still be answered. */
  ghost predicate Owes(msgs: seq<Message>, rest: seq<Call>) {
    && (forall i, c :: 0 <= i < |msgs| && IsCallGroup(msgs[i]) && 0 <= c < |msgs[i].calls| ==>
          Answered(msgs, i, msgs[i].calls[c].id) || Names(rest, msgs[i].calls[c].id))
    && (|rest| > 0 ==> exists i :: MayAnswer(msgs, i, rest))
  }

  ghost predicate MayAnswer(msgs: seq<Message>, i: nat, rest: seq<Call>) {
    && i < |msgs| && IsCallGroup(msgs[i]) && OnlyTools(msgs, i + 1, |msgs|)
    && forall c :: 0 <= c < |rest| ==> Names(msgs[i].calls, rest[c].id)
  }

  lemma NothingOwed(msgs: seq<Message>)
    requires Owes(msgs, [])
    ensures AllClosed(msgs)
  {
    hide Answered;
  }

  // ---------------------------------------------------------------- appending

  lemma AnsweredStays(msgs: seq<Message>, m: Message, i: nat, id: string)
    requires Answered(msgs, i, id)
    ensures Answered(msgs + [m], i, id)
  {
    var j :| i < j < |msgs| && msgs[j].role == Tool && msgs[j].callId == id && OnlyTools(msgs, i + 1, j);
    assert (msgs + [m])[j] == msgs[j] && OnlyTools(msgs + [m], i + 1, j);
  }

  lemma AnswersCallStays(msgs: seq<Message>, m: Message, k: nat)
    requires k < |msgs| && AnswersCall(msgs, k)
    ensures AnswersCall(msgs + [m], k)
  {
    var i :| 0 <= i < k && IsCallGroup(msgs[i]) && Names(msgs[i].calls, msgs[k].callId) && OnlyTools(msgs, i + 1, k);
    assert (msgs + [m])[i] == msgs[i] && OnlyTools(msgs + [m], i + 1, k);
  }

  /** A user message or an answer may follow when nothing is open. */
  lemma SpeakKeeps(msgs: seq<Message>, m: Message)
    requires Paired(msgs) && AllClosed(msgs) && (m.role == User || m.role == Assistant)
    requires IsCallGroup(m) ==> HasUser(msgs)
    ensures var msgs' := msgs + [m];
            && Paired(msgs') && Owes(msgs', m.calls)
            && (HasUser(msgs) || m.role == User ==> HasUser(msgs'))
            && (!IsCallGroup(m) ==> AllClosed(msgs'))
    requires m.role == User ==> m.calls == []
  {
    var msgs', n := msgs + [m], |msgs|;
    forall i | 0 <= i < n && IsCallGroup(msgs'[i]) ensures Closed(msgs', i) {
      forall c | 0 <= c < |msgs[i].calls| ensures Answered(msgs', i, msgs[i].calls[c].id) {
        AnsweredStays(msgs, m, i, msgs[i].calls[c].id);
      }
    }
    forall k | 0 <= k < |msgs'| && msgs'[k].role == Tool ensures AnswersCall(msgs', k) { AnswersCallStays(msgs, m, k); }
    UserStays(msgs, m);
    hide Answered, AnswersCall;
    assert OnlyTools(msgs', n + 1, |msgs'|);
    if |m.calls| > 0 {
      assert msgs'[n] == m && MayAnswer(msgs', n, m.calls);
      assert forall c :: 0 <= c < |m.calls| ==> Names(m.calls, m.calls[c].id);
    }
  }

  lemma UserStays(msgs: seq<Message>, m: Message)
    ensures HasUser(msgs) || m.role == User ==> HasUser(msgs + [m])
  {
    var msgs' := msgs + [m];
    if HasUser(msgs) {
      var i :| 0 <= i < |msgs| && msgs[i].role == User;
      assert msgs'[i].role == User;
    }
    assert msgs'[|msgs|] == m;
  }

  /** A result for the next call due. */
  lemma ResultKeeps(msgs: seq<Message>, m: Message, rest: seq<Call>)
    requires Paired(msgs) && Owes(msgs, rest) && |rest| > 0 && m.role == Tool && m.callId == rest[0].id
    ensures var msgs' := msgs + [m];
            Paired(msgs') && Owes(msgs', rest[1..]) && (HasUser(msgs) ==> HasUser(msgs'))
  {
    var g: nat :| MayAnswer(msgs, g, rest);
    NewResult(msgs, m, rest, g);
    NewResultAnswers(msgs, m);
    OthersStay(msgs, m, rest, g);
    UserStays(msgs, m);
    NoNewGroup(msgs, m);
    hide *;
    assert GroupsHaveUser(msgs + [m]);
    ResultOwes(msgs, m, rest, g);
    PairedOf(msgs + [m]);
  }

  lemma PairedOf(msgs: seq<Message>)
    requires OnlyLastOpen(msgs) && NoOrphans(msgs) && GroupsHaveUser(msgs)
    ensures Paired(msgs)
  {
  }

  lemma NoNewGroup(msgs: seq<Message>, m: Message)
    requires GroupsHaveUser(msgs) && !IsCallGroup(m)
    ensures GroupsHaveUser(msgs + [m])
  {
    UserStays(msgs, m);
    var msgs' := msgs + [m];
    assert forall i :: 0 <= i < |msgs'| && IsCallGroup(msgs'[i]) ==> i < |msgs| && msgs'[i] == msgs[i];
  }

  lemma ResultOwes(msgs: seq<Message>, m: Message, rest: seq<Call>, g: nat)
    requires m.role == Tool && |rest| > 0 && MayAnswer(msgs + [m], g, rest[1..])
    requires forall i, c :: 0 <= i < |msgs| && IsCallGroup(msgs[i]) && 0 <= c < |msgs[i].calls| ==>
               Answered(msgs + [m], i, msgs[i].calls[c].id) || Names(rest[1..], msgs[i].calls[c].id)
    ensures Owes(msgs + [m], rest[1..])
  {
    hide Answered, Names, MayAnswer;
    var msgs' := msgs + [m];
    assert forall i :: 0 <= i < |msgs'| && IsCallGroup(msgs'[i]) ==> i < |msgs| && msgs'[i] == msgs[i];
  }

  lemma NewResultAnswers(msgs: seq<Message>, m: Message)
    requires NoOrphans(msgs) && AnswersCall(msgs + [m], |msgs|)
    ensures NoOrphans(msgs + [m])
  {
    hide AnswersCall;
    var msgs' := msgs + [m];
    forall k | 0 <= k < |msgs'| && msgs'[k].role == Tool ensures AnswersCall(msgs', k) {
      if k < |msgs| {
        assert msgs'[k] == msgs[k];
        AnswersCallStays(msgs, m, k);
      }
    }
  }

  lemma NewResult(msgs: seq<Message>, m: Message, rest: seq<Call>, g: nat)
    requires MayAnswer(msgs, g, rest) && |rest| > 0 && m.role == Tool && m.callId == rest[0].id
    ensures var msgs' := msgs + [m];
            Answered(msgs', g, m.callId) && AnswersCall(msgs', |msgs|) && MayAnswer(msgs', g, rest[1..])
  {
    var msgs', n := msgs + [m], |msgs|;
    assert OnlyTools(msgs', g + 1, n) && OnlyTools(msgs', g + 1, n + 1) && msgs'[n] == m && msgs'[g] == msgs[g];
  }

  lemma OthersStay(msgs: seq<Message>, m: Message, rest: seq<Call>, g: nat)
    requires OnlyLastOpen(msgs) && Owes(msgs, rest) && |rest| > 0 && m.role == Tool && m.callId == rest[0].id
    requires MayAnswer(msgs, g, rest) && Answered(msgs + [m], g, m.callId)
    ensures OnlyLastOpen(msgs + [m])
    ensures forall i, c :: 0 <= i < |msgs| && IsCallGroup(msgs[i]) && 0 <= c < |msgs[i].calls| ==>
              Answered(msgs + [m], i, msgs[i].calls[c].id) || Names(rest[1..], msgs[i].calls[c].id)
  {
    var msgs', n := msgs + [m], |msgs|;
    forall i | 0 <= i < |msgs'| && IsCallGroup(msgs'[i])
      ensures Closed(msgs', i) || OnlyTools(msgs', i + 1, |msgs'|)
    {
      assert i < n && msgs'[i] == msgs[i];
      if Closed(msgs, i) {
        forall c | 0 <= c < |msgs[i].calls| ensures Answered(msgs', i, msgs[i].calls[c].id) {
          AnsweredStays(msgs, m, i, msgs[i].calls[c].id);
        }
      }
    }
    forall i, c | 0 <= i < |msgs| && IsCallGroup(msgs[i]) && 0 <= c < |msgs[i].calls|
      ensures Answered(msgs', i, msgs[i].calls[c].id) || Names(rest[1..], msgs[i].calls[c].id)
    {
      var id := msgs[i].calls[c].id;
      if Answered(msgs, i, id) {
        AnsweredStays(msgs, m, i, id);
      } else {
        assert !Closed(msgs, i) && OnlyTools(msgs, i + 1, n);
        assert i == g;
        if id != m.callId {
          var k :| 0 <= k < |rest| && rest[k].id == id;
          assert rest[1..][k - 1].id == id;
        }
      }
    }
  }

  // ---------------------------------------------------------------- rewriting

  lemma AnsweredOfSkeleton(a: seq<Message>, b: seq<Message>, i: nat, id: string)
    requires SameSkeleton(a, b) && Answered(a, i, id)
    ensures Answered(b, i, id)
  {
    var j :| i < j < |a| && a[j].role == Tool && a[j].callId == id && OnlyTools(a, i + 1, j);
    assert b[j].role == Tool && OnlyTools(b, i + 1, j);
  }

  lemma SkeletonOwes(a: seq<Message>, b: seq<Message>, rest: seq<Call>)
    requires SameSkeleton(a, b) && Owes(a, rest)
    ensures Owes(b, rest)
  {
    forall i, c | 0 <= i < |b| && IsCallGroup(b[i]) && 0 <= c < |b[i].calls|
      ensures Answered(b, i, b[i].calls[c].id) || Names(rest, b[i].calls[c].id)
    {
      assert IsCallGroup(a[i]);
      if Answered(a, i, a[i].calls[c].id) { AnsweredOfSkeleton(a, b, i, a[i].calls[c].id); }
    }
    if |rest| > 0 {
      var g: nat :| MayAnswer(a, g, rest);
      assert MayAnswer(b, g, rest);
    }
  }

  /** Pairing looks at the skeleton only. */
  lemma SkeletonKeeps(a: seq<Message>, b: seq<Message>)
    requires SameSkeleton(a, b) && Paired(a)
    ensures Paired(b) && (AllClosed(a) ==> AllClosed(b)) && HasUser(a) == HasUser(b)
  {
    forall i: nat, id | Answered(a, i, id) ensures Answered(b, i, id) { AnsweredOfSkeleton(a, b, i, id); }
    forall k | 0 <= k < |b| && b[k].role == Tool ensures AnswersCall(b, k) {
      assert AnswersCall(a, k);
      var i :| 0 <= i < k && IsCallGroup(a[i]) && Names(a[i].calls, a[k].callId) && OnlyTools(a, i + 1, k);
      assert IsCallGroup(b[i]) && OnlyTools(b, i + 1, k);
    }
    forall i | 0 <= i < |b| && IsCallGroup(b[i])
      ensures IsCallGroup(a[i]) && (Closed(a, i) ==> Closed(b, i))
              && (OnlyTools(a, i + 1, |a|) ==> OnlyTools(b, i + 1, |b|))
    {
    }
    assert forall i :: 0 <= i < |a| ==> a[i].role == b[i].role;
  }

  /** A summary in place of everything between the system prompt and a call group keeps all calls closed. */
  lemma MergeKeeps(msgs: seq<Message>, b: nat, summary: string, out: seq<Message>)
    requires Paired(msgs) && AllClosed(msgs) && Summary.MergeOf(msgs, b, summary, out)
    requires IsCallGroup(msgs[b]) && msgs[0].role == System
    ensures Paired(out) && AllClosed(out) && HasUser(out)
  {
    var d := b - 2;
    forall i | 0 <= i < |out| ensures (i == 0 ==> out[i].role == System) && (i == 1 ==> out[i].role == User && out[i].calls == [])
                                      && (i >= 2 ==> out[i] == msgs[i + d]) {
      Summary.MergeAt(msgs, b, summary, out, i);
    }
    assert out[1].role == User;
    forall i | 0 <= i < |out| && IsCallGroup(out[i]) ensures Closed(out, i) {
      assert Closed(msgs, i + d);
      forall c | 0 <= c < |out[i].calls| ensures Answered(out, i, out[i].calls[c].id) {
        ShiftAnswered(msgs, out, d, i, out[i].calls[c].id);
      }
    }
    forall k | 0 <= k < |out| && out[k].role == Tool ensures AnswersCall(out, k) {
      var i :| 0 <= i < k + d && IsCallGroup(msgs[i]) && Names(msgs[i].calls, msgs[k + d].callId)
            && OnlyTools(msgs, i + 1, k + d);
      assert i >= b;
      assert out[i - d] == msgs[i] && OnlyTools(out, i - d + 1, k);
    }
  }

  lemma ShiftAnswered(msgs: seq<Message>, out: seq<Message>, d: nat, i: nat, id: string)
    requires 2 <= i && |out| + d == |msgs| && (forall k :: 2 <= k < |out| ==> out[k] == msgs[k + d])
    requires Answered(msgs, i + d, id)
    ensures Answered(out, i, id)
  {
    var j :| i + d < j < |msgs| && msgs[j].role == Tool && msgs[j].callId == id && OnlyTools(msgs, i + d + 1, j);
    assert out[j - d] == msgs[j];
    forall k | 0 <= k < |out| && i + 1 <= k < j - d ensures out[k].role == Tool {
      assert msgs[k + d].role == Tool;
    }
  }

  // ---------------------------------------------------------------- recovery

  function LastGroup(msgs: seq<Message>): (g: int)
    ensures -1 <= g < |msgs| && (g >= 0 ==> IsCallGroup(msgs[g]))
    ensures forall i :: g < i < |msgs| ==> !IsCallGroup(msgs[i])
  {
    if |msgs| == 0 then -1
    else if IsCallGroup(msgs[|msgs| - 1]) then |msgs| - 1
    else LastGroup(msgs[..|msgs| - 1])
  }

  ghost predicate ResultAfter(msgs: seq<Message>, g: nat, id: string) {
    exists j :: g < j < |msgs| && msgs[j].role == Tool && msgs[j].callId == id
  }

  /** The calls among the first `n` without a result after `g`, in order. */
  ghost function Without(msgs: seq<Message>, g: nat, calls: seq<Call>, n: nat): seq<Call>
    requires n <= |calls|
  {
    if n == 0 then []
    else Without(msgs, g, calls, n - 1) + if ResultAfter(msgs, g, calls[n - 1].id) then [] else [calls[n - 1]]
  }

  ghost function Missing(msgs: seq<Message>): seq<Call> {
    var g := LastGroup(msgs);
    if g < 0 then [] else Without(msgs, g, msgs[g].calls, |msgs[g].calls|)
  }

  ghost predicate NeedsRecovery(msgs: seq<Message>) {
    HasUser(msgs) && CanResume(msgs[|msgs| - 1])
  }

  method HasUserMessage(msgs: seq<Message>) returns (found: bool)
    ensures found <==> HasUser(msgs)
  {
    var i := |msgs|;
    while i > 0
      invariant 0 <= i <= |msgs| && forall j :: i <= j < |msgs| ==> msgs[j].role != User
    {
      i := i - 1;
      if msgs[i].role == User { return true; }
    }
    return false;
  }

  method CheckRecovery(msgs: seq<Message>) returns (needed: bool)
    ensures needed <==> NeedsRecovery(msgs)
  {
    var user := HasUserMessage(msgs);
    if !user || |msgs| == 0 { return false; }
    return CanResume(msgs[|msgs| - 1]);
  }

  method MissingToolResults(msgs: seq<Message>) returns (missing: seq<Call>)
    ensures missing == Missing(msgs)
  {
    var g := |msgs| - 1;
    while g >= 0 && !IsCallGroup(msgs[g])
      invariant -1 <= g < |msgs| && LastGroup(msgs[..g + 1]) == LastGroup(msgs)
    {
      assert msgs[..g + 1][..g] == msgs[..g];
      g := g - 1;
    }
    assert LastGroup(msgs) == g;
    if g < 0 { return []; }
    var completed: set<string> := {};
    var i := g + 1;
    while i < |msgs|
      invariant g < i <= |msgs|
      invariant forall id :: id in completed <==> exists j :: g < j < i && msgs[j].role == Tool && msgs[j].callId == id
    {
      if msgs[i].role == Tool { completed := completed + {msgs[i].callId}; }
      i := i + 1;
    }
    assert forall id :: id in completed <==> ResultAfter(msgs, g, id);
    missing := [];
    var c := 0;
    while c < |msgs[g].calls|
      invariant 0 <= c <= |msgs[g].calls| && missing == Without(msgs, g, msgs[g].calls, c)
    {
      if msgs[g].calls[c].id !in completed { missing := missing + [msgs[g].calls[c]]; }
      c := c + 1;
    }
  }

  lemma {:induction false} WithoutIs(msgs: seq<Message>, g: nat, calls: seq<Call>, n: nat)
    requires n <= |calls|
    ensures forall r :: r in Without(msgs, g, calls, n) ==> r in calls && !ResultAfter(msgs, g, r.id)
    ensures forall c :: 0 <= c < n ==> ResultAfter(msgs, g, calls[c].id) || calls[c] in Without(msgs, g, calls, n)
  {
    if n > 0 { WithoutIs(msgs, g, calls, n - 1); }
  }

  lemma {:induction false} NoneWithout(msgs: seq<Message>, g: nat, calls: seq<Call>, n: nat)
    requires n <= |calls| && forall c :: c in calls ==> ResultAfter(msgs, g, c.id)
    ensures Without(msgs, g, calls, n) == []
  {
    if n > 0 { NoneWithout(msgs, g, calls, n - 1); }
  }

  /** On a paired history the missing results are exactly what is owed. */
  lemma MissingIsOwed(msgs: seq<Message>)
    requires Paired(msgs)
    ensures Owes(msgs, Missing(msgs))
  {
    var g, rest := LastGroup(msgs), Missing(msgs);
    if g >= 0 {
      LastGroupOwes(msgs, g);
      forall i, c | 0 <= i < |msgs| && IsCallGroup(msgs[i]) && 0 <= c < |msgs[i].calls|
        ensures Answered(msgs, i, msgs[i].calls[c].id) || Names(rest, msgs[i].calls[c].id)
      {
        if i < g {
          assert !OnlyTools(msgs, i + 1, |msgs|) && Closed(msgs, i);
        }
      }
    }
  }

  lemma LastGroupOwes(msgs: seq<Message>, g: nat)
    requires Paired(msgs) && g == LastGroup(msgs)
    ensures var calls, rest := msgs[g].calls, Missing(msgs);
            && (forall c :: 0 <= c < |calls| ==> Answered(msgs, g, calls[c].id) || Names(rest, calls[c].id))
            && (|rest| > 0 ==> MayAnswer(msgs, g, rest))
  {
    var calls, rest := msgs[g].calls, Missing(msgs);
    WithoutIs(msgs, g, calls, |calls|);
    assert rest == Without(msgs, g, calls, |calls|);
    hide LastGroup, Missing, NoOrphans, GroupsHaveUser, Without;
    if OnlyTools(msgs, g + 1, |msgs|) {
      forall c | 0 <= c < |calls| ensures Answered(msgs, g, calls[c].id) || Names(rest, calls[c].id) {
        if ResultAfter(msgs, g, calls[c].id) {
          AnyResultAnswers(msgs, g, calls[c].id);
        } else {
          var r :| 0 <= r < |rest| && rest[r] == calls[c];
        }
      }
    } else {
      ClosedHasResults(msgs, g);
      NoneWithout(msgs, g, calls, |calls|);
    }
    forall r | 0 <= r < |rest| ensures Names(calls, rest[r].id) {
      assert rest[r] in calls;
      var c :| 0 <= c < |calls| && calls[c] == rest[r];
    }
  }

  lemma ClosedHasResults(msgs: seq<Message>, g: nat)
    requires g < |msgs| && Closed(msgs, g)
    ensures forall c :: c in msgs[g].calls ==> ResultAfter(msgs, g, c.id)
  {
    forall c | c in msgs[g].calls ensures ResultAfter(msgs, g, c.id) {
      var k :| 0 <= k < |msgs[g].calls| && msgs[g].calls[k] == c;
      assert Answered(msgs, g, msgs[g].calls[k].id);
    }
  }

  lemma AnyResultAnswers(msgs: seq<Message>, g: nat, id: string)
    requires ResultAfter(msgs, g, id) && OnlyTools(msgs, g + 1, |msgs|)
    ensures Answered(msgs, g, id)
  {
    var j :| g < j < |msgs| && msgs[j].role == Tool && msgs[j].callId == id;
    assert OnlyTools(msgs, g + 1, j);
  }

  /** A history that needs no recovery has nothing open. */
  lemma SettledIsClosed(msgs: seq<Message>)
    requires Paired(msgs) && !NeedsRecovery(msgs)
    ensures AllClosed(msgs)
  {
    var n := |msgs|;
    forall i | 0 <= i < n && IsCallGroup(msgs[i]) ensures Closed(msgs, i) {
      assert HasUser(msgs);
      assert msgs[n - 1].role != Tool && !IsCallGroup(msgs[n - 1]);
      assert !OnlyTools(msgs, i + 1, n);
    }
  }

  // ---------------------------------------------------------------- complete groups of a closed history

  ghost predicate DistinctIds(calls: seq<Call>) {
    forall c, d :: 0 <= c < d < |calls| ==> calls[c].id != calls[d].id
  }

  function Ids(calls: seq<Call>): (ids: seq<string>)
    ensures |ids| == |calls| && forall c :: 0 <= c < |calls| ==> ids[c] == calls[c].id
  {
    seq(|calls|, c requires 0 <= c < |calls| => calls[c].id)
  }

  ghost predicate NoneTwice(ids: seq<string>) {
    forall i, j :: 0 <= i < j < |ids| ==> ids[i] != ids[j]
  }

  function AllOf(ids: seq<string>): set<string> {
    set id | id in ids
  }

  lemma {:induction false} DistinctByCount(ids: seq<string>)
    ensures |AllOf(ids)| <= |ids| && (|AllOf(ids)| == |ids| <==> NoneTwice(ids))
  {
    if |ids| > 0 {
      var before, id := ids[..|ids| - 1], ids[|ids| - 1];
      DistinctByCount(before);
      assert ids == before + [id];
      OneMoreId(before, id);
      hide AllOf, NoneTwice;
      if id in AllOf(before) { assert AllOf(before) + {id} == AllOf(before); }
    } else {
      assert AllOf(ids) == {};
    }
  }

  lemma OneMoreId(ids: seq<string>, id: string)
    ensures AllOf(ids + [id]) == AllOf(ids) + {id} && (id in ids <==> id in AllOf(ids))
    ensures NoneTwice(ids + [id]) <==> NoneTwice(ids) && id !in ids
  {
    var ids' := ids + [id];
    assert forall i :: 0 <= i < |ids| ==> ids'[i] == ids[i];
    assert ids'[|ids|] == id;
  }

  /** The first result for a call of a closed group comes before any other message. */
  lemma FirstResult(msgs: seq<Message>, i: nat, id: string) returns (r: nat)
    requires i < |msgs| && Calling(msgs[i], id) && Answered(msgs, i, id)
    ensures Answering(msgs, i, r) && msgs[r].callId == id && OnlyTools(msgs, i + 1, r)
  {
    var last: nat :| i < last < |msgs| && msgs[last].role == Tool && msgs[last].callId == id && OnlyTools(msgs, i + 1, last);
    r := i + 1;
    while !ResultFor(msgs[r], id)
      invariant i < r <= last && forall k :: i < k < r ==> !ResultFor(msgs[k], id)
      decreases last - r
    {
      r := r + 1;
    }
    assert forall k :: i < k < r ==> msgs[k].role == Tool;
  }

  lemma OneResultEach(msgs: seq<Message>, i: nat, r: nat, r': nat)
    requires Answering(msgs, i, r) && Answering(msgs, i, r') && msgs[r].callId == msgs[r'].callId
    ensures r == r'
  {
    assert ResultFor(msgs[r], msgs[r].callId) && ResultFor(msgs[r'], msgs[r].callId);
  }

  /** The ids that the results of a group answer. */
  function AnsweredIds(msgs: seq<Message>, results: seq<nat>): (ids: seq<string>)
    requires forall j :: 0 <= j < |results| ==> results[j] < |msgs|
    ensures |ids| == |results| && forall j :: 0 <= j < |results| ==> ids[j] == msgs[results[j]].callId
  {
    seq(|results|, j requires 0 <= j < |results| => msgs[results[j]].callId)
  }

  /** Once all calls of a group have results, the collector finds one for each id, before any other message follows;
      so the group counts as complete exactly when its calls have different ids. */
  lemma ClosedIsComplete(msgs: seq<Message>, k: nat)
    requires k < |Groups(msgs)|
    requires Groups(msgs)[k].at < |msgs| && Closed(msgs, Groups(msgs)[k].at)
    ensures var g := Groups(msgs)[k];
            && (g.complete <==> DistinctIds(msgs[g.at].calls))
            && forall j, b :: 0 <= j < |g.results| && g.at < b < |msgs| && msgs[b].role != Tool ==> g.results[j] < b
  {
    var g := Groups(msgs)[k];
    ScanCollects(msgs, |msgs|);
    assert GroupOk(g, msgs, |msgs|);
    forall r ensures r in g.results <==> 0 <= r && Answering(msgs, g.at, r) {
      if r in g.results { assert exists j :: 0 <= j < |g.results| && g.results[j] == r; }
      if r >= 0 { ResultsAreExact(msgs, k, r); }
    }
    hide Groups, Scan, GroupOk, Answering, Answered;
    CountsItsCalls(msgs, g);
    forall j, b | 0 <= j < |g.results| && g.at < b < |msgs| && msgs[b].role != Tool ensures g.results[j] < b {
      BeforeOthers(msgs, g, g.results[j], b);
    }
  }

  lemma BeforeOthers(msgs: seq<Message>, g: Group, r: nat, b: nat)
    requires g.at < b < |msgs| && msgs[b].role != Tool && Closed(msgs, g.at) && Answering(msgs, g.at, r)
    ensures r < b
  {
    var c :| 0 <= c < |msgs[g.at].calls| && msgs[g.at].calls[c].id == msgs[r].callId;
    assert Answered(msgs, g.at, msgs[g.at].calls[c].id);
    var first := FirstResult(msgs, g.at, msgs[r].callId);
    OneResultEach(msgs, g.at, r, first);
  }

  lemma CountsItsCalls(msgs: seq<Message>, g: Group)
    requires g.at < |msgs| && IsCallGroup(msgs[g.at]) && Closed(msgs, g.at)
    requires g.complete == (|g.results| == |msgs[g.at].calls|)
    requires forall i, j :: 0 <= i < j < |g.results| ==> g.results[i] < g.results[j]
    requires forall r :: r in g.results <==> 0 <= r && Answering(msgs, g.at, r)
    ensures g.complete <==> DistinctIds(msgs[g.at].calls)
  {
    forall j | 0 <= j < |g.results| ensures Answering(msgs, g.at, g.results[j]) { assert g.results[j] in g.results; }
    var calls := msgs[g.at].calls;
    var asked, got := Ids(calls), AnsweredIds(msgs, g.results);
    forall i, j | 0 <= i < j < |got| ensures got[i] != got[j] {
      if got[i] == got[j] { OneResultEach(msgs, g.at, g.results[i], g.results[j]); }
    }
    SameIds(msgs, g, asked, got);
    hide Answering, Answered;
    assert AllOf(asked) == AllOf(got);
    hide AllOf;
    DistinctByCount(asked);
    DistinctByCount(got);
    assert NoneTwice(asked) <==> DistinctIds(calls);
  }

  lemma SameIds(msgs: seq<Message>, g: Group, asked: seq<string>, got: seq<string>)
    requires g.at < |msgs| && IsCallGroup(msgs[g.at]) && Closed(msgs, g.at) && asked == Ids(msgs[g.at].calls)
    requires forall r :: r in g.results <==> 0 <= r && Answering(msgs, g.at, r)
    requires (forall j :: 0 <= j < |g.results| ==> g.results[j] < |msgs|) && got == AnsweredIds(msgs, g.results)
    ensures forall id :: id in asked <==> id in got
  {
    var calls := msgs[g.at].calls;
    forall id | id in asked ensures id in got {
      var c :| 0 <= c < |asked| && asked[c] == id;
      assert Answered(msgs, g.at, calls[c].id);
      var r := FirstResult(msgs, g.at, id);
      var j :| 0 <= j < |g.results| && g.results[j] == r;
      assert got[j] == id;
    }
    forall id | id in got ensures id in asked {
      var j :| 0 <= j < |got| && got[j] == id;
      assert g.results[j] in g.results;
      var c :| 0 <= c < |calls| && calls[c].id == id;
      assert asked[c] == id;
    }
  }

  /** On a closed history with three groups or more, exactly the last three are protected, if and only if the calls of
      each earlier group have different ids. */
  lemma ClosedBoundary(msgs: seq<Message>)
    requires AllClosed(msgs) && |Groups(msgs)| >= KEEP_GROUPS
    ensures var groups := Groups(msgs);
            var top := groups[|groups| - KEEP_GROUPS].at;
            && (forall k :: 0 <= k < |groups| ==> groups[k].at < |msgs|)
            && (Boundary(msgs) == top <==> forall k :: 0 <= k < |groups| - KEEP_GROUPS ==> DistinctIds(msgs[groups[k].at].calls))
  {
    var groups := Groups(msgs);
    ScanCollects(msgs, |msgs|);
    var t := |groups| - KEEP_GROUPS;
    forall k | 0 <= k < |groups|
      ensures groups[k].at < |msgs| && IsCallGroup(msgs[groups[k].at])
      ensures groups[k].complete <==> DistinctIds(msgs[groups[k].at].calls)
      ensures groups[k].at < groups[t].at ==> forall j :: 0 <= j < |groups[k].results| ==> groups[k].results[j] < groups[t].at
    {
      assert GroupOk(groups[k], msgs, |msgs|) && GroupOk(groups[t], msgs, |msgs|);
      ClosedIsComplete(msgs, k);
    }
    BoundaryIsGreatest(msgs);
    hide Groups, Scan, Closed, GroupOk, Covers, Disjoint, Mapped;
  }
}
