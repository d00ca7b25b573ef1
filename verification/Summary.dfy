/** MergeSummary of internal/domain/compactor/summary.go. */
module Summary {
  import opened Words
  import opened Messages
  import opened Lineage

  datatype Fault = NoSystem | BadBoundary | NoContent | BadOriginal | BadNumber

  datatype Merged = Refused(fault: Fault) | Merged(out: seq<Message>)

  function SummaryOf(number: nat, original: seq<nat>, content: string): Message {
    Message(number, original, User, content, "", "", [], "", None, Unset, Tokens(0, 0), "")
  }

  ghost predicate NoEmptyOrZero(sources: seq<Message>) {
    forall i :: 0 <= i < |sources| ==> |sources[i].original| > 0 && 0 !in sources[i].original
  }

  ghost predicate StartsAtNumber(sources: seq<Message>) {
    |sources| > 0 && Covered(sources, sources[0].number) && forall x :: Covered(sources, x) ==> sources[0].number <= x
  }

  /** The first reason to refuse, in the order of the checks. */
  ghost function FirstFault(msgs: seq<Message>, b: nat, content: string): Option<Fault> {
    if |msgs| == 0 || msgs[0].role != System then Some(NoSystem)
    else if b <= 1 || b >= |msgs| then Some(BadBoundary)
    else if content == "" then Some(NoContent)
    else if !NoEmptyOrZero(msgs[1..b]) then Some(BadOriginal)
    else if !StartsAtNumber(msgs[1..b]) then Some(BadNumber)
    else None
  }

  /** One user summary in place of messages 1 to `b`; it takes over the first number and every number those stood for. */
  ghost predicate MergeOf(msgs: seq<Message>, b: nat, content: string, out: seq<Message>) {
    && 1 < b < |msgs| && |out| == |msgs| - b + 2
    && out[0] == msgs[0] && out[2..] == msgs[b..]
    && out[1] == Message(msgs[1].number, out[1].original, User, content, "", "", [], "", None, Unset, Tokens(0, 0), "")
    && Increasing(out[1].original) && forall x :: x in out[1].original <==> Covered(msgs[1..b], x)
  }

  /** The set of a list sorted. */
  method Sort(numbers: set<nat>) returns (sorted: seq<nat>)
    ensures Increasing(sorted) && forall x :: x in sorted <==> x in numbers
  {
    sorted := [];
    var rest := numbers;
    while rest != {}
      invariant rest <= numbers && forall x :: x in sorted <==> x in numbers && x !in rest
      invariant Increasing(sorted) && forall x, y :: x in sorted && y in rest ==> x < y
      decreases |rest|
    {
      LeastExists(rest);
      assert exists x: nat :: x in rest && forall y :: y in rest ==> x <= y by { var x: nat :| IsLeast(rest, x); }
      var least: nat :| least in rest && forall y :: y in rest ==> least <= y;
      assert forall k :: 0 <= k < |sorted| ==> sorted[k] in sorted;
      sorted := sorted + [least];
      rest := rest - {least};
    }
  }

  ghost predicate IsLeast(s: set<nat>, x: nat) {
    x in s && forall y :: y in s ==> x <= y
  }

  lemma {:induction false} LeastExists(s: set<nat>)
    requires s != {}
    ensures exists x: nat :: IsLeast(s, x)
    decreases |s|
  {
    var x: nat :| x in s;
    if !IsLeast(s, x) {
      var y: nat :| y in s && y < x;
      assert y in s - {x};
      LeastExists(s - {x});
      var z: nat :| IsLeast(s - {x}, z);
      assert forall w :: w in s && w != x ==> w in s - {x};
      assert z <= y && IsLeast(s, z);
    }
  }

  method MergeSummary(msgs: seq<Message>, b: nat, content: string) returns (r: Merged)
    ensures FirstFault(msgs, b, content) == if r.Refused? then Some(r.fault) else None
    ensures r.Merged? ==> MergeOf(msgs, b, content, r.out)
  {
    if |msgs| == 0 || msgs[0].role != System { return Refused(NoSystem); }
    if b <= 1 || b >= |msgs| { return Refused(BadBoundary); }
    if content == "" { return Refused(NoContent); }
    var sources := msgs[1..b];
    var union: set<nat> := {};
    var i := 0;
    while i < |sources|
      invariant 0 <= i <= |sources| && NoEmptyOrZero(sources[..i])
      invariant forall x :: x in union <==> Covered(sources[..i], x)
    {
      if |sources[i].original| == 0 { return Refused(BadOriginal); }
      var j := 0;
      ghost var before := union;
      while j < |sources[i].original|
        invariant 0 <= j <= |sources[i].original| && 0 !in sources[i].original[..j]
        invariant forall x :: x in union <==> x in before || x in sources[i].original[..j]
      {
        if sources[i].original[j] == 0 { return Refused(BadOriginal); }
        union := union + {sources[i].original[j]};
        j := j + 1;
      }
      assert sources[i].original[..j] == sources[i].original;
      OneMoreCovered(sources, i);
      i := i + 1;
    }
    assert sources[..i] == sources;
    var original := Sort(union);
    SortedStart(sources, original);
    if |original| == 0 || original[0] != sources[0].number { return Refused(BadNumber); }
    return Merged([msgs[0], SummaryOf(sources[0].number, original, content)] + msgs[b..]);
  }

  lemma SortedStart(sources: seq<Message>, original: seq<nat>)
    requires |sources| > 0 && Increasing(original) && forall x :: x in original <==> Covered(sources, x)
    ensures StartsAtNumber(sources) <==> |original| > 0 && original[0] == sources[0].number
  {
    hide Covered;
    assert |original| > 0 ==> original[0] in original && forall x :: x in original ==> original[0] <= x;
  }

  lemma OneMoreCovered(sources: seq<Message>, i: nat)
    requires i < |sources|
    ensures forall x :: Covered(sources[..i + 1], x) <==> Covered(sources[..i], x) || x in sources[i].original
  {
    forall x ensures Covered(sources[..i + 1], x) <==> Covered(sources[..i], x) || x in sources[i].original {
      if Covered(sources[..i + 1], x) {
        var k: nat :| StandsFor(sources[..i + 1], k, x);
        assert k == i || StandsFor(sources[..i], k, x);
      }
      if Covered(sources[..i], x) {
        var k: nat :| StandsFor(sources[..i], k, x);
        assert StandsFor(sources[..i + 1], k, x);
      }
      if x in sources[i].original { assert StandsFor(sources[..i + 1], i, x); }
    }
  }

  // ---------------------------------------------------------------- on a partitioned working set

  /** On a working set that partitions its log, a merge with a proper boundary and some text is never refused. */
  lemma NeverRefused(msgs: seq<Message>, b: nat, content: string, log: seq<nat>)
    requires Partition(msgs, log) && |msgs| > 0 && msgs[0].role == System && 1 < b < |msgs| && content != ""
    ensures FirstFault(msgs, b, content) == None
  {
    var sources := msgs[1..b];
    forall i | 0 <= i < |sources| ensures |sources[i].original| > 0 && 0 !in sources[i].original {
      ListsLieBetweenNumbers(msgs, log, i + 1);
    }
    assert StandsFor(sources, 0, sources[0].number);
    forall x | Covered(sources, x) ensures sources[0].number <= x {
      var i: nat :| StandsFor(sources, i, x);
      ListsLieBetweenNumbers(msgs, log, i + 1);
      NumbersRise(msgs, log, 1, i + 1);
    }
  }

  lemma MergeAt(msgs: seq<Message>, b: nat, content: string, out: seq<Message>, i: nat)
    requires MergeOf(msgs, b, content, out) && i < |out|
    ensures 1 < b < |msgs| && (i == 0 ==> out[i] == msgs[0])
    ensures i >= 2 ==> b + i - 2 < |msgs| && out[i] == msgs[b + i - 2]
    ensures i == 1 ==> out[i].number == msgs[1].number && out[i].role == User && out[i].calls == [] && out[i].callId == ""
  {
    if i >= 2 { assert out[i] == out[2..][i - 2] && msgs[b + i - 2] == msgs[b..][i - 2]; }
  }

  /** A merge keeps the partition of the log: the summary's list is the concatenation of the lists it replaces. */
  lemma MergeKeepsPartition(msgs: seq<Message>, b: nat, content: string, out: seq<Message>, log: seq<nat>)
    requires Partition(msgs, log) && MergeOf(msgs, b, content, out)
    ensures out[1].original == Flat(msgs[1..b]) && Partition(out, log)
  {
    hide Flat;
    var first, sources, rest := msgs[..1], msgs[1..b], msgs[b..];
    assert msgs == first + sources + rest;
    FlatConcat(first + sources, rest);
    FlatConcat(first, sources);
    var middle := Flat(sources);
    assert forall k :: 0 <= k < |middle| ==> middle[k] == log[|Flat(first)| + k];
    forall x ensures x in middle <==> x in out[1].original { FlatCovers(sources, x); }
    IncreasingUnique(middle, out[1].original);
    var summary := [out[1]];
    assert out == first + summary + rest by {
      assert first == [msgs[0]];
      assert out == [out[0]] + [out[1]] + out[2..];
    }
    FlatConcat(first + summary, rest);
    FlatConcat(first, summary);
    FlatAround(summary, 0);
    FlatOfNothing();
    assert summary[..0] == [] && summary[1..] == [];
    FlatAround(sources, 0);
    assert sources[..0] == [];
  }
}
