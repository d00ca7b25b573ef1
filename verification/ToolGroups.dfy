/** collectToolCallGroups and ProtectedStart of internal/domain/compactor/compactor.go. */
module ToolGroups {
  import opened Words
  import opened Messages

  const KEEP_GROUPS: nat := 3

  datatype Group = Group(at: nat, results: seq<nat>, complete: bool)

  /** The collector's state: groups so far, the group of each call id, and whether its result was seen. */
  datatype Collected = Collected(groups: seq<Group>, groupOf: map<string, nat>, seen: map<string, bool>)

  function Register(c: Collected, calls: seq<Call>, g: nat): Collected {
    if |calls| == 0 then c
    else
      var n := |calls| - 1;
      var c' := Register(c, calls[..n], g);
      c'.(groupOf := c'.groupOf[calls[n].id := g], seen := c'.seen[calls[n].id := false])
  }

  function Record(c: Collected, msgs: seq<Message>, i: nat): Collected
    requires i < |msgs|
  {
    var id := msgs[i].callId;
    if msgs[i].role == Tool && id in c.groupOf && id in c.seen && !c.seen[id] && c.groupOf[id] < |c.groups|
       && c.groups[c.groupOf[id]].at < |msgs| then
      var g := c.groups[c.groupOf[id]];
      var results := g.results + [i];
      c.(groups := c.groups[c.groupOf[id] := Group(g.at, results, |results| == |msgs[g.at].calls|)],
         seen := c.seen[id := true])
    else c
  }

  function Visit(c: Collected, msgs: seq<Message>, i: nat): Collected
    requires i < |msgs|
  {
    Record(OpenGroup(c, msgs, i), msgs, i)
  }

  /** The collector after the first `n` messages. */
  function Scan(msgs: seq<Message>, n: nat): Collected
    requires n <= |msgs|
  {
    if n == 0 then Collected([], map[], map[]) else Visit(Scan(msgs, n - 1), msgs, n - 1)
  }

  function Groups(msgs: seq<Message>): seq<Group> {
    Scan(msgs, |msgs|).groups
  }

  // ---------------------------------------------------------------- what the collector finds

  /** Groups are exactly the assistant messages with calls, in order; the results of a group are later tool
      messages, in order, that answer its calls, and no message is a result twice. */
  ghost predicate WellCollected(c: Collected, msgs: seq<Message>, n: nat)
    requires n <= |msgs|
  {
    AllOk(c.groups, msgs, n) && Ordered(c.groups) && Covers(c.groups, msgs, n) && Disjoint(c.groups) && Mapped(c, msgs)
  }

  ghost predicate AllOk(groups: seq<Group>, msgs: seq<Message>, n: nat)
    requires n <= |msgs|
  {
    forall k :: 0 <= k < |groups| ==> GroupOk(groups[k], msgs, n)
  }

  ghost predicate Ordered(groups: seq<Group>) {
    forall k, l :: 0 <= k < l < |groups| ==> groups[k].at < groups[l].at
  }

  ghost predicate Covers(groups: seq<Group>, msgs: seq<Message>, n: nat)
    requires n <= |msgs|
  {
    forall i :: 0 <= i < n && IsCallGroup(msgs[i]) ==> StartsGroup(groups, i)
  }

  ghost predicate Disjoint(groups: seq<Group>) {
    forall k, l, r :: 0 <= k < l < |groups| && r in groups[k].results ==> r !in groups[l].results
  }

  ghost predicate ResultsBefore(groups: seq<Group>, i: nat) {
    forall k, r :: 0 <= k < |groups| && r in groups[k].results ==> r < i
  }

  ghost predicate StartsGroup(groups: seq<Group>, i: nat) {
    exists k :: 0 <= k < |groups| && groups[k].at == i
  }

  predicate Names(calls: seq<Call>, id: string) {
    exists j :: 0 <= j < |calls| && calls[j].id == id
  }

  /** The map from call ids leads to groups that make such a call. */
  ghost predicate Mapped(c: Collected, msgs: seq<Message>) {
    forall id :: id in c.groupOf ==>
      && id in c.seen && c.groupOf[id] < |c.groups|
      && c.groups[c.groupOf[id]].at < |msgs| && Names(msgs[c.groups[c.groupOf[id]].at].calls, id)
  }

  ghost predicate GroupOk(g: Group, msgs: seq<Message>, n: nat)
    requires n <= |msgs|
  {
    && g.at < n && IsCallGroup(msgs[g.at])
    && (forall i :: 0 <= i < |g.results| ==> ResultOk(g, msgs, n, g.results[i]))
    && (forall i, j :: 0 <= i < j < |g.results| ==> g.results[i] < g.results[j])
    && g.complete == (|g.results| == |msgs[g.at].calls|)
  }

  ghost predicate ResultOk(g: Group, msgs: seq<Message>, n: nat, r: nat)
    requires n <= |msgs|
  {
    g.at < r < n && msgs[r].role == Tool && Names(msgs[g.at].calls, msgs[r].callId)
  }

  lemma {:induction false} RegisterKeeps(c: Collected, calls: seq<Call>, g: nat)
    ensures var c' := Register(c, calls, g);
            && c'.groups == c.groups
            && (forall id :: id in c.groupOf && id in c.seen ==> id in c'.groupOf)
            && forall id :: id in c'.groupOf ==>
                 || (c'.groupOf[id] == g && id in c'.seen && Names(calls, id))
                 || (id in c.groupOf && c'.groupOf[id] == c.groupOf[id] && (id in c.seen ==> id in c'.seen))
  {
    if |calls| > 0 {
      var n := |calls| - 1;
      RegisterKeeps(c, calls[..n], g);
      assert Names(calls, calls[n].id);
      assert forall id :: Names(calls[..n], id) ==> Names(calls, id);
    }
  }

  function OpenGroup(c: Collected, msgs: seq<Message>, i: nat): Collected
    requires i < |msgs|
  {
    if IsCallGroup(msgs[i])
    then Register(c.(groups := c.groups + [Group(i, [], false)]), msgs[i].calls, |c.groups|) else c
  }

  lemma {:induction false} ScanCollects(msgs: seq<Message>, n: nat)
    requires n <= |msgs|
    ensures WellCollected(Scan(msgs, n), msgs, n)
  {
    if n > 0 {
      hide WellCollected, OpenGroup, Record, ResultsBefore;
      var c, i := Scan(msgs, n - 1), n - 1;
      ScanCollects(msgs, i);
      if IsCallGroup(msgs[i]) { OpenKeeps(c, msgs, i); } else { SkipKeeps(c, msgs, i); }
      RecordKeeps(OpenGroup(c, msgs, i), msgs, i);
    } else {
      assert WellCollected(Scan(msgs, n), msgs, n);
    }
  }

  lemma StaysOk(g: Group, msgs: seq<Message>, i: nat)
    requires i < |msgs| && GroupOk(g, msgs, i)
    ensures GroupOk(g, msgs, i + 1) && forall r :: r in g.results ==> r < i
  {
    forall j | 0 <= j < |g.results| ensures ResultOk(g, msgs, i + 1, g.results[j]) && g.results[j] < i {
      assert ResultOk(g, msgs, i, g.results[j]);
    }
  }

  lemma SkipKeeps(c: Collected, msgs: seq<Message>, i: nat)
    requires i < |msgs| && WellCollected(c, msgs, i) && !IsCallGroup(msgs[i])
    ensures OpenGroup(c, msgs, i) == c && WellCollected(c, msgs, i + 1) && ResultsBefore(c.groups, i)
  {
    hide GroupOk, Mapped;
    forall k | 0 <= k < |c.groups|
      ensures GroupOk(c.groups[k], msgs, i + 1) && forall r :: r in c.groups[k].results ==> r < i
    {
      StaysOk(c.groups[k], msgs, i);
    }
  }

  lemma OpenKeeps(c: Collected, msgs: seq<Message>, i: nat)
    requires i < |msgs| && WellCollected(c, msgs, i) && IsCallGroup(msgs[i])
    ensures WellCollected(OpenGroup(c, msgs, i), msgs, i + 1) && ResultsBefore(OpenGroup(c, msgs, i).groups, i)
  {
    hide GroupOk, Register;
    var c0 := c.(groups := c.groups + [Group(i, [], false)]);
    var c' := OpenGroup(c, msgs, i);
    RegisterKeeps(c0, msgs[i].calls, |c.groups|);
    assert c'.groups == c0.groups;
    forall k | 0 <= k < |c'.groups|
      ensures GroupOk(c'.groups[k], msgs, i + 1) && (forall r :: r in c'.groups[k].results ==> r < i)
      ensures k < |c.groups| ==> c'.groups[k].at < i
    {
      if k < |c.groups| { StaysOk(c.groups[k], msgs, i); StartsBefore(c.groups[k], msgs, i); }
      else { NewGroupOk(msgs, i); }
    }
    forall j | 0 <= j < i + 1 && IsCallGroup(msgs[j]) ensures StartsGroup(c'.groups, j) {
      if j < i {
        assert StartsGroup(c.groups, j);
        var k :| 0 <= k < |c.groups| && c.groups[k].at == j;
        assert c'.groups[k].at == j;
      } else {
        assert c'.groups[|c.groups|].at == j;
      }
    }
    OpenMapped(c, msgs, i);
  }

  lemma OpenMapped(c: Collected, msgs: seq<Message>, i: nat)
    requires i < |msgs| && Mapped(c, msgs) && IsCallGroup(msgs[i])
    ensures Mapped(OpenGroup(c, msgs, i), msgs)
  {
    hide Register;
    var c0 := c.(groups := c.groups + [Group(i, [], false)]);
    RegisterKeeps(c0, msgs[i].calls, |c.groups|);
    assert c0.groups[|c.groups|].at == i;
  }

  lemma StartsBefore(g: Group, msgs: seq<Message>, i: nat)
    requires i <= |msgs| && GroupOk(g, msgs, i)
    ensures g.at < i
  {
  }

  lemma NewGroupOk(msgs: seq<Message>, i: nat)
    requires i < |msgs| && IsCallGroup(msgs[i])
    ensures GroupOk(Group(i, [], false), msgs, i + 1)
  {
  }

  lemma RecordKeeps(c: Collected, msgs: seq<Message>, i: nat)
    requires i < |msgs| && WellCollected(c, msgs, i + 1) && ResultsBefore(c.groups, i)
    ensures WellCollected(Record(c, msgs, i), msgs, i + 1)
  {
    if Record(c, msgs, i) != c {
      var k0 := c.groupOf[msgs[i].callId];
      var g := Record(c, msgs, i).groups[k0];
      assert g == Group(c.groups[k0].at, c.groups[k0].results + [i], g.complete);
      hide GroupOk, Names;
      assert GroupOk(c.groups[k0], msgs, i + 1);
      RecordGroup(c.groups[k0], msgs, i);
      ReplaceGroup(c.groups, k0, g, msgs, i);
      RecordMapped(c, msgs, i);
    }
  }

  lemma ReplaceGroup(groups: seq<Group>, k0: nat, g: Group, msgs: seq<Message>, i: nat)
    requires i < |msgs| && k0 < |groups| && ResultsBefore(groups, i)
    requires AllOk(groups, msgs, i + 1) && Ordered(groups) && Covers(groups, msgs, i + 1) && Disjoint(groups)
    requires GroupOk(g, msgs, i + 1) && g.at == groups[k0].at && g.results == groups[k0].results + [i]
    ensures var groups' := groups[k0 := g];
            AllOk(groups', msgs, i + 1) && Ordered(groups') && Covers(groups', msgs, i + 1) && Disjoint(groups')
  {
    hide GroupOk;
    var groups' := groups[k0 := g];
    forall j | 0 <= j < i + 1 && IsCallGroup(msgs[j]) ensures StartsGroup(groups', j) {
      assert StartsGroup(groups, j);
      var k :| 0 <= k < |groups| && groups[k].at == j;
      assert groups'[k].at == j;
    }
  }

  lemma RecordMapped(c: Collected, msgs: seq<Message>, i: nat)
    requires i < |msgs| && Mapped(c, msgs)
    ensures Mapped(Record(c, msgs, i), msgs)
  {
    hide Names;
  }

  lemma RecordGroup(g: Group, msgs: seq<Message>, i: nat)
    requires i < |msgs| && GroupOk(g, msgs, i + 1) && msgs[i].role == Tool && Names(msgs[g.at].calls, msgs[i].callId)
    requires forall r :: r in g.results ==> r < i
    ensures var results := g.results + [i];
            GroupOk(Group(g.at, results, |results| == |msgs[g.at].calls|), msgs, i + 1)
  {
    var g' := Group(g.at, g.results + [i], |g.results| + 1 == |msgs[g.at].calls|);
    forall j | 0 <= j < |g'.results| ensures ResultOk(g', msgs, i + 1, g'.results[j]) {
      if j < |g.results| { assert ResultOk(g, msgs, i + 1, g.results[j]) && g.results[j] in g.results; }
    }
    forall j, l | 0 <= j < l < |g'.results| ensures g'.results[j] < g'.results[l] {
      assert g.results[j] in g.results;
    }
  }

  // ---------------------------------------------------------------- which results are found

  /** Message `r` is the result that the group at `i` gets for a call: the first tool message for the call's id after
      the group, with no later group in between that makes a call by that id. */
  ghost predicate Answering(msgs: seq<Message>, i: nat, r: nat) {
    i < r < |msgs| && msgs[r].role == Tool && Waiting(msgs, i, r, msgs[r].callId)
  }

  /** The group at `i` waits for the result of its call `id` before message `n`. */
  ghost predicate Waiting(msgs: seq<Message>, i: nat, n: nat, id: string)
    requires n <= |msgs|
  {
    && i < n && Calling(msgs[i], id)
    && forall k :: i < k < n ==> !Calling(msgs[k], id) && !ResultFor(msgs[k], id)
  }

  predicate Calling(m: Message, id: string) {
    IsCallGroup(m) && Names(m.calls, id)
  }

  predicate ResultFor(m: Message, id: string) {
    m.role == Tool && m.callId == id
  }

  /** Every result that answers a call is recorded, and nothing else is. */
  ghost predicate FindsAll(groups: seq<Group>, msgs: seq<Message>, n: nat) {
    forall k, r :: 0 <= k < |groups| ==> (r in groups[k].results <==> 0 <= r < n && Answering(msgs, groups[k].at, r))
  }

  /** The maps of the collector say which group made the latest call by an id, and whether it still waits. */
  ghost predicate Tracks(c: Collected, msgs: seq<Message>, n: nat)
    requires n <= |msgs|
  {
    forall id :: TracksId(c, msgs, n, id)
  }

  ghost predicate TracksId(c: Collected, msgs: seq<Message>, n: nat, id: string)
    requires n <= |msgs|
  {
    if id in c.groupOf then
      && id in c.seen && c.groupOf[id] < |c.groups|
      && var i := c.groups[c.groupOf[id]].at;
         && i < n && Calling(msgs[i], id) && (forall k :: i < k < n ==> !Calling(msgs[k], id))
         && (!c.seen[id] <==> Waiting(msgs, i, n, id))
    else forall k :: 0 <= k < n ==> !Calling(msgs[k], id)
  }

  lemma {:induction false} RegisterIs(c: Collected, calls: seq<Call>, g: nat, id: string)
    ensures var c' := Register(c, calls, g);
            if Names(calls, id) then id in c'.groupOf && c'.groupOf[id] == g && id in c'.seen && !c'.seen[id]
            else
              && (id in c'.groupOf <==> id in c.groupOf) && (id in c'.seen <==> id in c.seen)
              && (id in c.groupOf ==> c'.groupOf[id] == c.groupOf[id]) && (id in c.seen ==> c'.seen[id] == c.seen[id])
  {
    if |calls| > 0 {
      var n := |calls| - 1;
      RegisterIs(c, calls[..n], g, id);
      assert Names(calls, id) <==> Names(calls[..n], id) || calls[n].id == id by {
        assert forall j :: 0 <= j < n ==> calls[j] == calls[..n][j];
      }
    }
  }

  /** After the group, if any, of message `i` is opened, before message `i` is taken as a result. */
  lemma OpenTracks(c: Collected, msgs: seq<Message>, i: nat, id: string)
    requires i < |msgs| && TracksId(c, msgs, i, id)
    ensures msgs[i].role != Tool ==> TracksId(OpenGroup(c, msgs, i), msgs, i + 1, id)
    ensures msgs[i].role == Tool ==> OpenGroup(c, msgs, i) == c
  {
    if IsCallGroup(msgs[i]) {
      var c0 := c.(groups := c.groups + [Group(i, [], false)]);
      RegisterIs(c0, msgs[i].calls, |c.groups|, id);
      RegisterKeeps(c0, msgs[i].calls, |c.groups|);
      hide Register, Names;
    }
  }

  /** Taking message `i` as a result, or not. */
  lemma RecordTracks(c: Collected, msgs: seq<Message>, i: nat, id: string)
    requires i < |msgs| && msgs[i].role == Tool && TracksId(c, msgs, i, id)
    ensures TracksId(Record(c, msgs, i), msgs, i + 1, id)
  {
    hide Names;
  }

  lemma {:induction false} ScanTracks(msgs: seq<Message>, n: nat)
    requires n <= |msgs|
    ensures Tracks(Scan(msgs, n), msgs, n) && FindsAll(Scan(msgs, n).groups, msgs, n)
  {
    if n > 0 {
      var c, i := Scan(msgs, n - 1), n - 1;
      ScanTracks(msgs, i);
      ScanCollects(msgs, i);
      assert Scan(msgs, n) == Record(OpenGroup(c, msgs, i), msgs, i);
      hide Scan, TracksId, OpenGroup, Record;
      forall id ensures TracksId(Record(OpenGroup(c, msgs, i), msgs, i), msgs, n, id) {
        OpenTracks(c, msgs, i, id);
        if msgs[i].role == Tool { RecordTracks(c, msgs, i, id); } else { OtherIsNoResult(OpenGroup(c, msgs, i), msgs, i); }
      }
      if msgs[i].role == Tool {
        OpenTracks(c, msgs, i, msgs[i].callId);
        RecordFinds(c, msgs, i);
      } else {
        OtherIsNoResult(OpenGroup(c, msgs, i), msgs, i);
        OpenFinds(c, msgs, i);
      }
    }
  }

  lemma OtherIsNoResult(c: Collected, msgs: seq<Message>, i: nat)
    requires i < |msgs| && msgs[i].role != Tool
    ensures Record(c, msgs, i) == c
  {
  }

  lemma OpenFinds(c: Collected, msgs: seq<Message>, i: nat)
    requires i < |msgs| && msgs[i].role != Tool && FindsAll(c.groups, msgs, i)
    ensures FindsAll(OpenGroup(c, msgs, i).groups, msgs, i + 1)
  {
    if IsCallGroup(msgs[i]) { RegisterKeeps(c.(groups := c.groups + [Group(i, [], false)]), msgs[i].calls, |c.groups|); }
    hide Register, Waiting;
  }

  lemma RecordFinds(c: Collected, msgs: seq<Message>, i: nat)
    requires i < |msgs| && msgs[i].role == Tool && FindsAll(c.groups, msgs, i) && Ordered(c.groups) && Covers(c.groups, msgs, i)
    requires TracksId(c, msgs, i, msgs[i].callId)
    ensures FindsAll(Record(c, msgs, i).groups, msgs, i + 1)
  {
    var groups', id := Record(c, msgs, i).groups, msgs[i].callId;
    forall k, r | 0 <= k < |groups'| ensures r in groups'[k].results <==> 0 <= r < i + 1 && Answering(msgs, groups'[k].at, r) {
      if r == i { LatestWaits(c, msgs, i, k); }
    }
  }

  /** Only the group of the latest call by an id can wait for its result. */
  lemma LatestWaits(c: Collected, msgs: seq<Message>, i: nat, k: nat)
    requires i < |msgs| && k < |c.groups| && Ordered(c.groups) && TracksId(c, msgs, i, msgs[i].callId)
    ensures var id := msgs[i].callId;
            Waiting(msgs, c.groups[k].at, i, id) <==> id in c.groupOf && c.groupOf[id] == k && id in c.seen && !c.seen[id]
  {
    hide Names;
  }

  /** The results of a group are exactly the tool messages that answer its calls first. */
  lemma ResultsAreExact(msgs: seq<Message>, k: nat, r: nat)
    requires k < |Groups(msgs)|
    ensures r in Groups(msgs)[k].results <==> Answering(msgs, Groups(msgs)[k].at, r)
  {
    ScanTracks(msgs, |msgs|);
    hide Scan;
  }

  /** Groups depend on the skeleton alone. */
  lemma {:induction false} ScanOfSkeleton(a: seq<Message>, b: seq<Message>, n: nat)
    requires SameSkeleton(a, b) && n <= |a|
    ensures Scan(a, n) == Scan(b, n)
  {
    if n > 0 { ScanOfSkeleton(a, b, n - 1); }
  }

  // ---------------------------------------------------------------- boundaries

  /** Every group that starts before `b` is complete and has all its results before `b`. */
  predicate IsBoundary(groups: seq<Group>, b: nat) {
    forall k :: 0 <= k < |groups| && groups[k].at < b ==>
      groups[k].complete && forall j :: 0 <= j < |groups[k].results| ==> groups[k].results[j] < b
  }

  /** The greatest boundary not after `top`. */
  function GreatestBoundary(groups: seq<Group>, top: nat): (b: nat)
    ensures b <= top && IsBoundary(groups, b)
    ensures forall c :: b < c <= top ==> !IsBoundary(groups, c)
  {
    if top == 0 || IsBoundary(groups, top) then top else GreatestBoundary(groups, top - 1)
  }

  function Boundary(msgs: seq<Message>): nat {
    var groups := Groups(msgs);
    if |groups| < KEEP_GROUPS then 0 else GreatestBoundary(groups, groups[|groups| - KEEP_GROUPS].at)
  }

  /** What the protected start is: with fewer than three groups 0, otherwise the greatest boundary
      not after the third most recent group. */
  ghost predicate IsProtectedStart(groups: seq<Group>, start: nat) {
    if |groups| < KEEP_GROUPS then start == 0
    else
      var top := groups[|groups| - KEEP_GROUPS].at;
      && start <= top
      && IsBoundary(groups, start)
      && forall c :: start < c <= top ==> !IsBoundary(groups, c)
  }

  lemma BoundaryIsGreatest(msgs: seq<Message>)
    ensures IsProtectedStart(Groups(msgs), Boundary(msgs)) && IsBoundary(Groups(msgs), Boundary(msgs))
  {
  }

  /** A boundary other than 0 is the start of a call group. */
  lemma BoundaryStartsGroup(msgs: seq<Message>)
    ensures Boundary(msgs) == 0 || (Boundary(msgs) < |msgs| && IsCallGroup(msgs[Boundary(msgs)]))
  {
    var groups := Groups(msgs);
    ScanCollects(msgs, |msgs|);
    if |groups| >= KEEP_GROUPS {
      var top := groups[|groups| - KEEP_GROUPS].at;
      assert GroupOk(groups[|groups| - KEEP_GROUPS], msgs, |msgs|);
      GreatestIsGroup(groups, top, |groups| - KEEP_GROUPS);
      var b := GreatestBoundary(groups, top);
      if b != 0 {
        var k :| 0 <= k < |groups| && groups[k].at == b;
        assert GroupOk(groups[k], msgs, |msgs|);
      }
    }
  }

  lemma GreatestIsGroup(groups: seq<Group>, top: nat, t: nat)
    requires t < |groups| && groups[t].at == top
    ensures var b := GreatestBoundary(groups, top); b == 0 || exists k :: 0 <= k < |groups| && groups[k].at == b
  {
    var b := GreatestBoundary(groups, top);
    if b != 0 && b != top && forall k :: 0 <= k < |groups| ==> groups[k].at != b {
      assert IsBoundary(groups, b + 1);
    }
  }

  // ---------------------------------------------------------------- the loops of the source

  lemma RegisterNext(c: Collected, calls: seq<Call>, j: nat, g: nat)
    requires j < |calls|
    ensures var before := Register(c, calls[..j], g);
            Register(c, calls[..j + 1], g)
            == before.(groupOf := before.groupOf[calls[j].id := g], seen := before.seen[calls[j].id := false])
    ensures Register(c, calls[..0], g) == c && Register(c, calls[..j], g).groups == c.groups
  {
    RegisterKeeps(c, calls[..j], g);
    assert calls[..j + 1][..j] == calls[..j];
  }

  /** A result is recorded exactly when its call is known and has none yet. */
  lemma RecordIs(c: Collected, msgs: seq<Message>, i: nat)
    requires i < |msgs| && Mapped(c, msgs)
    ensures var id := msgs[i].callId;
            if msgs[i].role == Tool && id in c.groupOf && !(id in c.seen && c.seen[id]) then
              && id in c.seen && c.groupOf[id] < |c.groups| && c.groups[c.groupOf[id]].at < |msgs|
              && var g := c.groups[c.groupOf[id]];
                 Record(c, msgs, i)
                 == c.(groups := c.groups[c.groupOf[id] := Group(g.at, g.results + [i], |g.results| + 1 == |msgs[g.at].calls|)],
                       seen := c.seen[id := true])
            else Record(c, msgs, i) == c && (id in c.groupOf ==> id in c.seen)
  {
    hide Names;
  }

  lemma OpenedIsMapped(msgs: seq<Message>, i: nat)
    requires i < |msgs|
    ensures var c := OpenGroup(Scan(msgs, i), msgs, i); Mapped(c, msgs) && Scan(msgs, i + 1) == Record(c, msgs, i)
  {
    ScanCollects(msgs, i);
    if IsCallGroup(msgs[i]) { OpenKeeps(Scan(msgs, i), msgs, i); } else { SkipKeeps(Scan(msgs, i), msgs, i); }
  }

  method CollectToolCallGroups(msgs: seq<Message>) returns (groups: seq<Group>)
    ensures groups == Groups(msgs)
  {
    hide Register, Record, Mapped;
    groups := [];
    var groupOf: map<string, nat>, seen: map<string, bool> := map[], map[];
    var i := 0;
    while i < |msgs|
      invariant 0 <= i <= |msgs|
      invariant Collected(groups, groupOf, seen) == Scan(msgs, i)
    {
      OpenedIsMapped(msgs, i);
      hide Scan;
      if IsCallGroup(msgs[i]) {
        var g := |groups|;
        groups := groups + [Group(i, [], false)];
        ghost var c0 := Collected(groups, groupOf, seen);
        RegisterNext(c0, msgs[i].calls, 0, g);
        var j := 0;
        while j < |msgs[i].calls|
          invariant 0 <= j <= |msgs[i].calls|
          invariant Collected(groups, groupOf, seen) == Register(c0, msgs[i].calls[..j], g)
        {
          RegisterNext(c0, msgs[i].calls, j, g);
          groupOf := groupOf[msgs[i].calls[j].id := g];
          seen := seen[msgs[i].calls[j].id := false];
          j := j + 1;
        }
        assert msgs[i].calls[..j] == msgs[i].calls;
      }
      ghost var c := Collected(groups, groupOf, seen);
      assert c == OpenGroup(Scan(msgs, i), msgs, i);
      RecordIs(c, msgs, i);
      if msgs[i].role == Tool && msgs[i].callId in groupOf && !seen[msgs[i].callId] {
        var k := groupOf[msgs[i].callId];
        var results := groups[k].results + [i];
        groups := groups[k := Group(groups[k].at, results, |results| == |msgs[groups[k].at].calls|)];
        seen := seen[msgs[i].callId := true];
      }
      i := i + 1;
    }
  }

  /** ProtectedStart: the third most recent group's start, moved back until no earlier group is incomplete
      or reaches across; with fewer than three groups, 0. */
  method ProtectedStart(msgs: seq<Message>) returns (start: nat)
    ensures start == Boundary(msgs) && IsProtectedStart(Groups(msgs), start)
  {
    var groups := CollectToolCallGroups(msgs);
    hide Groups;
    if |groups| < KEEP_GROUPS { return 0; }
    var top := groups[|groups| - KEEP_GROUPS].at;
    start := top;
    var changed := true;
    while changed
      invariant GreatestBoundary(groups, top) <= start <= top
      invariant !changed ==> IsBoundary(groups, start)
      decreases start, changed
    {
      changed := false;
      ghost var before := start;
      var k := 0;
      while k < |groups|
        invariant 0 <= k <= |groups|
        invariant GreatestBoundary(groups, top) <= start <= before
        invariant changed ==> start < before
        invariant !changed ==> start == before
        invariant !changed ==> forall l :: 0 <= l < k && groups[l].at < start ==>
                    groups[l].complete && forall j :: 0 <= j < |groups[l].results| ==> groups[l].results[j] < start
      {
        if groups[k].at < start {
          var crossing := !groups[k].complete;
          var j := 0;
          while j < |groups[k].results|
            invariant 0 <= j <= |groups[k].results|
            invariant crossing <==> !groups[k].complete || exists l :: 0 <= l < j && groups[k].results[l] >= start
          {
            if groups[k].results[j] >= start { crossing := true; }
            j := j + 1;
          }
          if crossing {
            start := groups[k].at;
            changed := true;
          }
        }
        k := k + 1;
      }
    }
  }
}
