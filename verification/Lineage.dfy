/** Which sequence numbers each message of a working set stands for. */
module Lineage {
  import opened Messages

  /** All the numbers the messages stand for, in order. */
  function Flat(msgs: seq<Message>): seq<nat> {
    if |msgs| == 0 then [] else Flat(msgs[..|msgs| - 1]) + msgs[|msgs| - 1].original
  }

  ghost predicate Increasing(s: seq<nat>) {
    forall i, j :: 0 <= i < j < |s| ==> s[i] < s[j]
  }

  ghost predicate OwnFirst(msgs: seq<Message>) {
    forall i :: 0 <= i < |msgs| ==> |msgs[i].original| > 0 && msgs[i].original[0] == msgs[i].number
  }

  /** The lists of `msgs` split `log` into consecutive parts, each headed by its message's own number. */
  ghost predicate Partition(msgs: seq<Message>, log: seq<nat>) {
    Flat(msgs) == log && Increasing(log) && OwnFirst(msgs) && forall k :: 0 <= k < |log| ==> log[k] > 0
  }

  /** `x` is one of the numbers that message stands for. */
  predicate StandsFor(msgs: seq<Message>, i: nat, x: nat) {
    i < |msgs| && x in msgs[i].original
  }

  ghost predicate Covered(msgs: seq<Message>, x: nat) {
    exists i: nat :: StandsFor(msgs, i, x)
  }

  lemma {:induction false} FlatConcat(a: seq<Message>, b: seq<Message>)
    ensures Flat(a + b) == Flat(a) + Flat(b)
  {
    if |b| > 0 {
      var n := |b| - 1;
      FlatConcat(a, b[..n]);
      assert (a + b)[..|a + b| - 1] == a + b[..n];
      assert Flat(a + b) == Flat(a + b[..n]) + b[n].original;
    } else {
      assert a + b == a;
    }
  }

  lemma FlatSplit(msgs: seq<Message>, i: nat)
    requires i <= |msgs|
    ensures Flat(msgs) == Flat(msgs[..i]) + Flat(msgs[i..])
  {
    hide Flat;
    FlatConcat(msgs[..i], msgs[i..]);
    assert msgs[..i] + msgs[i..] == msgs;
  }

  lemma FlatUpTo(msgs: seq<Message>, i: nat)
    requires i < |msgs|
    ensures Flat(msgs[..i + 1]) == Flat(msgs[..i]) + msgs[i].original
  {
    assert msgs[..i + 1][..i] == msgs[..i];
  }

  lemma FlatAround(msgs: seq<Message>, i: nat)
    requires i < |msgs|
    ensures Flat(msgs) == Flat(msgs[..i]) + msgs[i].original + Flat(msgs[i + 1..])
  {
    FlatSplit(msgs, i + 1);
    FlatUpTo(msgs, i);
  }

  lemma FlatOfOne(m: Message)
    ensures Flat([m]) == m.original
  {
    assert Flat([m][..0]) == [];
  }

  lemma {:induction false} FlatCovers(msgs: seq<Message>, x: nat)
    ensures x in Flat(msgs) <==> Covered(msgs, x)
  {
    if |msgs| > 0 {
      var n := |msgs| - 1;
      FlatCovers(msgs[..n], x);
      if Covered(msgs[..n], x) {
        var i: nat :| StandsFor(msgs[..n], i, x);
        assert StandsFor(msgs, i, x);
      }
      if x in msgs[n].original { assert StandsFor(msgs, n, x); }
      if Covered(msgs, x) {
        var i: nat :| StandsFor(msgs, i, x);
        assert i == n || StandsFor(msgs[..n], i, x);
      }
    }
  }

  lemma {:induction false} FlatOfSameOriginals(a: seq<Message>, b: seq<Message>)
    requires |a| == |b| && forall i :: 0 <= i < |a| ==> a[i].original == b[i].original
    ensures Flat(a) == Flat(b)
  {
    if |a| > 0 { FlatOfSameOriginals(a[..|a| - 1], b[..|b| - 1]); }
  }

  lemma PartitionGrows(msgs: seq<Message>, log: seq<nat>, m: Message)
    requires Partition(msgs, log) && m.original == [m.number] && m.number > 0
    requires forall k :: 0 <= k < |log| ==> log[k] < m.number
    ensures Partition(msgs + [m], log + [m.number])
  {
    FlatConcat(msgs, [m]);
    FlatOfOne(m);
    hide Flat;
  }

  /** In a partition each list lies between its own number and the next message's number, and the numbers rise. */
  lemma ListsLieBetweenNumbers(msgs: seq<Message>, log: seq<nat>, i: nat)
    requires Partition(msgs, log) && i < |msgs|
    ensures Increasing(msgs[i].original)
    ensures forall x :: x in msgs[i].original ==>
              0 < msgs[i].number <= x && (i + 1 < |msgs| ==> x < msgs[i + 1].number)
    ensures i + 1 < |msgs| ==> msgs[i].number < msgs[i + 1].number
  {
    hide Flat;
    FlatAround(msgs, i);
    var before, list, after := Flat(msgs[..i]), msgs[i].original, Flat(msgs[i + 1..]);
    assert forall k :: 0 <= k < |list| ==> list[k] == log[|before| + k];
    if i + 1 < |msgs| {
      FlatAround(msgs[i + 1..], 0);
      assert msgs[i + 1..][..0] == [];
      FlatOfNothing();
      assert after[0] == msgs[i + 1].number;
      assert log[|before| + |list|] == after[0];
    }
  }

  lemma FlatOfNothing()
    ensures Flat([]) == []
  {
  }

  /** Every number of the log belongs to exactly one message. */
  lemma OneHome(msgs: seq<Message>, log: seq<nat>, x: nat)
    requires Partition(msgs, log) && x in log
    ensures exists i: nat :: StandsFor(msgs, i, x) && forall j: nat :: StandsFor(msgs, j, x) ==> j == i
  {
    FlatCovers(msgs, x);
    var i: nat :| StandsFor(msgs, i, x);
    forall j: nat | StandsFor(msgs, j, x) ensures j == i {
      if i < j { Apart(msgs, log, i, j, x); } else if j < i { Apart(msgs, log, j, i, x); }
    }
  }

  lemma Apart(msgs: seq<Message>, log: seq<nat>, i: nat, j: nat, x: nat)
    requires Partition(msgs, log) && i < j < |msgs| && StandsFor(msgs, i, x)
    ensures !StandsFor(msgs, j, x)
  {
    hide Partition;
    ListsLieBetweenNumbers(msgs, log, i);
    ListsLieBetweenNumbers(msgs, log, j);
    NumbersRise(msgs, log, i + 1, j);
  }

  lemma {:induction false} NumbersRise(msgs: seq<Message>, log: seq<nat>, i: nat, j: nat)
    requires Partition(msgs, log) && i <= j < |msgs|
    ensures msgs[i].number <= msgs[j].number && (i < j ==> msgs[i].number < msgs[j].number)
    decreases j
  {
    if i < j {
      NumbersRise(msgs, log, i, j - 1);
      ListsLieBetweenNumbers(msgs, log, j - 1);
    }
  }

  /** An increasing list is determined by its members. */
  lemma {:induction false} IncreasingUnique(a: seq<nat>, b: seq<nat>)
    requires Increasing(a) && Increasing(b) && forall x :: x in a <==> x in b
    ensures a == b
  {
    assert |b| > 0 ==> b[0] in b;
    if |a| > 0 {
      assert a[0] in b && |b| > 0;
      assert b[0] in a;
      assert a[0] == b[0];
      forall x ensures x in a[1..] <==> x in b[1..] {
        assert x in a[1..] ==> x in a && x != a[0];
        assert x in b[1..] ==> x in b && x != b[0];
        assert x in a && x != a[0] ==> x in a[1..];
        assert x in b && x != b[0] ==> x in b[1..];
      }
      IncreasingUnique(a[1..], b[1..]);
      assert a == [a[0]] + a[1..] && b == [b[0]] + b[1..];
    }
  }
}
