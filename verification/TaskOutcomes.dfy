/** Where the events of a task's log and its final status come from. */
module TaskOutcomes {
  import opened Words
  import opened Tasks
  import opened TaskEvents

  // ---------------------------------------------------------------- the log

  /** A task's publisher that has not failed sends this event, and the log takes it. */
  ghost predicate Takes(w: World, a: Action, id: string, e: Event) {
    && id in w.publishers && !w.publishers[id].failed && id in w.logged && e.id == |w.logged[id]| + 1
    && exists report: Report :: a == Send(id, e.message, e.kind, e.data, report) && !report.NotRun?
  }

  /** A log grows by exactly the event that was sent, under the next id, and no other step touches it. */
  lemma StepLogs(projects: Projects, w: World, a: Action, id: string)
    requires Reachable(projects, w) && id in w.logged && id in w.table
    ensures var w' := Step(projects, w, a);
            && id in w'.logged && id in w'.table
            && (forall e :: Takes(w, a, id, e) ==> w'.logged[id] == w.logged[id] + [e])
            && ((forall e :: !Takes(w, a, id, e)) ==> w'.logged[id] == w.logged[id])
  {
    ReachableInv(projects, w);
    assert TaskOk(projects, w, id) && (id in w.publishers ==> PublisherOk(w, id));
    hide Reachable, Inv, TaskOk, Latest, Complete, Live, FinishedBy, Received, MayCreate, Numbered;
    if a.Send? && a.id == id && id in w.publishers && !w.publishers[id].failed && !a.report.NotRun? {
      var e := Event(|w.logged[id]| + 1, a.message, a.kind, a.data);
      assert Takes(w, a, id, e);
      assert w.publishers[id].lastID == |w.logged[id]|;
    }
    OtherLogsStay(projects, w, a, id);
  }

  lemma OtherLogsStay(projects: Projects, w: World, a: Action, id: string)
    requires id in w.logged && id in w.table
    ensures var w' := Step(projects, w, a);
            id in w'.logged && id in w'.table && (!(a.Send? && a.id == id) ==> w'.logged[id] == w.logged[id])
  {
    hide Latest, Complete, Live, Received;
  }

  /** Action `j` of the run put `e` into the task's log. */
  ghost predicate PutAt(projects: Projects, actions: seq<Action>, j: nat, id: string, e: Event) {
    j < |actions| && Takes(Run(projects, actions[..j]), actions[j], id, e)
  }

  ghost predicate WasPut(projects: Projects, actions: seq<Action>, id: string, e: Event) {
    exists j: nat :: PutAt(projects, actions, j, id, e)
  }

  /** In every run a task's log holds only what its publisher sent, each event under the place it has. */
  lemma {:induction false} LogIsWhatWasSent(projects: Projects, actions: seq<Action>, id: string)
    requires id in Run(projects, actions).table
    ensures var w := Run(projects, actions);
            && id in w.logged
            && forall i :: 0 <= i < |w.logged[id]| ==> w.logged[id][i].id == i + 1 && WasPut(projects, actions, id, w.logged[id][i])
  {
    var w := Run(projects, actions);
    RunReaches(projects, actions);
    LogNumbered(projects, w, id);
    if |actions| > 0 {
      var n := |actions| - 1;
      var was := Run(projects, actions[..n]);
      RunReaches(projects, actions[..n]);
      hide Run, Step, Reachable, Takes, WasPut, PutAt;
      RunStep(projects, actions);
      if id in was.table {
        LogIsWhatWasSent(projects, actions[..n], id);
        StepLogs(projects, was, actions[n], id);
        forall i | 0 <= i < |w.logged[id]| ensures WasPut(projects, actions, id, w.logged[id][i]) {
          if i < |was.logged[id]| {
            PutBefore(projects, actions, n, id, was.logged[id][i]);
            LogGrew(projects, was, actions[n], id, i);
          } else {
            PutLast(projects, actions, id, i);
          }
        }
      } else {
        NewLogIsEmpty(projects, was, actions[n], id);
      }
    }
  }

  lemma RunReaches(projects: Projects, actions: seq<Action>)
    ensures Reachable(projects, Run(projects, actions))
  {
  }

  lemma RunStep(projects: Projects, actions: seq<Action>)
    requires |actions| > 0
    ensures Run(projects, actions) == Step(projects, Run(projects, actions[..|actions| - 1]), actions[|actions| - 1])
  {
    hide Step;
  }

  lemma LogNumbered(projects: Projects, w: World, id: string)
    requires Reachable(projects, w) && id in w.table
    ensures id in w.logged && forall i :: 0 <= i < |w.logged[id]| ==> w.logged[id][i].id == i + 1
  {
    ReachableInv(projects, w);
    assert TaskOk(projects, w, id);
  }

  lemma LogGrew(projects: Projects, w: World, a: Action, id: string, i: nat)
    requires Reachable(projects, w) && id in w.logged && id in w.table && i < |w.logged[id]|
    ensures var w' := Step(projects, w, a); id in w'.logged && i < |w'.logged[id]| && w'.logged[id][i] == w.logged[id][i]
  {
    hide Step, Reachable, Takes;
    StepLogs(projects, w, a, id);
    if e :| Takes(w, a, id, e) { assert Step(projects, w, a).logged[id] == w.logged[id] + [e]; }
  }

  lemma PutBefore(projects: Projects, actions: seq<Action>, n: nat, id: string, e: Event)
    requires n <= |actions| && WasPut(projects, actions[..n], id, e)
    ensures WasPut(projects, actions, id, e)
  {
    hide Run, Takes;
    var j: nat :| PutAt(projects, actions[..n], j, id, e);
    assert actions[..n][..j] == actions[..j];
    assert PutAt(projects, actions, j, id, e);
  }

  lemma PutLast(projects: Projects, actions: seq<Action>, id: string, i: nat)
    requires |actions| > 0
    requires var was := Run(projects, actions[..|actions| - 1]);
             && Reachable(projects, was) && id in was.table && id in was.logged && i >= |was.logged[id]|
             && var w := Step(projects, was, actions[|actions| - 1]); id in w.logged && i < |w.logged[id]|
    ensures WasPut(projects, actions, id, Step(projects, Run(projects, actions[..|actions| - 1]), actions[|actions| - 1]).logged[id][i])
  {
    hide Run, Step, Reachable, Takes;
    var n := |actions| - 1;
    var was := Run(projects, actions[..n]);
    StepLogs(projects, was, actions[n], id);
    var e :| Takes(was, actions[n], id, e);
    assert Step(projects, was, actions[n]).logged[id] == was.logged[id] + [e];
    assert PutAt(projects, actions, n, id, e);
  }

  lemma NewLogIsEmpty(projects: Projects, w: World, a: Action, id: string)
    requires id !in w.table && id in Step(projects, w, a).table
    ensures var w' := Step(projects, w, a);
            id in w'.logged && w'.logged[id] == [] && w'.table[id].status == Waiting && a.Create? && a.id == id
            && w'.table[id].session == a.session
  {
    hide Latest, Complete, Live, Received;
  }

  // ---------------------------------------------------------------- the outcome

  /** A task ends only with the status its publisher gave, after every event whose publication was confirmed, or as failed
      by a restart, after every event of its log. */
  lemma StepFinishes(projects: Projects, w: World, a: Action, id: string)
    requires Reachable(projects, w) && id in w.table && Active(w.table[id].status)
    requires id in Step(projects, w, a).table && !Active(Step(projects, w, a).table[id].status)
    ensures id in w.confirmed && id in w.logged
    ensures var row, row' := w.table[id], Step(projects, w, a).table[id];
            && row'.session == row.session && row'.project == row.project && row'.order == row.order
            && (((exists report: Report :: a == Finish(id, row'.status, report) && !report.NotRun?) && row'.final == w.confirmed[id])
                || (a == Recover(id) && id !in w.publishers && row'.status == Fail && row'.final == |w.logged[id]|))
  {
    ReachableInv(projects, w);
    assert TaskOk(projects, w, id) && (id in w.publishers ==> PublisherOk(w, id));
    hide Reachable, Inv, TaskOk, PublisherOk, Numbered, Step;
    if a.Finish? {
      FinishGives(projects, w, a.id, a.status, a.report);
    } else if a.Recover? {
      RecoverGives(projects, w, a.id);
    } else {
      OtherStepsDoNotFinish(projects, w, a, id);
    }
  }

  lemma OtherStepsDoNotFinish(projects: Projects, w: World, a: Action, id: string)
    requires id in w.table && Active(w.table[id].status) && !a.Finish? && !a.Recover?
    ensures var w' := Step(projects, w, a); id in w'.table && Active(w'.table[id].status)
  {
    hide Latest, Complete, Live, Received, HasActive, FinishedBy;
  }

  lemma FinishGives(projects: Projects, w: World, id: string, status: Status, report: Report)
    ensures var w' := Step(projects, w, Finish(id, status, report));
            if id in w.publishers && !report.NotRun? && id in w.table && Active(w.table[id].status) && !Active(status)
            then w'.table == w.table[id := w.table[id].(status := status, final := w.publishers[id].lastID)]
            else w'.table == w.table
  {
  }

  lemma RecoverGives(projects: Projects, w: World, id: string)
    ensures var w' := Step(projects, w, Recover(id));
            if id !in w.publishers && id in w.stored && id in w.table && Active(w.table[id].status)
            then w'.table == w.table[id := w.table[id].(status := Fail, final := |w.stored[id]|)]
            else w'.table == w.table
  {
  }

  /** And it ends so whenever its publisher says so, heard or not. */
  lemma FinishEnds(projects: Projects, w: World, id: string, status: Status, report: Report)
    requires Reachable(projects, w) && id in w.publishers && !Active(status) && !report.NotRun?
    ensures var w' := Step(projects, w, Finish(id, status, report));
            id in w.table && Active(w.table[id].status) && id in w'.table && w'.table[id].status == status && id !in w'.publishers
  {
    ReachableInv(projects, w);
    assert PublisherOk(w, id);
    hide Reachable, Inv, PublisherOk;
  }
}
