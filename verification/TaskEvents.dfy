/** Tasks, their event log, publishers and subscribers of cmd/run_sse/tasks.go. */
module TaskEvents {
  import opened Words
  import opened Tasks

  datatype Event = Event(id: nat, message: nat, kind: string, data: string)

  /** lastID counts the publications that were confirmed; after a failure the publisher sends no more. */
  datatype Publisher = Publisher(lastID: nat, failed: bool)

  datatype Ending = Open | TaskState | RefreshRequired | Gone

  /** A subscriber has its own copy of the task row, as it last polled it. */
  datatype Subscriber = Subscriber(task: string, delivered: seq<Event>, seen: Task, ending: Ending)

  /** `logged` is everything a task's log ever took, `stored` what a purge has left of it, `confirmed` how many
      publications were confirmed. */
  datatype World = World(
    table: Table, next: nat, logged: map<string, seq<Event>>, stored: map<string, seq<Event>>,
    confirmed: map<string, nat>, publishers: map<string, Publisher>, subscribers: map<nat, Subscriber>)

  /** Whether a statement or publication ran, and whether its caller heard so. */
  datatype Report = Heard | Lost | NotRun

  datatype Action =
    | Create(id: string, session: string, report: Report)
    | Start(id: string)
    | Send(id: string, message: nat, kind: string, data: string, report: Report)
    | Finish(id: string, status: Status, report: Report)
    | Crash
    | Recover(id: string)
    | Purge(id: string)
    | Subscribe(sub: nat, id: string)
    | Poll(sub: nat)
    | Next(sub: nat, event: Event)
    | End(sub: nat)
    | Disconnect(sub: nat)

  /** A session belongs to one project for good. */
  type Projects = string -> string

  // ---------------------------------------------------------------- publisher and subscriber as functions

  /** taskPublisher.send. */
  function Sent(p: Publisher, report: Report): Publisher {
    if p.failed then p
    else if report.Heard? then p.(lastID := p.lastID + 1)
    else p.(failed := true)
  }

  /** One event out of the subscription: old ones are skipped, a gap ends the stream. */
  function Received(s: Subscriber, e: Event): Subscriber {
    if e.id <= |s.delivered| then s
    else if e.id != |s.delivered| + 1 then s.(ending := RefreshRequired)
    else s.(delivered := s.delivered + [e])
  }

  predicate Complete(s: Subscriber) {
    !Active(s.seen.status) && |s.delivered| >= s.seen.final
  }

  /** The latest task of a session. */
  predicate Latest(t: Table, id: string) {
    id in t && forall other :: other in t && t[other].session == t[id].session ==> t[other].order <= t[id].order
  }

  // ---------------------------------------------------------------- steps

  function Appended(w: World, id: string, e: Event): World
    requires id in w.logged && id in w.stored
  {
    w.(logged := w.logged[id := w.logged[id] + [e]], stored := w.stored[id := w.stored[id] + [e]])
  }

  function FinishedBy(w: World, id: string, status: Status, final: nat, report: Report): World {
    if !report.NotRun? && MayFinish(w.table, id, status) then w.(table := Finished(w.table, id, status, final)) else w
  }

  function Step(projects: Projects, w: World, a: Action): World {
    match a
    case Create(id, session, report) =>
      if report.NotRun? || !MayCreate(w.table, id, projects(session)) then w
      else
        w.(table := Tasks.Created(w.table, id, session, projects(session), w.next), next := w.next + 1,
           logged := w.logged[id := []], stored := w.stored[id := []], confirmed := w.confirmed[id := 0],
           publishers := if report.Heard? then w.publishers[id := Publisher(0, false)] else w.publishers)
    case Start(id) => if id in w.publishers && MayStart(w.table, id) then w.(table := Started(w.table, id)) else w
    case Send(id, message, kind, data, report) =>
      if id !in w.publishers || w.publishers[id].failed || id !in w.logged || id !in w.stored || id !in w.confirmed then w
      else
        var p := w.publishers[id];
        var taken := if report.NotRun? then w else Appended(w, id, Event(p.lastID + 1, message, kind, data));
        taken.(publishers := w.publishers[id := Sent(p, report)],
               confirmed := if report.Heard? then w.confirmed[id := w.confirmed[id] + 1] else w.confirmed)
    case Finish(id, status, report) =>
      if id !in w.publishers then w
      else FinishedBy(w, id, status, w.publishers[id].lastID, report).(publishers := w.publishers - {id})
    case Crash => w.(publishers := map[])
    case Recover(id) =>
      if id in w.publishers || id !in w.stored then w else FinishedBy(w, id, Fail, |w.stored[id]|, Heard)
    case Purge(id) =>
      if id in w.table && id in w.stored && !Latest(w.table, id) then w.(stored := w.stored[id := []]) else w
    case Subscribe(sub, id) =>
      if id in w.table && Latest(w.table, id) && sub !in w.subscribers
      then w.(subscribers := w.subscribers[sub := Subscriber(id, [], w.table[id], Open)]) else w
    case Poll(sub) =>
      if !Live(w, sub) then w
      else if Latest(w.table, w.subscribers[sub].task)
        then w.(subscribers := w.subscribers[sub := w.subscribers[sub].(seen := w.table[w.subscribers[sub].task])])
      else w.(subscribers := w.subscribers[sub := w.subscribers[sub].(ending := RefreshRequired)])
    case Next(sub, e) =>
      if Live(w, sub) && w.subscribers[sub].task in w.stored && e in w.stored[w.subscribers[sub].task]
      then w.(subscribers := w.subscribers[sub := Received(w.subscribers[sub], e)]) else w
    case End(sub) =>
      if Live(w, sub) && Complete(w.subscribers[sub])
      then w.(subscribers := w.subscribers[sub := w.subscribers[sub].(ending := TaskState)]) else w
    case Disconnect(sub) =>
      if Live(w, sub) then w.(subscribers := w.subscribers[sub := w.subscribers[sub].(ending := Gone)]) else w
  }

  predicate Live(w: World, sub: nat) {
    sub in w.subscribers && w.subscribers[sub].ending.Open?
  }

  const EMPTY: World := World(map[], 1, map[], map[], map[], map[], map[])

  function Run(projects: Projects, actions: seq<Action>): World {
    if |actions| == 0 then EMPTY else Step(projects, Run(projects, actions[..|actions| - 1]), actions[|actions| - 1])
  }

  ghost predicate Reachable(projects: Projects, w: World) {
    exists actions :: Run(projects, actions) == w
  }

  // ---------------------------------------------------------------- the invariant

  ghost predicate Numbered(log: seq<Event>) {
    forall i :: 0 <= i < |log| ==> log[i].id == i + 1
  }

  ghost predicate TaskOk(projects: Projects, w: World, id: string)
    requires id in w.table
  {
    && id in w.logged && id in w.stored && id in w.confirmed
    && w.table[id].project == projects(w.table[id].session)
    && Numbered(w.logged[id]) && w.confirmed[id] <= |w.logged[id]|
    && (w.stored[id] == w.logged[id] || (w.stored[id] == [] && !Active(w.table[id].status)))
    && (!Active(w.table[id].status) ==> w.confirmed[id] <= w.table[id].final <= |w.logged[id]|)
  }

  /** The publisher's count is what was confirmed; only a failed one may be one event behind the log. */
  ghost predicate PublisherOk(w: World, id: string)
    requires id in w.publishers
  {
    && id in w.table && id in w.logged && id in w.confirmed && Active(w.table[id].status)
    && w.publishers[id].lastID == w.confirmed[id]
    && (!w.publishers[id].failed ==> |w.logged[id]| == w.confirmed[id])
  }

  ghost predicate SubscriberOk(w: World, s: Subscriber) {
    && s.task in w.table && s.task in w.logged
    && s.delivered <= w.logged[s.task]
    && (!Active(s.seen.status) ==> s.seen == w.table[s.task])
    && (s.ending.TaskState? ==> Complete(s))
  }

  ghost predicate Inv(projects: Projects, w: World) {
    && Exclusive(w.table, w.next)
    && (forall id :: id in w.table ==> TaskOk(projects, w, id))
    && (forall id :: id in w.publishers ==> PublisherOk(w, id))
    && (forall sub :: sub in w.subscribers ==> SubscriberOk(w, w.subscribers[sub]))
  }

  // ---------------------------------------------------------------- every step keeps the invariant

  lemma TaskStays(projects: Projects, w: World, w': World, id: string)
    requires id in w.table && id in w'.table && TaskOk(projects, w, id) && w'.table[id] == w.table[id]
    requires id in w'.logged && id in w'.stored && id in w'.confirmed
    requires w'.logged[id] == w.logged[id] && w'.stored[id] == w.stored[id] && w'.confirmed[id] == w.confirmed[id]
    ensures TaskOk(projects, w', id)
  {
  }

  lemma PublisherStays(w: World, w': World, id: string)
    requires id in w.publishers && id in w'.publishers && PublisherOk(w, id) && w'.publishers[id] == w.publishers[id]
    requires id in w'.table && id in w'.logged && id in w'.confirmed && Active(w'.table[id].status)
    requires w'.logged[id] == w.logged[id] && w'.confirmed[id] == w.confirmed[id]
    ensures PublisherOk(w', id)
  {
  }

  /** A subscriber is not disturbed by a longer log, nor by changes to an active task. */
  lemma SubscriberStays(w: World, w': World, s: Subscriber)
    requires SubscriberOk(w, s) && s.task in w'.table && s.task in w'.logged && w.logged[s.task] <= w'.logged[s.task]
    requires Active(w.table[s.task].status) || w'.table[s.task] == w.table[s.task]
    ensures SubscriberOk(w', s)
  {
  }

  lemma CreateKeeps(projects: Projects, w: World, id: string, session: string, report: Report)
    requires Inv(projects, w)
    ensures Inv(projects, Step(projects, w, Create(id, session, report)))
  {
    if !report.NotRun? && MayCreate(w.table, id, projects(session)) {
      var w' := Step(projects, w, Create(id, session, report));
      Tasks.CreateKeeps(w.table, w.next, id, session, projects(session));
      NewTaskOk(projects, w', id);
      hide Inv, Exclusive, HasActive, TaskOk, PublisherOk;
      assert OneMoreTask(w, w', id);
      TaskAdded(projects, w, w', id);
    }
  }

  /** Only a task that was not there is new. */
  ghost predicate OneMoreTask(w: World, w': World, id: string) {
    && id !in w.table && w'.table.Keys == w.table.Keys + {id} && w'.subscribers == w.subscribers
    && w'.publishers.Keys <= w.publishers.Keys + {id}
    && w.logged.Keys <= w'.logged.Keys && w.stored.Keys <= w'.stored.Keys && w.confirmed.Keys <= w'.confirmed.Keys
    && forall k :: k != id ==>
         && (k in w.table ==> w'.table[k] == w.table[k]) && (k in w'.publishers ==> w'.publishers[k] == w.publishers[k])
         && (k in w.logged ==> w'.logged[k] == w.logged[k]) && (k in w.stored ==> w'.stored[k] == w.stored[k])
         && (k in w.confirmed ==> w'.confirmed[k] == w.confirmed[k])
  }

  lemma TaskAdded(projects: Projects, w: World, w': World, id: string)
    requires Inv(projects, w) && OneMoreTask(w, w', id) && Exclusive(w'.table, w'.next) && TaskOk(projects, w', id)
    requires id in w'.publishers && id !in w.publishers ==> PublisherOk(w', id)
    ensures Inv(projects, w')
  {
    hide Exclusive, TaskOk, PublisherOk, SubscriberOk, Active;
    forall k | k in w'.table && k != id ensures TaskOk(projects, w', k) {
      TaskIsLogged(projects, w, k);
      TaskStays(projects, w, w', k);
    }
    forall k | k in w'.publishers && k in w.publishers ensures PublisherOk(w', k) {
      PublisherIsActive(w, k);
      PublisherStays(w, w', k);
    }
    forall sub | sub in w'.subscribers ensures SubscriberOk(w', w'.subscribers[sub]) {
      SubscriberIsLogged(w, w.subscribers[sub]);
      SubscriberStays(w, w', w.subscribers[sub]);
    }
  }

  lemma NewTaskOk(projects: Projects, w: World, id: string)
    requires id in w.table && id in w.logged && id in w.stored && id in w.confirmed
    requires w.table[id].project == projects(w.table[id].session) && w.table[id].status == Waiting
    requires w.logged[id] == [] && w.stored[id] == [] && w.confirmed[id] == 0
    ensures TaskOk(projects, w, id)
    ensures id in w.publishers && w.publishers[id] == Publisher(0, false) ==> PublisherOk(w, id)
  {
  }

  lemma TaskIsLogged(projects: Projects, w: World, id: string)
    requires id in w.table && TaskOk(projects, w, id)
    ensures id in w.logged && id in w.stored && id in w.confirmed
  {
  }

  lemma PublisherIsActive(w: World, id: string)
    requires id in w.publishers && PublisherOk(w, id)
    ensures id in w.table && id in w.logged && id in w.confirmed && Active(w.table[id].status)
  {
  }

  lemma SubscriberIsLogged(w: World, s: Subscriber)
    requires SubscriberOk(w, s)
    ensures s.task in w.table && s.task in w.logged
  {
  }

  /** Only the row of an active task changes. */
  lemma RowChanges(projects: Projects, w: World, id: string, row: Task)
    requires Inv(projects, w) && id in w.table && Active(w.table[id].status)
    requires row.session == w.table[id].session && row.project == w.table[id].project
    requires id in w.publishers ==> Active(row.status)
    requires !Active(row.status) && id in w.confirmed && id in w.logged ==> w.confirmed[id] <= row.final <= |w.logged[id]|
    requires Exclusive(w.table[id := row], w.next)
    ensures Inv(projects, w.(table := w.table[id := row]))
  {
    var w' := w.(table := w.table[id := row]);
    assert TaskOk(projects, w, id) && TaskOk(projects, w', id);
    hide Exclusive, TaskOk, SubscriberOk, PublisherOk;
    forall k | k in w'.table ensures TaskOk(projects, w', k) {
      if k != id {
        TaskIsLogged(projects, w, k);
        TaskStays(projects, w, w', k);
      }
    }
    forall k | k in w'.publishers ensures PublisherOk(w', k) {
      PublisherIsActive(w, k);
      PublisherStays(w, w', k);
    }
    forall sub | sub in w'.subscribers ensures SubscriberOk(w', w'.subscribers[sub]) {
      SubscriberIsLogged(w, w.subscribers[sub]);
      SubscriberStays(w, w', w.subscribers[sub]);
    }
  }

  lemma StartKeeps(projects: Projects, w: World, id: string)
    requires Inv(projects, w)
    ensures Inv(projects, Step(projects, w, Start(id)))
  {
    if id in w.publishers && MayStart(w.table, id) {
      Tasks.StartKeeps(w.table, w.next, id);
      hide Exclusive, TaskOk, PublisherOk, SubscriberOk;
      RowChanges(projects, w, id, w.table[id].(status := Running));
    }
  }

  lemma FinishedKeeps(projects: Projects, w: World, id: string, status: Status, final: nat, report: Report)
    requires Inv(projects, w) && id !in w.publishers
    requires id in w.confirmed && id in w.logged ==> w.confirmed[id] <= final <= |w.logged[id]|
    ensures Inv(projects, FinishedBy(w, id, status, final, report))
  {
    if !report.NotRun? && MayFinish(w.table, id, status) {
      Tasks.FinishKeeps(w.table, w.next, id, status, final);
      hide Exclusive, TaskOk, PublisherOk, SubscriberOk;
      RowChanges(projects, w, id, w.table[id].(status := status, final := final));
    }
  }

  lemma SendKeeps(projects: Projects, w: World, id: string, message: nat, kind: string, data: string, report: Report)
    requires Inv(projects, w)
    ensures Inv(projects, Step(projects, w, Send(id, message, kind, data, report)))
  {
    if id in w.publishers && !w.publishers[id].failed {
      SentOk(projects, w, id, message, kind, data, report);
      hide *;
      LogChanges(projects, w, Step(projects, w, Send(id, message, kind, data, report)), id);
    }
  }

  /** Only the log of one task and its publisher differ. */
  ghost predicate SameButLog(w: World, w': World, id: string) {
    && w'.table == w.table && w'.next == w.next && w'.subscribers == w.subscribers
    && id in w.logged && w'.logged.Keys == w.logged.Keys && w.logged[id] <= w'.logged[id]
    && w'.stored.Keys == w.stored.Keys && w'.confirmed.Keys == w.confirmed.Keys && w'.publishers.Keys == w.publishers.Keys
    && (forall k :: k in w.logged && k != id ==> w'.logged[k] == w.logged[k])
    && (forall k :: k in w.stored && k != id ==> w'.stored[k] == w.stored[k])
    && (forall k :: k in w.confirmed && k != id ==> w'.confirmed[k] == w.confirmed[k])
    && forall k :: k in w.publishers && k != id ==> w'.publishers[k] == w.publishers[k]
  }

  lemma LogChanges(projects: Projects, w: World, w': World, id: string)
    requires Inv(projects, w) && SameButLog(w, w', id)
    requires id in w'.table && TaskOk(projects, w', id) && (id in w'.publishers ==> PublisherOk(w', id))
    ensures Inv(projects, w')
  {
    hide Exclusive, TaskOk, SubscriberOk, PublisherOk;
    forall k | k in w'.table ensures TaskOk(projects, w', k) {
      if k != id {
        TaskIsLogged(projects, w, k);
        TaskStays(projects, w, w', k);
      }
    }
    forall k | k in w'.publishers ensures PublisherOk(w', k) {
      if k != id {
        PublisherIsActive(w, k);
        PublisherStays(w, w', k);
      }
    }
    forall sub | sub in w'.subscribers ensures SubscriberOk(w', w'.subscribers[sub]) {
      SubscriberIsLogged(w, w.subscribers[sub]);
      assert w.logged[w.subscribers[sub].task] <= w'.logged[w.subscribers[sub].task];
      SubscriberStays(w, w', w.subscribers[sub]);
    }
  }

  lemma SentOk(projects: Projects, w: World, id: string, message: nat, kind: string, data: string, report: Report)
    requires Inv(projects, w) && id in w.publishers && !w.publishers[id].failed
    ensures var w' := Step(projects, w, Send(id, message, kind, data, report));
            SameButLog(w, w', id) && id in w'.table && TaskOk(projects, w', id) && id in w'.publishers && PublisherOk(w', id)
  {
    assert PublisherOk(w, id) && TaskOk(projects, w, id);
    hide Inv, SameButLog;
    var w' := Step(projects, w, Send(id, message, kind, data, report));
    assert SameButLog(w, w', id) by { SentFrame(projects, w, id, message, kind, data, report); }
  }

  lemma SentFrame(projects: Projects, w: World, id: string, message: nat, kind: string, data: string, report: Report)
    requires id in w.publishers && !w.publishers[id].failed && id in w.logged && id in w.stored && id in w.confirmed
    ensures SameButLog(w, Step(projects, w, Send(id, message, kind, data, report)), id)
  {
  }

  /** Without some of its publishers a world is as sound as before. */
  lemma FewerPublishers(projects: Projects, w: World, publishers: map<string, Publisher>)
    requires Inv(projects, w)
    requires forall id :: id in publishers ==> id in w.publishers && publishers[id] == w.publishers[id]
    ensures Inv(projects, w.(publishers := publishers))
  {
    hide Exclusive;
    var w' := w.(publishers := publishers);
    forall k | k in w'.table ensures TaskOk(projects, w', k) { assert TaskOk(projects, w, k); }
    forall k | k in w'.publishers ensures PublisherOk(w', k) { assert PublisherOk(w, k); }
    forall sub | sub in w'.subscribers ensures SubscriberOk(w', w'.subscribers[sub]) {
      assert SubscriberOk(w, w.subscribers[sub]);
    }
  }

  lemma FinishKeeps(projects: Projects, w: World, id: string, status: Status, report: Report)
    requires Inv(projects, w)
    ensures Inv(projects, Step(projects, w, Finish(id, status, report)))
  {
    if id in w.publishers {
      assert PublisherOk(w, id) && TaskOk(projects, w, id);
      var v := w.(publishers := w.publishers - {id});
      FewerPublishers(projects, w, v.publishers);
      FinishedKeeps(projects, v, id, status, w.publishers[id].lastID, report);
    }
  }

  lemma RecoverKeeps(projects: Projects, w: World, id: string)
    requires Inv(projects, w)
    ensures Inv(projects, Step(projects, w, Recover(id)))
  {
    if id !in w.publishers && id in w.stored && MayFinish(w.table, id, Fail) {
      assert TaskOk(projects, w, id);
      FinishedKeeps(projects, w, id, Fail, |w.stored[id]|, Heard);
    }
  }

  /** Only a task that is not the latest of its session is purged, and that one is finished. */
  lemma PurgeKeeps(projects: Projects, w: World, id: string)
    requires Inv(projects, w)
    ensures Inv(projects, Step(projects, w, Purge(id)))
  {
    if id in w.table && id in w.stored && !Latest(w.table, id) {
      OlderIsFinished(projects, w, id);
      assert TaskOk(projects, w, id);
      assert id in w.publishers ==> PublisherOk(w, id);
      var w' := w.(stored := w.stored[id := []]);
      assert TaskOk(projects, w', id);
      hide Inv, TaskOk, PublisherOk, Latest;
      LogChanges(projects, w, w', id);
    }
  }

  lemma OlderIsFinished(projects: Projects, w: World, id: string)
    requires Inv(projects, w) && id in w.table && !Latest(w.table, id)
    ensures !Active(w.table[id].status)
  {
    var other :| other in w.table && w.table[other].session == w.table[id].session && w.table[other].order > w.table[id].order;
    assert TaskOk(projects, w, id) && TaskOk(projects, w, other);
    hide TaskOk, PublisherOk, SubscriberOk;
  }

  /** A subscriber replaced by one that is sound. */
  lemma SubscriberChanges(projects: Projects, w: World, sub: nat, s: Subscriber)
    requires Inv(projects, w) && SubscriberOk(w, s)
    ensures Inv(projects, w.(subscribers := w.subscribers[sub := s]))
  {
    hide Exclusive;
    var w' := w.(subscribers := w.subscribers[sub := s]);
    forall k | k in w'.table ensures TaskOk(projects, w', k) { assert TaskOk(projects, w, k); }
    forall k | k in w'.publishers ensures PublisherOk(w', k) { assert PublisherOk(w, k); }
    forall n | n in w'.subscribers ensures SubscriberOk(w', w'.subscribers[n]) {
      if n != sub { assert SubscriberOk(w, w.subscribers[n]); }
    }
  }

  /** An event of the log extends the delivered prefix or changes nothing delivered. */
  lemma ReceivedKeeps(projects: Projects, w: World, s: Subscriber, e: Event)
    requires Inv(projects, w) && SubscriberOk(w, s) && s.ending.Open? && s.task in w.stored && e in w.stored[s.task]
    ensures SubscriberOk(w, Received(s, e))
  {
    assert TaskOk(projects, w, s.task);
    var log := w.logged[s.task];
    assert e in log;
    var i :| 0 <= i < |log| && log[i] == e;
    if e.id == |s.delivered| + 1 {
      assert s.delivered + [e] == log[..i + 1];
    }
  }

  lemma StepKeeps(projects: Projects, w: World, a: Action)
    requires Inv(projects, w)
    ensures Inv(projects, Step(projects, w, a))
  {
    hide Inv;
    match a
    case Create(id, session, report) => CreateKeeps(projects, w, id, session, report);
    case Start(id) => StartKeeps(projects, w, id);
    case Send(id, message, kind, data, report) => SendKeeps(projects, w, id, message, kind, data, report);
    case Finish(id, status, report) => FinishKeeps(projects, w, id, status, report);
    case Crash => FewerPublishers(projects, w, map[]);
    case Recover(id) => RecoverKeeps(projects, w, id);
    case Purge(id) => PurgeKeeps(projects, w, id);
    case Subscribe(sub, id) => SubscribeKeeps(projects, w, sub, id);
    case Poll(sub) => PollKeeps(projects, w, sub);
    case Next(sub, e) => NextKeeps(projects, w, sub, e);
    case End(sub) => EndKeeps(projects, w, sub);
    case Disconnect(sub) => DisconnectKeeps(projects, w, sub);
  }

  lemma SubscribeKeeps(projects: Projects, w: World, sub: nat, id: string)
    requires Inv(projects, w)
    ensures Inv(projects, Step(projects, w, Subscribe(sub, id)))
  {
    if id in w.table {
      assert TaskOk(projects, w, id);
      hide Inv, TaskOk, Latest;
      TaskIsLogged(projects, w, id);
      SubscriberChanges(projects, w, sub, Subscriber(id, [], w.table[id], Open));
    }
  }

  lemma PollKeeps(projects: Projects, w: World, sub: nat)
    requires Inv(projects, w)
    ensures Inv(projects, Step(projects, w, Poll(sub)))
  {
    if Live(w, sub) {
      var s := w.subscribers[sub];
      assert SubscriberOk(w, s);
      hide Inv, Latest;
      SubscriberChanges(projects, w, sub, s.(seen := w.table[s.task]));
      SubscriberChanges(projects, w, sub, s.(ending := RefreshRequired));
    }
  }

  lemma NextKeeps(projects: Projects, w: World, sub: nat, e: Event)
    requires Inv(projects, w)
    ensures Inv(projects, Step(projects, w, Next(sub, e)))
  {
    if Live(w, sub) && w.subscribers[sub].task in w.stored && e in w.stored[w.subscribers[sub].task] {
      assert SubscriberOk(w, w.subscribers[sub]);
      hide Inv, SubscriberOk, Received;
      ReceivedKeeps(projects, w, w.subscribers[sub], e);
      SubscriberChanges(projects, w, sub, Received(w.subscribers[sub], e));
    }
  }

  lemma EndKeeps(projects: Projects, w: World, sub: nat)
    requires Inv(projects, w)
    ensures Inv(projects, Step(projects, w, End(sub)))
  {
    if Live(w, sub) && Complete(w.subscribers[sub]) {
      assert SubscriberOk(w, w.subscribers[sub]);
      hide Inv;
      SubscriberChanges(projects, w, sub, w.subscribers[sub].(ending := TaskState));
    }
  }

  lemma DisconnectKeeps(projects: Projects, w: World, sub: nat)
    requires Inv(projects, w)
    ensures Inv(projects, Step(projects, w, Disconnect(sub)))
  {
    if Live(w, sub) {
      assert SubscriberOk(w, w.subscribers[sub]);
      hide Inv;
      SubscriberChanges(projects, w, sub, w.subscribers[sub].(ending := Gone));
    }
  }

  lemma {:induction false} RunKeeps(projects: Projects, actions: seq<Action>)
    ensures Inv(projects, Run(projects, actions))
  {
    if |actions| > 0 {
      hide Inv, Step;
      RunKeeps(projects, actions[..|actions| - 1]);
      StepKeeps(projects, Run(projects, actions[..|actions| - 1]), actions[|actions| - 1]);
    }
  }

  // ---------------------------------------------------------------- the results

  lemma ReachableInv(projects: Projects, w: World)
    requires Reachable(projects, w)
    ensures Inv(projects, w)
  {
    hide Inv, Step;
    var actions :| Run(projects, actions) == w;
    RunKeeps(projects, actions);
  }

  /** What a subscriber was sent is the log from its first event on, without gap or repetition. */
  lemma DeliveredIsAPrefix(projects: Projects, w: World, sub: nat)
    requires Reachable(projects, w) && sub in w.subscribers
    ensures var s := w.subscribers[sub];
            && s.task in w.logged && s.delivered <= w.logged[s.task]
            && forall i :: 0 <= i < |s.delivered| ==> s.delivered[i].id == i + 1
  {
    ReachableInv(projects, w);
    assert SubscriberOk(w, w.subscribers[sub]);
    assert TaskOk(projects, w, w.subscribers[sub].task);
  }

  /** The final task state is sent only when the task is finished, with its true outcome, and after every event whose
      publication was confirmed and up to the stored final event. */
  lemma TaskStateComesLast(projects: Projects, w: World, sub: nat)
    requires Reachable(projects, w) && sub in w.subscribers && w.subscribers[sub].ending.TaskState?
    ensures var s := w.subscribers[sub];
            && s.task in w.table && s.seen == w.table[s.task] && !Active(s.seen.status)
            && s.task in w.confirmed && w.confirmed[s.task] <= s.seen.final <= |s.delivered|
  {
    ReachableInv(projects, w);
    assert SubscriberOk(w, w.subscribers[sub]);
    assert TaskOk(projects, w, w.subscribers[sub].task);
  }

  /** A finished task's final event is in its log: a subscriber that gets the whole log can always be told the end. */
  lemma FinalEventIsLogged(projects: Projects, w: World, id: string)
    requires Reachable(projects, w) && id in w.table && !Active(w.table[id].status)
    ensures id in w.logged && id in w.confirmed && w.confirmed[id] <= w.table[id].final <= |w.logged[id]|
  {
    ReachableInv(projects, w);
    assert TaskOk(projects, w, id);
  }

  /** A task reaches a final status at most once: in every run its row is the same ever after. */
  lemma {:induction false} TerminalForGood(projects: Projects, actions: seq<Action>, i: nat, j: nat, id: string)
    requires i <= j <= |actions|
    requires var w := Run(projects, actions[..i]); id in w.table && !Active(w.table[id].status)
    ensures var w, w' := Run(projects, actions[..i]), Run(projects, actions[..j]); id in w'.table && w'.table[id] == w.table[id]
    decreases j
  {
    if i < j {
      hide Step;
      TerminalForGood(projects, actions, i, j - 1, id);
      assert actions[..j][..j - 1] == actions[..j - 1];
      TerminalStays(projects, Run(projects, actions[..j - 1]), actions[j - 1], id);
    }
  }

  /** One event handed to an open subscriber: the next one is delivered, one that was delivered before changes nothing,
      and one beyond the next ends the stream with a request to refresh. */
  lemma HandedOut(s: Subscriber, e: Event)
    requires s.ending.Open?
    ensures e.id == |s.delivered| + 1 ==> Received(s, e) == s.(delivered := s.delivered + [e])
    ensures e.id <= |s.delivered| ==> Received(s, e) == s
    ensures e.id > |s.delivered| + 1 ==> Received(s, e).delivered == s.delivered && Received(s, e).ending == RefreshRequired
  {
  }

  lemma TerminalStays(projects: Projects, w: World, a: Action, id: string)
    requires id in w.table && !Active(w.table[id].status)
    ensures var w' := Step(projects, w, a); id in w'.table && w'.table[id] == w.table[id]
  {
  }

  /** No project ever has two active tasks. */
  lemma OneActiveTask(projects: Projects, w: World, a: string, b: string)
    requires Reachable(projects, w) && a in w.table && b in w.table && w.table[a].project == w.table[b].project
    requires Active(w.table[a].status) && Active(w.table[b].status)
    ensures a == b
  {
    ReachableInv(projects, w);
    OneActive(w.table, w.next, a, b);
  }

  // ---------------------------------------------------------------- publisher and event loop as the source runs them

  /** What a subscription hands out: nothing for now, a failure, or an event. */
  datatype Handed = Nothing | Unavailable | Given(event: Event)

  /** The log of one task. A publication may be taken although it reports a failure. */
  class EventLog {
    var stored: seq<Event>
    var handed: Handed

    constructor ()
      ensures stored == [] && handed == Nothing
    {
      stored, handed := [], Nothing;
    }

    method Publish(e: Event) returns (ok: bool)
      modifies this
      ensures stored == old(stored) + [e] || (!ok && stored == old(stored))
      ensures handed == old(handed)
    {
      var taken: bool := *;
      if !taken { return false; }
      stored := stored + [e];
      ok := *;
    }

    /** Any stored event, none for now, or a failure; the publisher may have gone on meanwhile. */
    method Next() returns (h: Handed)
      requires Numbered(stored)
      modifies this
      ensures Numbered(stored) && old(stored) <= stored
      ensures handed == h && (h.Given? ==> h.event in stored)
    {
      var grows: bool := *;
      var more: Event := *;
      if grows { stored := stored + [more.(id := |stored| + 1)]; }
      var i: int, up: bool := *, *;
      handed := if !up then Unavailable else if 0 <= i < |stored| then Given(stored[i]) else Nothing;
      return handed;
    }
  }

  class TaskPublisher {
    const log: EventLog
    var lastID: nat
    var failed: bool

    ghost predicate Valid()
      reads this, log
    {
      Numbered(log.stored) && lastID <= |log.stored| && (!failed ==> lastID == |log.stored|)
    }

    constructor (log: EventLog)
      requires log.stored == []
      ensures this.log == log && Valid() && lastID == 0 && !failed
    {
      this.log := log;
      lastID, failed := 0, false;
    }

    /** Numbers are contiguous; after a failure nothing is sent any more. */
    method Send(kind: string, message: nat, data: string)
      requires Valid()
      modifies this, log
      ensures Valid()
      ensures exists report ::
                && Publisher(lastID, failed) == Sent(Publisher(old(lastID), old(failed)), report)
                && log.stored == if old(failed) || report.NotRun? then old(log.stored)
                                 else old(log.stored) + [Event(old(lastID) + 1, message, kind, data)]
      ensures old(failed) ==> failed && lastID == old(lastID) && log.stored == old(log.stored)
      ensures !failed ==> lastID == old(lastID) + 1 && log.stored == old(log.stored) + [Event(lastID, message, kind, data)]
    {
      if failed {
        assert Publisher(lastID, failed) == Sent(Publisher(lastID, failed), NotRun);
        return;
      }
      ghost var before := Publisher(lastID, failed);
      var ok := log.Publish(Event(lastID + 1, message, kind, data));
      ghost var report := if ok then Heard else if log.stored == old(log.stored) then NotRun else Lost;
      if !ok {
        failed := true;
      } else {
        lastID := lastID + 1;
      }
      assert Publisher(lastID, failed) == Sent(before, report);
    }
  }

  /** The polls of one subscriber: the task's row, or nothing when it cannot be read or is no longer the session's latest. */
  class Polls {
    var refused: bool

    constructor ()
      ensures !refused
    {
      refused := false;
    }

    method Poll(tasks: TaskTable, id: string) returns (row: Option<Task>)
      requires id in tasks.table
      modifies this
      ensures refused == row.None? && (row.Some? ==> row.value == tasks.table[id])
    {
      var unavailable: bool, changed: bool := *, *;
      refused := unavailable || changed;
      row := if refused then None else Some(tasks.table[id]);
    }
  }

  /** Which row may follow which: an active task may start or finish, a finished one stays as it is. */
  predicate Later(a: Task, b: Task) {
    b == a || (Active(a.status) && b.order == a.order && b.session == a.session && b.project == a.project)
  }

  /** The row of a finished task names an event that is in the log. */
  ghost predicate FinalLogged(t: Table, id: string, log: seq<Event>) {
    id in t && (!Active(t[id].status) ==> t[id].final <= |log|)
  }

  /** What publishers and other requests may do between two steps of a subscriber: log events, start and finish the
      task, create others. */
  method Meanwhile(log: EventLog, tasks: TaskTable, id: string)
    requires Numbered(log.stored) && FinalLogged(tasks.table, id, log.stored)
    modifies log, tasks
    ensures Numbered(log.stored) && old(log.stored) <= log.stored
    ensures FinalLogged(tasks.table, id, log.stored) && Later(old(tasks.table[id]), tasks.table[id])
  {
    var grows: bool, starts: bool, finishes: bool, creates: bool := *, *, *, *;
    if grows {
      var e: Event := *;
      log.stored := log.stored + [e.(id := |log.stored| + 1)];
    }
    if starts { var ok := tasks.StartTask(id); }
    if finishes {
      var status: Status, final: nat := *, *;
      if final <= |log.stored| { var ok := tasks.FinishTask(id, status, final); }
    }
    if creates {
      var other: string, session: string, project: string := *, *, *;
      var ok := tasks.CreateTask(other, session, project);
    }
  }

  /** The event loop of one subscriber, which polls the task row now and then while publishers and other requests go on:
      what it sends is the log from the first event on, and the task state only once the task is finished, with its final
      row, and after the stored final event. A refresh is asked for only when a poll is refused or an event is missing before the
      one handed out, never for an event that comes again. `turns` bounds how long it is watched. */
  method HandleTaskEvents(log: EventLog, tasks: TaskTable, polls: Polls, id: string, turns: nat)
    returns (delivered: seq<Event>, ending: Ending, seen: Task)
    requires Numbered(log.stored) && id in tasks.table && FinalLogged(tasks.table, id, log.stored)
    modifies log, tasks, polls
    ensures delivered <= log.stored && id in tasks.table && FinalLogged(tasks.table, id, log.stored)
    ensures Later(old(tasks.table[id]), seen) && Later(seen, tasks.table[id])
    ensures ending.TaskState? ==>
              Complete(Subscriber(id, delivered, seen, ending)) && seen == tasks.table[id] && !Active(tasks.table[id].status)
    ensures ending.RefreshRequired? ==>
              || polls.refused || log.handed.Unavailable?
              || (log.handed.Given? && log.handed.event in log.stored && log.handed.event.id > |delivered| + 1)
  {
    hide *;
    InTable(tasks.table, id, log.stored);
    SameRow(tasks.table[id]);
    delivered, ending, seen := [], Open, tasks.table[id];
    var turn := 0;
    while turn < turns
      invariant Numbered(log.stored) && FinalLogged(tasks.table, id, log.stored) && delivered <= log.stored && ending.Open?
      invariant id in tasks.table && Later(old(tasks.table[id]), seen) && Later(seen, tasks.table[id])
    {
      turn := turn + 1;
      if !Active(seen.status) && |delivered| >= seen.final {
        ending := TaskState;
        SeenIsFinal(id, delivered, seen, ending, tasks.table[id]);
        return;
      }
      ghost var row0 := tasks.table[id];
      Meanwhile(log, tasks, id);
      InTable(tasks.table, id, log.stored);
      LaterOn(seen, row0, tasks.table[id]);
      var gone: bool, tick: bool := *, *;
      if gone {
        ending := Gone;
        return;
      }
      if tick {
        var row := polls.Poll(tasks, id);
        if row.None? {
          ending := RefreshRequired;
          return;
        }
        LaterOn(old(tasks.table[id]), seen, row.value);
        SameRow(row.value);
        seen := row.value;
      }
      ghost var before := log.stored;
      var next := log.Next();
      StillLogged(tasks.table, id, before, log.stored);
      if next.Nothing? { continue; }
      if next.Unavailable? {
        ending := RefreshRequired;
        return;
      }
      var e := next.event;
      if e.id <= |delivered| { continue; }
      if e.id != |delivered| + 1 {
        ending := RefreshRequired;
        return;
      }
      NextInLog(log.stored, delivered, e);
      delivered := delivered + [e];
    }
  }

  lemma InTable(t: Table, id: string, log: seq<Event>)
    requires FinalLogged(t, id, log)
    ensures id in t
  {
  }

  lemma StillLogged(t: Table, id: string, log: seq<Event>, log': seq<Event>)
    requires FinalLogged(t, id, log) && log <= log'
    ensures FinalLogged(t, id, log')
  {
  }

  lemma SameRow(a: Task)
    ensures Later(a, a)
  {
  }

  lemma LaterOn(a: Task, b: Task, c: Task)
    requires Later(a, b) && Later(b, c)
    ensures Later(a, c)
  {
  }

  /** A finished row that a subscriber saw is the row. */
  lemma SeenIsFinal(id: string, delivered: seq<Event>, seen: Task, ending: Ending, row: Task)
    requires Later(seen, row) && !Active(seen.status) && |delivered| >= seen.final
    ensures Complete(Subscriber(id, delivered, seen, ending)) && seen == row
  {
  }

  lemma NextInLog(log: seq<Event>, delivered: seq<Event>, e: Event)
    requires Numbered(log) && delivered <= log && e in log && e.id == |delivered| + 1
    ensures delivered + [e] <= log
  {
    var i :| 0 <= i < |log| && log[i] == e;
    assert delivered + [e] == log[..|delivered| + 1];
  }
}
