/** Runs of Chat and Resume against one stored session: any number of agents, each of which may fail at any
    moment, and whose commits may be refused or run without the agent hearing of it. */
module Agent {
  import opened Words
  import opened Messages
  import opened SessionState
  import opened Pairing
  import opened ToolGroups
  import opened ReactService
  import Provenance
  import Summary

  /** Where an agent is between two effects. */
  datatype Phase =
    | Idle
    | Recovering(rest: seq<Call>, next: Option<string>)
    | Asking(prompt: string)
    | Preparing
    | Generating
    | Calling(rest: seq<Call>)

  datatype Agent = Agent(view: Context, phase: Phase)

  /** Every context ever committed, in order; an entry's revision is its place. */
  datatype World = World(history: seq<Context>, agents: map<nat, Agent>)

  datatype Report = Heard | Lost | Refused

  datatype Action =
    | Load(mode: string, workDir: string)
    | Setup(content: string, est: Estimator)
    | Chat(prompt: string)
    | Resume
    | FillIn(number: nat, content: string)
    | Recovered
    | Ask(number: nat)
    | Count(input: int)
    | Compact(messages: seq<Message>, used: Tokens, window: Tokens)
    | Answer(m: Message)
    | Result(m: Message)
    | Turn(interrupted: bool)
    | Fail

  /** The message an action appends, if it appends one. */
  function Said(a: Agent, action: Action): Option<Message> {
    match action
    case FillIn(number, content) =>
      if a.phase.Recovering? && |a.phase.rest| > 0 then Some(ToolMessage(number, a.phase.rest[0].id, content)) else None
    case Ask(number) => if a.phase.Asking? then Some(UserMessage(number, a.phase.prompt)) else None
    case Answer(m) => if a.phase.Generating? && m.role == Assistant then Some(m) else None
    case Result(m) =>
      if a.phase.Calling? && |a.phase.rest| > 0 && m.role == Tool && m.callId == a.phase.rest[0].id then Some(m) else None
    case _ => None
  }

  /** The candidate an action wants to commit. */
  ghost predicate Wants(a: Agent, action: Action, candidate: Context) {
    match action
    case Setup(content, est) => a.phase.Idle? && candidate == Upserted(a.view, content, est)
    case Compact(messages, used, window) =>
      && a.phase.Preparing? && Compacts(a.view.messages, messages)
      && candidate == a.view.(generation := a.view.generation + 1, messages := messages, used := used, window := window)
    case _ =>
      && Said(a, action).Some? && Identify(a.view.last, Said(a, action).value).Identified?
      && candidate == Appended(a.view, Identify(a.view.last, Said(a, action).value).msg)
  }

  /** Where the agent goes on after its commit was heard. */
  function AfterCommit(phase: Phase, action: Action): Phase {
    match action
    case FillIn(_, _) => if phase.Recovering? && |phase.rest| > 0 then Recovering(phase.rest[1..], phase.next) else Idle
    case Ask(_) => Preparing
    case Compact(_, _, _) => Generating
    case Answer(m) => if |m.calls| == 0 then Idle else Calling(m.calls)
    case Result(_) => if phase.Calling? && |phase.rest| > 0 then Calling(phase.rest[1..]) else Idle
    case _ => Idle
  }

  /** Moves without a commit. */
  ghost predicate Moves(a: Agent, action: Action, a': Agent) {
    match action
    case Chat(prompt) =>
      a.phase.Idle? && a' == a.(phase := if NeedsRecovery(a.view.messages) then Recovering(Missing(a.view.messages), Some(prompt))
                                         else Asking(prompt))
    case Resume => a.phase.Idle? && NeedsRecovery(a.view.messages) && a' == a.(phase := Recovering(Missing(a.view.messages), None))
    case Recovered =>
      a.phase.Recovering? && a.phase.rest == []
      && a' == a.(phase := if a.phase.next.Some? then Asking(a.phase.next.value) else Preparing)
    case Count(input) => a.phase.Preparing? && a' == Agent(Reconciled(a.view, input), Generating)
    case Turn(interrupted) => a.phase.Calling? && a.phase.rest == [] && a' == a.(phase := if interrupted then Idle else Preparing)
    case Fail => a' == a.(phase := Idle)
    case _ => false
  }

  function Head(w: World): Context
    requires |w.history| > 0
  {
    w.history[|w.history| - 1]
  }

  ghost predicate Loads(w: World, k: nat, action: Action, w': World)
    requires |w.history| > 0
  {
    && action.Load? && (k in w.agents ==> w.agents[k].phase.Idle?)
    && var c := Head(w);
       var view := c.(mode := if c.mode == "" then action.mode else c.mode,
                      workDir := if c.workDir == "" then action.workDir else c.workDir);
       w' == w.(agents := w.agents[k := Agent(view, Idle)])
  }

  /** The repository takes only a valid candidate, and only from a view at the head's revision; it may have other
      reasons to refuse. */
  ghost function Outcome(w: World, k: nat, action: Action, report: Report, candidate: Context): World
    requires |w.history| > 0 && k in w.agents
  {
    var a := w.agents[k];
    var c := candidate.(revision := a.view.revision + 1);
    if report.Refused? || a.view.revision != Head(w).revision || !Valid(candidate) then w.(agents := w.agents[k := a.(phase := Idle)])
    else if report.Lost? then World(w.history + [c], w.agents[k := a.(phase := Idle)])
    else World(w.history + [c], w.agents[k := Agent(c, AfterCommit(a.phase, action))])
  }

  ghost predicate Commits(w: World, k: nat, action: Action, report: Report, w': World)
    requires |w.history| > 0
  {
    k in w.agents && exists candidate :: Wants(w.agents[k], action, candidate) && w' == Outcome(w, k, action, report, candidate)
  }

  ghost predicate Step(w: World, k: nat, action: Action, report: Report, w': World) {
    && |w.history| > 0
    && (|| Loads(w, k, action, w')
        || Commits(w, k, action, report, w')
        || (k in w.agents && exists a' :: Moves(w.agents[k], action, a') && w' == w.(agents := w.agents[k := a'])))
  }

  ghost predicate Next(w: World, w': World) {
    exists k, action, report :: Step(w, k, action, report, w')
  }

  ghost predicate Initial(w: World) {
    && w.agents == map[] && |w.history| == 1
    && w.history[0].revision == 0 && w.history[0].messages == [] && w.history[0].last == 0
  }

  ghost predicate IsRun(run: seq<World>) {
    |run| > 0 && Initial(run[0]) && forall i :: 0 <= i < |run| - 1 ==> Next(run[i], run[i + 1])
  }

  ghost predicate Reachable(w: World) {
    exists run :: |run| > 0 && IsRun(run) && run[|run| - 1] == w
  }

  // ---------------------------------------------------------------- the invariant

  /** What an agent relies on in each phase. */
  ghost predicate PhaseOk(msgs: seq<Message>, phase: Phase) {
    match phase
    case Idle => true
    case Recovering(rest, next) => Owes(msgs, rest) && HasUser(msgs)
    case Asking(_) => AllClosed(msgs)
    case Preparing => AllClosed(msgs) && HasUser(msgs)
    case Generating => AllClosed(msgs) && HasUser(msgs)
    case Calling(rest) => Owes(msgs, rest) && HasUser(msgs)
  }

  ghost predicate AgentOk(w: World, a: Agent) {
    && PhaseOk(a.view.messages, a.phase)
    && a.view.revision < |w.history| && w.history[a.view.revision].messages == a.view.messages
  }

  ghost predicate HistoryOk(w: World) {
    && |w.history| > 0
    && forall i :: 0 <= i < |w.history| ==>
         w.history[i].revision == i && Paired(w.history[i].messages) && SystemFirst(w.history[i].messages)
  }

  ghost predicate Inv(w: World) {
    HistoryOk(w) && forall k :: k in w.agents ==> AgentOk(w, w.agents[k])
  }

  // ---------------------------------------------------------------- candidates stay paired

  lemma SaidKeeps(a: Agent, action: Action, m: Message, number: nat)
    requires Paired(a.view.messages) && PhaseOk(a.view.messages, a.phase) && Said(a, action) == Some(m)
    ensures var msgs' := a.view.messages + [m.(number := number, original := [number])];
            Paired(msgs') && PhaseOk(msgs', AfterCommit(a.phase, action))
  {
    var msgs, m' := a.view.messages, m.(number := number, original := [number]);
    match action
    case FillIn(_, _) => ResultKeeps(msgs, m', a.phase.rest);
    case Result(_) => ResultKeeps(msgs, m', a.phase.rest);
    case Ask(_) => SpeakKeeps(msgs, m');
    case Answer(_) => SpeakKeeps(msgs, m');
  }

  lemma SetupKeeps(view: Context, content: string, est: Estimator)
    requires Paired(view.messages) && SystemFirst(view.messages)
    ensures Paired(Upserted(view, content, est).messages)
  {
    var msgs, msgs' := view.messages, Upserted(view, content, est).messages;
    if |msgs| > 0 {
      SkeletonKeeps(msgs, msgs');
    } else {
      assert |msgs'| == 1 && msgs'[0].role == System;
    }
  }

  lemma CandidateKeeps(a: Agent, action: Action, candidate: Context)
    requires Paired(a.view.messages) && SystemFirst(a.view.messages) && PhaseOk(a.view.messages, a.phase)
    requires Wants(a, action, candidate)
    ensures Paired(candidate.messages) && PhaseOk(candidate.messages, AfterCommit(a.phase, action))
  {
    hide Paired, Compacts, Owes, AllClosed, HasUser;
    if action.Setup? {
      SetupKeeps(a.view, action.content, action.est);
    } else if action.Compact? {
      CompactKeeps(a.view.messages, action.messages);
    } else {
      SaidKeeps(a, action, Said(a, action).value, candidate.last);
    }
  }

  // ---------------------------------------------------------------- every step keeps the invariant

  lemma MoveKeeps(a: Agent, action: Action, a': Agent)
    requires Paired(a.view.messages) && PhaseOk(a.view.messages, a.phase) && Moves(a, action, a')
    ensures PhaseOk(a'.view.messages, a'.phase) && a'.view.messages == a.view.messages && a'.view.revision == a.view.revision
  {
    var msgs := a.view.messages;
    match action
    case Chat(_) => if NeedsRecovery(msgs) { MissingIsOwed(msgs); } else { SettledIsClosed(msgs); }
    case Resume => MissingIsOwed(msgs);
    case Recovered => NothingOwed(msgs);
    case Turn(_) => NothingOwed(msgs);
    case _ =>
  }

  /** Agents other than the one that committed keep what they rely on. */
  lemma OthersKeep(w: World, w': World, k: nat, a': Agent)
    requires Inv(w) && w.history <= w'.history && HistoryOk(w')
    requires w'.agents == w.agents[k := a'] && AgentOk(w', a')
    ensures Inv(w')
  {
    hide Paired, SystemFirst, PhaseOk;
  }

  lemma CommitKeeps(w: World, k: nat, action: Action, report: Report, candidate: Context)
    requires Inv(w) && k in w.agents && Wants(w.agents[k], action, candidate)
    ensures Inv(Outcome(w, k, action, report, candidate))
  {
    var a, w' := w.agents[k], Outcome(w, k, action, report, candidate);
    assert AgentOk(w, a);
    CandidateKeeps(a, action, candidate);
    OutcomeHistory(w, k, action, report, candidate);
    OutcomeAgent(w, k, action, report, candidate);
    hide *;
    OthersKeep(w, w', k, w'.agents[k]);
  }

  lemma OutcomeAgent(w: World, k: nat, action: Action, report: Report, candidate: Context)
    requires HistoryOk(w) && k in w.agents && AgentOk(w, w.agents[k])
    requires PhaseOk(candidate.messages, AfterCommit(w.agents[k].phase, action))
    ensures var w' := Outcome(w, k, action, report, candidate);
            k in w'.agents && w'.agents == w.agents[k := w'.agents[k]] && AgentOk(w', w'.agents[k])
  {
    hide Paired, SystemFirst, Valid, AfterCommit;
    assert PhaseOk(w.agents[k].view.messages, Idle);
    hide PhaseOk;
  }

  lemma OutcomeHistory(w: World, k: nat, action: Action, report: Report, candidate: Context)
    requires Inv(w) && k in w.agents && Paired(candidate.messages)
    ensures var w' := Outcome(w, k, action, report, candidate); HistoryOk(w') && w.history <= w'.history
  {
    hide Paired, NumbersValid, OriginalsValid;
  }

  lemma StepKeeps(w: World, k: nat, action: Action, report: Report, w': World)
    requires Inv(w) && Step(w, k, action, report, w')
    ensures Inv(w')
  {
    hide Paired, SystemFirst, Wants, Moves, PhaseOk, Outcome;
    if Loads(w, k, action, w') {
      LoadKeeps(w, k, action, w');
    } else if Commits(w, k, action, report, w') {
      var candidate :| Wants(w.agents[k], action, candidate) && w' == Outcome(w, k, action, report, candidate);
      CommitKeeps(w, k, action, report, candidate);
    } else {
      var a' :| Moves(w.agents[k], action, a') && w' == w.(agents := w.agents[k := a']);
      assert AgentOk(w, w.agents[k]);
      MoveKeeps(w.agents[k], action, a');
      OthersKeep(w, w', k, a');
    }
  }

  lemma LoadKeeps(w: World, k: nat, action: Action, w': World)
    requires Inv(w) && Loads(w, k, action, w')
    ensures Inv(w')
  {
    hide Paired, SystemFirst;
    OthersKeep(w, w', k, w'.agents[k]);
  }

  lemma {:induction false} RunKeeps(run: seq<World>)
    requires IsRun(run)
    ensures Inv(run[|run| - 1])
  {
    var n := |run| - 1;
    if n > 0 {
      hide Inv, Step, Initial;
      RunKeeps(run[..n]);
      assert Next(run[n - 1], run[n]);
      var k, action, report :| Step(run[n - 1], k, action, report, run[n]);
      StepKeeps(run[n - 1], k, action, report, run[n]);
    }
  }

  // ---------------------------------------------------------------- the results

  lemma ReachableInv(w: World)
    requires Reachable(w)
    ensures Inv(w)
  {
    hide Inv, Next, Initial;
    var run :| |run| > 0 && IsRun(run) && run[|run| - 1] == w;
    RunKeeps(run);
  }

  /** Whenever a model is called, every tool call in its messages has a result before the next other message, every
      tool result answers a call of the group right before it, and those messages are ones that were committed. */
  lemma ModelSeesClosedCalls(w: World, k: nat)
    requires Reachable(w) && k in w.agents && w.agents[k].phase.Generating?
    ensures var view := w.agents[k].view;
            && AllClosed(view.messages) && NoOrphans(view.messages) && SystemFirst(view.messages)
            && view.revision < |w.history| && w.history[view.revision].messages == view.messages
  {
    ReachableInv(w);
    assert AgentOk(w, w.agents[k]);
  }

  /** In everything ever committed at most the last group is open, and then only tool results follow it. */
  lemma OnlyTheLastGroupIsOpen(w: World, i: nat)
    requires Reachable(w) && i < |w.history|
    ensures w.history[i].revision == i && OnlyLastOpen(w.history[i].messages) && NoOrphans(w.history[i].messages)
  {
    ReachableInv(w);
  }

  /** What an agent will still answer, together with what is answered, is every call; so once it has nothing left
      to answer, nothing is open. */
  lemma AgentsFinishTheirGroup(w: World, k: nat)
    requires Reachable(w) && k in w.agents && (w.agents[k].phase.Calling? || w.agents[k].phase.Recovering?)
    ensures Owes(w.agents[k].view.messages, w.agents[k].phase.rest)
    ensures w.agents[k].phase.rest == [] ==> AllClosed(w.agents[k].view.messages)
  {
    ReachableInv(w);
    assert AgentOk(w, w.agents[k]);
    if w.agents[k].phase.rest == [] { NothingOwed(w.agents[k].view.messages); }
  }
}
