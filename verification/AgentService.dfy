/** The service as a class takes only steps of the state machine of `Agent`: each message it commits is one step of
    one agent, and a recovery before a chat is a run of such steps. */
module AgentService {
  import opened Words
  import opened Messages
  import opened SessionState
  import opened Pairing
  import opened ReactService
  import opened Agent

  // ---------------------------------------------------------------- one turn

  /** Agent `k` stands where the service's session stands, in front of the stored head. */
  ghost predicate Mirrors(w: World, k: nat, view: Context, head: Context, phase: Phase) {
    |w.history| > 0 && Head(w) == head && k in w.agents && w.agents[k] == Agent(view, phase)
  }

  /** A turn of the service is one step of the agent: heard, run without being heard, refused, or failed before it. */
  lemma TurnIsStep(w: World, k: nat, phase: Phase, action: Action, t: Turn) returns (w': World, report: Report)
    requires Turned(t) && Mirrors(w, k, t.before, t.head, phase) && Said(w.agents[k], action) == Some(t.m)
    ensures Mirrors(w', k, t.after, t.head', if t.heard then AfterCommit(phase, action) else Idle)
    ensures Step(w, k, action, report, w') || Step(w, k, Fail, report, w')
    ensures w'.agents == w.agents[k := w'.agents[k]] && w.history <= w'.history
  {
    var a := w.agents[k];
    hide Valid;
    if Identify(t.before.last, t.m).Refused? {
      report := Report.Refused;
      var a' := a.(phase := Idle);
      w' := w.(agents := w.agents[k := a']);
      assert Moves(a, Fail, a');
    } else {
      var candidate := Appended(t.before, Identify(t.before.last, t.m).msg);
      assert Wants(a, action, candidate);
      report := if t.heard then Heard else if t.head' == t.head then Report.Refused else Lost;
      w' := Outcome(w, k, action, report, candidate);
      assert Commits(w, k, action, report, w');
    }
  }

  // ---------------------------------------------------------------- a recovery

  /** A path of steps of agent `k` alone. */
  ghost predicate Path(run: seq<World>, k: nat) {
    |run| > 0 && forall i :: 0 <= i < |run| - 1 ==> StepOf(run[i], k, run[i + 1])
  }

  ghost predicate StepOf(w: World, k: nat, w': World) {
    exists action, report :: Step(w, k, action, report, w')
  }

  lemma PathOn(run: seq<World>, k: nat, w': World)
    requires Path(run, k) && StepOf(run[|run| - 1], k, w')
    ensures Path(run + [w'], k)
  {
    hide StepOf;
    var run' := run + [w'];
    forall i | 0 <= i < |run'| - 1 ensures StepOf(run'[i], k, run'[i + 1]) {
      if i < |run| - 1 { assert run'[i] == run[i] && run'[i + 1] == run[i + 1]; }
    }
  }

  predicate LastHeard(turns: seq<Turn>) {
    |turns| == 0 || turns[|turns| - 1].heard
  }

  /** Results for the first calls due, one after the other. */
  lemma {:induction false} FillsAreSteps(run0: seq<World>, k: nat, turns: seq<Turn>, calls: seq<Call>, next: Option<string>,
                                         before: Context, head: Context, after: Context, head': Context)
    returns (run: seq<World>)
    requires Path(run0, k) && Mirrors(run0[|run0| - 1], k, before, head, Recovering(calls, next))
    requires Chained(turns, before, head, after, head') && |turns| <= |calls|
    requires forall i :: 0 <= i < |turns| ==> turns[i].m == ToolMessage(0, calls[i].id, turns[i].m.content)
    requires forall i :: 0 <= i < |turns| - 1 ==> turns[i].heard
    ensures Path(run, k) && run0 <= run
    ensures Mirrors(run[|run| - 1], k, after, head', if LastHeard(turns) then Recovering(calls[|turns|..], next) else Idle)
    decreases |turns|
  {
    hide Step, Turned, Path;
    if |turns| == 0 {
      run := run0;
    } else {
      var n := |turns| - 1;
      var t := turns[n];
      run := FillsAreSteps(run0, k, turns[..n], calls, next, before, head, t.before, t.head);
      PathIsNotEmpty(run, k);
      var w := run[|run| - 1];
      var w', report := TurnIsStep(w, k, Recovering(calls[n..], next), FillIn(0, t.m.content), t);
      assert calls[n..][1..] == calls[n + 1..];
      assert StepOf(w, k, w');
      PathOn(run, k, w');
      run := run + [w'];
    }
  }

  lemma PathIsNotEmpty(run: seq<World>, k: nat)
    requires Path(run, k)
    ensures |run| > 0
  {
  }

  lemma MoveIsStep(w: World, k: nat, action: Action, a: Agent)
    requires |w.history| > 0 && k in w.agents && Moves(w.agents[k], action, a)
    ensures StepOf(w, k, w.(agents := w.agents[k := a]))
  {
    assert Step(w, k, action, Heard, w.(agents := w.agents[k := a]));
  }

  /** What RecoverBeforeChat did before a chat with `prompt` is a run of the agent, from the moment the chat begins: at
      its end the agent is about to ask, or it has failed. */
  lemma RecoveryIsRun(w: World, k: nat, prompt: string, turns: seq<Turn>, ok: bool,
                      before: Context, head: Context, after: Context, head': Context)
    returns (run: seq<World>)
    requires Mirrors(w, k, before, head, Idle) && Chained(turns, before, head, after, head')
    requires FillsIn(turns, if NeedsRecovery(before.messages) then Missing(before.messages) else [], ok)
    ensures Path(run, k) && run[0] == w
    ensures Mirrors(run[|run| - 1], k, after, head', if ok then Asking(prompt) else Idle)
  {
    hide NeedsRecovery, Missing, Turned, StepOf;
    var calls := if NeedsRecovery(before.messages) then Missing(before.messages) else [];
    var start := Agent(before, if NeedsRecovery(before.messages) then Recovering(calls, Some(prompt)) else Asking(prompt));
    var w1 := w.(agents := w.agents[k := start]);
    MoveIsStep(w, k, Action.Chat(prompt), start);
    run := [w] + [w1];
    if NeedsRecovery(before.messages) {
      run := FillsAreSteps(run, k, turns, calls, Some(prompt), before, head, after, head');
      if ok {
        var w2 := run[|run| - 1];
        var asking := w2.agents[k].(phase := Asking(prompt));
        var w3 := w2.(agents := w2.agents[k := asking]);
        assert calls[|turns|..] == [];
        MoveIsStep(w2, k, Recovered, asking);
        PathOn(run, k, w3);
        run := run + [w3];
      }
    }
  }

  /** Steps from a reachable world stay reachable, so everything proved of `Agent` holds after each of these turns. */
  lemma {:induction false} PathIsReachable(run: seq<World>, k: nat)
    requires Path(run, k) && Reachable(run[0])
    ensures Reachable(run[|run| - 1])
  {
    var n := |run| - 1;
    if n > 0 {
      hide Step, Initial;
      PathIsReachable(run[..n], k);
      var whole :| |whole| > 0 && IsRun(whole) && whole[|whole| - 1] == run[n - 1];
      assert StepOf(run[n - 1], k, run[n]);
      assert Next(run[n - 1], run[n]);
      RunOn(whole, run[n]);
    }
  }

  lemma RunOn(whole: seq<World>, w: World)
    requires IsRun(whole) && Next(whole[|whole| - 1], w)
    ensures Reachable(w)
  {
    hide Next, Initial;
    var whole' := whole + [w];
    forall i | 0 <= i < |whole'| - 1 ensures Next(whole'[i], whole'[i + 1]) {
      if i < |whole| - 1 { assert whole'[i] == whole[i] && whole'[i + 1] == whole[i + 1]; }
    }
    assert IsRun(whole');
  }
}
