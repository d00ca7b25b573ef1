/** How answers and tool calls stand while a task runs, and what its end leaves of them. */
module ReducerEnds {
  import opened Words
  import opened Reducer

  // ---------------------------------------------------------------- while the task runs

  /** Tool calls are complete; an answer is complete exactly when a tool call follows it, and streaming otherwise. */
  ghost predicate StatusesOk(messages: seq<ChatMessage>) {
    forall i: nat :: i < |messages| ==> StatusAt(messages, i)
  }

  ghost predicate StatusAt(messages: seq<ChatMessage>, i: nat)
    requires i < |messages|
  {
    var m := messages[i];
    && m.role != User && m.status != Error && (m.status == Completed ==> !m.reasoningStreaming)
    && (m.role == Tool ==> m.status == Completed)
    && (m.role == Assistant ==> (m.status == Completed <==> i + 1 < |messages| && messages[i + 1].role == Tool))
  }

  lemma AppendKeepsStatuses(messages: seq<ChatMessage>, reasoning: bool, delta: string, number: Option<nat>)
    requires StatusesOk(messages)
    ensures StatusesOk(AppendAssistant(messages, reasoning, delta, number))
  {
    var now := AppendAssistant(messages, reasoning, delta, number);
    forall i: nat | i < |now| ensures StatusAt(now, i) { assert i < |messages| ==> StatusAt(messages, i); }
  }

  lemma CompleteKeepsStatuses(messages: seq<ChatMessage>, tool: ChatMessage)
    requires StatusesOk(messages) && tool.role == Tool && tool.status == Completed && !tool.reasoningStreaming
    ensures StatusesOk(CompleteLastAssistant(messages) + [tool])
  {
    var now := CompleteLastAssistant(messages) + [tool];
    forall i: nat | i < |now| ensures StatusAt(now, i) { assert i < |messages| ==> StatusAt(messages, i); }
  }

  lemma EventKeepsStatuses(s: State, e: Event)
    requires StatusesOk(s.messages) && BodyOk(e.body, Number(e))
    ensures StatusesOk(Reduce(s, Receive(e)).messages)
    ensures var s' := Reduce(s, Receive(e)); s'.running == s.running && s'.error == s.error && s'.taskID == s.taskID
  {
    hide Ignored, StatusesOk, AppendAssistant, CompleteLastAssistant;
    match e.body {
      case Reasoning(delta) => AppendKeepsStatuses(s.messages, true, delta, NumberOf(e));
      case Message(delta) => AppendKeepsStatuses(s.messages, false, delta, NumberOf(e));
      case ToolCall(info) => CompleteKeepsStatuses(s.messages, ChatMessage(NumberOf(e), Tool, "", "", false, info, Completed));
      case _ =>
    }
  }

  /** The reasoning is shown as streaming exactly while it grows: what a taken delta leaves is the last message, which
      streams, in the field the delta grew; no other message changes. */
  lemma DeltaGrowsTheLast(s: State, e: Event)
    requires IsDelta(e.body) && e.body.delta != "" && (e.stamp.Some? ==> !Ignored(s, e.stamp.value))
    ensures Grown(s.messages, Reduce(s, Receive(e)).messages, e.body.Reasoning?, e.body.delta, NumberOf(e))
  {
    hide Ignored, AppendAssistant, Grown;
    AppendGrows(s.messages, e.body.Reasoning?, e.body.delta, NumberOf(e));
  }

  ghost predicate Grown(was: seq<ChatMessage>, now: seq<ChatMessage>, reasoning: bool, delta: string, number: Option<nat>) {
    && |was| <= |now| <= |was| + 1 && |now| > 0 && now[..|now| - 1] == was[..|now| - 1]
    && var m := now[|now| - 1];
       var before := if |now| == |was| then was[|was| - 1] else ChatMessage(number, Assistant, "", "", false, "", Streaming);
       && before.role == Assistant && before.status == Streaming && before.number == number
       && m == before.(content := m.content, reasoning := m.reasoning, reasoningStreaming := reasoning)
       && m.content == before.content + (if reasoning then "" else delta)
       && m.reasoning == before.reasoning + (if reasoning then delta else "")
  }

  lemma AppendGrows(was: seq<ChatMessage>, reasoning: bool, delta: string, number: Option<nat>)
    ensures Grown(was, AppendAssistant(was, reasoning, delta, number), reasoning, delta, number)
  {
    assert forall m: string :: m + "" == m && "" + m == m;
  }

  /** In every replay tool calls and the answers they end are complete, and every other answer is streaming. */
  lemma ReplayedStatuses(s: State, last: nat, task: string, status: TaskStatus, message: string, log: seq<Event>, order: seq<nat>)
    requires GoodLog(log, task) && Delivers(order, log)
    ensures var s' := Replayed(Reduce(s, Restore(last, Some(task), status, message)), log, order);
            && StatusesOk(s'.messages) && s'.running == (status == Waiting || status == Running)
            && s'.taskID == Some(task) && s'.error == if status == Fail then Some(message) else None
  {
    StatusesOver(Reduce(s, Restore(last, Some(task), status, message)), log, order, task);
  }

  lemma {:induction false} StatusesOver(s: State, log: seq<Event>, order: seq<nat>, task: string)
    requires GoodLog(log, task) && StatusesOk(s.messages)
    ensures var s' := Replayed(s, log, order);
            StatusesOk(s'.messages) && s'.running == s.running && s'.error == s.error && s'.taskID == s.taskID
  {
    if |order| > 0 {
      hide Reduce, StatusesOk;
      StatusesOver(s, log, order[..|order| - 1], task);
      var k := order[|order| - 1];
      if k < |log| { EventKeepsStatuses(Replayed(s, log, order[..|order| - 1]), log[k]); }
    }
  }

  // ---------------------------------------------------------------- when the task ends

  /** Number, role and texts stay; a message that no longer streams is left as it was. */
  predicate EndsAs(m: ChatMessage, m': ChatMessage, status: Status) {
    && m'.number == m.number && m'.role == m.role && m'.content == m.content && m'.reasoning == m.reasoning
    && m'.toolSummary == m.toolSummary
    && if m.status == Streaming then m'.status == status && !m'.reasoningStreaming else m' == m
  }

  lemma {:induction false} SettledAt(messages: seq<ChatMessage>, status: Status, assistantOnly: bool)
    requires assistantOnly ==> forall i :: 0 <= i < |messages| && messages[i].status == Streaming ==> messages[i].role == Assistant
    ensures var settled := Settle(messages, status, assistantOnly);
            |settled| == |messages| && forall i :: 0 <= i < |messages| ==> EndsAs(messages[i], settled[i], status)
  {
    if |messages| > 0 { SettledAt(messages[..|messages| - 1], status, assistantOnly); }
  }

  /** A failure, reported by the page or by the task's own event, ends every streaming message as an error and loses no
      text. */
  lemma FailureEndsAll(s: State, message: string, e: Event)
    requires e.body == Failure(message) && (e.stamp.Some? ==> !Ignored(s, e.stamp.value))
    ensures var s' := Reduce(s, Failed(message));
            && !s'.running && s'.error == Some(message) && s'.taskID == s.taskID && s'.lastEvent == s.lastEvent
            && s'.lastMessage == s.lastMessage && |s'.messages| == |s.messages|
            && forall i :: 0 <= i < |s.messages| ==> EndsAs(s.messages[i], s'.messages[i], Error) && s'.messages[i].status != Streaming
    ensures var own := Reduce(s, Receive(e));
            own == Reduce(s, Failed(message)).(lastEvent := own.lastEvent, lastMessage := own.lastMessage)
    ensures e.stamp.Some? ==> Reduce(s, Receive(e)).lastEvent == Some(e.stamp.value.id)
  {
    SettledAt(s.messages, Error, false);
    hide Ignored, Settle;
  }

  /** After a replay the final event completes every answer. Its result is shown as one more message only when no answer
      is left to complete: each answer so far was ended by a tool call. */
  lemma DoneEndsTheReplay(s: State, e: Event, result: string)
    requires StatusesOk(s.messages) && e.body == Done(result) && (e.stamp.Some? ==> !Ignored(s, e.stamp.value))
    ensures var s', n := Reduce(s, Receive(e)), |s.messages|;
            && !s'.running && s'.error == s.error && s'.taskID == s.taskID && |s'.messages| >= n
            && (forall i :: 0 <= i < n ==> EndsAs(s.messages[i], s'.messages[i], Completed) && s'.messages[i].status == Completed)
            && var ended := forall i :: 0 <= i < n && s.messages[i].role == Assistant ==> i + 1 < n && s.messages[i + 1].role == Tool;
               s'.messages[n..] == if ended && result != ""
                                   then [ChatMessage(None, Assistant, result, "", false, "", Completed)] else []
  {
    hide Ignored, Settle, EndsAs, StatusesOk, AnyStreaming;
    OnlyAnswersStream(s.messages);
    SettledAt(s.messages, Completed, true);
    CompletedAfter(s.messages, Settle(s.messages, Completed, true));
  }

  lemma OnlyAnswersStream(messages: seq<ChatMessage>)
    requires StatusesOk(messages)
    ensures forall i :: 0 <= i < |messages| && messages[i].status == Streaming ==> messages[i].role == Assistant
    ensures AnyStreaming(messages) <==>
            !forall i :: 0 <= i < |messages| && messages[i].role == Assistant ==> i + 1 < |messages| && messages[i + 1].role == Tool
  {
    forall i: nat | i < |messages| ensures messages[i].status == Streaming ==> messages[i].role == Assistant {
      assert StatusAt(messages, i);
    }
    if AnyStreaming(messages) {
      var i: nat :| i < |messages| && messages[i].role == Assistant && messages[i].status == Streaming;
      assert StatusAt(messages, i);
    } else {
      forall i: nat | i < |messages| && messages[i].role == Assistant ensures i + 1 < |messages| && messages[i + 1].role == Tool {
        assert StatusAt(messages, i);
      }
    }
  }

  lemma CompletedAfter(messages: seq<ChatMessage>, settled: seq<ChatMessage>)
    requires StatusesOk(messages) && |settled| == |messages|
    requires forall i :: 0 <= i < |messages| ==> EndsAs(messages[i], settled[i], Completed)
    ensures forall i :: 0 <= i < |settled| ==> settled[i].status == Completed
  {
    forall i: nat | i < |settled| ensures settled[i].status == Completed { assert StatusAt(messages, i); }
  }

  /** When the log's last message is an answer that is shown, its text comes from the deltas alone: the final event's
      result, the same text once more, is not shown a second time. */
  lemma ResultIsNotRepeated(s: State, last: nat, task: string, status: TaskStatus, message: string, log: seq<Event>,
                            order: seq<nat>, e: Event, result: string)
    requires GoodLog(log, task) && Delivers(order, log) && e.body == Done(result)
    requires var s' := Replayed(Reduce(s, Restore(last, Some(task), status, message)), log, order);
             && |s'.messages| > 0 && s'.messages[|s'.messages| - 1].role == Assistant
             && (e.stamp.Some? ==> !Ignored(s', e.stamp.value))
    ensures var s' := Replayed(Reduce(s, Restore(last, Some(task), status, message)), log, order);
            |Reduce(s', Receive(e)).messages| == |s'.messages|
  {
    hide GoodLog, Delivers, Reduce, Ignored, EndsAs, StatusesOk, Replayed;
    var s' := Replayed(Reduce(s, Restore(last, Some(task), status, message)), log, order);
    ReplayedStatuses(s, last, task, status, message, log, order);
    DoneEndsTheReplay(s', e, result);
  }
}
