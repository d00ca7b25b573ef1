/** The client's stream reducer, web/src/features/chat/reducer.ts. */
module Reducer {
  import opened Words

  datatype Role = User | Assistant | Tool

  datatype Status = Streaming | Completed | Error

  /** `number` is the message sequence; ids and times of creation are left out. */
  datatype ChatMessage = ChatMessage(
    number: Option<nat>, role: Role, content: string, reasoning: string, reasoningStreaming: bool, toolSummary: string,
    status: Status)

  datatype State = State(
    messages: seq<ChatMessage>, running: bool, taskID: Option<string>, lastMessage: Option<nat>, lastEvent: Option<nat>,
    error: Option<string>)

  datatype Body =
    | Prepare
    | Start
    | Reasoning(delta: string)
    | Message(delta: string)
    | ToolCall(info: string)
    | Failure(message: string)
    | Done(result: string)
    | TaskState
    | RefreshRequired

  /** Events of a task carry its id, their own number and the number of their message, 0 for none. */
  datatype Stamp = Stamp(task: string, id: nat, message: nat)

  datatype Event = Event(stamp: Option<Stamp>, body: Body)

  datatype TaskStatus = NoTask | Waiting | Running | Success | Fail

  datatype Action =
    | Accepted(task: string)
    | Restore(last: nat, owner: Option<string>, status: TaskStatus, message: string)
    | Reconnecting
    | Clear
    | Send(content: string)
    | Retry
    | Reconciled(preserveError: bool)
    | Failed(message: string)
    | Receive(event: Event)

  const RECONNECTING := "连接中断，正在重新连接…"

  function OrZero(n: Option<nat>): nat {
    if n.Some? then n.value else 0
  }

  function Last(messages: seq<ChatMessage>): Option<ChatMessage> {
    if |messages| == 0 then None else Some(messages[|messages| - 1])
  }

  /** appendAssistant. */
  function AppendAssistant(messages: seq<ChatMessage>, reasoning: bool, delta: string, number: Option<nat>): seq<ChatMessage> {
    var n := |messages|;
    if n > 0 && messages[n - 1].role == Assistant && messages[n - 1].status == Streaming && messages[n - 1].number == number then
      var last := messages[n - 1];
      messages[n - 1 := if reasoning then last.(reasoning := last.reasoning + delta, reasoningStreaming := true)
                        else last.(content := last.content + delta, reasoningStreaming := false)]
    else
      messages + [ChatMessage(number, Assistant, if reasoning then "" else delta, if reasoning then delta else "", reasoning, "",
                              Streaming)]
  }

  function CompleteLastAssistant(messages: seq<ChatMessage>): seq<ChatMessage> {
    var n := |messages|;
    if n == 0 || messages[n - 1].role != Assistant || messages[n - 1].status != Streaming then messages
    else messages[n - 1 := messages[n - 1].(reasoningStreaming := false, status := Completed)]
  }

  function Settle(messages: seq<ChatMessage>, status: Status, assistantOnly: bool): seq<ChatMessage> {
    if |messages| == 0 then []
    else
      var m := messages[|messages| - 1];
      Settle(messages[..|messages| - 1], status, assistantOnly)
      + [if m.status == Streaming && (assistantOnly ==> m.role == Assistant) then m.(reasoningStreaming := false, status := status) else m]
  }

  predicate AnyStreaming(messages: seq<ChatMessage>) {
    exists i :: 0 <= i < |messages| && messages[i].role == Assistant && messages[i].status == Streaming
  }

  /** Whether a stamped event is not for this state, seen already, or of a message the history has. */
  predicate Ignored(s: State, e: Stamp) {
    || s.taskID != Some(e.task) || e.id <= OrZero(s.lastEvent)
    || (e.message != 0 && e.message < OrZero(s.lastMessage))
    || (e.message != 0 && s.lastMessage == Some(e.message)
        && !(|s.messages| > 0 && s.messages[|s.messages| - 1].number == Some(e.message)))
  }

  function Stamped(s: State, e: Stamp): State {
    s.(lastEvent := Some(e.id), lastMessage := if e.message != 0 then Some(e.message) else s.lastMessage)
  }

  function Failing(s: State, message: string): State {
    s.(running := false, error := Some(message), messages := Settle(s.messages, Error, false))
  }

  function Apply(s: State, body: Body, number: Option<nat>): State {
    match body
    case Reasoning(delta) => if delta == "" then s else s.(messages := AppendAssistant(s.messages, true, delta, number))
    case Message(delta) => if delta == "" then s else s.(messages := AppendAssistant(s.messages, false, delta, number))
    case ToolCall(info) =>
      s.(messages := CompleteLastAssistant(s.messages) + [ChatMessage(number, Tool, "", "", false, info, Completed)])
    case Failure(message) => Failing(s, message)
    case Done(result) =>
      s.(running := false,
         messages := Settle(s.messages, Completed, true)
                     + if !AnyStreaming(s.messages) && result != ""
                       then [ChatMessage(None, Assistant, result, "", false, "", Completed)] else [])
    case _ => s
  }

  /** A message number of 0 reads as none when the message is built. */
  function NumberOf(e: Event): Option<nat> {
    if e.stamp.None? then None else Some(e.stamp.value.message)
  }

  function Reduce(s: State, a: Action): State {
    match a
    case Accepted(task) => s.(taskID := Some(task))
    case Restore(last, task, status, message) =>
      State([], status == Waiting || status == Running, task, Some(last), Some(0), if status == Fail then Some(message) else None)
    case Reconnecting => s.(running := true, error := Some(RECONNECTING))
    case Clear => State([], false, None, None, None, None)
    case Send(content) => State([ChatMessage(None, User, content, "", false, "", Completed)], true, None, None, None, None)
    case Retry => s.(messages := [], running := true, error := None)
    case Reconciled(preserveError) => if preserveError then s.(messages := [], running := false) else State([], false, None, None, None, None)
    case Failed(message) => Failing(s, message)
    case Receive(e) =>
      if e.body.TaskState? || e.body.RefreshRequired? then s
      else if e.stamp.None? then Apply(s, e.body, None)
      else if Ignored(s, e.stamp.value) then s
      else Apply(Stamped(s, e.stamp.value), e.body, NumberOf(e))
  }

  // ---------------------------------------------------------------- a task's log

  predicate IsDelta(b: Body) {
    b.Reasoning? || b.Message?
  }

  predicate Silent(b: Body) {
    IsDelta(b) && b.delta == ""
  }

  /** What the server logs for a task: numbered from 1; starts without a message; the message numbers never fall, and
      a number comes again only with deltas of the same message. A delta may be empty. */
  ghost predicate GoodLog(log: seq<Event>, task: string) {
    && (forall i :: 0 <= i < |log| ==> log[i].stamp.Some? && log[i].stamp.value.task == task && log[i].stamp.value.id == i + 1)
    && (forall i :: 0 <= i < |log| ==> BodyOk(log[i].body, Number(log[i])))
    && forall i, j :: 0 <= i < j < |log| && Number(log[i]) > 0 && Number(log[j]) > 0 ==>
         && Number(log[i]) <= Number(log[j])
         && (Number(log[i]) == Number(log[j]) ==> IsDelta(log[i].body) && IsDelta(log[j].body))
  }

  function Number(e: Event): nat {
    if e.stamp.Some? then e.stamp.value.message else 0
  }

  predicate BodyOk(b: Body, number: nat) {
    match b
    case Prepare => number == 0
    case Start => number == 0
    case Reasoning(_) => number > 0
    case Message(_) => number > 0
    case ToolCall(_) => number > 0
    case _ => false
  }

  function Fold(s: State, log: seq<Event>): State {
    if |log| == 0 then s else Reduce(Fold(s, log[..|log| - 1]), Receive(log[|log| - 1]))
  }

  /** The deltas of one message joined. */
  function Text(log: seq<Event>, number: nat, reasoning: bool): string {
    if |log| == 0 then ""
    else
      var e := log[|log| - 1];
      Text(log[..|log| - 1], number, reasoning)
      + if Number(e) == number && (if reasoning then e.body.Reasoning? else e.body.Message?) then e.body.delta else ""
  }

  ghost predicate Calls(log: seq<Event>, number: nat, info: string) {
    exists i :: 0 <= i < |log| && Number(log[i]) == number && log[i].body == ToolCall(info)
  }

  /** A message of the log: its number came after `last`, and it is a tool call or has some text. */
  ghost predicate Shown(log: seq<Event>, last: nat, number: nat) {
    && number > last
    && ((exists info :: Calls(log, number, info)) || Text(log, number, false) != "" || Text(log, number, true) != "")
  }

  /** A shown message is exactly what the log says about its number. */
  ghost predicate Faithful(m: ChatMessage, log: seq<Event>, last: nat) {
    && m.number.Some? && Shown(log, last, m.number.value)
    && (m.role == Tool ==> Calls(log, m.number.value, m.toolSummary) && m.content == "" && m.reasoning == "")
    && (m.role == Assistant ==> m.content == Text(log, m.number.value, false) && m.toolSummary == "")
    && (m.role == Assistant ==> m.reasoning == Text(log, m.number.value, true))
    && m.role != User
  }

  ghost predicate Ascending(messages: seq<ChatMessage>) {
    && (forall i :: 0 <= i < |messages| ==> messages[i].number.Some?)
    && forall i, j :: 0 <= i < j < |messages| ==> messages[i].number.value < messages[j].number.value
  }

  /** Exactly the messages of the log after `last`, in order. */
  ghost predicate Shows(messages: seq<ChatMessage>, log: seq<Event>, last: nat) {
    && Ascending(messages)
    && (forall i :: 0 <= i < |messages| ==> Faithful(messages[i], log, last))
    && forall number: nat :: Shown(log, last, number) ==> HasNumber(messages, number)
  }

  predicate HasNumber(messages: seq<ChatMessage>, number: nat) {
    exists i :: 0 <= i < |messages| && messages[i].number == Some(number)
  }

  /** No message after `last` begins with an empty delta and has text later. */
  ghost predicate FirstDeltaSpeaks(log: seq<Event>, last: nat) {
    forall i, k :: 0 <= i < k < |log| && last < Number(log[i]) == Number(log[k]) && Silent(log[i].body) && !Silent(log[k].body) ==>
      exists j :: 0 <= j < i && Number(log[j]) == Number(log[i])
  }

  // ---------------------------------------------------------------- what the reducer takes up

  /** The first event of a number. */
  function FirstOf(log: seq<Event>, number: nat): Option<Event> {
    if |log| == 0 then None
    else
      var before, e := FirstOf(log[..|log| - 1], number), log[|log| - 1];
      if before.Some? then before else if Number(e) == number then Some(e) else None
  }

  /** A number that begins with an empty delta is counted without a message, and passed over from then on. */
  predicate Muted(log: seq<Event>, number: nat) {
    FirstOf(log, number).Some? && Silent(FirstOf(log, number).value.body)
  }

  predicate Heard(log: seq<Event>, last: nat, number: nat) {
    number > last && FirstOf(log, number).Some? && !Muted(log, number)
  }

  /** The messages of the numbers that do not begin with an empty delta, and no others. */
  ghost predicate TakesUp(messages: seq<ChatMessage>, log: seq<Event>, last: nat) {
    && Ascending(messages)
    && (forall i :: 0 <= i < |messages| ==> Faithful(messages[i], log, last))
    && forall number: nat :: HasNumber(messages, number) <==> Heard(log, last, number)
  }

  lemma FirstGrows(log: seq<Event>, e: Event, number: nat)
    ensures FirstOf(log + [e], number)
            == if FirstOf(log, number).Some? then FirstOf(log, number) else if Number(e) == number then Some(e) else None
  {
    assert (log + [e])[..|log|] == log;
  }

  lemma {:induction false} FirstIsEarliest(log: seq<Event>, number: nat)
    ensures FirstOf(log, number) == None <==> forall i :: 0 <= i < |log| ==> Number(log[i]) != number
    ensures var e := FirstOf(log, number);
            e.Some? ==> exists i :: 0 <= i < |log| && log[i] == e.value && Number(log[i]) == number && FreshAt(log, i)
  {
    if |log| > 0 {
      var n := |log| - 1;
      FirstIsEarliest(log[..n], number);
      var e := FirstOf(log[..n], number);
      if e.Some? {
        var i :| 0 <= i < n && log[..n][i] == e.value && Number(log[..n][i]) == number && FreshAt(log[..n], i);
        assert log[i] == e.value && FreshAt(log, i);
      } else {
        assert forall i :: 0 <= i < n ==> Number(log[i]) == Number(log[..n][i]);
        assert Number(log[n]) == number ==> FreshAt(log, n);
      }
    }
  }

  ghost predicate FreshAt(log: seq<Event>, i: nat)
    requires i < |log|
  {
    forall j :: 0 <= j < i ==> Number(log[j]) != Number(log[i])
  }

  lemma TextGrows(log: seq<Event>, e: Event, number: nat, reasoning: bool)
    ensures Text(log + [e], number, reasoning)
            == Text(log, number, reasoning)
               + if Number(e) == number && (if reasoning then e.body.Reasoning? else e.body.Message?) then e.body.delta else ""
  {
    assert (log + [e])[..|log|] == log;
  }

  lemma {:induction false} NoText(log: seq<Event>, number: nat, reasoning: bool)
    requires forall i :: 0 <= i < |log| ==> Number(log[i]) != number
    ensures Text(log, number, reasoning) == ""
  {
    if |log| > 0 { NoText(log[..|log| - 1], number, reasoning); }
  }

  /** A message has some text exactly when one of its deltas is not empty. */
  lemma {:induction false} TextSpeaks(log: seq<Event>, number: nat)
    ensures Text(log, number, false) != "" || Text(log, number, true) != "" <==>
            exists k :: 0 <= k < |log| && Number(log[k]) == number && IsDelta(log[k].body) && !Silent(log[k].body)
  {
    if |log| > 0 {
      var n := |log| - 1;
      TextSpeaks(log[..n], number);
      assert forall k :: 0 <= k < n ==> log[k] == log[..n][k];
    }
  }

  lemma CallsGrow(log: seq<Event>, e: Event, number: nat, info: string)
    ensures Calls(log, number, info) ==> Calls(log + [e], number, info)
    ensures Number(e) == number && e.body == ToolCall(info) ==> Calls(log + [e], number, info)
  {
    var log' := log + [e];
    if Calls(log, number, info) {
      var i :| 0 <= i < |log| && Number(log[i]) == number && log[i].body == ToolCall(info);
      assert log'[i] == log[i];
    }
    assert log'[|log|] == e;
  }

  lemma ShownGrows(log: seq<Event>, e: Event, last: nat, number: nat)
    ensures Shown(log, last, number) ==> Shown(log + [e], last, number)
    ensures number == Number(e) > last && BodyOk(e.body, number) && !Silent(e.body) ==> Shown(log + [e], last, number)
  {
    TextGrows(log, e, number, false);
    TextGrows(log, e, number, true);
    if info :| Calls(log, number, info) { CallsGrow(log, e, number, info); }
    if e.body.ToolCall? { CallsGrow(log, e, number, e.body.info); }
  }

  lemma HeardGrows(log: seq<Event>, e: Event, last: nat, number: nat)
    ensures Heard(log + [e], last, number) <==>
              Heard(log, last, number) || (number == Number(e) > last && FirstOf(log, number).None? && !Silent(e.body))
  {
    FirstGrows(log, e, number);
  }

  /** An event of another number, or an empty delta, leaves a message what the log says. */
  lemma FaithfulStays(m: ChatMessage, log: seq<Event>, e: Event, last: nat)
    requires Faithful(m, log, last) && (Number(e) != m.number.value || Silent(e.body))
    ensures Faithful(m, log + [e], last)
  {
    ShownGrows(log, e, last, m.number.value);
    TextGrows(log, e, m.number.value, false);
    TextGrows(log, e, m.number.value, true);
    CallsGrow(log, e, m.number.value, m.toolSummary);
  }

  /** Events of the history, empty deltas and events of a muted number leave what is shown as it is. */
  lemma HiddenKeeps(messages: seq<ChatMessage>, log: seq<Event>, e: Event, last: nat)
    requires TakesUp(messages, log, last) && (Number(e) <= last || Silent(e.body) || Muted(log, Number(e)))
    ensures TakesUp(messages, log + [e], last)
  {
    hide Faithful, Shown, HasNumber;
    forall i | 0 <= i < |messages| ensures Faithful(messages[i], log + [e], last) {
      HeardAt(messages, i);
      FaithfulStays(messages[i], log, e, last);
    }
    forall number: nat ensures HasNumber(messages, number) <==> Heard(log + [e], last, number) {
      HeardGrows(log, e, last, number);
    }
  }

  lemma HeardAt(messages: seq<ChatMessage>, i: nat)
    requires i < |messages| && messages[i].number.Some?
    ensures HasNumber(messages, messages[i].number.value)
  {
    assert messages[i].number == Some(messages[i].number.value);
  }

  /** A message of a new number at the end. */
  lemma NewMessage(messages: seq<ChatMessage>, log: seq<Event>, e: Event, last: nat, m: ChatMessage)
    requires TakesUp(messages, log, last) && Number(e) > last && m.number == Some(Number(e)) && !Silent(e.body)
    requires FirstOf(log, Number(e)).None? && forall i :: 0 <= i < |messages| ==> messages[i].number.value < Number(e)
    requires Faithful(m, log + [e], last)
    ensures TakesUp(messages + [m], log + [e], last)
  {
    hide Faithful, Shown;
    var messages' := messages + [m];
    forall i | 0 <= i < |messages'| ensures Faithful(messages'[i], log + [e], last) {
      if i < |messages| { FaithfulStays(messages[i], log, e, last); }
    }
    forall number: nat ensures HasNumber(messages', number) <==> Heard(log + [e], last, number) {
      HeardGrows(log, e, last, number);
      OneNumberMore(messages, m, number);
    }
  }

  lemma OneNumberMore(messages: seq<ChatMessage>, m: ChatMessage, number: nat)
    ensures HasNumber(messages + [m], number) <==> HasNumber(messages, number) || m.number == Some(number)
  {
    var messages' := messages + [m];
    if HasNumber(messages, number) {
      var i :| 0 <= i < |messages| && messages[i].number == Some(number);
      assert messages'[i].number == Some(number);
    }
    assert messages'[|messages|] == m;
  }

  /** More text for the last message. */
  lemma SameMessage(messages: seq<ChatMessage>, log: seq<Event>, e: Event, last: nat, m: ChatMessage)
    requires TakesUp(messages, log, last) && |messages| > 0 && messages[|messages| - 1].number == Some(Number(e)) == m.number
    requires Faithful(m, log + [e], last)
    ensures TakesUp(messages[|messages| - 1 := m], log + [e], last)
  {
    hide Faithful, Shown;
    var n := |messages| - 1;
    var messages' := messages[n := m];
    HeardAt(messages, n);
    forall i | 0 <= i < |messages'| ensures Faithful(messages'[i], log + [e], last) {
      if i < n { FaithfulStays(messages[i], log, e, last); }
    }
    forall number: nat ensures HasNumber(messages', number) <==> Heard(log + [e], last, number) {
      HeardGrows(log, e, last, number);
      SameNumbers(messages, messages', number);
    }
  }

  lemma SameNumbers(a: seq<ChatMessage>, b: seq<ChatMessage>, number: nat)
    requires |a| == |b| && forall i :: 0 <= i < |a| ==> b[i].number == a[i].number
    ensures HasNumber(a, number) <==> HasNumber(b, number)
  {
  }

  // ---------------------------------------------------------------- after a prefix of the log

  ghost predicate Following(s: State, log: seq<Event>, last: nat, task: string) {
    && s.taskID == Some(task) && s.lastMessage.Some? && s.lastMessage.value >= last && s.lastEvent.Some?
    && s.lastEvent.value <= |log|
    && (forall k :: 0 <= k < |log| ==> PassedOver(s, log, last, k))
    && (forall k :: 0 <= k < |log| ==> Number(log[k]) <= s.lastMessage.value)
    && (s.lastMessage.value > last ==> FirstOf(log, s.lastMessage.value).Some?)
    && TailStreams(s.messages) && TakesUp(s.messages, log, last)
  }

  /** Counted, of the history, or of a number that began with an empty delta. */
  ghost predicate PassedOver(s: State, log: seq<Event>, last: nat, k: nat)
    requires k < |log|
  {
    || k + 1 <= OrZero(s.lastEvent)
    || 0 < Number(log[k]) <= last
    || (Number(log[k]) > 0 && Muted(log, Number(log[k])))
  }

  predicate TailStreams(messages: seq<ChatMessage>) {
    var n := |messages|;
    n > 0 && messages[n - 1].role == Assistant ==> messages[n - 1].status == Streaming
  }

  /** No message has a later number than the latest seen, and the last one has it unless that is muted. */
  lemma TailIsLatest(s: State, log: seq<Event>, last: nat, task: string)
    requires Following(s, log, last, task)
    ensures forall i :: 0 <= i < |s.messages| ==> last < s.messages[i].number.value <= s.lastMessage.value
    ensures var n, latest := |s.messages|, s.lastMessage.value;
            n > 0 && s.messages[n - 1].number == Some(latest) <==> Heard(log, last, latest)
  {
    hide Faithful, Muted;
    var n, latest := |s.messages|, s.lastMessage.value;
    forall i | 0 <= i < n ensures last < s.messages[i].number.value <= latest {
      var number := s.messages[i].number.value;
      HeardAt(s.messages, i);
      assert Heard(log, last, number);
      FirstIsEarliest(log, number);
    }
    if Heard(log, last, latest) {
      assert HasNumber(s.messages, latest);
      var i :| 0 <= i < n && s.messages[i].number == Some(latest);
    }
    if n > 0 { HeardAt(s.messages, n - 1); }
  }

  /** An event seen before leaves the state unchanged. */
  lemma SeenChangesNothing(s: State, log: seq<Event>, last: nat, task: string, k: nat)
    requires GoodLog(log, task) && Following(s, log, last, task) && k < |log|
    ensures Reduce(s, Receive(log[k])) == s
  {
    TailIsLatest(s, log, last, task);
    assert PassedOver(s, log, last, k);
    hide TakesUp, Apply;
  }

  // ---------------------------------------------------------------- the next event

  lemma Prefix(log: seq<Event>, e: Event, task: string)
    requires GoodLog(log + [e], task)
    ensures GoodLog(log, task)
    ensures e.stamp == Some(Stamp(task, |log| + 1, Number(e))) && BodyOk(e.body, Number(e))
    ensures forall i :: 0 <= i < |log| && Number(log[i]) > 0 && Number(e) > 0 ==>
              Number(log[i]) <= Number(e) && (Number(log[i]) == Number(e) ==> IsDelta(log[i].body) && IsDelta(e.body))
  {
    var log' := log + [e];
    assert log'[|log|] == e && forall i :: 0 <= i < |log| ==> log'[i] == log[i];
  }

  /** Everything but the messages after one more event, which is counted or passed over. */
  lemma CountersFollow(s: State, log: seq<Event>, e: Event, last: nat, task: string, s': State)
    requires Following(s, log, last, task)
    requires s'.taskID == s.taskID && TailStreams(s'.messages) && TakesUp(s'.messages, log + [e], last)
    requires if Passes(s, log, e, last) then s'.lastEvent == s.lastEvent && s'.lastMessage == s.lastMessage
             else s'.lastEvent == Some(|log| + 1) && s'.lastMessage == if Number(e) == 0 then s.lastMessage else Some(Number(e))
    requires Number(e) > last ==> Number(e) >= s.lastMessage.value
    ensures Following(s', log + [e], last, task)
  {
    hide TakesUp, TailStreams;
    var log' := log + [e];
    forall k | 0 <= k < |log'| ensures PassedOver(s', log', last, k) && Number(log'[k]) <= s'.lastMessage.value {
      FirstGrows(log, e, Number(log'[k]));
      if k < |log| { assert log'[k] == log[k] && PassedOver(s, log, last, k); }
    }
    FirstGrows(log, e, s'.lastMessage.value);
  }

  /** The next event is of the history, or of a muted number. */
  predicate Passes(s: State, log: seq<Event>, e: Event, last: nat) {
    0 < Number(e) && (Number(e) <= last || (s.lastMessage == Some(Number(e)) && Muted(log, Number(e))))
  }

  /** No later event has a smaller number than the latest seen, and that number goes on with deltas only. */
  lemma NumbersGoOn(s: State, log: seq<Event>, e: Event, last: nat, task: string)
    requires GoodLog(log + [e], task) && Following(s, log, last, task) && Number(e) > last
    ensures Number(e) >= s.lastMessage.value
    ensures forall i :: 0 <= i < |s.messages| ==> s.messages[i].number.value <= s.lastMessage.value
    ensures Number(e) > s.lastMessage.value ==> FirstOf(log, Number(e)).None?
    ensures Number(e) == s.lastMessage.value ==> IsDelta(e.body) && FirstOf(log, Number(e)).Some?
    ensures Number(e) == s.lastMessage.value && !Muted(log, Number(e)) ==>
              && |s.messages| > 0 && s.messages[|s.messages| - 1].number == Some(Number(e))
              && s.messages[|s.messages| - 1].role == Assistant
  {
    Prefix(log, e, task);
    TailIsLatest(s, log, last, task);
    hide TakesUp, GoodLog, Faithful;
    FirstIsEarliest(log, s.lastMessage.value);
    FirstIsEarliest(log, Number(e));
    if Number(e) == s.lastMessage.value && !Muted(log, Number(e)) { TailIsAnswer(s.messages, log, e, last); }
  }

  lemma TailIsAnswer(messages: seq<ChatMessage>, log: seq<Event>, e: Event, last: nat)
    requires TakesUp(messages, log, last) && |messages| > 0 && messages[|messages| - 1].number == Some(Number(e))
    requires forall i :: 0 <= i < |log| && Number(log[i]) == Number(e) ==> IsDelta(log[i].body)
    ensures messages[|messages| - 1].role == Assistant
  {
    hide Shown, HasNumber, Heard;
    var m := messages[|messages| - 1];
    assert Faithful(m, log, last);
  }

  lemma StepFollows(s: State, log: seq<Event>, e: Event, last: nat, task: string)
    requires GoodLog(log + [e], task) && Following(s, log, last, task)
    ensures Following(Reduce(s, Receive(e)), log + [e], last, task)
  {
    var s' := Reduce(s, Receive(e));
    if Number(e) > last { NumbersGoOn(s, log, e, last, task); }
    if Number(e) == 0 || Passes(s, log, e, last) {
      NotShown(s, log, e, last, task);
      HiddenKeeps(s.messages, log, e, last);
    } else {
      Taken(s, log, e, last, task);
      var stamped := Stamped(s, Stamp(task, |log| + 1, Number(e)));
      Prefix(log, e, task);
      hide GoodLog, Reduce;
      ApplyTakesUp(s, stamped, log, e, last);
    }
    assert s'.taskID == s.taskID;
    hide Following, Reduce, TakesUp, TailStreams, GoodLog;
    CountersFollow(s, log, e, last, task, s');
  }

  /** An event of the history or of a muted number is passed over; one without a message only counts. */
  lemma NotShown(s: State, log: seq<Event>, e: Event, last: nat, task: string)
    requires GoodLog(log + [e], task) && Following(s, log, last, task) && (Number(e) == 0 || Passes(s, log, e, last))
    ensures var s' := Reduce(s, Receive(e));
            && s'.messages == s.messages && s'.taskID == s.taskID && s'.lastMessage == s.lastMessage
            && s'.lastEvent == if Number(e) == 0 then Some(|log| + 1) else s.lastEvent
  {
    Prefix(log, e, task);
    TailIsLatest(s, log, last, task);
    hide TakesUp, GoodLog;
  }

  /** An event of a later message is taken. */
  lemma Taken(s: State, log: seq<Event>, e: Event, last: nat, task: string)
    requires GoodLog(log + [e], task) && Following(s, log, last, task) && Number(e) > last && !Passes(s, log, e, last)
    ensures var stamped := Stamped(s, Stamp(task, |log| + 1, Number(e)));
            Reduce(s, Receive(e)) == Apply(stamped, e.body, Some(Number(e)))
  {
    Prefix(log, e, task);
    NumbersGoOn(s, log, e, last, task);
    hide TakesUp, GoodLog, Apply;
  }

  /** An empty delta adds nothing; another event extends its message, or starts it. */
  lemma ApplyTakesUp(s: State, stamped: State, log: seq<Event>, e: Event, last: nat)
    requires s.lastMessage.Some? && TailStreams(s.messages) && TakesUp(s.messages, log, last)
    requires Number(e) > last && BodyOk(e.body, Number(e)) && Number(e) >= s.lastMessage.value
    requires stamped.messages == s.messages && stamped.lastMessage == Some(Number(e))
    requires forall i :: 0 <= i < |log| ==> Number(log[i]) <= s.lastMessage.value
    requires forall i :: 0 <= i < |s.messages| ==> s.messages[i].number.value <= s.lastMessage.value
    requires Number(e) > s.lastMessage.value ==> FirstOf(log, Number(e)).None?
    requires Number(e) == s.lastMessage.value ==>
               && |s.messages| > 0 && s.messages[|s.messages| - 1].number == Some(Number(e))
               && s.messages[|s.messages| - 1].role == Assistant && IsDelta(e.body)
    ensures var s' := Apply(stamped, e.body, Some(Number(e)));
            && TailStreams(s'.messages) && TakesUp(s'.messages, log + [e], last)
            && s'.taskID == stamped.taskID && s'.lastEvent == stamped.lastEvent && s'.lastMessage == stamped.lastMessage
  {
    hide TakesUp, Faithful, Text, FirstOf;
    var s', n := Apply(stamped, e.body, Some(Number(e))), |s.messages|;
    if Silent(e.body) {
      HiddenKeeps(s.messages, log, e, last);
    } else if Number(e) == s.lastMessage.value {
      ExtendedIsFaithful(s, log, e, last);
      SameMessage(s.messages, log, e, last, s'.messages[n - 1]);
    } else if e.body.ToolCall? {
      NewTool(s, log, e, last, ChatMessage(Some(Number(e)), Tool, "", "", false, e.body.info, Completed));
    } else {
      hide CompleteLastAssistant;
      NewAnswer(s, log, e, last, s'.messages[n]);
    }
  }

  lemma ExtendedIsFaithful(s: State, log: seq<Event>, e: Event, last: nat)
    requires TakesUp(s.messages, log, last) && |s.messages| > 0 && Number(e) > last && IsDelta(e.body)
    requires var m := s.messages[|s.messages| - 1]; m.number == Some(Number(e)) && m.role == Assistant && m.status == Streaming
    ensures var n := |s.messages| - 1;
            var messages := AppendAssistant(s.messages, e.body.Reasoning?, e.body.delta, Some(Number(e)));
            && |messages| == n + 1 && messages == s.messages[n := messages[n]] && messages[n].status == Streaming
            && messages[n].number == Some(Number(e)) && messages[n].role == Assistant && Faithful(messages[n], log + [e], last)
  {
    var m := s.messages[|s.messages| - 1];
    assert Faithful(m, log, last);
    ShownGrows(log, e, last, Number(e));
    TextGrows(log, e, Number(e), false);
    TextGrows(log, e, Number(e), true);
  }

  lemma NewAnswer(s: State, log: seq<Event>, e: Event, last: nat, m: ChatMessage)
    requires TakesUp(s.messages, log, last) && Number(e) > last && IsDelta(e.body) && !Silent(e.body)
    requires FirstOf(log, Number(e)).None? && forall i :: 0 <= i < |s.messages| ==> s.messages[i].number.value < Number(e)
    requires forall i :: 0 <= i < |log| ==> Number(log[i]) < Number(e)
    requires m == ChatMessage(Some(Number(e)), Assistant, if e.body.Reasoning? then "" else e.body.delta,
                              if e.body.Reasoning? then e.body.delta else "", e.body.Reasoning?, "", Streaming)
    ensures TakesUp(s.messages + [m], log + [e], last)
  {
    hide TakesUp;
    ShownGrows(log, e, last, Number(e));
    TextGrows(log, e, Number(e), false);
    TextGrows(log, e, Number(e), true);
    NoText(log, Number(e), false);
    NoText(log, Number(e), true);
    NewMessage(s.messages, log, e, last, m);
  }

  lemma NewTool(s: State, log: seq<Event>, e: Event, last: nat, m: ChatMessage)
    requires TakesUp(s.messages, log, last) && Number(e) > last && e.body.ToolCall?
    requires FirstOf(log, Number(e)).None? && forall i :: 0 <= i < |s.messages| ==> s.messages[i].number.value < Number(e)
    requires m == ChatMessage(Some(Number(e)), Tool, "", "", false, e.body.info, Completed)
    ensures TakesUp(CompleteLastAssistant(s.messages) + [m], log + [e], last)
  {
    ShownGrows(log, e, last, Number(e));
    CallsGrow(log, e, Number(e), e.body.info);
    CompletedTakesUp(s.messages, log, last);
    hide TakesUp;
    NewMessage(CompleteLastAssistant(s.messages), log, e, last, m);
  }

  lemma CompletedTakesUp(messages: seq<ChatMessage>, log: seq<Event>, last: nat)
    requires TakesUp(messages, log, last)
    ensures TakesUp(CompleteLastAssistant(messages), log, last)
    ensures var c := CompleteLastAssistant(messages);
            |c| == |messages| && forall i :: 0 <= i < |c| ==> c[i].number == messages[i].number
  {
    var c := CompleteLastAssistant(messages);
    hide Shown, Faithful, HasNumber, Heard;
    forall i | 0 <= i < |c| ensures Faithful(c[i], log, last) { SettledIsFaithful(messages[i], c[i], log, last); }
    forall number: nat ensures HasNumber(c, number) <==> Heard(log, last, number) { SameNumbers(messages, c, number); }
  }

  lemma SettledIsFaithful(m: ChatMessage, m': ChatMessage, log: seq<Event>, last: nat)
    requires Faithful(m, log, last) && m' == m.(reasoningStreaming := m'.reasoningStreaming, status := m'.status)
    ensures Faithful(m', log, last)
  {
  }

  // ---------------------------------------------------------------- when that is the whole log

  /** A shown message is taken up unless it began with an empty delta. */
  lemma ShownIsHeard(log: seq<Event>, last: nat, number: nat)
    requires Shown(log, last, number)
    ensures FirstOf(log, number).Some?
  {
    FirstIsEarliest(log, number);
    TextSpeaks(log, number);
    if info :| Calls(log, number, info) {
      var i :| 0 <= i < |log| && Number(log[i]) == number && log[i].body == ToolCall(info);
    }
  }

  /** A message of the log that begins with an empty delta: exactly what FirstDeltaSpeaks rules out. */
  lemma MutedIsUnspoken(log: seq<Event>, last: nat, number: nat, task: string)
    requires GoodLog(log, task) && Shown(log, last, number) && Muted(log, number)
    ensures !FirstDeltaSpeaks(log, last)
  {
    FirstIsEarliest(log, number);
    var i :| 0 <= i < |log| && log[i] == FirstOf(log, number).value && Number(log[i]) == number && FreshAt(log, i);
    var k :| 0 <= k < |log| && Number(log[k]) == number && !Silent(log[k].body) by { SpokenAt(log, last, number); }
    assert i < k && Silent(log[i].body);
  }

  lemma SpokenAt(log: seq<Event>, last: nat, number: nat)
    requires Shown(log, last, number)
    ensures exists k :: 0 <= k < |log| && Number(log[k]) == number && !Silent(log[k].body)
  {
    TextSpeaks(log, number);
    if info :| Calls(log, number, info) {
      var k :| 0 <= k < |log| && Number(log[k]) == number && log[k].body == ToolCall(info);
      assert !Silent(log[k].body);
    }
  }

  lemma UnspokenIsMuted(log: seq<Event>, last: nat, task: string) returns (number: nat)
    requires GoodLog(log, task) && !FirstDeltaSpeaks(log, last)
    ensures Shown(log, last, number) && Muted(log, number)
  {
    var i, k :| 0 <= i < k < |log| && last < Number(log[i]) == Number(log[k]) && Silent(log[i].body) && !Silent(log[k].body)
                && !(exists j :: 0 <= j < i && Number(log[j]) == Number(log[i]));
    number := Number(log[i]);
    FirstIsEarliest(log, number);
    var f :| 0 <= f < |log| && log[f] == FirstOf(log, number).value && Number(log[f]) == number && FreshAt(log, f);
    assert f == i;
    TextSpeaks(log, number);
    assert IsDelta(log[k].body);
  }

  /** What is taken up is the whole log exactly when no message begins with an empty delta and has text later. */
  lemma ShowsExactlyWhenFirstSpeaks(messages: seq<ChatMessage>, log: seq<Event>, last: nat, task: string)
    requires GoodLog(log, task) && TakesUp(messages, log, last)
    ensures Shows(messages, log, last) <==> FirstDeltaSpeaks(log, last)
  {
    hide GoodLog, Shown, Muted, FirstDeltaSpeaks, Faithful, HasNumber;
    if FirstDeltaSpeaks(log, last) {
      forall number: nat | Shown(log, last, number) ensures HasNumber(messages, number) {
        ShownIsHeard(log, last, number);
        if Muted(log, number) { MutedIsUnspoken(log, last, number, task); }
        assert number > last by { ShownIsAbove(log, last, number); }
      }
    } else {
      var number := UnspokenIsMuted(log, last, task);
      assert !Heard(log, last, number);
    }
  }

  lemma ShownIsAbove(log: seq<Event>, last: nat, number: nat)
    requires Shown(log, last, number)
    ensures number > last
  {
  }

  // ---------------------------------------------------------------- replays

  /** How far into the log a delivery has come: places are counted when they come for the first time. */
  function Reached(order: seq<nat>): nat {
    if |order| == 0 then 0
    else
      var before := Reached(order[..|order| - 1]);
      if order[|order| - 1] == before then before + 1 else before
  }

  /** Each event is the next one of the log or one delivered before. */
  ghost predicate Delivers(order: seq<nat>, log: seq<Event>) {
    && Reached(order) <= |log|
    && forall i :: 0 <= i < |order| ==> order[i] <= Reached(order[..i])
  }

  function Replayed(s: State, log: seq<Event>, order: seq<nat>): State {
    if |order| == 0 then s
    else
      var before := Replayed(s, log, order[..|order| - 1]);
      var k := order[|order| - 1];
      if k < |log| then Reduce(before, Receive(log[k])) else before
  }

  lemma RestoredFollows(last: nat, task: string, status: TaskStatus, message: string, s: State)
    ensures Following(Reduce(s, Restore(last, Some(task), status, message)), [], last, task)
  {
  }

  lemma {:induction false} FoldFollows(s: State, log: seq<Event>, last: nat, task: string)
    requires GoodLog(log, task) && Following(s, [], last, task)
    ensures Following(Fold(s, log), log, last, task)
  {
    if |log| > 0 {
      var n := |log| - 1;
      assert log == log[..n] + [log[n]];
      hide GoodLog, Following, Reduce;
      Prefix(log[..n], log[n], task);
      FoldFollows(s, log[..n], last, task);
      StepFollows(Fold(s, log[..n]), log[..n], log[n], last, task);
    }
  }

  lemma {:induction false} ReplayedIsFolded(s: State, log: seq<Event>, order: seq<nat>, last: nat, task: string)
    requires GoodLog(log, task) && Following(s, [], last, task) && Delivers(order, log)
    ensures Replayed(s, log, order) == Fold(s, log[..Reached(order)])
  {
    if |order| == 0 {
      assert log[..0] == [];
    } else {
      var m := |order| - 1;
      var before, c, k := order[..m], Reached(order[..m]), order[m];
      assert forall i :: 0 <= i < m ==> before[..i] == order[..i];
      hide GoodLog, Following, Reduce;
      ReplayedIsFolded(s, log, before, last, task);
      GoodPrefix(log, c, task);
      FoldFollows(s, log[..c], last, task);
      if k < c {
        SeenChangesNothing(Fold(s, log[..c]), log[..c], last, task, k);
      } else {
        assert log[..c + 1][..c] == log[..c];
      }
    }
  }

  lemma GoodPrefix(log: seq<Event>, c: nat, task: string)
    requires GoodLog(log, task) && c <= |log|
    ensures GoodLog(log[..c], task)
  {
  }

  /** After a restore, a task's log delivered with any repetitions shows exactly the messages that came after the
      history, in strictly increasing order, each answer the joined deltas of its number, each tool call once, if and
      only if no such message begins with an empty delta and has text later. */
  lemma ReplayShowsTheLog(s: State, last: nat, task: string, status: TaskStatus, message: string, log: seq<Event>, order: seq<nat>)
    requires GoodLog(log, task) && Delivers(order, log)
    ensures var s' := Replayed(Reduce(s, Restore(last, Some(task), status, message)), log, order);
            Shows(s'.messages, log[..Reached(order)], last) <==> FirstDeltaSpeaks(log[..Reached(order)], last)
  {
    var r := Reduce(s, Restore(last, Some(task), status, message));
    RestoredFollows(last, task, status, message, s);
    GoodPrefix(log, Reached(order), task);
    hide GoodLog, Delivers, Reduce, Shows, FirstDeltaSpeaks;
    ReplayedIsFolded(r, log, order, last, task);
    FoldFollows(r, log[..Reached(order)], last, task);
    ShowsExactlyWhenFirstSpeaks(Fold(r, log[..Reached(order)]).messages, log[..Reached(order)], last, task);
  }

  /** Even so, what is shown is always part of the log: exactly the messages that do not begin with an empty delta. */
  lemma ReplayTakesUpTheHeard(s: State, last: nat, task: string, status: TaskStatus, message: string, log: seq<Event>,
                              order: seq<nat>)
    requires GoodLog(log, task) && Delivers(order, log)
    ensures var s' := Replayed(Reduce(s, Restore(last, Some(task), status, message)), log, order);
            TakesUp(s'.messages, log[..Reached(order)], last)
  {
    var r := Reduce(s, Restore(last, Some(task), status, message));
    RestoredFollows(last, task, status, message, s);
    GoodPrefix(log, Reached(order), task);
    hide GoodLog, Delivers, Reduce, TakesUp;
    ReplayedIsFolded(r, log, order, last, task);
    FoldFollows(r, log[..Reached(order)], last, task);
  }

  /** An event that was delivered before changes nothing, however often it comes again. */
  lemma RepetitionChangesNothing(s: State, last: nat, task: string, status: TaskStatus, message: string, log: seq<Event>,
                                 order: seq<nat>, k: nat)
    requires GoodLog(log, task) && Delivers(order, log) && k < Reached(order)
    ensures var s' := Replayed(Reduce(s, Restore(last, Some(task), status, message)), log, order);
            Reduce(s', Receive(log[k])) == s'
  {
    var r := Reduce(s, Restore(last, Some(task), status, message));
    RestoredFollows(last, task, status, message, s);
    ReplayedIsFolded(r, log, order, last, task);
    var c := Reached(order);
    GoodPrefix(log, c, task);
    FoldFollows(r, log[..c], last, task);
    SeenChangesNothing(Fold(r, log[..c]), log[..c], last, task, k);
  }

  // ---------------------------------------------------------------- an empty first delta

  /** An empty first delta is counted without showing a message, and what follows under its number is then taken for
      part of the history: the whole answer `text` stays invisible, whatever it is. */
  lemma EmptyFirstDeltaHidesTheAnswer(s: State, task: string, number: nat, text: string)
    requires number > 0 && text != ""
    ensures var log := [Event(Some(Stamp(task, 1, number)), Message("")), Event(Some(Stamp(task, 2, number)), Message(text))];
            var s' := Fold(Reduce(s, Restore(0, Some(task), Running, "")), log);
            Text(log, number, false) == text && s'.messages == []
  {
    var first, second := Event(Some(Stamp(task, 1, number)), Message("")), Event(Some(Stamp(task, 2, number)), Message(text));
    var r := Reduce(s, Restore(0, Some(task), Running, ""));
    var counted := r.(lastEvent := Some(1), lastMessage := Some(number));
    assert Reduce(r, Receive(first)) == counted && Reduce(counted, Receive(second)) == counted;
    hide Reduce;
    var log := [first, second];
    assert log[..1] == [first] && [first][..0] == [];
    assert Fold(r, [first]) == Reduce(Fold(r, []), Receive(first)) == counted;
    assert Fold(r, log) == Reduce(Fold(r, log[..1]), Receive(second));
    assert Text([first], number, false) == Text([], number, false) + "";
    assert Text(log, number, false) == Text(log[..1], number, false) + text;
  }
}
