/** The session aggregate of internal/domain/session: what may be committed, and how each operation changes it. */
module SessionState {
  import opened Words
  import opened Messages
  import opened Lineage
  import Compress

  const MAX64: nat := TWO64 - 1

  // ---------------------------------------------------------------- Validate

  ghost predicate OriginalsValid(m: Message, last: nat) {
    && |m.original| > 0 && m.original[0] == m.number
    && Increasing(m.original) && forall k :: 0 <= k < |m.original| ==> 0 < m.original[k] <= last
  }

  ghost predicate NumbersValid(msgs: seq<Message>, last: nat) {
    && (forall i :: 0 <= i < |msgs| ==> 0 < msgs[i].number <= last)
    && forall i, j :: 0 <= i < j < |msgs| ==> msgs[i].number < msgs[j].number
  }

  ghost predicate SystemFirst(msgs: seq<Message>) {
    forall i :: 0 <= i < |msgs| ==> (msgs[i].role == System <==> i == 0)
  }

  ghost predicate Valid(c: Context) {
    && c.generation > 0
    && SystemFirst(c.messages) && NumbersValid(c.messages, c.last)
    && (forall i :: 0 <= i < |c.messages| ==> OriginalsValid(c.messages[i], c.last))
    && c.last == if |c.messages| == 0 then 0 else c.messages[|c.messages| - 1].number
  }

  method ValidateOriginalSeq(m: Message, last: nat) returns (ok: bool)
    ensures ok <==> OriginalsValid(m, last)
  {
    if |m.original| == 0 || m.original[0] != m.number { return false; }
    var previous := 0;
    var k := 0;
    while k < |m.original|
      invariant 0 <= k <= |m.original| && previous == if k == 0 then 0 else m.original[k - 1]
      invariant forall j :: 0 <= j < k ==> 0 < m.original[j] <= last && m.original[j] <= previous
      invariant forall i, j :: 0 <= i < j < k ==> m.original[i] < m.original[j]
    {
      if m.original[k] == 0 || m.original[k] > last || m.original[k] <= previous {
        return false;
      }
      previous := m.original[k];
      k := k + 1;
    }
    return true;
  }

  method Validate(c: Context) returns (ok: bool)
    ensures ok <==> Valid(c)
  {
    hide OriginalsValid;
    if c.generation == 0 { return false; }
    if |c.messages| == 0 { return c.last == 0; }
    var previous := 0;
    var i := 0;
    while i < |c.messages|
      invariant 0 <= i <= |c.messages| && previous == if i == 0 then 0 else c.messages[i - 1].number
      invariant SystemFirst(c.messages[..i])
      invariant forall j :: 0 <= j < i ==> 0 < c.messages[j].number <= c.last && c.messages[j].number <= previous
      invariant forall j, k :: 0 <= j < k < i ==> c.messages[j].number < c.messages[k].number
      invariant forall j :: 0 <= j < i ==> OriginalsValid(c.messages[j], c.last)
    {
      var m := c.messages[i];
      if i == 0 && m.role != System { return false; }
      if i > 0 && m.role == System { return false; }
      if m.number == 0 || m.number <= previous || m.number > c.last {
        return false;
      }
      var ok' := ValidateOriginalSeq(m, c.last);
      if !ok' { return false; }
      previous := m.number;
      i := i + 1;
    }
    return previous == c.last;
  }

  // ---------------------------------------------------------------- what the operations compute

  datatype AppendFault = SystemViaAppend | Exhausted | NotAfterLast | ForeignOriginal

  datatype Appending = Refused(fault: AppendFault) | Identified(msg: Message)

  /** identify: a message without a number takes the next one; a numbered one must come after the last; it stands
      for itself alone. */
  function Identify(last: nat, m: Message): Appending {
    if m.role == System then Refused(SystemViaAppend)
    else if m.number == 0 && last == MAX64 then Refused(Exhausted)
    else
      var number := if m.number == 0 then last + 1 else m.number;
      if number <= last then Refused(NotAfterLast)
      else if m.original != [] && m.original != [number] then Refused(ForeignOriginal)
      else Identified(m.(number := number, original := [number]))
  }

  function Appended(c: Context, m: Message): Context {
    var counted := if m.role == Assistant then c.(window := m.used, used := c.used.Plus(m.used)) else c;
    counted.(messages := c.messages + [m], last := m.number)
  }

  /** `m` stands at the end under a number after the last: its own, or the next one; an answer's usage becomes the window
      account and is added to the total, and no other role touches either account. Nothing else changes. */
  ghost predicate AppendedTo(c: Context, c': Context, m: Message) {
    && c'.messages == c.messages + [m.(number := c'.last, original := [c'.last])]
    && c'.last > c.last && (if m.number == 0 then c'.last == c.last + 1 else c'.last == m.number)
    && (if m.role == Assistant
        then c'.window == m.used
             && c'.used.input == c.used.input + m.used.input && c'.used.output == c.used.output + m.used.output
        else c'.window == c.window && c'.used == c.used)
    && c'.mode == c.mode && c'.workDir == c.workDir && c'.revision == c.revision && c'.generation == c.generation
  }

  /** What is appended, and to which accounts. */
  lemma AppendedIs(c: Context, m: Message)
    requires Identify(c.last, m).Identified?
    ensures AppendedTo(c, Appended(c, Identify(c.last, m).msg), m)
  {
  }

  /** A message is refused for a system role, an exhausted number, a number not after the last, or a foreign original. */
  lemma RefusedExactly(last: nat, m: Message)
    ensures Identify(last, m).Refused? <==>
              || m.role == System || (m.number == 0 && last == MAX64) || (m.number != 0 && m.number <= last)
              || (m.original != [] && m.original != [if m.number == 0 then last + 1 else m.number])
  {
  }

  function SystemMessage(c: Context, content: string): Message {
    if |c.messages| == 0
    then Message(c.last + 1, [c.last + 1], System, content, "", "", [], "", None, Unset, Tokens(0, 0), "")
    else c.messages[0].(content := content)
  }

  function SysToken(msgs: seq<Message>, est: Estimator): nat {
    if |msgs| > 0 && msgs[0].role == System then est(msgs[0].content) else 0
  }

  /** The system prompt replaced, or inserted when there is none; the window account follows its estimate. */
  function Upserted(c: Context, content: string, est: Estimator): Context {
    var first := |c.messages| == 0;
    var m := SystemMessage(c, content);
    c.(messages := if first then [m] else c.messages[0 := m],
       last := if first then m.number else c.last,
       window := c.window.Minus(Tokens(SysToken(c.messages, est), 0)).Plus(Tokens(est(content), 0)))
  }

  function Reconciled(c: Context, input: int): Context {
    c.(window := Tokens(input, 0))
  }

  datatype RestoreFault = InvalidSnapshot | WorkDirMismatch | ModeMismatch

  ghost function WhyNotRestored(mode: string, workDir: string, c: Context): Option<RestoreFault> {
    if !Valid(c) then Some(InvalidSnapshot)
    else if workDir != "" && c.workDir != "" && workDir != c.workDir then Some(WorkDirMismatch)
    else if mode != "" && c.mode != "" && mode != c.mode then Some(ModeMismatch)
    else None
  }

  // ---------------------------------------------------------------- the aggregate

  class Session {
    var context: Context
    var sysToken: nat
    const est: Estimator

    ghost predicate Accounted()
      reads this
    {
      sysToken == SysToken(context.messages, est)
    }

    constructor (workDir: string, est: Estimator)
      ensures context == Context("", workDir, 0, 1, 0, [], Tokens(0, 0), Tokens(0, 0)) && this.est == est && Accounted()
    {
      context := Context("", workDir, 0, 1, 0, [], Tokens(0, 0), Tokens(0, 0));
      sysToken := 0;
      this.est := est;
    }

    constructor CopyOf(s: Session)
      ensures context == s.context && sysToken == s.sysToken && est == s.est
    {
      context := s.context;
      sysToken := s.sysToken;
      est := s.est;
    }

    method RefreshSysToken()
      modifies this`sysToken
      ensures Accounted()
    {
      sysToken := 0;
      if |context.messages| > 0 && context.messages[0].role == System {
        sysToken := est(context.messages[0].content);
      }
    }

    /** The source panics on a non-empty context without a leading system message and on an exhausted number. */
    method UpsertSysMessage(content: string) returns (sysMsg: Message)
      requires Accounted()
      requires |context.messages| > 0 ==> context.messages[0].role == System
      requires |context.messages| == 0 ==> context.last < MAX64
      modifies this
      ensures Accounted()
      ensures context == Upserted(old(context), content, est) && sysMsg == context.messages[0]
      ensures sysMsg.role == System && sysMsg.content == content
      ensures if old(|context.messages|) == 0
              then context.messages == [sysMsg] && sysMsg.number == context.last == old(context.last) + 1 == sysMsg.original[0]
              else context.last == old(context.last) && context.messages == old(context.messages)[0 := sysMsg]
                   && sysMsg == old(context.messages)[0].(content := content)
      ensures context.used == old(context.used) && context.window.output == old(context.window.output)
      ensures context.window.input == old(context.window.input) - old(sysToken) + est(content)
    {
      if |context.messages| == 0 {
        sysMsg := SystemMessage(context, content);
        context := context.(messages := [sysMsg], last := sysMsg.number);
      } else {
        sysMsg := context.messages[0].(content := content);
        context := context.(messages := context.messages[0 := sysMsg]);
      }
      var newToken := est(content);
      context := context.(window := context.window.Minus(Tokens(sysToken, 0)));
      context := context.(window := context.window.Plus(Tokens(newToken, 0)));
      sysToken := newToken;
    }

    method AppendMessage(m: Message) returns (r: Appending)
      modifies this`context
      ensures r == Identify(old(context).last, m)
      ensures context == if r.Refused? then old(context) else Appended(old(context), r.msg)
      ensures r.Identified? ==> AppendedTo(old(context), context, m)
      ensures old(Accounted()) ==> Accounted()
    {
      if m.role == System { return Refused(SystemViaAppend); }
      var msg := m;
      if msg.number == 0 {
        if context.last == MAX64 { return Refused(Exhausted); }
        msg := msg.(number := context.last + 1);
      }
      if msg.number <= context.last { return Refused(NotAfterLast); }
      if |msg.original| == 0 { msg := msg.(original := [msg.number]); }
      if |msg.original| != 1 || msg.original[0] != msg.number { return Refused(ForeignOriginal); }
      assert msg.original == [msg.number];
      if msg.role == Assistant {
        context := context.(window := msg.used);
        context := context.(used := context.used.Plus(msg.used));
      }
      context := context.(messages := context.messages + [msg]);
      context := context.(last := msg.number);
      return Identified(msg);
    }

    /** A candidate with one more message; the session itself is left as it was. */
    method WithAppendedMessage(m: Message) returns (candidate: Session?, r: Appending)
      ensures r == Identify(context.last, m)
      ensures r.Refused? <==> candidate == null
      ensures candidate != null ==>
                && fresh(candidate) && candidate.est == est && candidate.context == Appended(context, r.msg)
                && AppendedTo(context, candidate.context, m)
    {
      var c := new Session.CopyOf(this);
      r := c.AppendMessage(m);
      candidate := if r.Refused? then null else c;
    }

    /** Local compression adopted in place. */
    method Compact(least: int) returns (saved: int)
      modifies this`context
      ensures least < 0 ==> saved == -1 && context == old(context)
      ensures least >= 0 ==>
                exists edits ::
                  && Compress.ShortestPrefix(old(context).messages, least, est, edits)
                  && saved == Compress.ApplyAll(old(context).messages, edits, est).1
                  && context == old(context).(messages := Compress.ApplyAll(old(context).messages, edits, est).0)
      ensures old(Accounted()) ==> Accounted()
    {
      hide Compress.ShortestPrefix, Compress.ApplyAll, Compress.Plan;
      ghost var msgs := context.messages;
      var r, edits := Compress.SimpleCompress(context.messages, least, est);
      if r.NegativeSavings? { return -1; }
      PrefixOfPlan(msgs, least, est, edits);
      Compress.CompressionKeeps(msgs, edits, est);
      context := context.(messages := r.out);
      saved := r.saved;
    }

    method ReconcileWindowInput(input: int)
      modifies this`context
      ensures context == Reconciled(old(context), input)
      ensures context == old(context).(window := context.window) && context.window.input == input && context.window.output == 0
    {
      context := context.(window := Tokens(input, 0));
    }

    method AdvanceMemoryGeneration() returns (ok: bool)
      modifies this`context
      ensures ok <==> old(context).generation != MAX64
      ensures context == if ok then old(context).(generation := old(context).generation + 1) else old(context)
    {
      if context.generation == MAX64 { return false; }
      context := context.(generation := context.generation + 1);
      return true;
    }

    /** Restore: a stored snapshot replaces the context unless it is invalid or belongs elsewhere. */
    method Restore(snapshot: Context) returns (fault: Option<RestoreFault>)
      modifies this
      ensures fault == WhyNotRestored(old(context).mode, old(context).workDir, snapshot)
      ensures fault.Some? ==> context == old(context) && sysToken == old(sysToken)
      ensures fault.None? ==>
                && Accounted()
                && context == snapshot.(
                     mode := if snapshot.mode == "" then old(context).mode else snapshot.mode,
                     workDir := if snapshot.workDir == "" then old(context).workDir else snapshot.workDir)
    {
      var ok := Validate(snapshot);
      if !ok { return Some(InvalidSnapshot); }
      if context.workDir != "" && snapshot.workDir != "" && context.workDir != snapshot.workDir {
        return Some(WorkDirMismatch);
      }
      if context.mode != "" && snapshot.mode != "" && context.mode != snapshot.mode {
        return Some(ModeMismatch);
      }
      var restored := snapshot;
      if restored.mode == "" { restored := restored.(mode := context.mode); }
      if restored.workDir == "" { restored := restored.(workDir := context.workDir); }
      context := restored;
      RefreshSysToken();
      return None;
    }
  }

  /** One more identified message keeps a context valid exactly when there is a message before it. */
  lemma AppendedIsValid(c: Context, m: Message)
    requires Valid(c) && Identify(c.last, m).Identified?
    ensures var c' := Appended(c, Identify(c.last, m).msg); Valid(c') <==> |c.messages| > 0
  {
    var msg := Identify(c.last, m).msg;
    var c' := Appended(c, msg);
    assert c'.messages[|c.messages|] == msg;
    if |c.messages| > 0 {
      assert c'.messages[0] == c.messages[0];
      forall i | 0 <= i < |c.messages| ensures OriginalsValid(c'.messages[i], c'.last) && c'.messages[i] == c.messages[i] {
        assert OriginalsValid(c.messages[i], c.last);
      }
    }
  }

  /** Replacing or inserting the system prompt keeps a context valid and moves the window account by exactly the
      difference of the two estimates. */
  lemma UpsertedIsValid(c: Context, content: string, est: Estimator)
    requires Valid(c)
    ensures var c' := Upserted(c, content, est);
            && Valid(c')
            && c'.window.input - SysToken(c'.messages, est) == c.window.input - SysToken(c.messages, est)
            && c'.window.output == c.window.output
  {
    var c' := Upserted(c, content, est);
    if |c.messages| > 0 {
      forall i | 0 <= i < |c.messages| ensures OriginalsValid(c'.messages[i], c'.last) {
        assert OriginalsValid(c.messages[i], c.last);
      }
    }
  }

  /** Validity looks at roles, numbers and lists only. */
  lemma ValidOfSameIdentity(c: Context, out: seq<Message>)
    requires Valid(c) && |out| == |c.messages|
    requires forall i :: 0 <= i < |out| ==>
               out[i].role == c.messages[i].role && out[i].number == c.messages[i].number
               && out[i].original == c.messages[i].original
    ensures Valid(c.(messages := out))
  {
    forall i | 0 <= i < |out| ensures OriginalsValid(out[i], c.last) {
      assert OriginalsValid(c.messages[i], c.last);
    }
  }

  /** Valid does not look at the revision. */
  lemma ValidAtAnyRevision(c: Context, revision: nat)
    requires Valid(c)
    ensures Valid(c.(revision := revision))
  {
    assert forall m: Message :: OriginalsValid(m, c.last) ==> OriginalsValid(m, c.(revision := revision).last);
    hide OriginalsValid, NumbersValid;
  }

  lemma PrefixOfPlan(msgs: seq<Message>, least: nat, est: Estimator, edits: seq<Compress.Edit>)
    requires Compress.ShortestPrefix(msgs, least, est, edits)
    ensures edits <= Compress.Plan(msgs)
  {
  }
}
