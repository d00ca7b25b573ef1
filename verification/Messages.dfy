/** The message of internal/domain/sharedkernel and the working set of internal/domain/session. */
module Messages {
  import opened Words

  datatype Role = System | User | Assistant | Tool

  datatype Call = Call(id: string, name: string, arguments: string)

  datatype Artifact = Artifact(id: string, size: nat)

  datatype Finish = Unset | Stop | MaxOutputTokens | ContentFilter | Cancelled | UsageUnavailable

  datatype Tokens = Tokens(input: int, output: int) {
    function Plus(other: Tokens): Tokens { Tokens(input + other.input, output + other.output) }
    function Minus(other: Tokens): Tokens { Tokens(input - other.input, output - other.output) }
  }

  /** `other` stands for the fields that no operation modelled here reads or changes. */
  datatype Message = Message(
    number: nat, original: seq<nat>, role: Role, content: string, compact: string, reasoning: string,
    calls: seq<Call>, callId: string, artifact: Option<Artifact>, finish: Finish, used: Tokens, other: string)

  /** The working set of a session; `number` 0 means "not yet numbered". */
  datatype Context = Context(
    mode: string, workDir: string, revision: nat, generation: nat, last: nat, messages: seq<Message>,
    used: Tokens, window: Tokens)

  /** A token estimate of a text. */
  type Estimator = string -> nat

  predicate IsCallGroup(m: Message) {
    m.role == Assistant && |m.calls| > 0
  }

  /** What pairing and boundaries depend on: everything but texts, provenance and accounting. */
  predicate SameSkeleton(a: seq<Message>, b: seq<Message>) {
    && |a| == |b|
    && forall i :: 0 <= i < |a| ==> a[i].role == b[i].role && a[i].calls == b[i].calls && a[i].callId == b[i].callId
  }

  /** CanResume on a non-empty history that holds a user message: its tail is not a finished answer. */
  predicate CanResume(tail: Message) {
    tail.role != Assistant || |tail.calls| != 0 || (tail.finish != Unset && tail.finish != Stop)
  }
}
