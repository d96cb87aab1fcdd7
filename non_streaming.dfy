/**
 `test_non_streaming_chat`: five assertions on a chat-completion response,
 evaluated in order; the first that fails (or an error from the client call)
 makes the test report false.
 */
module NonStreamingTest {
  import opened SdkTypes

  /** The five assertions of the test, in the order the source evaluates them. */
  datatype Condition = ObjectTag | SingleChoice | AssistantRole | NonEmptyContent | StopFinish {
    function Rank(): nat {
      match this
      case ObjectTag => 0
      case SingleChoice => 1
      case AssistantRole => 2
      case NonEmptyContent => 3
      case StopFinish => 4
    }
  }

  /** Why the test reported false. `ContentAbsent` is the TypeError that
      `len(None)` raises when the message carries no content. */
  datatype Failure =
    | CallFailed(error: ClientError)
    | WrongObjectTag
    | WrongChoiceCount
    | WrongRole
    | ContentAbsent
    | EmptyContent
    | WrongFinishReason

  datatype Verdict = Accepted | Rejected(failure: Failure)

  const CompletionTag: string := "chat.completion"
  const AssistantRoleName: string := "assistant"
  const StopReason: string := "stop"

  /** Whether one condition holds of a response, each read on its own
      (conditions on the first choice require that there is one). */
  predicate Holds(c: Completion, k: Condition) {
    match k
    case ObjectTag => c.objectTag == CompletionTag
    case SingleChoice => |c.choices| == 1
    case AssistantRole => |c.choices| > 0 && c.choices[0].message.role == AssistantRoleName
    case NonEmptyContent =>
      |c.choices| > 0 && c.choices[0].message.content.Some? && |c.choices[0].message.content.value| > 0
    case StopFinish => |c.choices| > 0 && c.choices[0].finishReason == StopReason
  }

  /** The reference acceptance condition: every one of the five holds. */
  predicate WellFormed(c: Completion) {
    forall k: Condition :: Holds(c, k)
  }

  /** `WellFormed` spelled out: the five conditions, one conjunct each. */
  lemma WellFormedOneByOne(c: Completion)
    ensures WellFormed(c) <==>
      Holds(c, ObjectTag) && Holds(c, SingleChoice) && Holds(c, AssistantRole)
      && Holds(c, NonEmptyContent) && Holds(c, StopFinish)
  {
  }

  /** The failure the source reports when condition `k` is the first to fail. */
  function FailureFor(c: Completion, k: Condition): Failure {
    match k
    case ObjectTag => WrongObjectTag
    case SingleChoice => WrongChoiceCount
    case AssistantRole => WrongRole
    case NonEmptyContent =>
      if |c.choices| > 0 && c.choices[0].message.content.None? then ContentAbsent else EmptyContent
    case StopFinish => WrongFinishReason
  }

  /** The assertions of the test, one after the other, stopping at the first
      that fails; an error from the client call is caught first. */
  function Validate(call: Result<Completion>): (v: Verdict)
    ensures v.Accepted? <==> call.Ok? && WellFormed(call.value)
    ensures call.Err? ==> v == Rejected(CallFailed(call.error))
  {
    match call
    case Err(e) => Rejected(CallFailed(e))
    case Ok(c) =>
      WellFormedOneByOne(c);
      if c.objectTag != CompletionTag then Rejected(WrongObjectTag)
      else if |c.choices| != 1 then Rejected(WrongChoiceCount)
      else
        var choice := c.choices[0];
        if choice.message.role != AssistantRoleName then Rejected(WrongRole)
        else if choice.message.content.None? then Rejected(ContentAbsent)
        else if |choice.message.content.value| == 0 then Rejected(EmptyContent)
        else if choice.finishReason != StopReason then Rejected(WrongFinishReason)
        else Accepted
  }

  /** The boolean the test returns: true exactly when the call succeeded and
      the response satisfies all five conditions. */
  function TestNonStreamingChat(call: Result<Completion>): (passed: bool)
    ensures passed <==>
      && call.Ok?
      && call.value.objectTag == "chat.completion"
      && |call.value.choices| == 1
      && call.value.choices[0].message.role == "assistant"
      && call.value.choices[0].message.content.Some?
      && |call.value.choices[0].message.content.value| > 0
      && call.value.choices[0].finishReason == "stop"
  {
    if call.Err? then false
    else
      WellFormedOneByOne(call.value);
      Validate(call).Accepted?
  }

  /** The reason reported is that of the first condition, in source order,
      that the response violates. */
  lemma FirstViolationIsReported(c: Completion, k: Condition)
    requires !Holds(c, k)
    requires forall j: Condition :: j.Rank() < k.Rank() ==> Holds(c, j)
    ensures Validate(Ok(c)) == Rejected(FailureFor(c, k))
  {
    match k
    case ObjectTag =>
    case SingleChoice =>
      assert Holds(c, ObjectTag);
    case AssistantRole =>
      assert Holds(c, ObjectTag) && Holds(c, SingleChoice);
    case NonEmptyContent =>
      assert Holds(c, ObjectTag) && Holds(c, SingleChoice) && Holds(c, AssistantRole);
    case StopFinish =>
      assert Holds(c, ObjectTag) && Holds(c, SingleChoice) && Holds(c, AssistantRole);
      assert Holds(c, NonEmptyContent);
  }

  /** Violating any one condition, whatever the others do, makes the test
      report false rather than raise. */
  lemma AnyViolationFails(c: Completion, k: Condition)
    requires !Holds(c, k)
    ensures !TestNonStreamingChat(Ok(c))
    ensures Validate(Ok(c)).Rejected? && !Validate(Ok(c)).failure.CallFailed?
  {
  }
}
