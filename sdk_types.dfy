/**
 The records the OpenAI Python SDK hands back to the smoke test, written out
 as explicit datatypes with optional fields instead of the SDK's permissive
 attribute access, plus the Option/Result wrappers that stand for "the field
 is absent" and "the client call raised".
 */
module SdkTypes {

  datatype Option<+T> = None | Some(value: T)

  /** Anything the SDK call (or the iteration of its stream) raises. */
  datatype ClientError = ClientError(message: string)

  /** The outcome of a client call: its value, or the error it raised. */
  datatype Result<+T> = Ok(value: T) | Err(error: ClientError)

  // ---- non-streaming chat completion ----

  /** `choices[i].message`; the SDK types `content` as optional. */
  datatype ChatMessage = ChatMessage(role: string, content: Option<string>)

  /** One entry of `response.choices`. */
  datatype Choice = Choice(message: ChatMessage, finishReason: string)

  /** The response of a non-streaming `chat.completions.create`. */
  datatype Completion = Completion(objectTag: string, choices: seq<Choice>)

  // ---- streaming chat completion ----

  /** `choices[i].delta`: a role-announcement or final chunk has no content. */
  datatype Delta = Delta(content: Option<string>)

  datatype ChunkChoice = ChunkChoice(delta: Delta)

  /** One server-sent chunk. An absent `choices` list and an empty one are
      both falsy to the source's test, so both are the empty sequence here. */
  datatype Chunk = Chunk(choices: seq<ChunkChoice>)

  /** How iterating the one-shot stream ended. */
  datatype StreamEnd = Exhausted | Interrupted(error: ClientError)

  /** What iterating a streaming response yields: the chunks in arrival
      order, then either normal exhaustion or an error raised mid-stream. */
  datatype ChunkStream = ChunkStream(chunks: seq<Chunk>, end: StreamEnd)
}
