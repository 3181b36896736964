/** The provider-side (pydantic-ai) shapes the adapter and the mapper work with:
    request and response messages with their parts, and the streaming events a
    model request produces. Only the fields the core reads are kept. */
module Messages {
  import opened Models

  /** A provider's `provider_details` dictionary. */
  type Details = map<string, Value>

  /** One fragment of a user prompt given as a sequence: text, or anything else
      (an image, audio, a document ...). */
  datatype UserContent = TextContent(text: string) | NonTextContent

  /** The value of a user prompt: a plain string, a sequence of fragments, or
      a value of neither shape (for example None). */
  datatype UserPromptContent =
    | PlainText(text: string)
    | ContentSequence(fragments: seq<UserContent>)
    | OtherPromptValue

  datatype RequestPart =
    | SystemPromptPart(content: string)
    | UserPromptPart(userContent: UserPromptContent)
    | ToolReturnPart(toolName: string, toolCallId: string, returned: Value)
    | RetryPromptPart(retryToolName: Option<string>, toolCallId: string, returned: Value)

  datatype ResponsePart =
    | TextPart(content: string, providerDetails: Option<Details>)
    | ThinkingPart(content: string, providerDetails: Option<Details>)
    | ToolCallPart(toolName: string, toolCallId: string, args: Value)
    | BuiltinToolCallPart
    | BuiltinToolReturnPart
    | FilePart

  datatype ModelMessage =
    | ModelRequest(requestParts: seq<RequestPart>)
    | ModelResponse(responseParts: seq<ResponsePart>)

  /** `provider_details` of a delta: absent, a static dictionary, or a callable
      that derives new details from the stored ones (`None` when it raises). */
  datatype DeltaDetails =
    | NoDetails
    | StaticDetails(details: Details)
    | CallableDetails(derive: Details -> Option<Details>)

  datatype DeltaPart =
    | ThinkingPartDelta(contentDelta: string, deltaDetails: DeltaDetails)
    | TextPartDelta(contentDelta: string, deltaDetails: DeltaDetails)
    | ToolCallPartDelta

  /** The events of one model request's stream. */
  datatype Event =
    | PartStartEvent(part: ResponsePart)
    | PartDeltaEvent(delta: DeltaPart)
    | PartEndEvent
    | FinalResultEvent
}
