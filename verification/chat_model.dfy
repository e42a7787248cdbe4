/** The entities the chat adapter works on: the framework's prompt and response
    shapes, the option record, the vendor's request and response shapes, and the
    collaborators whose code lies outside the adapter. */
module ChatModel {
  import opened Wrappers

  /** The framework's message kinds. `Other` stands for every kind the vendor
      request does not carry (function-result messages and the like). */
  datatype MessageType = User | Assistant | System | Other

  /** One chat turn of a prompt. */
  datatype Instruction = Instruction(messageType: MessageType, content: string)

  /** The adapter's option record. Every field is nullable; the two float fields
      of the source (temperature, topP) are `real` here, since widening a float to
      a double is exact. */
  datatype GalleryOptions = GalleryOptions(
    temperature: Option<real>,
    topP: Option<real>,
    maxTokens: Option<int>,
    answerNum: Option<int>,
    presencePenalty: Option<real>,
    user: Option<string>,
    withPrompt: Option<bool>)

  /** An option record with every field absent. */
  const NoOptions := GalleryOptions(None, None, None, None, None, None, None)

  /** An object implementing the framework's `ChatOptions` interface, seen through
      the fields of the record above: either the adapter's own option class, or
      some other class implementing the interface (whose fields beyond the
      interface's are invisible to the adapter). */
  datatype ChatOptionsObject =
    | AdapterOptions(fields: GalleryOptions)
    | OtherChatOptions(fields: GalleryOptions)

  /** The options a prompt may carry: a `ChatOptions` object, or an object of some
      other class, known only by its simple class name. */
  datatype PromptOptions =
    | ChatOptionsValue(chat: ChatOptionsObject)
    | ForeignOptions(simpleName: string)

  /** A prompt: ordered instructions plus optional runtime options. */
  datatype Prompt = Prompt(instructions: seq<Instruction>, options: Option<PromptOptions>)

  /** A (role, content) message of the vendor's request and response. */
  datatype GalleryChatMessage = GalleryChatMessage(role: string, content: string)

  /** The vendor's structured chat request. */
  datatype GalleryChatReq = GalleryChatReq(
    answerNum: Option<int>,
    maxTokens: Option<int>,
    messages: seq<GalleryChatMessage>,
    temperature: Option<real>,
    topP: Option<real>,
    presencePenalty: Option<real>,
    user: Option<string>,
    withPrompt: Option<bool>,
    isStream: bool)

  /** Token accounting as the framework reports it. */
  datatype Usage = Usage(promptTokens: nat, generationTokens: nat, totalTokens: nat)

  /** One answer candidate of the vendor's response. */
  datatype Choice = Choice(message: GalleryChatMessage)

  /** The vendor's chat response. */
  datatype GalleryChatResp = GalleryChatResp(id: string, choices: seq<Choice>)

  /** Per-generation metadata: a finish reason and a content-filter payload
      (the adapter puts the usage figures there). */
  datatype GenerationMetadata = GenerationMetadata(finishReason: string, contentFilter: Usage)

  /** One produced answer of the framework's response. */
  datatype Generation = Generation(
    text: string,
    properties: map<string, string>,
    metadata: GenerationMetadata)

  /** Response-level metadata built from the vendor response. */
  datatype ResponseMetadata = ResponseMetadata(id: string, usage: Usage)

  /** The framework's chat response; `metadata == None` is the framework's
      placeholder metadata of a response built from generations alone. */
  datatype ChatResponse = ChatResponse(generations: seq<Generation>, metadata: Option<ResponseMetadata>)

  /** Opaque handles: the vendor's streaming callback and the retry policy. */
  datatype StreamCallBack = StreamCallBack(name: string)
  datatype RetryTemplate = RetryTemplate(name: string)

  /** The vendor client: plain-text and structured calls, each in a blocking and a
      streaming variant. A `None` answer is the client returning `null`. */
  datatype GalleryClient = GalleryClient(
    createChat: string -> Option<GalleryChatResp>,
    createChatReq: GalleryChatReq -> Option<GalleryChatResp>,
    createStreamChat: (string, StreamCallBack) -> Option<GalleryChatResp>,
    createStreamChatReq: (GalleryChatReq, StreamCallBack) -> Option<GalleryChatResp>)

  /** Helpers and constants the adapter uses but does not define: the role mapping,
      the per-choice property map, usage extraction, response metadata, and the
      library defaults for temperature, topP, the callback and the retry policy. */
  datatype Collaborators = Collaborators(
    toRole: Instruction -> string,
    toMap: (string, Choice) -> map<string, string>,
    extractUsage: GalleryChatResp -> Usage,
    responseMetadata: GalleryChatResp -> ResponseMetadata,
    defaultTemperature: real,
    defaultTopP: real,
    defaultStreamCallBack: StreamCallBack,
    defaultRetryTemplate: RetryTemplate)

  /** The invalid-argument failure, with its message. */
  datatype Error = InvalidArgument(message: string)
}
