/** The chat adapter itself: construction with its null checks, and the blocking
    and streaming calls with their single-instruction shortcut and null-response
    handling. The retry policy is modelled as running its unit of work once. */
module GalleryChatClient {
  import opened Wrappers
  import opened ChatModel
  import opened OptionsMerge
  import opened RequestBuilder
  import opened ResponseConverter

  /** A constructed adapter: vendor client, streaming callback, default options and
      retry policy. */
  datatype Client = Client(
    gallery: GalleryClient,
    streamCallBack: StreamCallBack,
    defaultOptions: GalleryOptions,
    retryTemplate: RetryTemplate)

  const GalleryClientNull := "GalleryClient must not be null"
  const StreamCallBackNull := "StreamCallBack must not be null"
  const OptionsNull := "Options must not be null"
  const RetryTemplateNull := "RetryTemplate must not be null"
  const EmptyPrompt := "At least one text is required!"

  /** The full constructor: every dependency is checked for null, in declaration
      order, before anything is stored. */
  function NewClient(
    gallery: Option<GalleryClient>,
    streamCallBack: Option<StreamCallBack>,
    options: Option<GalleryOptions>,
    retryTemplate: Option<RetryTemplate>): (r: Result<Client, Error>)
    ensures r.Success? <==> gallery.Some? && streamCallBack.Some? && options.Some? && retryTemplate.Some?
    ensures gallery.None? ==> r.Failure? && r.error == InvalidArgument(GalleryClientNull)
    ensures gallery.Some? && streamCallBack.None? ==> r.Failure? && r.error == InvalidArgument(StreamCallBackNull)
    ensures gallery.Some? && streamCallBack.Some? && options.None? ==> r.Failure? && r.error == InvalidArgument(OptionsNull)
    ensures gallery.Some? && streamCallBack.Some? && options.Some? && retryTemplate.None? ==>
      r.Failure? && r.error == InvalidArgument(RetryTemplateNull)
    ensures r.Success? ==>
      && r.value.gallery == gallery.value
      && r.value.streamCallBack == streamCallBack.value
      && r.value.defaultOptions == options.value
      && r.value.retryTemplate == retryTemplate.value
  {
    if gallery.None? then Failure(InvalidArgument(GalleryClientNull))
    else if streamCallBack.None? then Failure(InvalidArgument(StreamCallBackNull))
    else if options.None? then Failure(InvalidArgument(OptionsNull))
    else if retryTemplate.None? then Failure(InvalidArgument(RetryTemplateNull))
    else Success(Client(gallery.value, streamCallBack.value, options.value, retryTemplate.value))
  }

  /** The three-argument constructor: the library's default retry policy. */
  function NewClientWithCallBack(
    api: Collaborators,
    gallery: Option<GalleryClient>,
    streamCallBack: Option<StreamCallBack>,
    options: Option<GalleryOptions>): (r: Result<Client, Error>)
    ensures r.Success? <==> gallery.Some? && streamCallBack.Some? && options.Some?
    ensures r.Success? ==>
      && r.value.gallery == gallery.value
      && r.value.streamCallBack == streamCallBack.value
      && r.value.defaultOptions == options.value
      && r.value.retryTemplate == api.defaultRetryTemplate
  {
    NewClient(gallery, streamCallBack, options, Some(api.defaultRetryTemplate))
  }

  /** The two-argument constructor: the library's default streaming callback. */
  function NewClientWithOptions(api: Collaborators, gallery: Option<GalleryClient>, options: Option<GalleryOptions>): (r: Result<Client, Error>)
    ensures r.Success? <==> gallery.Some? && options.Some?
    ensures r.Success? ==>
      && r.value.gallery == gallery.value
      && r.value.defaultOptions == options.value
      && r.value.streamCallBack == api.defaultStreamCallBack
      && r.value.retryTemplate == api.defaultRetryTemplate
  {
    NewClientWithCallBack(api, gallery, Some(api.defaultStreamCallBack), options)
  }

  /** The default options of the one-argument constructor: the library's default
      temperature and topP, nothing else. */
  function DefaultOptions(api: Collaborators): (o: GalleryOptions)
    ensures o.temperature == Some(api.defaultTemperature) && o.topP == Some(api.defaultTopP)
    ensures o.(temperature := None, topP := None) == NoOptions
  {
    NoOptions.(temperature := Some(api.defaultTemperature), topP := Some(api.defaultTopP))
  }

  /** The one-argument constructor. */
  function NewDefaultClient(api: Collaborators, gallery: Option<GalleryClient>): (r: Result<Client, Error>)
    ensures r.Success? <==> gallery.Some?
    ensures gallery.None? ==> r.Failure? && r.error == InvalidArgument(GalleryClientNull)
    ensures r.Success? ==>
      && r.value.gallery == gallery.value
      && r.value.defaultOptions.temperature == Some(api.defaultTemperature)
      && r.value.defaultOptions.topP == Some(api.defaultTopP)
      && r.value.defaultOptions.(temperature := None, topP := None) == NoOptions
      && r.value.streamCallBack == api.defaultStreamCallBack
      && r.value.retryTemplate == api.defaultRetryTemplate
  {
    NewClientWithOptions(api, gallery, Some(DefaultOptions(api)))
  }

  /** The vendor invocation a call makes. */
  datatype VendorCall =
    | ChatText(content: string)
    | ChatRequest(req: GalleryChatReq)
    | StreamText(content: string, callBack: StreamCallBack)
    | StreamRequest(req: GalleryChatReq, callBack: StreamCallBack)

  /** Chooses the vendor invocation for `prompt`: one instruction goes out as plain
      text, two or more as a structured request built with the given stream flag. */
  function PlanCall(c: Client, api: Collaborators, prompt: Prompt, stream: bool): (r: Result<VendorCall, Error>)
    ensures |prompt.instructions| == 0 ==> r.Failure? && r.error == InvalidArgument(EmptyPrompt)
    ensures |prompt.instructions| == 1 ==> r.Success? && r.value == (if stream then StreamText(prompt.instructions[0].content, c.streamCallBack) else ChatText(prompt.instructions[0].content))
    ensures |prompt.instructions| >= 2 ==>
      (r.Success? <==> CreateRequest(api, c.defaultOptions, prompt, stream).Success?)
    ensures |prompt.instructions| >= 2 && r.Success? ==>
      && (if stream then r.value.StreamRequest? && r.value.callBack == c.streamCallBack else r.value.ChatRequest?)
      && r.value.req == CreateRequest(api, c.defaultOptions, prompt, stream).value
      && r.value.req.isStream == stream
    ensures |prompt.instructions| >= 2 && r.Failure? ==> r.error == CreateRequest(api, c.defaultOptions, prompt, stream).error
  {
    var instructions := prompt.instructions;
    if |instructions| == 0 then Failure(InvalidArgument(EmptyPrompt))
    else if |instructions| == 1 then
      Success(if stream then StreamText(instructions[0].content, c.streamCallBack) else ChatText(instructions[0].content))
    else
      match CreateRequest(api, c.defaultOptions, prompt, stream)
      case Failure(e) => Failure(e)
      case Success(req) => Success(if stream then StreamRequest(req, c.streamCallBack) else ChatRequest(req))
  }

  /** Performs one vendor invocation; `None` is the vendor returning null. */
  function Invoke(g: GalleryClient, call: VendorCall): Option<GalleryChatResp> {
    match call
    case ChatText(content) => g.createChat(content)
    case ChatRequest(req) => g.createChatReq(req)
    case StreamText(content, cb) => g.createStreamChat(content, cb)
    case StreamRequest(req, cb) => g.createStreamChatReq(req, cb)
  }

  /** What the vendor answers to the call planned for `prompt`, if a call is made. */
  function VendorAnswer(c: Client, api: Collaborators, prompt: Prompt, stream: bool): Option<GalleryChatResp> {
    match PlanCall(c, api, prompt, stream)
    case Success(call) => Invoke(c.gallery, call)
    case Failure(_) => None
  }

  /** Whether the call for `prompt` fails before reaching the vendor: an empty
      prompt, or a multi-instruction prompt with options of a foreign class. */
  predicate RejectedBeforeVendor(prompt: Prompt) {
    || |prompt.instructions| == 0
    || (|prompt.instructions| >= 2 && prompt.options.Some? && prompt.options.value.ForeignOptions?)
  }

  /** The blocking call. */
  function Call(c: Client, api: Collaborators, prompt: Prompt): (r: Result<ChatResponse, Error>)
    ensures r.Failure? <==> RejectedBeforeVendor(prompt)
    ensures r.Failure? && |prompt.instructions| == 0 ==> r.error == InvalidArgument(EmptyPrompt)
    ensures r.Failure? && |prompt.instructions| > 0 ==>
      r.error == InvalidArgument(ForeignOptionsMessage(prompt.options.value.simpleName))
    ensures r.Success? && VendorAnswer(c, api, prompt, false).None? ==> r.value == EmptyChatResponse
    ensures r.Success? && VendorAnswer(c, api, prompt, false).Some? ==>
      var resp := VendorAnswer(c, api, prompt, false).value;
      && |r.value.generations| == |resp.choices|
      && (forall i :: 0 <= i < |resp.choices| ==> r.value.generations[i].text == resp.choices[i].message.content)
      && r.value.metadata == Some(api.responseMetadata(resp))
      && r.value == ToChatCompletion(api, resp)
  {
    match PlanCall(c, api, prompt, false)
    case Failure(e) => Failure(e)
    case Success(call) =>
      match Invoke(c.gallery, call)
      case None => Success(EmptyChatResponse)
      case Some(resp) => Success(ToChatCompletion(api, resp))
  }

  /** The streaming call: at most one element, the whole converted response. */
  function Stream(c: Client, api: Collaborators, prompt: Prompt): (r: Result<seq<ChatResponse>, Error>)
    ensures r.Failure? <==> RejectedBeforeVendor(prompt)
    ensures r.Failure? && |prompt.instructions| == 0 ==> r.error == InvalidArgument(EmptyPrompt)
    ensures r.Failure? && |prompt.instructions| > 0 ==>
      r.error == InvalidArgument(ForeignOptionsMessage(prompt.options.value.simpleName))
    ensures r.Success? ==> |r.value| <= 1
    ensures r.Success? ==> (r.value == [] <==> VendorAnswer(c, api, prompt, true).None?)
    ensures r.Success? && VendorAnswer(c, api, prompt, true).Some? ==>
      var resp := VendorAnswer(c, api, prompt, true).value;
      && |r.value[0].generations| == |resp.choices|
      && (forall i :: 0 <= i < |resp.choices| ==> r.value[0].generations[i].text == resp.choices[i].message.content)
      && r.value[0].metadata == Some(api.responseMetadata(resp))
      && r.value == [ToChatCompletion(api, resp)]
  {
    match PlanCall(c, api, prompt, true)
    case Failure(e) => Failure(e)
    case Success(call) =>
      match Invoke(c.gallery, call)
      case None => Success([])
      case Some(resp) => Success([ToChatCompletion(api, resp)])
  }

  /** A prompt of one instruction never builds a request: its raw content goes to
      the vendor whatever its message kind and whatever options the prompt carries. */
  lemma SingleInstructionShortcut(c: Client, api: Collaborators, prompt: Prompt)
    requires |prompt.instructions| == 1
    ensures Call(c, api, prompt).Success? && Stream(c, api, prompt).Success?
    ensures VendorAnswer(c, api, prompt, false) == c.gallery.createChat(prompt.instructions[0].content)
    ensures VendorAnswer(c, api, prompt, true) == c.gallery.createStreamChat(prompt.instructions[0].content, c.streamCallBack)
  {
  }

  /** A prompt of two or more instructions reaches the vendor as the structured
      request built with `stream = false` for the blocking call and `stream = true`
      for the streaming call. */
  lemma MultiInstructionRequest(c: Client, api: Collaborators, prompt: Prompt)
    requires |prompt.instructions| >= 2
    requires !(prompt.options.Some? && prompt.options.value.ForeignOptions?)
    ensures VendorAnswer(c, api, prompt, false) == c.gallery.createChatReq(CreateRequest(api, c.defaultOptions, prompt, false).value)
    ensures VendorAnswer(c, api, prompt, true) ==
      c.gallery.createStreamChatReq(CreateRequest(api, c.defaultOptions, prompt, true).value, c.streamCallBack)
  {
  }

  /** The streaming call emits exactly the blocking call's response when the vendor
      answers both variants alike, and nothing where the blocking call answers with
      the empty response. */
  lemma StreamWrapsCall(c: Client, api: Collaborators, prompt: Prompt)
    requires VendorAnswer(c, api, prompt, true) == VendorAnswer(c, api, prompt, false)
    ensures Stream(c, api, prompt).Success? == Call(c, api, prompt).Success?
    ensures Stream(c, api, prompt).Success? && VendorAnswer(c, api, prompt, true).Some? ==>
      Stream(c, api, prompt).value == [Call(c, api, prompt).value]
    ensures Stream(c, api, prompt).Success? && VendorAnswer(c, api, prompt, true).None? ==>
      Stream(c, api, prompt).value == [] && Call(c, api, prompt).value == EmptyChatResponse
  {
  }
}
