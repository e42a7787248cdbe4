/** Building the vendor's structured request from a prompt: message filtering,
    the runtime-options type check, the merge and the field copy. */
module RequestBuilder {
  import opened Wrappers
  import opened ChatModel
  import opened OptionsMerge

  /** The message kinds the vendor request carries. */
  predicate IsConversational(t: MessageType) {
    t == User || t == Assistant || t == System
  }

  /** One instruction as a vendor message: mapped role, content unchanged. */
  function ToMessage(api: Collaborators, i: Instruction): GalleryChatMessage {
    GalleryChatMessage(api.toRole(i), i.content)
  }

  /** Reference definition of the filter: the positions of the conversational
      instructions, in increasing order, each exactly once. */
  function KeptIndices(s: seq<Instruction>): (idx: seq<nat>)
    ensures forall k :: 0 <= k < |idx| ==> idx[k] < |s| && IsConversational(s[idx[k]].messageType)
    ensures forall k, l :: 0 <= k < l < |idx| ==> idx[k] < idx[l]
    ensures forall i :: 0 <= i < |s| && IsConversational(s[i].messageType) ==> i in idx
  {
    if |s| == 0 then []
    else
      var prefix := KeptIndices(s[..|s| - 1]);
      if IsConversational(s[|s| - 1].messageType) then prefix + [|s| - 1] else prefix
  }

  /** The request's message list: the conversational instructions, in order, each
      mapped to a (role, content) message. */
  function FilterMessages(api: Collaborators, s: seq<Instruction>): (r: seq<GalleryChatMessage>)
    ensures |r| <= |s|
  {
    if |s| == 0 then []
    else
      var prefix := FilterMessages(api, s[..|s| - 1]);
      if IsConversational(s[|s| - 1].messageType) then prefix + [ToMessage(api, s[|s| - 1])] else prefix
  }

  /** The filter agrees with its reference definition: message k is the mapped
      instruction at the k-th kept position. */
  lemma {:induction false} FilterMatchesKeptIndices(api: Collaborators, s: seq<Instruction>)
    ensures |FilterMessages(api, s)| == |KeptIndices(s)|
    ensures forall k :: 0 <= k < |KeptIndices(s)| ==>
      FilterMessages(api, s)[k] == ToMessage(api, s[KeptIndices(s)[k]])
    decreases |s|
  {
    if |s| > 0 {
      FilterMatchesKeptIndices(api, s[..|s| - 1]);
    }
  }

  /** The number of conversational instructions, counted from the front. */
  function CountConversational(s: seq<Instruction>): nat {
    if |s| == 0 then 0
    else (if IsConversational(s[0].messageType) then 1 else 0) + CountConversational(s[1..])
  }

  /** Appending one instruction appends its message exactly when it is conversational. */
  lemma FilterSnoc(api: Collaborators, s: seq<Instruction>, x: Instruction)
    ensures FilterMessages(api, s + [x]) ==
      FilterMessages(api, s) + (if IsConversational(x.messageType) then [ToMessage(api, x)] else [])
  {
    assert (s + [x])[..|s|] == s;
  }

  /** Filtering distributes over concatenation: no message moves across the seam. */
  lemma {:induction false} FilterAppend(api: Collaborators, a: seq<Instruction>, b: seq<Instruction>)
    ensures FilterMessages(api, a + b) == FilterMessages(api, a) + FilterMessages(api, b)
    decreases |b|
  {
    if |b| == 0 {
      assert a + b == a;
    } else {
      var init, x := b[..|b| - 1], b[|b| - 1];
      assert b == init + [x];
      assert a + b == (a + init) + [x];
      FilterAppend(api, a, init);
      FilterSnoc(api, a + init, x);
      FilterSnoc(api, init, x);
    }
  }

  /** A single instruction is kept (mapped) exactly when it is conversational. */
  lemma FilterSingleton(api: Collaborators, i: Instruction)
    ensures FilterMessages(api, [i]) == if IsConversational(i.messageType) then [ToMessage(api, i)] else []
  {
    assert [i][..0] == [];
  }

  /** The request carries one message per conversational instruction. */
  lemma {:induction false} FilterCountsConversational(api: Collaborators, s: seq<Instruction>)
    ensures |FilterMessages(api, s)| == CountConversational(s)
    decreases |s|
  {
    if |s| > 0 {
      assert s == [s[0]] + s[1..];
      FilterAppend(api, [s[0]], s[1..]);
      FilterSingleton(api, s[0]);
      FilterCountsConversational(api, s[1..]);
    }
  }

  /** When every instruction is conversational, filtering is a plain in-order map. */
  lemma {:induction false} FilterKeepsAllConversational(api: Collaborators, s: seq<Instruction>)
    requires forall i :: 0 <= i < |s| ==> IsConversational(s[i].messageType)
    ensures |FilterMessages(api, s)| == |s|
    ensures forall i :: 0 <= i < |s| ==> FilterMessages(api, s)[i] == ToMessage(api, s[i])
    decreases |s|
  {
    if |s| > 0 {
      FilterKeepsAllConversational(api, s[..|s| - 1]);
    }
  }

  /** When no instruction is conversational, the request has no messages. */
  lemma FilterDropsOther(api: Collaborators, s: seq<Instruction>)
    requires forall i :: 0 <= i < |s| ==> !IsConversational(s[i].messageType)
    ensures FilterMessages(api, s) == []
  {
  }

  /** The text of the invalid-argument failure for options of a foreign class. */
  function ForeignOptionsMessage(simpleName: string): string {
    "Prompt options are not of type ChatOptions: " + simpleName
  }

  /** The runtime options as the merge sees them: null when the prompt has none,
      otherwise the `ChatOptions` view of the prompt's options. */
  function RuntimeOptions(prompt: Prompt): Option<GalleryOptions> {
    match prompt.options
    case Some(ChatOptionsValue(chat)) => Some(CopyToTarget(chat))
    case _ => None
  }

  /** The options a structured request is built from. */
  function EffectiveOptions(defaults: GalleryOptions, prompt: Prompt): (m: GalleryOptions)
    ensures prompt.options.None? ==> m == defaults
    ensures prompt.options.Some? && prompt.options.value.ChatOptionsValue? && prompt.options.value.chat.AdapterOptions? ==>
      IsOverride(m, prompt.options.value.chat.fields, defaults)
    ensures prompt.options.Some? && prompt.options.value.ChatOptionsValue? && prompt.options.value.chat.OtherChatOptions? ==>
      var fields := prompt.options.value.chat.fields;
      && m.temperature == Override(fields.temperature, defaults.temperature)
      && m.topP == Override(fields.topP, defaults.topP)
      && m.(temperature := defaults.temperature, topP := defaults.topP) == defaults
  {
    Merge(RuntimeOptions(prompt), defaults)
  }

  /** `req` copies every field of `merged` (absent stays absent, present is carried
      unchanged) and carries the stream flag. For temperature and topP this is the
      null-preserving float-to-double conversion, which is exact. */
  ghost predicate CarriesOptions(req: GalleryChatReq, merged: GalleryOptions, stream: bool) {
    && req.answerNum == merged.answerNum
    && req.maxTokens == merged.maxTokens
    && req.temperature == merged.temperature
    && req.topP == merged.topP
    && req.presencePenalty == merged.presencePenalty
    && req.user == merged.user
    && req.withPrompt == merged.withPrompt
    && req.isStream == stream
  }

  /** Builds the structured request for `prompt` over the adapter's default options. */
  function CreateRequest(api: Collaborators, defaults: GalleryOptions, prompt: Prompt, stream: bool): (r: Result<GalleryChatReq, Error>)
    ensures r.Failure? <==> prompt.options.Some? && prompt.options.value.ForeignOptions?
    ensures r.Failure? ==> r.error == InvalidArgument(ForeignOptionsMessage(prompt.options.value.simpleName))
    ensures r.Success? ==> |r.value.messages| == |KeptIndices(prompt.instructions)|
    ensures r.Success? ==> forall k :: 0 <= k < |r.value.messages| ==>
      r.value.messages[k] == ToMessage(api, prompt.instructions[KeptIndices(prompt.instructions)[k]])
    ensures r.Success? ==> CarriesOptions(r.value, EffectiveOptions(defaults, prompt), stream)
  {
    var messages := FilterMessages(api, prompt.instructions);
    FilterMatchesKeptIndices(api, prompt.instructions);
    if prompt.options.Some? && prompt.options.value.ForeignOptions? then
      Failure(InvalidArgument(ForeignOptionsMessage(prompt.options.value.simpleName)))
    else
      var merged := Merge(RuntimeOptions(prompt), defaults);
      Success(GalleryChatReq(
        merged.answerNum,
        merged.maxTokens,
        messages,
        // temperature and topP: null stays null, a value is widened exactly
        merged.temperature,
        merged.topP,
        merged.presencePenalty,
        merged.user,
        merged.withPrompt,
        stream))
  }

  /** Without runtime options the request's option fields are the defaults. */
  lemma RequestWithoutOptionsUsesDefaults(api: Collaborators, defaults: GalleryOptions, prompt: Prompt, stream: bool)
    requires prompt.options.None?
    ensures CreateRequest(api, defaults, prompt, stream).Success?
    ensures CarriesOptions(CreateRequest(api, defaults, prompt, stream).value, defaults, stream)
  {
  }

  /** The option fields a request carries, as an option record. */
  function RequestOptions(req: GalleryChatReq): GalleryOptions {
    GalleryOptions(req.temperature, req.topP, req.maxTokens, req.answerNum, req.presencePenalty, req.user, req.withPrompt)
  }

  /** With runtime options of the adapter's own class, every present runtime field
      wins over the default and every absent one falls back to it. */
  lemma RequestRuntimeOverridesEveryField(api: Collaborators, defaults: GalleryOptions, prompt: Prompt, stream: bool)
    requires prompt.options.Some? && prompt.options.value.ChatOptionsValue?
    requires prompt.options.value.chat.AdapterOptions?
    ensures CreateRequest(api, defaults, prompt, stream).Success?
    ensures IsOverride(RequestOptions(CreateRequest(api, defaults, prompt, stream).value), prompt.options.value.chat.fields, defaults)
  {
  }

  /** With runtime options of another `ChatOptions` class, a present runtime
      temperature or topP wins over the default, and every other field comes from
      the defaults. */
  lemma RequestRuntimeSampling(api: Collaborators, defaults: GalleryOptions, prompt: Prompt, stream: bool)
    requires prompt.options.Some? && prompt.options.value.ChatOptionsValue?
    requires prompt.options.value.chat.OtherChatOptions?
    ensures var req := CreateRequest(api, defaults, prompt, stream).value;
      var fields := prompt.options.value.chat.fields;
      && req.temperature == (if fields.temperature.Some? then fields.temperature else defaults.temperature)
      && req.topP == (if fields.topP.Some? then fields.topP else defaults.topP)
      && req.answerNum == defaults.answerNum
      && req.maxTokens == defaults.maxTokens
      && req.presencePenalty == defaults.presencePenalty
      && req.user == defaults.user
      && req.withPrompt == defaults.withPrompt
  {
  }

  /** The stream flag is the only difference between the blocking and the streaming
      request of the same prompt. */
  lemma RequestStreamFlagOnly(api: Collaborators, defaults: GalleryOptions, prompt: Prompt)
    ensures CreateRequest(api, defaults, prompt, true).Success? == CreateRequest(api, defaults, prompt, false).Success?
    ensures CreateRequest(api, defaults, prompt, true).Success? ==>
      CreateRequest(api, defaults, prompt, true).value == CreateRequest(api, defaults, prompt, false).value.(isStream := true)
  {
  }
}
