# Huawei AI Gallery chat adapter — a Dafny model

This project models `HuaweiAiGalleryChatClient`, the Spring AI chat adapter for the
Huawei AI Gallery (Pangu) vendor client. The adapter takes a framework `Prompt`,
which holds typed instructions plus optional runtime options. It turns the prompt
into a call on the vendor's `GalleryClient`, then maps the vendor's
`GalleryChatResp` back into a framework `ChatResponse`.

Modules:

- `Wrappers` has `Option` (a Java `null` is `None`) and `Result` (a thrown
  `IllegalArgumentException` is `Failure(InvalidArgument(message))`).
- `ChatModel` holds the datatypes: instruction, prompt, option record, vendor
  request and response, generation and chat response. It also holds the vendor
  client and the collaborators whose code is not part of this model.
- `OptionsMerge` turns the runtime options into an adapter option record. An
  object of the adapter's own option class is taken whole, and any other
  `ChatOptions` object is copied through that interface. The module then merges
  the record field by field over the defaults.
- `RequestBuilder` implements `createRequest`: the message filter, the
  options type check, the merge, and the field copy into `GalleryChatReq`.
- `ResponseConverter` implements `toChatCompletion`.
- `GalleryChatClient` holds the four constructors with their null checks. It
  also holds `call` and `stream`: the empty-prompt check, the
  single-instruction shortcut, and the handling of a null vendor response.

Collaborators whose code is not part of this model are fields of the
`Collaborators` record. Every operation that uses one of them takes the record as
a parameter:

- `ApiUtils.toRole`, `ApiUtils.toMap` and `ApiUtils.extractUsage`;
- `HuaweiAiGalleryChatResponseMetadata.from`;
- the constants `ApiUtils.DEFAULT_TEMPERATURE`, `ApiUtils.DEFAULT_TOP_P`,
  `ApiUtils.DEFAULT_STREAM_CALLBACK` and `RetryUtils.DEFAULT_RETRY_TEMPLATE`.

The vendor client is a record of four total functions, one per `GalleryClient`
method the adapter uses. Each returns `Option<GalleryChatResp>`.

Assumptions about library code that is not part of this model:

- `ModelOptionsUtils.copyToTarget(runtime, ChatOptions.class,
  HuaweiAiGalleryChatOptions.class)` returns the runtime object unchanged when it
  is already of the adapter's own option class. Every field of such an object
  then takes part in the merge (`OptionsMerge.CopiedAdapterOptionsOverrideEveryField`,
  `RequestBuilder.RequestRuntimeOverridesEveryField`).
- For a runtime object of any other class implementing `ChatOptions`,
  `copyToTarget` copies only the properties that the interface declares. Of the
  adapter's option fields, those are temperature and topP, so such an object can
  override only those two fields (`OptionsMerge.CopiedRuntimeOverridesOnlySampling`,
  `RequestBuilder.RequestRuntimeSampling`).
- `ModelOptionsUtils.merge(runtime, defaults, …)` is a field-wise override. A
  present runtime field wins, and an absent one falls back to the default. A null
  runtime object leaves the defaults unchanged.
- `ApiUtils.DEFAULT_STREAM_CALLBACK` and `RetryUtils.DEFAULT_RETRY_TEMPLATE` are
  non-null. The model gives them non-optional types, so the shorter constructors
  fail only when the vendor client or the options are null.

A prompt with exactly one instruction never reaches `createRequest`
(HuaweiAiGalleryChatClient.java:83-85 and :108-110). So its options are never
inspected, and options of a class that does not implement `ChatOptions` do not
make it fail. Its instruction's content is sent even when the instruction is not
a user, assistant or system message. See
`GalleryChatClient.SingleInstructionShortcut` and the `RejectedBeforeVendor`
clause of `GalleryChatClient.Call`.

## Model

| member | source | states |
|---|---|---|
| OptionsMerge.Merge | src/main/java/org/springframework/ai/huaweiai/gallery/HuaweiAiGalleryChatClient.java:159-160 | with no runtime options the result is the defaults; otherwise every field obeys the override law (a present runtime value wins, an absent one yields the default) |
| OptionsMerge.CopyToTarget | src/main/java/org/springframework/ai/huaweiai/gallery/HuaweiAiGalleryChatClient.java:149-153 | an object of the adapter's own class is taken whole; an object of any other ChatOptions class keeps only its temperature and topP, every other field absent |
| OptionsMerge.CopiedAdapterOptionsOverrideEveryField | src/main/java/org/springframework/ai/huaweiai/gallery/HuaweiAiGalleryChatClient.java:150-160 | runtime options of the adapter's own class obey the override law on all seven fields |
| OptionsMerge.MergeUnique | src/main/java/org/springframework/ai/huaweiai/gallery/HuaweiAiGalleryChatClient.java:160 | any record obeying the override law on every field is the merge: the law determines it |
| OptionsMerge.MergeEmptyRuntime | src/main/java/org/springframework/ai/huaweiai/gallery/HuaweiAiGalleryChatClient.java:149-160 | a null runtime object or one with no field set leaves the defaults unchanged |
| OptionsMerge.MergeEmptyDefaults | src/main/java/org/springframework/ai/huaweiai/gallery/HuaweiAiGalleryChatClient.java:160 | merged over empty defaults, the runtime record comes back unchanged |
| OptionsMerge.MergeIdempotent | src/main/java/org/springframework/ai/huaweiai/gallery/HuaweiAiGalleryChatClient.java:160 | merging the same runtime options a second time changes nothing |
| OptionsMerge.MergeAssociative | src/main/java/org/springframework/ai/huaweiai/gallery/HuaweiAiGalleryChatClient.java:160 | layered overrides compose: a over (b over d) equals (a over b) over d |
| OptionsMerge.MergeKeepsDefaults | src/main/java/org/springframework/ai/huaweiai/gallery/HuaweiAiGalleryChatClient.java:160 | a field present in the defaults is present after any merge |
| OptionsMerge.CopiedRuntimeOverridesOnlySampling | src/main/java/org/springframework/ai/huaweiai/gallery/HuaweiAiGalleryChatClient.java:150-160 | after copying an object of another ChatOptions class, the runtime options change only temperature and topP, each by override; every other merged field is the default |
| RequestBuilder.KeptIndices | src/main/java/org/springframework/ai/huaweiai/gallery/HuaweiAiGalleryChatClient.java:140-144 | the kept positions are strictly increasing, each is a user, assistant or system instruction, and every such instruction's position is kept |
| RequestBuilder.FilterMessages | src/main/java/org/springframework/ai/huaweiai/gallery/HuaweiAiGalleryChatClient.java:140-146 | the request never has more messages than the prompt has instructions |
| RequestBuilder.FilterMatchesKeptIndices | src/main/java/org/springframework/ai/huaweiai/gallery/HuaweiAiGalleryChatClient.java:140-146 | message k is instruction KeptIndices[k] mapped to (role, unchanged content); there are exactly as many messages as kept positions |
| RequestBuilder.FilterSnoc | src/main/java/org/springframework/ai/huaweiai/gallery/HuaweiAiGalleryChatClient.java:140-146 | appending one instruction appends its mapped message exactly when it is user, assistant or system |
| RequestBuilder.FilterAppend | src/main/java/org/springframework/ai/huaweiai/gallery/HuaweiAiGalleryChatClient.java:140-146 | filtering a concatenation is the concatenation of the filtered parts, so order is preserved |
| RequestBuilder.FilterSingleton | src/main/java/org/springframework/ai/huaweiai/gallery/HuaweiAiGalleryChatClient.java:142-145 | one instruction yields its mapped message when it is user, assistant or system, and nothing otherwise |
| RequestBuilder.FilterCountsConversational | src/main/java/org/springframework/ai/huaweiai/gallery/HuaweiAiGalleryChatClient.java:140-146 | the message count equals the number of user, assistant and system instructions |
| RequestBuilder.FilterKeepsAllConversational | src/main/java/org/springframework/ai/huaweiai/gallery/HuaweiAiGalleryChatClient.java:140-146 | when every instruction is user, assistant or system, the filter is a one-for-one in-order map |
| RequestBuilder.FilterDropsOther | src/main/java/org/springframework/ai/huaweiai/gallery/HuaweiAiGalleryChatClient.java:142-144 | instructions of any other kind produce no messages |
| RequestBuilder.EffectiveOptions | src/main/java/org/springframework/ai/huaweiai/gallery/HuaweiAiGalleryChatClient.java:148-160 | without runtime options the merged options are the defaults; with the adapter's own class they obey the override law on every field; with another ChatOptions class only temperature and topP are overridden |
| RequestBuilder.CreateRequest | src/main/java/org/springframework/ai/huaweiai/gallery/HuaweiAiGalleryChatClient.java:137-174 | fails with the ChatOptions type message exactly when the prompt's options are of a foreign class; otherwise it carries the filtered messages, copies every field of the merged options (temperature and topP absent exactly when merged absent, else equal) and carries the stream flag |
| RequestBuilder.RequestWithoutOptionsUsesDefaults | src/main/java/org/springframework/ai/huaweiai/gallery/HuaweiAiGalleryChatClient.java:149-173 | without runtime options the request succeeds and its option fields are the defaults |
| RequestBuilder.RequestRuntimeSampling | src/main/java/org/springframework/ai/huaweiai/gallery/HuaweiAiGalleryChatClient.java:150-171 | with runtime options of another ChatOptions class, a present runtime temperature or topP wins, and answerNum, maxTokens, presencePenalty, user and withPrompt are the defaults |
| RequestBuilder.RequestRuntimeOverridesEveryField | src/main/java/org/springframework/ai/huaweiai/gallery/HuaweiAiGalleryChatClient.java:149-171 | with runtime options of the adapter's own class the request succeeds, and each of its seven option fields is the runtime value when present and the default otherwise |
| RequestBuilder.RequestStreamFlagOnly | src/main/java/org/springframework/ai/huaweiai/gallery/HuaweiAiGalleryChatClient.java:163-173 | the streaming and blocking requests of one prompt differ only in isStream |
| ResponseConverter.ToGenerations | src/main/java/org/springframework/ai/huaweiai/gallery/HuaweiAiGalleryChatClient.java:125-129 | N choices give N generations; generation i has choice i's content as text, the property map of (response id, choice i), and metadata "chat.completion" with the response's usage |
| ResponseConverter.ToChatCompletion | src/main/java/org/springframework/ai/huaweiai/gallery/HuaweiAiGalleryChatClient.java:123-132 | the response has one generation per choice, in order; generation i has choice i's content as text, the property map of (response id, choice i) and metadata "chat.completion" with the response's usage; the response metadata is built from the vendor response |
| ResponseConverter.TextsAreContents | src/main/java/org/springframework/ai/huaweiai/gallery/HuaweiAiGalleryChatClient.java:125-129 | reading back the generations' texts gives exactly the choices' contents, in order |
| ResponseConverter.GenerationsAppend | src/main/java/org/springframework/ai/huaweiai/gallery/HuaweiAiGalleryChatClient.java:125-129 | conversion distributes over concatenation of choices: no reordering, filtering or deduplication |
| ResponseConverter.NoChoicesNoGenerations | src/main/java/org/springframework/ai/huaweiai/gallery/HuaweiAiGalleryChatClient.java:125-131 | the converted response has no generations exactly when the vendor response has no choices |
| GalleryChatClient.NewClient | src/main/java/org/springframework/ai/huaweiai/gallery/HuaweiAiGalleryChatClient.java:62-74 | construction succeeds exactly when no dependency is null; the first null one, in declaration order, names the failure; on success each dependency is stored |
| GalleryChatClient.NewClientWithCallBack | src/main/java/org/springframework/ai/huaweiai/gallery/HuaweiAiGalleryChatClient.java:58-60 | succeeds exactly when client, callback and options are non-null; on success the given client, callback and options are stored, with the library's default retry policy |
| GalleryChatClient.NewClientWithOptions | src/main/java/org/springframework/ai/huaweiai/gallery/HuaweiAiGalleryChatClient.java:54-56 | succeeds exactly when client and options are non-null; on success the given client is stored and the given options become the defaults, with the library's default callback and retry policy |
| GalleryChatClient.DefaultOptions | src/main/java/org/springframework/ai/huaweiai/gallery/HuaweiAiGalleryChatClient.java:48-51 | the one-argument defaults carry the library's temperature and topP and no other field |
| GalleryChatClient.NewDefaultClient | src/main/java/org/springframework/ai/huaweiai/gallery/HuaweiAiGalleryChatClient.java:47-52 | succeeds exactly when the client is non-null; on success the given client is stored, the defaults carry only the default temperature and topP, with the default callback and retry policy |
| GalleryChatClient.PlanCall | src/main/java/org/springframework/ai/huaweiai/gallery/HuaweiAiGalleryChatClient.java:78-114 | an empty prompt fails with "At least one text is required!"; one instruction goes out as its raw content; two or more go out as createRequest(prompt, stream) and fail exactly when it fails |
| GalleryChatClient.Call | src/main/java/org/springframework/ai/huaweiai/gallery/HuaweiAiGalleryChatClient.java:77-96 | for responses with non-null choices and messages, fails only for an empty prompt or a multi-instruction prompt with foreign options, with the matching message; a null vendor answer gives zero generations; otherwise the result is the converted vendor response (one generation per choice with that choice's text) |
| GalleryChatClient.Stream | src/main/java/org/springframework/ai/huaweiai/gallery/HuaweiAiGalleryChatClient.java:100-121 | same failures as Call, for responses with non-null choices and messages; on success at most one element, none exactly when the vendor answers null, else exactly the converted vendor response |
| GalleryChatClient.SingleInstructionShortcut | src/main/java/org/springframework/ai/huaweiai/gallery/HuaweiAiGalleryChatClient.java:83-110 | one instruction never fails and sends its raw content to createChat or createStreamChat, whatever its kind and options |
| GalleryChatClient.MultiInstructionRequest | src/main/java/org/springframework/ai/huaweiai/gallery/HuaweiAiGalleryChatClient.java:86-113 | two or more instructions with acceptable options reach the vendor as createRequest(prompt, false) for call and createRequest(prompt, true) with the callback for stream |
| GalleryChatClient.StreamWrapsCall | src/main/java/org/springframework/ai/huaweiai/gallery/HuaweiAiGalleryChatClient.java:90-119 | when the vendor answers both variants alike, stream emits exactly call's response, or nothing where call returns the empty response |

## Left out

- The retry policy (`retryTemplate.execute`): the unit of work runs once. Backoff, sleeping and re-invocation are the policy's own and not part of this model.
- Exceptions thrown by the vendor client or by the collaborators: the vendor is a total function returning an optional response.
- The vendor SDK's network transport and the behaviour of `StreamCallBack`: the callback is an opaque handle that is only passed along.
- Reactor `Flux` laziness: a stream is a sequence of length zero or one.
- Logging (`log.warn` on a null response).
- `ApiUtils.toRole`, `ApiUtils.toMap`, `ApiUtils.extractUsage` and `HuaweiAiGalleryChatResponseMetadata.from`: their code is not part of this model, so they are uninterpreted functions in `Collaborators`.
- The reflection inside `ModelOptionsUtils.copyToTarget` and `ModelOptionsUtils.merge`: replaced by explicit per-field copy and override, under the assumptions stated above.
- Float-to-double conversion of temperature and topP (`doubleValue`): values are `real`, because widening a float to a double is exact.
- The exception message's class name comes from `getClass().getSimpleName()`: the model takes the simple name as given with the foreign options.
- GalleryChatClient.Call: a non-null vendor response whose choices list is null, or one of whose choices has a null message, makes `toChatCompletion` throw a NullPointerException (lines 125-127 dereference both without a check). The model's response types cannot hold those nulls, so this failure is not modelled.
- GalleryChatClient.Stream: the same NullPointerException for null choices or a null message is not modelled.
