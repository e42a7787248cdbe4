/** Runtime options over default options: the interface-restricted copy of the
    runtime options and the field-wise override merge. */
module OptionsMerge {
  import opened Wrappers
  import opened ChatModel

  /** One field of a merge: a present runtime value wins, an absent one falls back. */
  function Override<T>(runtime: Option<T>, fallback: Option<T>): Option<T> {
    if runtime.Some? then runtime else fallback
  }

  /** `m` agrees with the override law on one field. */
  ghost predicate OverridesField<T>(m: Option<T>, runtime: Option<T>, defaults: Option<T>) {
    (runtime.Some? && m == runtime) || (runtime.None? && m == defaults)
  }

  /** `m` agrees with the override law on every field. */
  ghost predicate IsOverride(m: GalleryOptions, runtime: GalleryOptions, defaults: GalleryOptions) {
    && OverridesField(m.temperature, runtime.temperature, defaults.temperature)
    && OverridesField(m.topP, runtime.topP, defaults.topP)
    && OverridesField(m.maxTokens, runtime.maxTokens, defaults.maxTokens)
    && OverridesField(m.answerNum, runtime.answerNum, defaults.answerNum)
    && OverridesField(m.presencePenalty, runtime.presencePenalty, defaults.presencePenalty)
    && OverridesField(m.user, runtime.user, defaults.user)
    && OverridesField(m.withPrompt, runtime.withPrompt, defaults.withPrompt)
  }

  /** Merges runtime options (possibly null) over the defaults. */
  function Merge(runtime: Option<GalleryOptions>, defaults: GalleryOptions): (m: GalleryOptions)
    ensures runtime.None? ==> m == defaults
    ensures runtime.Some? ==> IsOverride(m, runtime.value, defaults)
  {
    var r := runtime.GetOr(NoOptions);
    GalleryOptions(
      Override(r.temperature, defaults.temperature),
      Override(r.topP, defaults.topP),
      Override(r.maxTokens, defaults.maxTokens),
      Override(r.answerNum, defaults.answerNum),
      Override(r.presencePenalty, defaults.presencePenalty),
      Override(r.user, defaults.user),
      Override(r.withPrompt, defaults.withPrompt))
  }

  /** Turns a runtime `ChatOptions` object into an adapter option record. An object
      of the adapter's own class is taken as it is; any other object is copied
      through the `ChatOptions` interface, so only the properties that interface
      declares (temperature and topP) are carried over. */
  function CopyToTarget(source: ChatOptionsObject): (c: GalleryOptions)
    ensures source.AdapterOptions? ==> c == source.fields
    ensures c.temperature == source.fields.temperature && c.topP == source.fields.topP
    ensures source.OtherChatOptions? ==> c.(temperature := None, topP := None) == NoOptions
  {
    match source
    case AdapterOptions(fields) => fields
    case OtherChatOptions(fields) => NoOptions.(temperature := fields.temperature, topP := fields.topP)
  }

  /** The override law determines the merge: any record obeying it is the merge. */
  lemma MergeUnique(m: GalleryOptions, runtime: GalleryOptions, defaults: GalleryOptions)
    requires IsOverride(m, runtime, defaults)
    ensures m == Merge(Some(runtime), defaults)
  {
  }

  /** A runtime record with no field set changes nothing, and so does a null one. */
  lemma MergeEmptyRuntime(defaults: GalleryOptions)
    ensures Merge(Some(NoOptions), defaults) == defaults
    ensures Merge(None, defaults) == defaults
  {
  }

  /** Over empty defaults the merge is the runtime record itself. */
  lemma MergeEmptyDefaults(runtime: GalleryOptions)
    ensures Merge(Some(runtime), NoOptions) == runtime
  {
  }

  /** Merging the same runtime options twice is merging them once. */
  lemma MergeIdempotent(runtime: GalleryOptions, defaults: GalleryOptions)
    ensures Merge(Some(runtime), Merge(Some(runtime), defaults)) == Merge(Some(runtime), defaults)
  {
  }

  /** Layered overrides compose: merging `a` over (`b` over `d`) is merging
      (`a` over `b`) over `d`. */
  lemma MergeAssociative(a: GalleryOptions, b: GalleryOptions, d: GalleryOptions)
    ensures Merge(Some(a), Merge(Some(b), d)) == Merge(Some(Merge(Some(a), b)), d)
  {
  }

  /** A field present in the defaults stays present after any merge. */
  lemma MergeKeepsDefaults(runtime: Option<GalleryOptions>, defaults: GalleryOptions)
    ensures defaults.temperature.Some? ==> Merge(runtime, defaults).temperature.Some?
    ensures defaults.topP.Some? ==> Merge(runtime, defaults).topP.Some?
    ensures defaults.maxTokens.Some? ==> Merge(runtime, defaults).maxTokens.Some?
    ensures defaults.answerNum.Some? ==> Merge(runtime, defaults).answerNum.Some?
    ensures defaults.presencePenalty.Some? ==> Merge(runtime, defaults).presencePenalty.Some?
    ensures defaults.user.Some? ==> Merge(runtime, defaults).user.Some?
    ensures defaults.withPrompt.Some? ==> Merge(runtime, defaults).withPrompt.Some?
  {
  }

  /** Runtime options of the adapter's own class obey the override law on every
      field. */
  lemma CopiedAdapterOptionsOverrideEveryField(fields: GalleryOptions, defaults: GalleryOptions)
    ensures IsOverride(Merge(Some(CopyToTarget(AdapterOptions(fields))), defaults), fields, defaults)
  {
  }

  /** Runtime options of another `ChatOptions` class, copied through the interface,
      can override only temperature and topP; every other merged field is the
      default. */
  lemma CopiedRuntimeOverridesOnlySampling(fields: GalleryOptions, defaults: GalleryOptions)
    ensures var m := Merge(Some(CopyToTarget(OtherChatOptions(fields))), defaults);
      && m.(temperature := defaults.temperature, topP := defaults.topP) == defaults
      && m.temperature == Override(fields.temperature, defaults.temperature)
      && m.topP == Override(fields.topP, defaults.topP)
  {
  }
}
