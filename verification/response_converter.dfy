/** Converting the vendor's response into the framework's chat response. */
module ResponseConverter {
  import opened Wrappers
  import opened ChatModel

  /** The finish reason every generation is tagged with. */
  const ChatCompletion := "chat.completion"

  /** One choice as a generation: its message content, the per-choice property map,
      and metadata carrying the response's usage figures. */
  function ToGeneration(api: Collaborators, resp: GalleryChatResp, choice: Choice): Generation {
    Generation(choice.message.content, api.toMap(resp.id, choice), GenerationMetadata(ChatCompletion, api.extractUsage(resp)))
  }

  /** Maps `choices` (the choices of `resp`, or a slice of them) to generations,
      one for one and in order. */
  function ToGenerations(api: Collaborators, resp: GalleryChatResp, choices: seq<Choice>): (gens: seq<Generation>)
    ensures |gens| == |choices|
    ensures forall i :: 0 <= i < |choices| ==>
      && gens[i].text == choices[i].message.content
      && gens[i].properties == api.toMap(resp.id, choices[i])
      && gens[i].metadata == GenerationMetadata(ChatCompletion, api.extractUsage(resp))
  {
    if |choices| == 0 then []
    else [ToGeneration(api, resp, choices[0])] + ToGenerations(api, resp, choices[1..])
  }

  /** The framework response for a non-null vendor response. */
  function ToChatCompletion(api: Collaborators, resp: GalleryChatResp): (r: ChatResponse)
    ensures |r.generations| == |resp.choices|
    ensures forall i :: 0 <= i < |resp.choices| ==>
      && r.generations[i].text == resp.choices[i].message.content
      && r.generations[i].properties == api.toMap(resp.id, resp.choices[i])
      && r.generations[i].metadata == GenerationMetadata(ChatCompletion, api.extractUsage(resp))
    ensures r.metadata == Some(api.responseMetadata(resp))
  {
    ChatResponse(ToGenerations(api, resp, resp.choices), Some(api.responseMetadata(resp)))
  }

  /** The framework response for a null vendor response: no generations and the
      placeholder metadata. */
  const EmptyChatResponse := ChatResponse([], None)

  /** The texts of a list of generations. */
  function Texts(gens: seq<Generation>): seq<string> {
    if |gens| == 0 then [] else [gens[0].text] + Texts(gens[1..])
  }

  /** The message contents of a list of choices. */
  function Contents(choices: seq<Choice>): seq<string> {
    if |choices| == 0 then [] else [choices[0].message.content] + Contents(choices[1..])
  }

  /** Conversion is a round trip on texts: reading the generations' texts back gives
      exactly the choices' contents, in order, nothing dropped, nothing added. */
  lemma {:induction false} TextsAreContents(api: Collaborators, resp: GalleryChatResp, choices: seq<Choice>)
    ensures Texts(ToGenerations(api, resp, choices)) == Contents(choices)
    decreases |choices|
  {
    if |choices| > 0 {
      var gens := ToGenerations(api, resp, choices);
      assert gens[1..] == ToGenerations(api, resp, choices[1..]);
      TextsAreContents(api, resp, choices[1..]);
    }
  }

  /** Conversion distributes over concatenation of choices: no reordering and no
      deduplication. */
  lemma {:induction false} GenerationsAppend(api: Collaborators, resp: GalleryChatResp, a: seq<Choice>, b: seq<Choice>)
    ensures ToGenerations(api, resp, a + b) == ToGenerations(api, resp, a) + ToGenerations(api, resp, b)
    decreases |a|
  {
    if |a| > 0 {
      assert (a + b)[1..] == a[1..] + b;
      GenerationsAppend(api, resp, a[1..], b);
    }
  }

  /** The converted response of a vendor response with no choices has no generations. */
  lemma NoChoicesNoGenerations(api: Collaborators, resp: GalleryChatResp)
    ensures ToChatCompletion(api, resp).generations == [] <==> resp.choices == []
  {
  }
}
