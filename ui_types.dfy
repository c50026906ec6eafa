/** The frontend's own declarations (frontend/src/types.ts): the status with
    its extra `idle`, the message with its streaming flag, and the table of
    selectable models. */
module UiTypes {
  import opened Types

  /** The frontend's `DiscussionStatus`: the backend's two states and `idle`. */
  datatype UiStatus = Idle | Running | Stopped

  /** The status the backend reports, as the frontend holds it: never `Idle`. */
  function FromBackend(s: Status): (u: UiStatus)
    ensures u != Idle
    ensures u == UiStatus.Running <==> s == Status.Running
  {
    match s
    case Running => UiStatus.Running
    case Stopped => UiStatus.Stopped
  }

  /** A message as the frontend holds it: `isStreaming` is absent on messages
      that arrive whole. */
  datatype UiMessage = UiMessage(
    id: string,
    sender: string,
    content: string,
    timestamp: Timestamp,
    isStreaming: Option<bool>)

  datatype ModelOption = ModelOption(id: ModelId, name: string, provider: Provider)

  /** `MODEL_OPTIONS`, in display order. */
  const ModelOptions: seq<ModelOption> := [
    ModelOption(Gpt51, "GPT-5.1", OpenAI),
    ModelOption(Gpt4, "GPT-4", OpenAI),
    ModelOption(Gpt35Turbo, "GPT-3.5 Turbo", OpenAI),
    ModelOption(ClaudeSonnet45, "Claude Sonnet 4.5", Anthropic),
    ModelOption(Claude3Opus, "Claude 3 Opus", Anthropic),
    ModelOption(BedrockClaudeSonnet45, "Claude Sonnet 4.5 (Bedrock)", Bedrock),
    ModelOption(BedrockClaudeOpus4, "Claude Opus 4 (Bedrock)", Bedrock)
  ]

  /** `MODEL_OPTIONS.find((m) => m.id === modelId)`. */
  function Lookup(modelId: ModelId): (r: Option<ModelOption>)
    ensures r.Some? ==> r.value in ModelOptions && r.value.id == modelId
  {
    Find(ModelOptions, (o: ModelOption) => o.id == modelId)
  }

  /** The position of a model's entry. */
  function IndexOf(modelId: ModelId): (i: nat)
    ensures i < |ModelOptions| && ModelOptions[i].id == modelId
  {
    match modelId
    case Gpt51 => 0
    case Gpt4 => 1
    case Gpt35Turbo => 2
    case ClaudeSonnet45 => 3
    case Claude3Opus => 4
    case BedrockClaudeSonnet45 => 5
    case BedrockClaudeOpus4 => 6
  }

  /** Each entry sits at the position of its own id. */
  lemma IndexOfEntry(j: nat)
    requires j < |ModelOptions|
    ensures IndexOf(ModelOptions[j].id) == j
  {
  }

  /** No two entries share an id. */
  lemma ModelOptionIdsDistinct()
    ensures forall i, j :: 0 <= i < j < |ModelOptions| ==> ModelOptions[i].id != ModelOptions[j].id
  {
    forall i, j | 0 <= i < j < |ModelOptions|
      ensures ModelOptions[i].id != ModelOptions[j].id
    {
      IndexOfEntry(i);
      IndexOfEntry(j);
    }
  }

  /** The entry of a model: the one at its position in the table. */
  function OptionFor(modelId: ModelId): (o: ModelOption)
    ensures o in ModelOptions && o.id == modelId
  {
    ModelOptions[IndexOf(modelId)]
  }

  /** Every member of the `ModelId` union has an entry, so the non-null
      assertion on the lookup never fails; the entry found is the model's
      entry, and the only one with that id. */
  lemma LookupIsTotal(modelId: ModelId)
    ensures Lookup(modelId) == Some(OptionFor(modelId))
    ensures forall o :: o in ModelOptions && o.id == modelId ==> o == OptionFor(modelId)
  {
    assert Lookup(modelId) == Some(OptionFor(modelId)) by {
      var p := (o: ModelOption) => o.id == modelId;
      assert p(ModelOptions[IndexOf(modelId)]);
      IndexOfEntry(FindIndex(ModelOptions, p).value);
    }
    forall o | o in ModelOptions && o.id == modelId
      ensures o == OptionFor(modelId)
    {
      EntryIsOptionFor(o);
    }
  }

  /** An entry is the entry of its own id. */
  lemma EntryIsOptionFor(o: ModelOption)
    requires o in ModelOptions
    ensures o == OptionFor(o.id)
  {
    var j :| 0 <= j < |ModelOptions| && ModelOptions[j] == o;
    IndexOfEntry(j);
  }

  /** The provider of an entry follows the prefix of its wire id: `gpt-`
      for the chat-completions provider, `claude-` for the direct messages
      provider, `eu.anthropic.` for the Converse provider. */
  lemma ProviderFollowsPrefix(o: ModelOption)
    requires o in ModelOptions
    ensures o.provider == OpenAI <==> "gpt-" <= ModelIdText(o.id)
    ensures o.provider == Anthropic <==> "claude-" <= ModelIdText(o.id)
    ensures o.provider == Bedrock <==> "eu.anthropic." <= ModelIdText(o.id)
  {
    var i :| 0 <= i < |ModelOptions| && ModelOptions[i] == o;
    EntryStartsWithPrefix(i);
    PrefixesExclude(ModelIdText(o.id));
  }

  /** The wire-id prefix of each provider's models. */
  function ProviderPrefix(p: Provider): string
  {
    match p
    case OpenAI => "gpt-"
    case Anthropic => "claude-"
    case Bedrock => "eu.anthropic."
  }

  lemma EntryStartsWithPrefix(i: nat)
    requires i < |ModelOptions|
    ensures ProviderPrefix(ModelOptions[i].provider) <= ModelIdText(ModelOptions[i].id)
  {
    var o := ModelOptions[i];
    IndexOfEntry(i);
    match o.id
    case Gpt51 => StartsWith("gpt-", "gpt-5.1-2025-11-13");
    case Gpt4 => StartsWith("gpt-", "gpt-4");
    case Gpt35Turbo => StartsWith("gpt-", "gpt-3.5-turbo");
    case ClaudeSonnet45 => StartsWith("claude-", "claude-sonnet-4-5-20250929");
    case Claude3Opus => StartsWith("claude-", "claude-3-opus-20240229");
    case BedrockClaudeSonnet45 => StartsWith("eu.anthropic.", "eu.anthropic.claude-sonnet-4-5-20250929-v1:0");
    case BedrockClaudeOpus4 => StartsWith("eu.anthropic.", "eu.anthropic.claude-opus-4-20250514-v1:0");
  }

  /** A text starts with a prefix when their leading characters agree. */
  lemma StartsWith(prefix: string, text: string)
    requires |prefix| <= |text| && forall k :: 0 <= k < |prefix| ==> text[k] == prefix[k]
    ensures prefix <= text
  {
  }

  /** No text starts with two of the prefixes: they differ in their first character. */
  lemma PrefixesExclude(text: string)
    ensures "gpt-" <= text ==> !("claude-" <= text) && !("eu.anthropic." <= text)
    ensures "claude-" <= text ==> !("eu.anthropic." <= text)
  {
    assert "gpt-"[0] == 'g' && "claude-"[0] == 'c' && "eu.anthropic."[0] == 'e';
  }
}
