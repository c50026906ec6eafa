/** What the three generation adapters share (the files under backend/src/adapters):
    the provider-neutral chat message, and the `for await` loop that turns a
    provider's event stream into the text fragments the adapter yields. */
module AdapterStreams {
  import opened Types

  /** `{ role, content }`, the message shape of both direct protocols. */
  datatype ChatMessage = ChatMessage(role: ChatRole, content: string)

  /** The fragments yielded for a stream of provider events: `pick` says
      what a single event yields, if anything. */
  function Yields<E>(events: seq<E>, pick: E -> Option<string>): seq<string>
  {
    if events == [] then []
    else Yields(events[..|events| - 1], pick) + Picked(events[|events| - 1], pick)
  }

  function Picked<E>(e: E, pick: E -> Option<string>): seq<string>
  {
    match pick(e)
    case Some(t) => [t]
    case None => []
  }

  /** The generator's loop: one pass over the events, yielding as it goes. */
  method Drain<E>(events: seq<E>, pick: E -> Option<string>) returns (fragments: seq<string>)
    ensures fragments == Yields(events, pick)
  {
    fragments := [];
    for i := 0 to |events|
      invariant fragments == Yields(events[..i], pick)
    {
      assert events[..i + 1][..i] == events[..i];
      match pick(events[i]) {
        case Some(t) => fragments := fragments + [t];
        case None =>
      }
    }
    assert events[..|events|] == events;
  }

  /** Streams are yielded in arrival order: splitting the event stream splits the fragments. */
  lemma {:induction false} YieldsAppend<E>(a: seq<E>, b: seq<E>, pick: E -> Option<string>)
    ensures Yields(a + b, pick) == Yields(a, pick) + Yields(b, pick)
    decreases |b|
  {
    if b == [] {
      assert a + b == a;
    } else {
      var b' := b[..|b| - 1];
      assert (a + b)[..|a + b| - 1] == a + b';
      YieldsAppend(a, b', pick);
    }
  }

  /** A fragment is yielded exactly when some event picks it. */
  lemma {:induction false} YieldsMembers<E>(events: seq<E>, pick: E -> Option<string>, t: string)
    ensures t in Yields(events, pick) <==> exists i :: 0 <= i < |events| && pick(events[i]) == Some(t)
  {
    if events != [] {
      var n := |events| - 1;
      YieldsMembers(events[..n], pick, t);
      assert forall i :: 0 <= i < n ==> events[..n][i] == events[i];
      if pick(events[n]) == Some(t) {
        assert t in Picked(events[n], pick);
      }
    }
  }

  /** Dropping the events whose text is empty loses no text: when `pick`
      keeps every non-empty text of `texts` and nothing else, the fragments
      spell the same response as all the events' texts together. */
  lemma {:induction false} YieldsKeepText<E>(events: seq<E>, pick: E -> Option<string>, texts: seq<string>)
    requires |texts| == |events|
    requires forall i :: 0 <= i < |events| ==> pick(events[i]) == if texts[i] == "" then None else Some(texts[i])
    ensures Concat(Yields(events, pick)) == Concat(texts)
  {
    if events != [] {
      var n := |events| - 1;
      var last := events[n];
      assert forall i :: 0 <= i < n ==> events[..n][i] == events[i];
      YieldsKeepText(events[..n], pick, texts[..n]);
      ConcatAppend(Yields(events[..n], pick), Picked(last, pick));
      if texts[n] == "" {
        assert Picked(last, pick) == [];
      } else {
        assert Picked(last, pick) == [texts[n]];
        assert Concat([texts[n]]) == Concat([]) + texts[n];
      }
    }
  }
}

/** The chat-completions adapter (backend/src/adapters/openai.ts). */
module OpenAIAdapter {
  import opened Types
  import opened AdapterStreams

  datatype Delta = Delta(content: Option<string>)
  datatype Choice = Choice(delta: Option<Delta>)
  /** One streamed chunk; `choices` may be empty. */
  datatype Chunk = Chunk(choices: seq<Choice>)

  datatype CompletionRequest = CompletionRequest(model: ModelId, messages: seq<ChatMessage>, stream: bool)

  /** The request's `messages`: the system prompt, the history in order with
      the human's messages as the user's and every other as the assistant's,
      then the new prompt as the user's. */
  function RequestMessages(systemPrompt: string, history: seq<Message>, currentMessage: string): (r: seq<ChatMessage>)
    ensures |r| == |history| + 2
    ensures r[0] == ChatMessage(System, systemPrompt)
    ensures r[|r| - 1] == ChatMessage(User, currentMessage)
    ensures forall i :: 0 <= i < |history| ==>
              r[i + 1].content == history[i].content && (r[i + 1].role == User <==> history[i].sender == Human)
    ensures forall i :: 1 <= i < |r| ==> r[i].role != System
  {
    [ChatMessage(System, systemPrompt)]
    + seq(|history|, i requires 0 <= i < |history| => ChatMessage(SpeakerRole(history[i].sender), history[i].content))
    + [ChatMessage(User, currentMessage)]
  }

  /** `chunk.choices[0]?.delta?.content`, when it is truthy. */
  function DeltaText(chunk: Chunk): (t: Option<string>)
    ensures t.Some? ==> t.value != ""
  {
    if chunk.choices == [] then None
    else match chunk.choices[0].delta
      case None => None
      case Some(delta) =>
        match delta.content
        case Some(text) => if text == "" then None else Some(text)
        case None => None
  }

  /** `choices[0]?.delta?.content`, with a missing one read as the empty text. */
  function ChunkText(chunk: Chunk): string
  {
    if chunk.choices == [] then ""
    else match chunk.choices[0].delta
      case None => ""
      case Some(delta) =>
        match delta.content
        case Some(text) => text
        case None => ""
  }

  /** `streamResponse`: the request it sends, and the fragments it yields for
      the chunks the SDK streams back. */
  method StreamResponse(modelId: ModelId, systemPrompt: string, history: seq<Message>, currentMessage: string,
                        chunks: seq<Chunk>)
    returns (request: CompletionRequest, fragments: seq<string>)
    ensures request == CompletionRequest(modelId, RequestMessages(systemPrompt, history, currentMessage), true)
    ensures fragments == Yields(chunks, DeltaText)
  {
    request := CompletionRequest(modelId, RequestMessages(systemPrompt, history, currentMessage), true);
    fragments := Drain(chunks, DeltaText);
  }

  /** Every fragment is a non-empty delta content of some chunk, and every
      non-empty delta content is yielded. */
  lemma FragmentsAreDeltaContents(chunks: seq<Chunk>, t: string)
    ensures t in Yields(chunks, DeltaText) <==> t != "" && exists i :: 0 <= i < |chunks| && ChunkText(chunks[i]) == t
  {
    YieldsMembers(chunks, DeltaText, t);
    forall i | 0 <= i < |chunks|
      ensures DeltaText(chunks[i]) == Some(t) <==> t != "" && ChunkText(chunks[i]) == t
    {
      DeltaTextIsNonEmptyText(chunks[i]);
    }
  }

  lemma DeltaTextIsNonEmptyText(chunk: Chunk)
    ensures DeltaText(chunk) == if ChunkText(chunk) == "" then None else Some(ChunkText(chunk))
  {
  }

  /** Skipping the empty deltas loses no text of the response. */
  lemma FragmentsSpellResponse(chunks: seq<Chunk>)
    ensures Concat(Yields(chunks, DeltaText)) == Concat(seq(|chunks|, i requires 0 <= i < |chunks| => ChunkText(chunks[i])))
  {
    var texts := seq(|chunks|, i requires 0 <= i < |chunks| => ChunkText(chunks[i]));
    forall i | 0 <= i < |chunks|
      ensures DeltaText(chunks[i]) == if texts[i] == "" then None else Some(texts[i])
    {
      DeltaTextIsNonEmptyText(chunks[i]);
    }
    YieldsKeepText(chunks, DeltaText, texts);
  }

  /** The turn engine passes the last transcript entry again as the new
      prompt, so the request ends with that text twice: once under its
      sender's role, once as the user's. */
  lemma PromptRepeatsLastEntry(systemPrompt: string, history: seq<Message>)
    requires |history| > 0
    ensures var last := history[|history| - 1];
            var r := RequestMessages(systemPrompt, history, last.content);
            r[|r| - 2] == ChatMessage(SpeakerRole(last.sender), last.content)
            && r[|r| - 1] == ChatMessage(User, last.content)
  {
  }
}

/** The messages adapter (backend/src/adapters/anthropic.ts). */
module AnthropicAdapter {
  import opened Types
  import opened AdapterStreams
  import OpenAIAdapter

  datatype Delta = TextDelta(text: string) | OtherDelta(kind: string)
  /** One streamed event: a `content_block_delta` or any other type. */
  datatype Event = ContentBlockDelta(delta: Delta) | OtherEvent(kind: string)

  datatype MessagesRequest = MessagesRequest(
    model: ModelId,
    maxTokens: nat,
    system: string,
    messages: seq<ChatMessage>,
    stream: bool)

  /** The request's `messages`: the history in order, the human's messages
      as the user's and every other as the assistant's, then the new prompt
      as the user's. */
  function Messages(history: seq<Message>, currentMessage: string): (r: seq<ChatMessage>)
    ensures |r| == |history| + 1
    ensures forall i :: 0 <= i < |history| ==>
              r[i].content == history[i].content && (r[i].role == User <==> history[i].sender == Human)
    ensures r[|history|] == ChatMessage(User, currentMessage)
    ensures forall m :: m in r ==> m.role != System
  {
    seq(|history|, i requires 0 <= i < |history| => ChatMessage(SpeakerRole(history[i].sender), history[i].content))
    + [ChatMessage(User, currentMessage)]
  }

  /** The `for` loop that pushes the history, then the new prompt. */
  method BuildMessages(history: seq<Message>, currentMessage: string) returns (messages: seq<ChatMessage>)
    ensures messages == Messages(history, currentMessage)
  {
    messages := [];
    for i := 0 to |history|
      invariant |messages| == i
      invariant forall j :: 0 <= j < i ==> messages[j] == ChatMessage(SpeakerRole(history[j].sender), history[j].content)
    {
      if history[i].sender == Human {
        messages := messages + [ChatMessage(User, history[i].content)];
      } else {
        messages := messages + [ChatMessage(Assistant, history[i].content)];
      }
    }
    messages := messages + [ChatMessage(User, currentMessage)];
  }

  /** `delta.text` of a `content_block_delta` whose delta is a `text_delta`, empty or not. */
  function DeltaText(e: Event): (t: Option<string>)
    ensures t.Some? <==> e.ContentBlockDelta? && e.delta.TextDelta?
  {
    if e.ContentBlockDelta? && e.delta.TextDelta? then Some(e.delta.text) else None
  }

  /** `streamResponse`: the system prompt travels beside the messages, never among them. */
  method StreamResponse(modelId: ModelId, systemPrompt: string, history: seq<Message>, currentMessage: string,
                        events: seq<Event>)
    returns (request: MessagesRequest, fragments: seq<string>)
    ensures request.model == modelId && request.maxTokens == 4096 && request.stream
    ensures request.system == systemPrompt
    ensures request.messages == Messages(history, currentMessage)
    ensures fragments == Yields(events, DeltaText)
  {
    var messages := BuildMessages(history, currentMessage);
    request := MessagesRequest(modelId, 4096, systemPrompt, messages, true);
    fragments := Drain(events, DeltaText);
  }

  /** Both direct protocols send the same conversation; the chat-completions
      one only puts the system prompt in front of it. */
  lemma SameConversationAsChatCompletions(systemPrompt: string, history: seq<Message>, currentMessage: string)
    ensures OpenAIAdapter.RequestMessages(systemPrompt, history, currentMessage)
            == [ChatMessage(System, systemPrompt)] + Messages(history, currentMessage)
  {
  }

  /** A fragment is yielded exactly for a text delta carrying it; an empty
      text delta yields an empty fragment. */
  lemma FragmentsAreTextDeltas(events: seq<Event>, t: string)
    ensures t in Yields(events, DeltaText) <==> exists i :: 0 <= i < |events| && events[i] == ContentBlockDelta(TextDelta(t))
  {
    YieldsMembers(events, DeltaText, t);
  }
}

/** The Converse adapter (backend/src/adapters/bedrock.ts); the turn engine never routes a turn to it. */
module BedrockAdapter {
  import opened Types
  import opened AdapterStreams
  import AnthropicAdapter

  datatype TextBlock = TextBlock(text: string)
  datatype ConverseMessage = ConverseMessage(role: ChatRole, content: seq<TextBlock>)

  datatype ConverseRequest = ConverseRequest(
    modelId: ModelId,
    messages: seq<ConverseMessage>,
    system: seq<TextBlock>,
    maxTokens: nat,
    temperature: real)

  datatype Delta = Delta(text: Option<string>)
  datatype ContentBlockDeltaEvent = ContentBlockDeltaEvent(delta: Option<Delta>)
  /** One member of `response.stream`; only `contentBlockDelta` matters here. */
  datatype StreamOutput = StreamOutput(contentBlockDelta: Option<ContentBlockDeltaEvent>)

  /** The Converse `messages`: each history entry in order as a single text
      block, the human's as the user's and every other as the assistant's,
      then the new prompt as the user's. */
  function Messages(history: seq<Message>, currentMessage: string): (r: seq<ConverseMessage>)
    ensures |r| == |history| + 1
    ensures forall i :: 0 <= i < |history| ==>
              r[i].content == [TextBlock(history[i].content)] && (r[i].role == User <==> history[i].sender == Human)
    ensures r[|history|] == ConverseMessage(User, [TextBlock(currentMessage)])
    ensures forall m :: m in r ==> m.role != System
  {
    seq(|history|, i requires 0 <= i < |history| => ConverseMessage(SpeakerRole(history[i].sender), [TextBlock(history[i].content)]))
    + [ConverseMessage(User, [TextBlock(currentMessage)])]
  }

  /** The `for` loop that pushes each history entry as a single text block, then the new prompt. */
  method BuildMessages(history: seq<Message>, currentMessage: string) returns (messages: seq<ConverseMessage>)
    ensures messages == Messages(history, currentMessage)
  {
    messages := [];
    for i := 0 to |history|
      invariant |messages| == i
      invariant forall j :: 0 <= j < i ==>
                  messages[j] == ConverseMessage(SpeakerRole(history[j].sender), [TextBlock(history[j].content)])
    {
      if history[i].sender == Human {
        messages := messages + [ConverseMessage(User, [TextBlock(history[i].content)])];
      } else {
        messages := messages + [ConverseMessage(Assistant, [TextBlock(history[i].content)])];
      }
    }
    messages := messages + [ConverseMessage(User, [TextBlock(currentMessage)])];
  }

  /** `event.contentBlockDelta?.delta?.text`, when it is truthy. */
  function DeltaText(e: StreamOutput): (t: Option<string>)
    ensures t.Some? ==> t.value != ""
  {
    match e.contentBlockDelta
    case None => None
    case Some(block) =>
      match block.delta
      case None => None
      case Some(delta) =>
        match delta.text
        case Some(text) => if text == "" then None else Some(text)
        case None => None
  }

  /** `streamResponse`: the Converse command and the fragments yielded for the
      response's stream, none when the response has no stream. */
  method StreamResponse(modelId: ModelId, systemPrompt: string, history: seq<Message>, currentMessage: string,
                        stream: Option<seq<StreamOutput>>)
    returns (request: ConverseRequest, fragments: seq<string>)
    ensures request.modelId == modelId && request.maxTokens == 4096 && request.temperature == 1.0
    ensures request.system == [TextBlock(systemPrompt)]
    ensures request.messages == Messages(history, currentMessage)
    ensures stream.None? ==> fragments == []
    ensures stream.Some? ==> fragments == Yields(stream.value, DeltaText)
  {
    var messages := BuildMessages(history, currentMessage);
    request := ConverseRequest(modelId, messages, [TextBlock(systemPrompt)], 4096, 1.0);
    fragments := [];
    if stream.Some? {
      fragments := Drain(stream.value, DeltaText);
    }
  }

  /** The Converse conversation is the messages protocol's, each text wrapped in a single block. */
  lemma SameConversationAsMessages(history: seq<Message>, currentMessage: string)
    ensures var converse := Messages(history, currentMessage);
            var messages := AnthropicAdapter.Messages(history, currentMessage);
            |converse| == |messages|
            && forall i :: 0 <= i < |converse| ==> converse[i] == ConverseMessage(messages[i].role, [TextBlock(messages[i].content)])
  {
  }

  /** Every fragment is non-empty. */
  lemma FragmentsAreNonEmpty(stream: seq<StreamOutput>, t: string)
    requires t in Yields(stream, DeltaText)
    ensures t != ""
  {
    YieldsMembers(stream, DeltaText, t);
  }
}
