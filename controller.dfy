/** The turn engine (backend/src/discussionController.ts): the table of
    discussions, the per-discussion "keep looping" flag, and the steps that
    run one participant's turn over an adapter's stream of text fragments. */
module Controller {
  import opened Types
  import opened Streams

  datatype Result<T> = Ok(value: T) | Err(error: string)

  /** The two adapters the controller holds. */
  datatype AdapterKind = OpenAIChat | AnthropicMessages

  /** Only `openai` goes to the chat-completions adapter; every other
      provider, `bedrock` included, goes to the Anthropic adapter. */
  function AdapterFor(provider: Provider): (k: AdapterKind)
    ensures k == OpenAIChat <==> provider == OpenAI
  {
    if provider == OpenAI then OpenAIChat else AnthropicMessages
  }

  /** The arguments of one `streamResponse` call. */
  datatype AdapterCall = AdapterCall(
    adapter: AdapterKind,
    modelId: ModelId,
    systemPrompt: string,
    history: seq<Message>,
    prompt: string)

  /** How the adapter's stream ends once its fragments are exhausted: normally,
      or by throwing (`message` is None when the thrown value is not an `Error`). */
  datatype Ending = Finishes | Throws(message: Option<string>)

  /** One turn's view of the adapter and of the outside world: the fragments
      the stream yields, how it ends, and, when `stopAt` is `Some(k)`, a stop
      request that lands just before fragment `k` is checked (or, for
      `k >= |fragments|`, after the last fragment and before the stream ends). */
  datatype AdapterRun = AdapterRun(fragments: seq<string>, ending: Ending, stopAt: Option<nat>)

  /** The stop lands while fragments remain, so the loop's flag check breaks out. */
  predicate BreaksEarly(run: AdapterRun)
  {
    run.stopAt.Some? && run.stopAt.value < |run.fragments|
  }

  /** How many fragments are turned into tokens. */
  function Consumed(run: AdapterRun): (n: nat)
    ensures n <= |run.fragments|
    ensures n < |run.fragments| <==> BreaksEarly(run)
  {
    if BreaksEarly(run) then run.stopAt.value else |run.fragments|
  }

  /** The stream's exception reaches the turn: it was not cut short by a break. */
  predicate Fails(run: AdapterRun)
  {
    !BreaksEarly(run) && run.ending.Throws?
  }

  function ErrorText(message: Option<string>): (text: string)
    ensures message.Some? ==> text == message.value
    ensures message.None? ==> text == "Unknown error"
  {
    match message
    case Some(m) => m
    case None => "Unknown error"
  }

  function TokenEvents(participantId: string, messageId: string, fragments: seq<string>): (events: seq<StreamEvent>)
  {
    seq(|fragments|, i requires 0 <= i < |fragments| => Token(participantId, fragments[i], messageId))
  }

  /** The events one turn publishes: a token per consumed fragment, then
      `complete`, or `error` when the stream's exception reaches the turn. */
  function TurnEvents(participantId: string, messageId: string, run: AdapterRun): seq<StreamEvent>
  {
    TokenEvents(participantId, messageId, run.fragments[..Consumed(run)]) + [Terminal(participantId, messageId, run)]
  }

  function Terminal(participantId: string, messageId: string, run: AdapterRun): StreamEvent
  {
    if Fails(run) then Error(participantId, ErrorText(run.ending.message)) else Complete(participantId, messageId)
  }

  /** The message a turn appends: the consumed fragments, concatenated. */
  function Reply(p: Participant, messageId: string, now: Timestamp, run: AdapterRun): Message
  {
    Message(messageId, p.id, Concat(run.fragments[..Consumed(run)]), now)
  }

  /** The discussion after a turn that started with the flag set. */
  function AfterTurn(d: Discussion, p: Participant, messageId: string, now: Timestamp, run: AdapterRun): (r: Discussion)
    ensures r.id == d.id && r.topic == d.topic && r.participants == d.participants
    ensures r.status != d.status ==> r.status == Stopped && run.stopAt.Some?
    ensures d.messages <= r.messages && |r.messages| <= |d.messages| + 1
    ensures |r.messages| > |d.messages| <==> !Fails(run)
    ensures !Fails(run) ==> r.messages[|d.messages|].id == messageId && r.messages[|d.messages|].sender == p.id
  {
    d.(status := if run.stopAt.Some? then Stopped else d.status,
       messages := if Fails(run) then d.messages else d.messages + [Reply(p, messageId, now, run)])
  }

  /** The loop flag after a turn that started with the flag set. */
  function FlagAfterTurn(run: AdapterRun): (keep: bool)
    ensures keep <==> run.stopAt.None? && !run.ending.Throws?
    ensures keep ==> Consumed(run) == |run.fragments|
  {
    run.stopAt.None? && !Fails(run)
  }

  function Tagged(id: string, events: seq<StreamEvent>): (r: seq<(string, StreamEvent)>)
    ensures |r| == |events|
  {
    seq(|events|, i requires 0 <= i < |events| => (id, events[i]))
  }

  lemma TaggedAppend(id: string, a: seq<StreamEvent>, b: seq<StreamEvent>)
    ensures Tagged(id, a + b) == Tagged(id, a) + Tagged(id, b)
  {
  }

  lemma UpdateTwice<K, V>(m: map<K, V>, k: K, a: V, b: V)
    ensures m[k := a][k := b] == m[k := b]
  {
  }

  lemma AppendAssoc<T>(a: seq<T>, b: seq<T>, c: seq<T>)
    ensures (a + b) + c == a + (b + c)
  {
  }

  /** One more fragment adds its text to the reply and one `token` to what is published. */
  lemma TokenStep(id: string, encode: StreamEvent -> string, participantId: string, messageId: string, fragments: seq<string>, i: nat)
    requires i < |fragments|
    ensures Concat(fragments[..i + 1]) == Concat(fragments[..i]) + fragments[i]
    ensures Tagged(id, TokenEvents(participantId, messageId, fragments[..i + 1]))
            == Tagged(id, TokenEvents(participantId, messageId, fragments[..i])) + [(id, Token(participantId, fragments[i], messageId))]
    ensures Frames(encode, TokenEvents(participantId, messageId, fragments[..i + 1]))
            == Frames(encode, TokenEvents(participantId, messageId, fragments[..i])) + [Frame(encode(Token(participantId, fragments[i], messageId)))]
  {
    var pre := fragments[..i + 1];
    assert pre[..|pre| - 1] == fragments[..i];
    var before := TokenEvents(participantId, messageId, fragments[..i]);
    var token := Token(participantId, fragments[i], messageId);
    assert TokenEvents(participantId, messageId, pre) == before + [token];
    TaggedAppend(id, before, [token]);
    FramesAppend(encode, before, [token]);
  }

  /** `participants.find((p) => p.role === role)`. */
  function FindRole(ps: seq<Participant>, role: ParticipantRole): (r: Option<Participant>)
    ensures r.Some? ==> r.value in ps && r.value.role == role
    ensures r.None? <==> forall p :: p in ps ==> p.role != role
  {
    Find(ps, (p: Participant) => p.role == role)
  }

  /** Whose turn it is: the critic right after the primary, the primary after anyone else. */
  function NextSpeaker(messages: seq<Message>, primary: Participant, critic: Participant): (r: Participant)
    requires |messages| > 0
    ensures r == primary || r == critic
    ensures r == (if messages[|messages| - 1].sender == primary.id then critic else primary)
  {
    if messages[|messages| - 1].sender == primary.id then critic else primary
  }

  /** What one invocation of `continueDiscussionLoop` did. */
  datatype LoopStep =
    | NotRunning           // unknown id, or the flag was already false: returns at once
    | MissingRole          // no primary or no critic: returns silently
    | EmptyTranscript      // `lastMessage` is undefined and reading its sender throws
    | StoppedWhileWaiting  // the flag was false after the 2000 ms pause
    | Turn(speaker: Participant, again: bool)  // a turn ran; `again`: the loop schedules itself once more

  /** A discussion, its flag and the events published, after an operation. */
  datatype Outcome = Outcome(discussion: Discussion, flag: bool, events: seq<StreamEvent>)

  /** What `handleIntervention` does to a known discussion whose flag is
      `flag`: the human's message is appended and announced, then the
      primary, if there is one, takes a turn when the flag is set. */
  function Intervention(d: Discussion, flag: bool, human: Message, messageId: string, now: Timestamp, run: AdapterRun): Outcome
  {
    var answer := PrimaryAnswer(d.(messages := d.messages + [human]), flag, messageId, now, run);
    Outcome(answer.discussion, answer.flag, [MessageStart(human)] + answer.events)
  }

  /** The primary's turn that follows the human's message: none when there
      is no primary or the flag is clear. */
  function PrimaryAnswer(d: Discussion, flag: bool, messageId: string, now: Timestamp, run: AdapterRun): Outcome
  {
    var primary := FindRole(d.participants, Primary);
    if primary.Some? && flag then
      Outcome(AfterTurn(d, primary.value, messageId, now, run), FlagAfterTurn(run), TurnEvents(primary.value.id, messageId, run))
    else
      Outcome(d, flag, [])
  }

  class DiscussionController {
    const streams: StreamManager
    var discussions: map<string, Discussion>
    /** `discussionLoops`: whether the loop may schedule further turns. */
    var loops: map<string, bool>

    /** Every discussion has a flag, is stored under its own id, and a stopped
        discussion never has its flag set. */
    ghost predicate Valid()
      reads this
    {
      && discussions.Keys == loops.Keys
      && (forall id :: id in discussions ==> discussions[id].id == id)
      && (forall id :: id in discussions && discussions[id].status == Stopped ==> !loops[id])
    }

    constructor (streams: StreamManager)
      ensures Valid()
      ensures this.streams == streams && discussions == map[] && loops == map[]
    {
      this.streams := streams;
      discussions := map[];
      loops := map[];
    }

    /** Stores a running discussion with an empty transcript under the fresh id `newId`. */
    method CreateDiscussion(newId: string, topic: string, participants: seq<Participant>) returns (id: string)
      requires Valid()
      modifies this
      ensures Valid()
      ensures id == newId
      ensures discussions == old(discussions)[id := Discussion(id, topic, participants, [], Running)]
      ensures loops == old(loops)[id := true]
    {
      id := newId;
      discussions := discussions[id := Discussion(id, topic, participants, [], Running)];
      loops := loops[id := true];
    }

    function GetDiscussion(id: string): (d: Option<Discussion>)
      reads this
      ensures d.Some? <==> id in discussions
      ensures d.Some? ==> d.value == discussions[id]
    {
      if id in discussions then Some(discussions[id]) else None
    }

    /** Marks a known discussion stopped and clears its flag; an unknown id
        changes nothing, and so does stopping a discussion already stopped. */
    method StopDiscussion(id: string)
      requires Valid()
      modifies this
      ensures Valid()
      ensures id in old(discussions) ==> discussions == old(discussions)[id := old(discussions[id]).(status := Stopped)]
      ensures id in old(discussions) ==> loops == old(loops)[id := false]
      ensures id !in old(discussions) ==> discussions == old(discussions) && loops == old(loops)
      ensures id in old(discussions) && old(discussions[id].status) == Stopped ==>
                discussions == old(discussions) && loops == old(loops)
    {
      if id in discussions {
        ghost var before := discussions[id];
        discussions := discussions[id := discussions[id].(status := Stopped)];
        loops := loops[id := false];
        if before.status == Stopped {
          assert before.(status := Stopped) == before;
          assert discussions == old(discussions);
          assert loops == old(loops);
        }
      }
    }

    /** `generateResponse`: runs one turn of `p` on `prompt`, if the discussion
        is known and its flag is set. */
    method GenerateResponse(id: string, p: Participant, prompt: string, messageId: string, now: Timestamp, run: AdapterRun)
      returns (call: Option<AdapterCall>)
      requires Valid()
      modifies this, streams, streams.clients.Values
      ensures Valid()
      ensures streams.clients == old(streams.clients) && streams.listeners == old(streams.listeners)
      ensures !(id in old(discussions) && old(loops[id])) ==>
                && call == None
                && discussions == old(discussions) && loops == old(loops)
                && streams.published == old(streams.published) && streams.Logs() == old(streams.Logs())
      ensures id in old(discussions) && old(loops[id]) ==>
                && call == Some(AdapterCall(AdapterFor(p.provider), p.modelId, p.systemPrompt, old(discussions[id].messages), prompt))
                && discussions == old(discussions)[id := AfterTurn(old(discussions[id]), p, messageId, now, run)]
                && loops == old(loops)[id := FlagAfterTurn(run)]
                && streams.published == old(streams.published) + Tagged(id, TurnEvents(p.id, messageId, run))
                && streams.Logs() == Deliver(old(streams.Logs()), streams.clients, id, Frames(streams.encode, TurnEvents(p.id, messageId, run)))
    {
      if id !in discussions || !loops[id] {
        return None;
      }
      call := Some(AdapterCall(AdapterFor(p.provider), p.modelId, p.systemPrompt, discussions[id].messages, prompt));
      ghost var d0 := discussions[id];
      ghost var discussions0, loops0, published0 := discussions, loops, streams.published;
      ghost var logs0 := streams.Logs();
      var fullContent, broke := StreamFragments(id, p.id, messageId, run);
      assert AfterTurn(discussions[id], p, messageId, now, run) == AfterTurn(d0, p, messageId, now, run);
      FinishTurn(id, p, messageId, now, run, fullContent, broke);
      if run.stopAt.Some? {
        UpdateTwice(discussions0, id, d0.(status := Stopped), AfterTurn(d0, p, messageId, now, run));
        UpdateTwice(loops0, id, false, FlagAfterTurn(run));
      }
      TaggedAppend(id, TokenEvents(p.id, messageId, run.fragments[..Consumed(run)]), [Terminal(p.id, messageId, run)]);
      assert Tagged(id, [Terminal(p.id, messageId, run)]) == [(id, Terminal(p.id, messageId, run))];
      AppendAssoc(published0, Tagged(id, TokenEvents(p.id, messageId, run.fragments[..Consumed(run)])), [(id, Terminal(p.id, messageId, run))]);
      FramesAppend(streams.encode, TokenEvents(p.id, messageId, run.fragments[..Consumed(run)]), [Terminal(p.id, messageId, run)]);
      assert Frames(streams.encode, [Terminal(p.id, messageId, run)]) == [Frame(streams.encode(Terminal(p.id, messageId, run)))];
      DeliverAppend(logs0, streams.clients, id, Frames(streams.encode, TokenEvents(p.id, messageId, run.fragments[..Consumed(run)])),
                    [Frame(streams.encode(Terminal(p.id, messageId, run)))]);
    }

    /** What follows the loop: the message is appended and `complete`
        published, or, when the stream threw, `error` is published and the
        flag cleared. */
    method FinishTurn(id: string, p: Participant, messageId: string, now: Timestamp, run: AdapterRun,
                      fullContent: string, broke: bool)
      requires Valid() && id in discussions
      requires broke == BreaksEarly(run)
      requires fullContent == Concat(run.fragments[..Consumed(run)])
      requires run.stopAt.Some? ==> discussions[id].status == Stopped && !loops[id]
      requires run.stopAt.None? ==> loops[id]
      modifies this, streams, streams.clients.Values
      ensures Valid()
      ensures streams.clients == old(streams.clients) && streams.listeners == old(streams.listeners)
      ensures discussions == old(discussions)[id := AfterTurn(old(discussions[id]), p, messageId, now, run)]
      ensures loops == old(loops)[id := FlagAfterTurn(run)]
      ensures streams.published == old(streams.published) + [(id, Terminal(p.id, messageId, run))]
      ensures streams.Logs() == Deliver(old(streams.Logs()), streams.clients, id, [Frame(streams.encode(Terminal(p.id, messageId, run)))])
    {
      var d := discussions[id];
      var failed := !broke && run.ending.Throws?;
      var after := if failed then d else d.(messages := d.messages + [Message(messageId, p.id, fullContent, now)]);
      var terminal := if failed then Error(p.id, ErrorText(run.ending.message)) else Complete(p.id, messageId);
      var flag := if failed then false else loops[id];
      assert after == AfterTurn(d, p, messageId, now, run);
      assert flag == FlagAfterTurn(run);
      assert terminal == Terminal(p.id, messageId, run);
      streams.SendEvent(id, terminal);
      RecordTurn(id, after, flag);
    }

    /** Stores a discussion's state and flag after a turn. */
    method RecordTurn(id: string, after: Discussion, flag: bool)
      requires Valid() && id in discussions && after.id == id && (after.status == Stopped ==> !flag)
      modifies this
      ensures Valid()
      ensures discussions == old(discussions)[id := after] && loops == old(loops)[id := flag]
    {
      discussions := discussions[id := after];
      loops := loops[id := flag];
    }

    /** The `for await` loop of `generateResponse`: before each fragment the
        flag is checked (a stop request may land just before), then the
        fragment is accumulated and published as one `token`. A stop that
        lands after the last fragment takes effect without being observed. */
    method StreamFragments(id: string, participantId: string, messageId: string, run: AdapterRun)
      returns (fullContent: string, broke: bool)
      requires Valid() && id in discussions && loops[id]
      modifies this, streams, streams.clients.Values
      ensures Valid() && id in discussions
      ensures streams.clients == old(streams.clients) && streams.listeners == old(streams.listeners)
      ensures broke == BreaksEarly(run)
      ensures fullContent == Concat(run.fragments[..Consumed(run)])
      ensures streams.published
              == old(streams.published) + Tagged(id, TokenEvents(participantId, messageId, run.fragments[..Consumed(run)]))
      ensures streams.Logs()
              == Deliver(old(streams.Logs()), streams.clients, id,
                         Frames(streams.encode, TokenEvents(participantId, messageId, run.fragments[..Consumed(run)])))
      ensures discussions == if run.stopAt.Some? then old(discussions)[id := old(discussions[id]).(status := Stopped)] else old(discussions)
      ensures loops == if run.stopAt.Some? then old(loops)[id := false] else old(loops)
    {
      ghost var d0 := discussions[id];
      ghost var logs0 := streams.Logs();
      DeliverNothing(logs0, streams.clients, id);
      fullContent := "";
      broke := false;
      var i := 0;
      while i < |run.fragments| && !broke
        invariant 0 <= i <= |run.fragments|
        invariant Valid() && id in discussions
        invariant streams.clients == old(streams.clients) && streams.listeners == old(streams.listeners)
        invariant fullContent == Concat(run.fragments[..i])
        invariant Emitted(id, TokenEvents(participantId, messageId, run.fragments[..i]), old(streams.published), logs0)
        invariant !broke ==> discussions == old(discussions) && loops == old(loops)
        invariant !broke && run.stopAt.Some? ==> i <= run.stopAt.value
        invariant broke ==> run.stopAt == Some(i) && i < |run.fragments|
        invariant broke ==> discussions == old(discussions)[id := d0.(status := Stopped)]
        invariant broke ==> loops == old(loops)[id := false]
        decreases |run.fragments| - i, if broke then 0 else 1
      {
        var go := CheckFlag(id, run, i);
        if !go {
          broke := true;
        } else {
          fullContent := EmitToken(id, participantId, messageId, run.fragments, i, old(streams.published), logs0, fullContent);
          i := i + 1;
        }
      }
      assert i == Consumed(run);
      if !broke && run.stopAt.Some? {
        // the stop lands after the last fragment: no check observes it
        StopDiscussion(id);
      }
    }

    /** Since the stream manager held `published0` and `logs0`, exactly
        `events` were published under `id` and their frames delivered. */
    ghost predicate Emitted(id: string, events: seq<StreamEvent>, published0: seq<(string, StreamEvent)>, logs0: map<Sink, SinkLog>)
      reads streams, streams.clients.Values
    {
      && streams.published == published0 + Tagged(id, events)
      && streams.Logs() == Deliver(logs0, streams.clients, id, Frames(streams.encode, events))
    }

    /** The flag check at the head of the `for await` loop's body, after a
        stop request that may land just before fragment `i`. */
    method CheckFlag(id: string, run: AdapterRun, i: nat) returns (go: bool)
      requires Valid() && id in discussions && loops[id]
      modifies this
      ensures Valid()
      ensures go <==> run.stopAt != Some(i)
      ensures streams.published == old(streams.published) && streams.Logs() == old(streams.Logs())
      ensures go ==> discussions == old(discussions) && loops == old(loops)
      ensures !go ==> discussions == old(discussions)[id := old(discussions[id]).(status := Stopped)] && loops == old(loops)[id := false]
    {
      if run.stopAt == Some(i) {
        StopDiscussion(id);
      }
      go := loops[id];
    }

    /** The body of the `for await` loop once the flag check passed:
        fragment `i` joins the reply and is published as one `token`. */
    method EmitToken(id: string, participantId: string, messageId: string, fragments: seq<string>, i: nat,
                     ghost published0: seq<(string, StreamEvent)>, ghost logs0: map<Sink, SinkLog>, fullContent: string)
      returns (next: string)
      requires i < |fragments| && fullContent == Concat(fragments[..i])
      requires Emitted(id, TokenEvents(participantId, messageId, fragments[..i]), published0, logs0)
      modifies streams, streams.clients.Values
      ensures discussions == old(discussions) && loops == old(loops)
      ensures streams.clients == old(streams.clients) && streams.listeners == old(streams.listeners)
      ensures next == Concat(fragments[..i + 1])
      ensures Emitted(id, TokenEvents(participantId, messageId, fragments[..i + 1]), published0, logs0)
    {
      var token := fragments[i];
      TokenStep(id, streams.encode, participantId, messageId, fragments, i);
      DeliverAppend(logs0, streams.clients, id, Frames(streams.encode, TokenEvents(participantId, messageId, fragments[..i])),
                    [Frame(streams.encode(Token(participantId, token, messageId)))]);
      next := fullContent + token;
      streams.SendEvent(id, Token(participantId, token, messageId));
    }

    /** One invocation of `continueDiscussionLoop`; `stopWhileWaiting` says
        whether a stop request lands during the 2000 ms pause. */
    method ContinueStep(id: string, stopWhileWaiting: bool, messageId: string, now: Timestamp, run: AdapterRun)
      returns (step: LoopStep, call: Option<AdapterCall>)
      requires Valid()
      modifies this, streams, streams.clients.Values
      ensures Valid()
      ensures streams.clients == old(streams.clients)
      ensures !(id in old(discussions) && old(loops[id])) ==>
                step == NotRunning && call == None
                && discussions == old(discussions) && loops == old(loops) && streams.published == old(streams.published)
                && streams.Logs() == old(streams.Logs())
      ensures id in old(discussions) && old(loops[id]) ==>
                var d := old(discussions[id]);
                var primary := FindRole(d.participants, Primary);
                var critic := FindRole(d.participants, Critic);
                if primary.None? || critic.None? then
                  step == MissingRole && call == None
                  && discussions == old(discussions) && loops == old(loops) && streams.published == old(streams.published)
                  && streams.Logs() == old(streams.Logs())
                else if d.messages == [] then
                  step == EmptyTranscript && call == None
                  && discussions == old(discussions) && loops == old(loops) && streams.published == old(streams.published)
                  && streams.Logs() == old(streams.Logs())
                else if stopWhileWaiting then
                  step == StoppedWhileWaiting && call == None
                  && discussions == old(discussions)[id := d.(status := Stopped)] && loops == old(loops)[id := false]
                  && streams.published == old(streams.published) && streams.Logs() == old(streams.Logs())
                else
                  var speaker := NextSpeaker(d.messages, primary.value, critic.value);
                  && step == Turn(speaker, FlagAfterTurn(run))
                  && call == Some(AdapterCall(AdapterFor(speaker.provider), speaker.modelId, speaker.systemPrompt,
                                              d.messages, d.messages[|d.messages| - 1].content))
                  && discussions == old(discussions)[id := AfterTurn(d, speaker, messageId, now, run)]
                  && loops == old(loops)[id := FlagAfterTurn(run)]
                  && streams.published == old(streams.published) + Tagged(id, TurnEvents(speaker.id, messageId, run))
                  && streams.Logs() == Deliver(old(streams.Logs()), streams.clients, id, Frames(streams.encode, TurnEvents(speaker.id, messageId, run)))
    {
      call := None;
      if id !in discussions || !loops[id] {
        return NotRunning, call;
      }
      var d := discussions[id];
      var primary := FindRole(d.participants, Primary);
      var critic := FindRole(d.participants, Critic);
      if primary.None? || critic.None? {
        return MissingRole, call;
      }
      if d.messages == [] {
        return EmptyTranscript, call;
      }
      var speaker := NextSpeaker(d.messages, primary.value, critic.value);
      step, call := AnswerLast(id, speaker, stopWhileWaiting, messageId, now, run);
    }

    /** The rest of `continueDiscussionLoop` once the speaker is chosen: the
        pause, the flag check after it, and the speaker's answer to the last message. */
    method AnswerLast(id: string, speaker: Participant, stopWhileWaiting: bool, messageId: string, now: Timestamp, run: AdapterRun)
      returns (step: LoopStep, call: Option<AdapterCall>)
      requires Valid() && id in discussions && loops[id] && discussions[id].messages != []
      modifies this, streams, streams.clients.Values
      ensures Valid()
      ensures streams.clients == old(streams.clients)
      ensures var d := old(discussions[id]);
              if stopWhileWaiting then
                step == StoppedWhileWaiting && call == None
                && discussions == old(discussions)[id := d.(status := Stopped)] && loops == old(loops)[id := false]
                && streams.published == old(streams.published) && streams.Logs() == old(streams.Logs())
              else
                && step == Turn(speaker, FlagAfterTurn(run))
                && call == Some(AdapterCall(AdapterFor(speaker.provider), speaker.modelId, speaker.systemPrompt,
                                            d.messages, d.messages[|d.messages| - 1].content))
                && discussions == old(discussions)[id := AfterTurn(d, speaker, messageId, now, run)]
                && loops == old(loops)[id := FlagAfterTurn(run)]
                && streams.published == old(streams.published) + Tagged(id, TurnEvents(speaker.id, messageId, run))
                && streams.Logs() == Deliver(old(streams.Logs()), streams.clients, id, Frames(streams.encode, TurnEvents(speaker.id, messageId, run)))
    {
      call := None;
      var lastMessage := discussions[id].messages[|discussions[id].messages| - 1];
      if stopWhileWaiting {
        StopDiscussion(id);
      }
      if !loops[id] {
        return StoppedWhileWaiting, call;
      }
      call := GenerateResponse(id, speaker, lastMessage.content, messageId, now, run);
      step := Turn(speaker, loops[id]);
    }

    /** `startDiscussionLoop`: the primary opens on the topic. The loop's
        next step is a separate `ContinueStep`. */
    method StartDiscussionLoop(id: string, messageId: string, now: Timestamp, run: AdapterRun)
      returns (thrown: Option<string>, call: Option<AdapterCall>)
      requires Valid()
      modifies this, streams, streams.clients.Values
      ensures Valid()
      ensures streams.clients == old(streams.clients)
      ensures id !in old(discussions) ==>
                thrown == Some("Discussion not found") && call == None
                && discussions == old(discussions) && loops == old(loops) && streams.published == old(streams.published)
                && streams.Logs() == old(streams.Logs())
      ensures id in old(discussions) ==>
                var d := old(discussions[id]);
                var primary := FindRole(d.participants, Primary);
                if primary.None? || FindRole(d.participants, Critic).None? then
                  thrown == Some("Discussion must have both primary and critic participants") && call == None
                  && discussions == old(discussions) && loops == old(loops) && streams.published == old(streams.published)
                  && streams.Logs() == old(streams.Logs())
                else
                  && thrown == None
                  && (old(loops[id]) ==>
                        && call == Some(AdapterCall(AdapterFor(primary.value.provider), primary.value.modelId,
                                                    primary.value.systemPrompt, d.messages, d.topic))
                        && discussions == old(discussions)[id := AfterTurn(d, primary.value, messageId, now, run)]
                        && loops == old(loops)[id := FlagAfterTurn(run)]
                        && streams.published == old(streams.published) + Tagged(id, TurnEvents(primary.value.id, messageId, run))
                        && streams.Logs() == Deliver(old(streams.Logs()), streams.clients, id,
                                                     Frames(streams.encode, TurnEvents(primary.value.id, messageId, run))))
                  && (!old(loops[id]) ==>
                        call == None && discussions == old(discussions) && loops == old(loops)
                        && streams.published == old(streams.published) && streams.Logs() == old(streams.Logs()))
      // the opening turn leaves a message behind whenever the loop may go on
      ensures id in old(discussions) && old(discussions[id].messages) == [] && thrown == None && loops[id] ==>
                |discussions[id].messages| == 1
    {
      call := None;
      if id !in discussions {
        return Some("Discussion not found"), call;
      }
      var d := discussions[id];
      var primary := FindRole(d.participants, Primary);
      var critic := FindRole(d.participants, Critic);
      if primary.None? || critic.None? {
        return Some("Discussion must have both primary and critic participants"), call;
      }
      thrown := None;
      call := GenerateResponse(id, primary.value, d.topic, messageId, now, run);
    }

    /** The first half of `handleIntervention`: the human's message joins
        the transcript and is announced with `message_start`. */
    method AddHumanMessage(id: string, human: Message)
      requires Valid() && id in discussions
      modifies this, streams, streams.clients.Values
      ensures Valid()
      ensures streams.clients == old(streams.clients) && streams.listeners == old(streams.listeners)
      ensures discussions == old(discussions)[id := old(discussions[id]).(messages := old(discussions[id].messages) + [human])]
      ensures loops == old(loops)
      ensures streams.published == old(streams.published) + [(id, MessageStart(human))]
      ensures streams.Logs() == Deliver(old(streams.Logs()), streams.clients, id, [Frame(streams.encode(MessageStart(human)))])
    {
      var d := discussions[id];
      discussions := discussions[id := d.(messages := d.messages + [human])];
      streams.SendEvent(id, MessageStart(human));
    }

    /** The second half of `handleIntervention`: the primary, if there is
        one, answers `content`; `again` says the loop is scheduled afterwards. */
    method AnswerHuman(id: string, content: string, messageId: string, now: Timestamp, run: AdapterRun)
      returns (call: Option<AdapterCall>, again: bool)
      requires Valid() && id in discussions
      modifies this, streams, streams.clients.Values
      ensures Valid()
      ensures streams.clients == old(streams.clients) && streams.listeners == old(streams.listeners)
      ensures var d := old(discussions[id]);
              var primary := FindRole(d.participants, Primary);
              var answer := PrimaryAnswer(d, old(loops[id]), messageId, now, run);
              && discussions == old(discussions)[id := answer.discussion]
              && loops == old(loops)[id := answer.flag]
              && streams.published == old(streams.published) + Tagged(id, answer.events)
              && streams.Logs() == Deliver(old(streams.Logs()), streams.clients, id, Frames(streams.encode, answer.events))
              && call == (if primary.Some? && old(loops[id])
                          then Some(AdapterCall(AdapterFor(primary.value.provider), primary.value.modelId,
                                                primary.value.systemPrompt, d.messages, content))
                          else None)
              && again == (primary.Some? && answer.flag)
    {
      call := None;
      again := false;
      var d := discussions[id];
      var primary := FindRole(d.participants, Primary);
      if primary.Some? && loops[id] {
        call := GenerateResponse(id, primary.value, content, messageId, now, run);
        again := loops[id];
      } else {
        assert discussions[id := d] == discussions;
        assert loops[id := loops[id]] == loops;
        assert Tagged(id, []) == [];
        DeliverNothing(streams.Logs(), streams.clients, id);
      }
    }

    /** `handleIntervention`: appends the human's message, announces it, and
        has the primary answer it. `again`: the loop is scheduled afterwards. */
    method HandleIntervention(id: string, content: string, humanId: string, humanNow: Timestamp,
                              messageId: string, now: Timestamp, run: AdapterRun)
      returns (r: Result<string>, call: Option<AdapterCall>, again: bool)
      requires Valid()
      modifies this, streams, streams.clients.Values
      ensures Valid()
      ensures streams.clients == old(streams.clients)
      ensures id !in old(discussions) ==>
                r == Err("Discussion not found") && call == None && !again
                && discussions == old(discussions) && loops == old(loops)
                && streams.published == old(streams.published) && streams.Logs() == old(streams.Logs())
      ensures id in old(discussions) ==>
                var d := old(discussions[id]);
                var human := Message(humanId, Human, content, humanNow);
                var out := Intervention(d, old(loops[id]), human, messageId, now, run);
                var primary := FindRole(d.participants, Primary);
                && r == Ok(humanId)
                && discussions == old(discussions)[id := out.discussion]
                && loops == old(loops)[id := out.flag]
                && streams.published == old(streams.published) + Tagged(id, out.events)
                && streams.Logs() == Deliver(old(streams.Logs()), streams.clients, id, Frames(streams.encode, out.events))
                && call == (if primary.Some? && old(loops[id])
                            then Some(AdapterCall(AdapterFor(primary.value.provider), primary.value.modelId,
                                                  primary.value.systemPrompt, d.messages + [human], content))
                            else None)
                && again == (primary.Some? && out.flag)
    {
      call := None;
      again := false;
      if id !in discussions {
        return Err("Discussion not found"), call, again;
      }
      var human := Message(humanId, Human, content, humanNow);
      ghost var d := discussions[id];
      ghost var flag := loops[id];
      ghost var logs0 := streams.Logs();
      ghost var published0 := streams.published;
      ghost var discussions0 := discussions;
      ghost var loops0 := loops;
      AddHumanMessage(id, human);
      ghost var answer := PrimaryAnswer(d.(messages := d.messages + [human]), flag, messageId, now, run);
      call, again := AnswerHuman(id, content, messageId, now, run);
      UpdateTwice(discussions0, id, d.(messages := d.messages + [human]), answer.discussion);
      UpdateTwice(loops0, id, flag, answer.flag);
      assert streams.published == published0 + Tagged(id, [MessageStart(human)] + answer.events) by {
        TaggedAppend(id, [MessageStart(human)], answer.events);
        assert Tagged(id, [MessageStart(human)]) == [(id, MessageStart(human))];
        AppendAssoc(published0, [(id, MessageStart(human))], Tagged(id, answer.events));
      }
      assert streams.Logs() == Deliver(logs0, streams.clients, id, Frames(streams.encode, [MessageStart(human)] + answer.events)) by {
        FramesAppend(streams.encode, [MessageStart(human)], answer.events);
        assert Frames(streams.encode, [MessageStart(human)]) == [Frame(streams.encode(MessageStart(human)))];
        DeliverAppend(logs0, streams.clients, id, [Frame(streams.encode(MessageStart(human)))], Frames(streams.encode, answer.events));
      }
      r := Ok(humanId);
    }
  }

  /** An intervention always leaves the human's message right after the
      transcript it found and announces it first; it never sets a cleared
      flag, and it stops nothing: the status changes only through a stop
      landing during the primary's turn. */
  lemma InterventionAnnouncesHuman(d: Discussion, flag: bool, human: Message, messageId: string, now: Timestamp, run: AdapterRun)
    ensures var out := Intervention(d, flag, human, messageId, now, run);
            && |out.discussion.messages| > |d.messages|
            && out.discussion.messages[..|d.messages| + 1] == d.messages + [human]
            && out.events[0] == MessageStart(human)
            && (!flag ==> !out.flag && out.discussion == d.(messages := d.messages + [human]) && out.events == [MessageStart(human)])
            && (out.discussion.status != d.status ==> run.stopAt.Some?)
  {
    var out := Intervention(d, flag, human, messageId, now, run);
    var withHuman := d.(messages := d.messages + [human]);
    assert out.discussion.messages[..|d.messages| + 1] == withHuman.messages by {
      assert out.discussion.messages == withHuman.messages
             || out.discussion.messages == withHuman.messages + [out.discussion.messages[|out.discussion.messages| - 1]];
    }
  }

  /** Once a turn has started, a stop in the middle of the stream does not
      discard the partial reply: the fragments read so far are appended and
      `complete` is still published, and no error is. */
  lemma StopMidStreamStillCompletes(d: Discussion, p: Participant, messageId: string, now: Timestamp, run: AdapterRun)
    requires BreaksEarly(run)
    ensures var k := run.stopAt.value;
            && AfterTurn(d, p, messageId, now, run).messages
               == d.messages + [Message(messageId, p.id, Concat(run.fragments[..k]), now)]
            && AfterTurn(d, p, messageId, now, run).status == Stopped
            && TurnEvents(p.id, messageId, run)
               == TokenEvents(p.id, messageId, run.fragments[..k]) + [Complete(p.id, messageId)]
            && !FlagAfterTurn(run)
  {
  }

  /** An adapter exception with no stop in play publishes one `error`,
      appends nothing, clears the flag and leaves the status as it was. */
  lemma ErrorLeavesStatus(d: Discussion, p: Participant, messageId: string, now: Timestamp, run: AdapterRun)
    requires run.ending.Throws? && run.stopAt.None?
    ensures AfterTurn(d, p, messageId, now, run) == d
    ensures TurnEvents(p.id, messageId, run)
            == TokenEvents(p.id, messageId, run.fragments) + [Error(p.id, ErrorText(run.ending.message))]
    ensures !FlagAfterTurn(run)
  {
  }

  /** Per message id, the events are token*, then exactly one of complete or error. */
  lemma {:induction false} TurnEventsOrdered(participantId: string, messageId: string, run: AdapterRun)
    ensures var events := TurnEvents(participantId, messageId, run);
            && |events| == Consumed(run) + 1
            && (forall i :: 0 <= i < |events| - 1 ==> events[i] == Token(participantId, run.fragments[i], messageId))
            && (events[|events| - 1].Complete? || events[|events| - 1].Error?)
            && (events[|events| - 1].Complete? <==> !Fails(run))
  {
    var n := Consumed(run);
    var events := TurnEvents(participantId, messageId, run);
    var tokens := TokenEvents(participantId, messageId, run.fragments[..n]);
    assert events[..n] == tokens;
    forall i | 0 <= i < |events| - 1
      ensures events[i] == Token(participantId, run.fragments[i], messageId)
    {
      assert events[i] == tokens[i];
    }
  }

  /** The token texts of a turn, concatenated, spell the message it appends. */
  lemma {:induction false} TokensSpellReply(p: Participant, messageId: string, now: Timestamp, run: AdapterRun)
    requires !Fails(run)
    ensures Concat(TokenTexts(TurnEvents(p.id, messageId, run))) == Reply(p, messageId, now, run).content
  {
    var n := Consumed(run);
    var events := TurnEvents(p.id, messageId, run);
    assert TokenTexts(events) == run.fragments[..n] by {
      TokenTextsAppend(TokenEvents(p.id, messageId, run.fragments[..n]), [Complete(p.id, messageId)]);
      TokenTextsOfTokens(p.id, messageId, run.fragments[..n]);
    }
  }

  /** The texts of the token events, in order. */
  function TokenTexts(events: seq<StreamEvent>): seq<string>
  {
    if events == [] then []
    else (if events[0].Token? then [events[0].token] else []) + TokenTexts(events[1..])
  }

  lemma {:induction false} TokenTextsAppend(a: seq<StreamEvent>, b: seq<StreamEvent>)
    ensures TokenTexts(a + b) == TokenTexts(a) + TokenTexts(b)
  {
    if a != [] {
      assert (a + b)[1..] == a[1..] + b;
      TokenTextsAppend(a[1..], b);
    } else {
      assert a + b == b;
    }
  }

  lemma {:induction false} TokenTextsOfTokens(participantId: string, messageId: string, fragments: seq<string>)
    ensures TokenTexts(TokenEvents(participantId, messageId, fragments)) == fragments
  {
    if fragments != [] {
      assert TokenEvents(participantId, messageId, fragments)[1..] == TokenEvents(participantId, messageId, fragments[1..]);
      TokenTextsOfTokens(participantId, messageId, fragments[1..]);
    }
  }

  /** Whatever cuts a turn short, the appended text is a prefix of the full response. */
  lemma {:induction false} ReplyIsPrefixOfResponse(p: Participant, messageId: string, now: Timestamp, run: AdapterRun)
    ensures Reply(p, messageId, now, run).content <= Concat(run.fragments)
  {
    var n := Consumed(run);
    assert run.fragments == run.fragments[..n] + run.fragments[n..];
    ConcatAppend(run.fragments[..n], run.fragments[n..]);
  }

  /** With distinct participant ids, the next speaker never repeats the last sender. */
  lemma NextSpeakerDiffersFromLast(messages: seq<Message>, primary: Participant, critic: Participant)
    requires |messages| > 0 && primary.id != critic.id && primary.id != Human
    ensures NextSpeaker(messages, primary, critic).id != messages[|messages| - 1].sender
    ensures messages[|messages| - 1].sender == Human ==> NextSpeaker(messages, primary, critic) == primary
  {
  }
}
