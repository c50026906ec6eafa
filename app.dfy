/** The page's controller (frontend/src/App.tsx): the participants
    `handleStart` sends, the reducer the event-stream handler applies to the
    store and the token buffer, the buffer flush, and the guards of the
    intervention and stop actions. */
module App {
  import opened Types
  import opened UiTypes
  import opened Store
  import Controller
  import Server

  /** What the event handler works on: the store, and the token buffer
      (`tokenBufferRef`), message id to the text not yet shown. */
  datatype View = View(store: StoreState, buffer: map<string, string>)

  function IdIs(messageId: string): UiMessage -> bool
  {
    (m: UiMessage) => m.id == messageId
  }

  /** `messages.find((m) => m.id === messageId)`. */
  function FindMessage(messages: seq<UiMessage>, messageId: string): (r: Option<UiMessage>)
    ensures r.Some? ==> r.value in messages && r.value.id == messageId
    ensures r.None? <==> !HasMessage(messages, messageId)
  {
    Find(messages, IdIs(messageId))
  }

  /** `buffer.get(messageId) || ''`. */
  function Buffered(buffer: map<string, string>, messageId: string): string
  {
    if messageId in buffer then buffer[messageId] else ""
  }

  /** The content of the message shown under the id, `""` when there is none. */
  function Shown(messages: seq<UiMessage>, messageId: string): string
  {
    match FindMessage(messages, messageId)
    case Some(m) => m.content
    case None => ""
  }

  /** The text a message will show once its buffer is flushed. */
  function Pending(v: View, messageId: string): string
  {
    Shown(v.store.messages, messageId) + Buffered(v.buffer, messageId)
  }

  /** A `token` event: the token joins the buffer, and a message id the
      store does not know yet gets a new streaming message holding the token. */
  function TokenArrived(v: View, participantId: string, token: string, messageId: string, now: Timestamp): (r: View)
    ensures r.buffer.Keys == v.buffer.Keys + {messageId}
    ensures r.buffer[messageId] == Buffered(v.buffer, messageId) + token
    ensures forall k :: k in v.buffer && k != messageId ==> r.buffer[k] == v.buffer[k]
    ensures !HasMessage(v.store.messages, messageId) ==>
              r.store == AddMessage(v.store, UiMessage(messageId, participantId, token, now, Some(true)))
    ensures HasMessage(v.store.messages, messageId) ==> r.store == v.store
  {
    var buffer := v.buffer[messageId := Buffered(v.buffer, messageId) + token];
    if FindMessage(v.store.messages, messageId).None? then
      View(AddMessage(v.store, UiMessage(messageId, participantId, token, now, Some(true))), buffer)
    else
      View(v.store, buffer)
  }

  /** One message after the flush: a buffered id shows the content of the
      first message with that id followed by its buffered text. */
  function FlushedMessage(messages: seq<UiMessage>, buffer: map<string, string>, m: UiMessage): UiMessage
  {
    if m.id in buffer then
      match FindMessage(messages, m.id)
      case Some(first) => m.(content := first.content + buffer[m.id], isStreaming := Some(true))
      case None => m
    else m
  }

  function Flushed(messages: seq<UiMessage>, buffer: map<string, string>): (r: seq<UiMessage>)
    ensures |r| == |messages|
    ensures forall i :: 0 <= i < |messages| ==> r[i].id == messages[i].id && r[i].sender == messages[i].sender
    ensures forall i :: 0 <= i < |messages| && messages[i].id !in buffer ==> r[i] == messages[i]
  {
    seq(|messages|, i requires 0 <= i < |messages| => FlushedMessage(messages, buffer, messages[i]))
  }

  /** `flushTokenBuffer`, whatever order the buffer's ids are visited in. */
  function Flush(v: View): (r: View)
    ensures r.buffer == map[] && r.store == v.store.(messages := r.store.messages)
    ensures |v.buffer| == 0 ==> r == v
    ensures |r.store.messages| == |v.store.messages|
    ensures forall i :: 0 <= i < |v.store.messages| ==>
              r.store.messages[i].id == v.store.messages[i].id && r.store.messages[i].sender == v.store.messages[i].sender
    ensures forall i :: 0 <= i < |v.store.messages| && v.store.messages[i].id !in v.buffer ==>
              r.store.messages[i] == v.store.messages[i]
    ensures forall i :: 0 <= i < |v.store.messages| && v.store.messages[i].id in v.buffer ==>
              r.store.messages[i].isStreaming == Some(true)
  {
    if |v.buffer| == 0 then v else View(v.store.(messages := Flushed(v.store.messages, v.buffer)), map[])
  }

  /** A `complete` event: flush, then mark the message no longer streaming. */
  function Completed(v: View, messageId: string): (r: View)
    ensures r.buffer == map[] && r.store == v.store.(messages := r.store.messages)
    ensures |r.store.messages| == |v.store.messages|
    ensures forall i :: 0 <= i < |v.store.messages| ==>
              r.store.messages[i].id == v.store.messages[i].id && r.store.messages[i].sender == v.store.messages[i].sender
    ensures forall i :: 0 <= i < |v.store.messages| && v.store.messages[i].id == messageId ==>
              r.store.messages[i].isStreaming == Some(false)
  {
    var f := Flush(v);
    View(CompleteStreamingMessage(f.store, messageId), f.buffer)
  }

  /** The `onmessage` switch. A `message_start` carries the human's message,
      kept without a streaming flag; an `error` with an empty text shows
      the generic one. */
  function Receive(v: View, e: StreamEvent, now: Timestamp): (r: View)
    ensures e.Token? ==> HasMessage(r.store.messages, e.messageId) && r.buffer.Keys == v.buffer.Keys + {e.messageId}
    ensures e.Complete? ==> r.buffer == map[] && |r.store.messages| == |v.store.messages|
    ensures e.MessageStart? ==>
              r.buffer == v.buffer
              && r.store.messages == v.store.messages + [UiMessage(e.message.id, e.message.sender, e.message.content, e.message.timestamp, None)]
    ensures e.Error? ==> r.buffer == v.buffer && r.store.messages == v.store.messages && r.store.error.Some? && r.store.error.value != ""
  {
    match e
    case Token(participantId, token, messageId) =>
      TokenLeavesMessage(v, participantId, token, messageId, now);
      TokenArrived(v, participantId, token, messageId, now)
    case Complete(_, messageId) => Completed(v, messageId)
    case MessageStart(m) => View(AddMessage(v.store, UiMessage(m.id, m.sender, m.content, m.timestamp, None)), v.buffer)
    case Error(_, error) => View(SetError(v.store, Some(if error == "" then "An error occurred" else error)), v.buffer)
  }

  /** The state the event handler keeps between events. */
  class DiscussionApp {
    var store: StoreState
    var buffer: map<string, string>
    /** The discussion whose event stream is open (`eventSourceRef`). */
    var connected: Option<string>

    constructor ()
      ensures store == InitialState && buffer == map[] && connected == None
    {
      store := InitialState;
      buffer := map[];
      connected := None;
    }

    function Snapshot(): View
      reads this
    {
      View(store, buffer)
    }

    /** The `token` case. */
    method OnToken(participantId: string, token: string, messageId: string, now: Timestamp)
      modifies this
      ensures Snapshot() == TokenArrived(old(Snapshot()), participantId, token, messageId, now)
      ensures connected == old(connected)
    {
      var existingBuffer := if messageId in buffer then buffer[messageId] else "";
      buffer := buffer[messageId := existingBuffer + token];
      var existingMessage := FindMessage(store.messages, messageId);
      if existingMessage.None? {
        store := AddMessage(store, UiMessage(messageId, participantId, token, now, Some(true)));
      }
    }

    /** `flushTokenBuffer`: visits the buffered ids one at a time, in an
        order the model leaves open, then clears the buffer. */
    method FlushTokenBuffer()
      modifies this
      ensures Snapshot() == Flush(old(Snapshot()))
      ensures connected == old(connected)
    {
      if |buffer| == 0 {
        return;
      }
      ghost var m0 := store.messages;
      ghost var s0 := store;
      var remaining := buffer.Keys;
      assert store.messages == PartlyFlushed(m0, buffer, remaining);
      while remaining != {}
        invariant buffer == old(buffer) && connected == old(connected)
        invariant remaining <= buffer.Keys
        invariant store == s0.(messages := PartlyFlushed(m0, buffer, remaining))
        decreases |remaining|
      {
        var messageId :| messageId in remaining;
        FlushStep(m0, buffer, remaining, messageId);
        var existingMessage := FindMessage(store.messages, messageId);
        if existingMessage.Some? {
          store := UpdateStreamingMessage(store, messageId, existingMessage.value.content + buffer[messageId]);
        }
        remaining := remaining - {messageId};
      }
      assert PartlyFlushed(m0, buffer, {}) == Flushed(m0, buffer);
      buffer := map[];
    }

    /** The `onmessage` handler. */
    method OnMessage(e: StreamEvent, now: Timestamp)
      modifies this
      ensures Snapshot() == Receive(old(Snapshot()), e, now)
      ensures connected == old(connected)
    {
      match e {
        case Token(participantId, token, messageId) =>
          OnToken(participantId, token, messageId, now);
        case Complete(_, messageId) =>
          FlushTokenBuffer();
          store := CompleteStreamingMessage(store, messageId);
        case MessageStart(m) =>
          store := AddMessage(store, UiMessage(m.id, m.sender, m.content, m.timestamp, None));
        case Error(_, error) =>
          store := SetError(store, Some(if error == "" then "An error occurred" else error));
      }
    }

    /** `handleStart`: records the topic and the two participants, then
        follows the start request's outcome. */
    method HandleStart(topic: string, primaryId: string, primaryModel: ModelId, primaryPrompt: string,
                       criticId: string, criticModel: ModelId, criticPrompt: string, outcome: StartOutcome)
      returns (sent: seq<Participant>)
      modifies this
      ensures sent == StartParticipants(primaryId, primaryModel, primaryPrompt, criticId, criticModel, criticPrompt)
      ensures buffer == old(buffer)
      ensures outcome.Accepted? ==>
                && store == old(store).(topic := topic, participants := sent, error := None,
                                        discussionId := Some(outcome.discussionId), status := UiStatus.Running)
                && connected == Some(outcome.discussionId)
      ensures !outcome.Accepted? ==>
                && store == old(store).(topic := topic, participants := sent,
                                        error := Some(FailureText(outcome)), status := Idle)
                && connected == old(connected)
    {
      sent := StartParticipants(primaryId, primaryModel, primaryPrompt, criticId, criticModel, criticPrompt);
      var s := SetParticipants(SetTopic(SetError(store, None), topic), sent);
      if outcome.Accepted? {
        s := SetStatus(SetDiscussionId(s, outcome.discussionId), UiStatus.Running);
        connected := Some(outcome.discussionId);
      } else {
        s := SetStatus(SetError(s, Some(FailureText(outcome))), Idle);
      }
      store := s;
    }

    /** `handleIntervention`: without a discussion id nothing is sent and
        nothing changes. The reply's status is not looked at; only a request
        that never completes shows an error. */
    method HandleIntervention(message: string, failure: Option<string>) returns (sent: Option<(string, string)>)
      modifies this
      ensures !HasDiscussion(old(store)) ==> sent == None && store == old(store)
      ensures HasDiscussion(old(store)) ==>
                sent == Some((old(store).discussionId.value, message))
                && store == old(store).(error := if failure.Some? then failure else old(store).error)
      ensures buffer == old(buffer) && connected == old(connected)
    {
      if !HasDiscussion(store) {
        return None;
      }
      sent := Some((store.discussionId.value, message));
      if failure.Some? {
        store := SetError(store, failure);
      }
    }

    /** `handleStop`: once the request completes, whatever its status, the
        page shows the discussion stopped and closes its event stream. */
    method HandleStop(failure: Option<string>) returns (sent: Option<string>)
      modifies this
      ensures !HasDiscussion(old(store)) ==> sent == None && store == old(store) && connected == old(connected)
      ensures HasDiscussion(old(store)) && failure.None? ==>
                sent == old(store).discussionId && store == old(store).(status := UiStatus.Stopped) && connected == None
      ensures HasDiscussion(old(store)) && failure.Some? ==>
                sent == old(store).discussionId && store == old(store).(error := failure) && connected == old(connected)
      ensures buffer == old(buffer)
    {
      if !HasDiscussion(store) {
        return None;
      }
      sent := store.discussionId;
      if failure.None? {
        store := SetStatus(store, UiStatus.Stopped);
        connected := None;
      } else {
        store := SetError(store, failure);
      }
    }
  }

  /** The messages once the ids outside `remaining` have been visited. */
  ghost function PartlyFlushed(m0: seq<UiMessage>, buffer: map<string, string>, remaining: set<string>): (r: seq<UiMessage>)
    ensures |r| == |m0|
    ensures forall i :: 0 <= i < |m0| ==> r[i].id == m0[i].id
  {
    seq(|m0|, i requires 0 <= i < |m0| =>
          if m0[i].id in buffer && m0[i].id !in remaining then FlushedMessage(m0, buffer, m0[i]) else m0[i])
  }

  /** One visit of the flush: an id not visited yet is found, in the
      messages as they are now, at the message it had before the flush, and
      updating it visits it. */
  lemma FlushStep(m0: seq<UiMessage>, buffer: map<string, string>, remaining: set<string>, messageId: string)
    requires messageId in remaining && remaining <= buffer.Keys
    ensures var now := PartlyFlushed(m0, buffer, remaining);
            && FindMessage(now, messageId) == FindMessage(m0, messageId)
            && (FindMessage(m0, messageId).None? ==> PartlyFlushed(m0, buffer, remaining - {messageId}) == now)
            && (FindMessage(m0, messageId).Some? ==>
                  PartlyFlushed(m0, buffer, remaining - {messageId})
                  == UpdateStreamingMessage(InitialState.(messages := now), messageId,
                                            FindMessage(m0, messageId).value.content + buffer[messageId]).messages)
  {
    var now := PartlyFlushed(m0, buffer, remaining);
    IdsAgree(now, m0, messageId);
    if FindMessage(m0, messageId).None? {
      FlushStepSkips(m0, buffer, remaining, messageId);
    } else {
      FlushStepUpdates(m0, buffer, remaining, messageId);
    }
  }

  /** Proof helper for `FlushStep`: visiting an id no message has changes nothing. */
  lemma FlushStepSkips(m0: seq<UiMessage>, buffer: map<string, string>, remaining: set<string>, messageId: string)
    requires messageId in remaining && remaining <= buffer.Keys && FindMessage(m0, messageId).None?
    ensures PartlyFlushed(m0, buffer, remaining - {messageId}) == PartlyFlushed(m0, buffer, remaining)
  {
    var now := PartlyFlushed(m0, buffer, remaining);
    var next := PartlyFlushed(m0, buffer, remaining - {messageId});
    forall i | 0 <= i < |m0|
      ensures next[i] == now[i]
    {
    }
  }

  /** Proof helper for `FlushStep`: visiting an id updates its messages to the first one's content and its buffer. */
  lemma FlushStepUpdates(m0: seq<UiMessage>, buffer: map<string, string>, remaining: set<string>, messageId: string)
    requires messageId in remaining && remaining <= buffer.Keys && FindMessage(m0, messageId).Some?
    ensures var now := PartlyFlushed(m0, buffer, remaining);
            PartlyFlushed(m0, buffer, remaining - {messageId})
            == UpdateStreamingMessage(InitialState.(messages := now), messageId,
                                      FindMessage(m0, messageId).value.content + buffer[messageId]).messages
  {
    var now := PartlyFlushed(m0, buffer, remaining);
    var next := PartlyFlushed(m0, buffer, remaining - {messageId});
    var c := FindMessage(m0, messageId).value.content + buffer[messageId];
    var updated := UpdateStreamingMessage(InitialState.(messages := now), messageId, c).messages;
    forall i | 0 <= i < |m0|
      ensures next[i] == updated[i]
    {
      if m0[i].id == messageId {
        assert now[i] == m0[i];
        assert next[i] == m0[i].(content := c, isStreaming := Some(true));
      }
    }
  }

  /** Two transcripts with the same ids position by position find the same position for every id. */
  lemma IdsAgree(a: seq<UiMessage>, b: seq<UiMessage>, messageId: string)
    requires |a| == |b| && forall j :: 0 <= j < |a| ==> a[j].id == b[j].id
    ensures FindIndex(a, IdIs(messageId)) == FindIndex(b, IdIs(messageId))
  {
    forall j | 0 <= j < |a|
      ensures IdIs(messageId)(a[j]) == IdIs(messageId)(b[j])
    {
    }
    FindIndexAgrees(a, b, IdIs(messageId));
  }

  /** `!discussionId`: neither null nor empty. */
  predicate HasDiscussion(s: StoreState)
  {
    s.discussionId.Some? && s.discussionId.value != ""
  }

  /** How the start request ended: accepted with an id, answered with an
      error status, or rejected with an error's message. */
  datatype StartOutcome = Accepted(discussionId: string) | NotOk | Rejected(message: string)

  function FailureText(outcome: StartOutcome): string
  {
    match outcome
    case Accepted(_) => ""
    case NotOk => "Failed to start discussion"
    case Rejected(message) => message
  }

  /** The list `handleStart` builds: the primary, then the critic, each
      with the name and provider of its model's entry. */
  function StartParticipants(primaryId: string, primaryModel: ModelId, primaryPrompt: string,
                             criticId: string, criticModel: ModelId, criticPrompt: string): (r: seq<Participant>)
    ensures |r| == 2
    ensures r[0] == Participant(primaryId, primaryModel, OptionFor(primaryModel).provider,
                                OptionFor(primaryModel).name, primaryPrompt, Primary)
    ensures r[1] == Participant(criticId, criticModel, OptionFor(criticModel).provider,
                                OptionFor(criticModel).name, criticPrompt, Critic)
  {
    var primary := OptionFor(primaryModel);
    var critic := OptionFor(criticModel);
    [Participant(primaryId, primaryModel, primary.provider, primary.name, primaryPrompt, Primary),
     Participant(criticId, criticModel, critic.provider, critic.name, criticPrompt, Critic)]
  }

  /** The list passes the start route's guard whenever the topic is not
      empty, and the loop then finds both roles, at the places they were put. */
  lemma StartParticipantsAccepted(topic: string, primaryId: string, primaryModel: ModelId, primaryPrompt: string,
                                  criticId: string, criticModel: ModelId, criticPrompt: string)
    requires topic != ""
    ensures var ps := StartParticipants(primaryId, primaryModel, primaryPrompt, criticId, criticModel, criticPrompt);
            && Server.StartGuard(Some(topic), Some(ps)) == None
            && Controller.FindRole(ps, Primary) == Some(ps[0])
            && Controller.FindRole(ps, Critic) == Some(ps[1])
  {
  }

  /** A model is served by the chat-completions adapter exactly when its id
      starts with `gpt-`; every other model, the Converse ones included,
      goes to the messages adapter. */
  lemma AdapterFollowsModelId(modelId: ModelId)
    ensures Controller.AdapterFor(OptionFor(modelId).provider) == Controller.OpenAIChat
            <==> "gpt-" <= ModelIdText(modelId)
    ensures "eu.anthropic." <= ModelIdText(modelId) ==>
              Controller.AdapterFor(OptionFor(modelId).provider) == Controller.AnthropicMessages
  {
    ProviderFollowsPrefix(OptionFor(modelId));
  }

  /** A token for a message already shown adds exactly that token to what the message will show. */
  lemma TokenExtendsPending(v: View, participantId: string, token: string, messageId: string, now: Timestamp)
    requires HasMessage(v.store.messages, messageId)
    ensures Pending(TokenArrived(v, participantId, token, messageId, now), messageId) == Pending(v, messageId) + token
  {
  }

  /** The first token of a message is both its initial content and the start of its buffer. */
  lemma FirstTokenPendingTwice(v: View, participantId: string, token: string, messageId: string, now: Timestamp)
    requires !HasMessage(v.store.messages, messageId) && messageId !in v.buffer
    ensures Pending(TokenArrived(v, participantId, token, messageId, now), messageId) == token + token
  {
    var r := TokenArrived(v, participantId, token, messageId, now);
    var m := UiMessage(messageId, participantId, token, now, Some(true));
    assert FindMessage(v.store.messages, messageId).None?;
    assert r.store.messages == v.store.messages + [m];
    ShownAppended(v.store.messages, m);
    assert Buffered(r.buffer, messageId) == token by {
      assert [] + token == token;
    }
  }

  /** A message appended under a new id is there and shows its content. */
  lemma ShownAppended(messages: seq<UiMessage>, m: UiMessage)
    requires !HasMessage(messages, m.id)
    ensures HasMessage(messages + [m], m.id) && Shown(messages + [m], m.id) == m.content
  {
    FindAppended(messages, m);
    assert (messages + [m])[|messages|] == m;
  }

  /** Appending a message with a new id makes it the one found for that id. */
  lemma FindAppended(messages: seq<UiMessage>, m: UiMessage)
    requires !HasMessage(messages, m.id)
    ensures FindMessage(messages + [m], m.id) == Some(m)
  {
    assert (messages + [m])[|messages|] == m;
  }

  /** A flush shows what was pending: the buffered text moves into the
      message and nothing is lost or added, for every id that has a message. */
  lemma FlushKeepsPending(v: View, messageId: string)
    requires HasMessage(v.store.messages, messageId)
    ensures Pending(Flush(v), messageId) == Pending(v, messageId)
    ensures Shown(Flush(v).store.messages, messageId) == Pending(v, messageId)
  {
    if |v.buffer| != 0 {
      var ms := v.store.messages;
      var flushed := Flushed(ms, v.buffer);
      IdsAgree(flushed, ms, messageId);
      var k := FindIndex(ms, IdIs(messageId)).value;
      assert FindMessage(ms, messageId) == Some(ms[k]);
      assert FindMessage(flushed, messageId) == Some(flushed[k]);
    } else {
      assert v.buffer == map[];
    }
  }

  /** The message found for an id is the first one with that id. */
  lemma FirstMatch(messages: seq<UiMessage>, messageId: string, i: nat)
    requires i < |messages| && messages[i].id == messageId
    requires forall j :: 0 <= j < i ==> messages[j].id != messageId
    ensures FindMessage(messages, messageId) == Some(messages[i])
  {
    var k := FindIndex(messages, IdIs(messageId));
    assert IdIs(messageId)(messages[i]);
  }

  /** Completing a message shows everything that was pending for it and ends its streaming. */
  lemma CompleteShowsPending(v: View, messageId: string)
    requires HasMessage(v.store.messages, messageId)
    ensures Shown(Completed(v, messageId).store.messages, messageId) == Pending(v, messageId)
    ensures FindMessage(Completed(v, messageId).store.messages, messageId).value.isStreaming == Some(false)
  {
    FlushKeepsPending(v, messageId);
    var f := Flush(v).store;
    var ms := f.messages;
    var k := FindIndex(ms, IdIs(messageId)).value;
    var c := CompleteStreamingMessage(f, messageId).messages;
    FirstMatch(ms, messageId, k);
    FirstMatch(c, messageId, k);
  }

  /** The `token` events of one message, in arrival order. */
  function TokensArrived(v: View, participantId: string, messageId: string, tokens: seq<string>, now: Timestamp): View
  {
    if tokens == [] then v
    else TokenArrived(TokensArrived(v, participantId, messageId, tokens[..|tokens| - 1], now),
                      participantId, tokens[|tokens| - 1], messageId, now)
  }

  /** A message's pending text after its tokens arrive: the first token, then all of them. */
  lemma {:induction false} TokensPending(v: View, participantId: string, messageId: string, tokens: seq<string>, now: Timestamp)
    requires !HasMessage(v.store.messages, messageId) && messageId !in v.buffer
    requires |tokens| > 0
    ensures HasMessage(TokensArrived(v, participantId, messageId, tokens, now).store.messages, messageId)
    ensures Pending(TokensArrived(v, participantId, messageId, tokens, now), messageId) == tokens[0] + Concat(tokens)
  {
    var n := |tokens| - 1;
    var before := TokensArrived(v, participantId, messageId, tokens[..n], now);
    var after := TokensArrived(v, participantId, messageId, tokens, now);
    assert after == TokenArrived(before, participantId, tokens[n], messageId, now) by {
      assert tokens[..|tokens| - 1] == tokens[..n];
    }
    TokenLeavesMessage(before, participantId, tokens[n], messageId, now);
    if n == 0 {
      assert before == v by {
        assert tokens[..n] == [];
        assert TokensArrived(v, participantId, messageId, [], now) == v;
      }
      FirstTokenPendingTwice(v, participantId, tokens[0], messageId, now);
      assert Concat(tokens) == tokens[0] by {
        assert tokens[..|tokens| - 1] == [];
        assert Concat(tokens) == Concat([]) + tokens[0];
      }
    } else {
      TokensPending(v, participantId, messageId, tokens[..n], now);
      TokenExtendsPending(before, participantId, tokens[n], messageId, now);
      assert Concat(tokens) == Concat(tokens[..n]) + tokens[n] by {
        assert tokens[..|tokens| - 1] == tokens[..n];
      }
      assert tokens[..n][0] == tokens[0];
      Regroup(Pending(before, messageId), tokens[0], Concat(tokens[..n]), tokens[n]);
    }
  }

  /** Proof helper: regroups a concatenation of strings. */
  lemma Regroup(whole: string, first: string, rest: string, last: string)
    requires whole == first + rest
    ensures whole + last == first + (rest + last)
  {
  }

  /** After a token event its message exists. */
  lemma TokenLeavesMessage(v: View, participantId: string, token: string, messageId: string, now: Timestamp)
    ensures HasMessage(TokenArrived(v, participantId, token, messageId, now).store.messages, messageId)
  {
    var ms := TokenArrived(v, participantId, token, messageId, now).store.messages;
    if !HasMessage(v.store.messages, messageId) {
      assert ms[|ms| - 1].id == messageId;
    } else {
      var i :| 0 <= i < |v.store.messages| && v.store.messages[i].id == messageId;
      assert ms[i].id == messageId;
    }
  }

  /** As the handler is written, a streamed reply is shown with its first
      token twice once it completes: the tokens "a", "b" show "aab". */
  lemma FirstTokenShownTwice(v: View, participantId: string, messageId: string, tokens: seq<string>, now: Timestamp)
    requires !HasMessage(v.store.messages, messageId) && messageId !in v.buffer
    requires |tokens| > 0
    ensures var done := Completed(TokensArrived(v, participantId, messageId, tokens, now), messageId);
            Shown(done.store.messages, messageId) == tokens[0] + Concat(tokens)
  {
    TokensPending(v, participantId, messageId, tokens, now);
    CompleteShowsPending(TokensArrived(v, participantId, messageId, tokens, now), messageId);
  }

  /** The evident intent: the first token creates the message and is not buffered as well. */
  function TokenArrivedIntended(v: View, participantId: string, token: string, messageId: string, now: Timestamp): (r: View)
    ensures !HasMessage(v.store.messages, messageId) ==>
              r.buffer == v.buffer && r.store == AddMessage(v.store, UiMessage(messageId, participantId, token, now, Some(true)))
    ensures HasMessage(v.store.messages, messageId) ==>
              r.store == v.store && r.buffer == v.buffer[messageId := Buffered(v.buffer, messageId) + token]
  {
    if FindMessage(v.store.messages, messageId).None? then
      View(AddMessage(v.store, UiMessage(messageId, participantId, token, now, Some(true))), v.buffer)
    else
      View(v.store, v.buffer[messageId := Buffered(v.buffer, messageId) + token])
  }

  function TokensArrivedIntended(v: View, participantId: string, messageId: string, tokens: seq<string>, now: Timestamp): View
  {
    if tokens == [] then v
    else TokenArrivedIntended(TokensArrivedIntended(v, participantId, messageId, tokens[..|tokens| - 1], now),
                              participantId, tokens[|tokens| - 1], messageId, now)
  }

  lemma {:induction false} IntendedTokensPending(v: View, participantId: string, messageId: string, tokens: seq<string>, now: Timestamp)
    requires !HasMessage(v.store.messages, messageId) && messageId !in v.buffer
    requires |tokens| > 0
    ensures HasMessage(TokensArrivedIntended(v, participantId, messageId, tokens, now).store.messages, messageId)
    ensures Pending(TokensArrivedIntended(v, participantId, messageId, tokens, now), messageId) == Concat(tokens)
  {
    var n := |tokens| - 1;
    if n == 0 {
      var m := UiMessage(messageId, participantId, tokens[0], now, Some(true));
      assert tokens[..|tokens| - 1] == [];
      assert TokensArrivedIntended(v, participantId, messageId, [], now) == v;
      var r := TokensArrivedIntended(v, participantId, messageId, tokens, now);
      assert r == TokenArrivedIntended(v, participantId, tokens[0], messageId, now);
      assert FindMessage(v.store.messages, messageId).None?;
      assert r == View(v.store.(messages := v.store.messages + [m]), v.buffer);
      ShownAppended(v.store.messages, m);
      assert Concat(tokens) == Concat([]) + tokens[0];
    } else {
      var before := TokensArrivedIntended(v, participantId, messageId, tokens[..n], now);
      IntendedTokensPending(v, participantId, messageId, tokens[..n], now);
      assert TokensArrivedIntended(v, participantId, messageId, tokens, now)
             == TokenArrivedIntended(before, participantId, tokens[n], messageId, now);
      IntendedTokenExtendsPending(before, participantId, tokens[n], messageId, now);
      assert Concat(tokens) == Concat(tokens[..n]) + tokens[n] by {
        assert tokens[..|tokens| - 1] == tokens[..n];
      }
    }
  }

  /** With the intended handler a token for a message already shown leaves
      the store alone and adds exactly that token to what the message will show. */
  lemma IntendedTokenExtendsPending(v: View, participantId: string, token: string, messageId: string, now: Timestamp)
    requires HasMessage(v.store.messages, messageId)
    ensures TokenArrivedIntended(v, participantId, token, messageId, now).store == v.store
    ensures Pending(TokenArrivedIntended(v, participantId, token, messageId, now), messageId) == Pending(v, messageId) + token
  {
  }

  /** With the intended handler a completed reply shows exactly its tokens, in order. */
  lemma IntendedTokensSpellReply(v: View, participantId: string, messageId: string, tokens: seq<string>, now: Timestamp)
    requires !HasMessage(v.store.messages, messageId) && messageId !in v.buffer
    requires |tokens| > 0
    ensures var done := Completed(TokensArrivedIntended(v, participantId, messageId, tokens, now), messageId);
            Shown(done.store.messages, messageId) == Concat(tokens)
  {
    IntendedTokensPending(v, participantId, messageId, tokens, now);
    CompleteShowsPending(TokensArrivedIntended(v, participantId, messageId, tokens, now), messageId);
  }

  /** An error event always leaves a non-empty error on the page. */
  lemma ErrorAlwaysShown(v: View, participantId: string, error: string, now: Timestamp)
    ensures var r := Receive(v, Error(participantId, error), now);
            r.store.error.Some? && r.store.error.value != "" && r.buffer == v.buffer
            && (error != "" ==> r.store.error.value == error)
  {
  }
}
