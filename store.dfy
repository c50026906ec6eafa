/** The discussion store (frontend/src/store.ts): a state record and the
    reducers its actions apply, each returning the next state. */
module Store {
  import opened Types
  import opened UiTypes

  datatype StoreState = StoreState(
    topic: string,
    participants: seq<Participant>,
    messages: seq<UiMessage>,
    status: UiStatus,
    discussionId: Option<string>,
    error: Option<string>)

  /** `initialState`. */
  const InitialState := StoreState("", [], [], Idle, None, None)

  function SetTopic(s: StoreState, topic: string): (r: StoreState)
    ensures r.topic == topic && r.(topic := s.topic) == s
  {
    s.(topic := topic)
  }

  function SetParticipants(s: StoreState, participants: seq<Participant>): (r: StoreState)
    ensures r.participants == participants && r.(participants := s.participants) == s
  {
    s.(participants := participants)
  }

  function SetStatus(s: StoreState, status: UiStatus): (r: StoreState)
    ensures r.status == status && r.(status := s.status) == s
  {
    s.(status := status)
  }

  function SetDiscussionId(s: StoreState, id: string): (r: StoreState)
    ensures r.discussionId == Some(id) && r.(discussionId := s.discussionId) == s
  {
    s.(discussionId := Some(id))
  }

  function SetError(s: StoreState, error: Option<string>): (r: StoreState)
    ensures r.error == error && r.(error := s.error) == s
  {
    s.(error := error)
  }

  /** `addMessage`: appends at the end. */
  function AddMessage(s: StoreState, m: UiMessage): (r: StoreState)
    ensures |r.messages| == |s.messages| + 1
    ensures r.messages[..|s.messages|] == s.messages && r.messages[|s.messages|] == m
    ensures r.(messages := s.messages) == s
  {
    s.(messages := s.messages + [m])
  }

  /** `updateStreamingMessage`: every message with the id gets the content
      and is marked streaming; the others, the order and the length stay. */
  function UpdateStreamingMessage(s: StoreState, messageId: string, content: string): (r: StoreState)
    ensures |r.messages| == |s.messages|
    ensures forall i :: 0 <= i < |s.messages| ==>
              r.messages[i] == if s.messages[i].id == messageId
                               then s.messages[i].(content := content, isStreaming := Some(true))
                               else s.messages[i]
    ensures r.(messages := s.messages) == s
  {
    s.(messages := seq(|s.messages|, i requires 0 <= i < |s.messages| =>
                       if s.messages[i].id == messageId
                       then s.messages[i].(content := content, isStreaming := Some(true))
                       else s.messages[i]))
  }

  /** `completeStreamingMessage`: every message with the id is marked no
      longer streaming and keeps its content. */
  function CompleteStreamingMessage(s: StoreState, messageId: string): (r: StoreState)
    ensures |r.messages| == |s.messages|
    ensures forall i :: 0 <= i < |s.messages| ==>
              r.messages[i] == if s.messages[i].id == messageId
                               then s.messages[i].(isStreaming := Some(false))
                               else s.messages[i]
    ensures r.(messages := s.messages) == s
  {
    s.(messages := seq(|s.messages|, i requires 0 <= i < |s.messages| =>
                       if s.messages[i].id == messageId
                       then s.messages[i].(isStreaming := Some(false))
                       else s.messages[i]))
  }

  /** `reset`: back to the initial state whatever came before. */
  function Reset(s: StoreState): (r: StoreState)
    ensures r.topic == "" && r.participants == [] && r.messages == []
    ensures r.status == Idle && r.discussionId == None && r.error == None
  {
    InitialState
  }

  predicate HasMessage(messages: seq<UiMessage>, messageId: string)
  {
    exists i :: 0 <= i < |messages| && messages[i].id == messageId
  }

  /** Updating or completing an id no message has leaves the store as it was. */
  lemma AbsentIdChangesNothing(s: StoreState, messageId: string, content: string)
    requires !HasMessage(s.messages, messageId)
    ensures UpdateStreamingMessage(s, messageId, content) == s
    ensures CompleteStreamingMessage(s, messageId) == s
  {
    assert UpdateStreamingMessage(s, messageId, content).messages == s.messages;
    assert CompleteStreamingMessage(s, messageId).messages == s.messages;
  }

  /** Completing keeps every content: the text a message streamed is the text it keeps. */
  lemma CompleteKeepsContents(s: StoreState, messageId: string)
    ensures forall i :: 0 <= i < |s.messages| ==>
              CompleteStreamingMessage(s, messageId).messages[i].content == s.messages[i].content
              && CompleteStreamingMessage(s, messageId).messages[i].id == s.messages[i].id
              && CompleteStreamingMessage(s, messageId).messages[i].sender == s.messages[i].sender
  {
  }

  /** An update whose content every matching message already shows while
      streaming changes nothing, so repeating an update is harmless. */
  lemma UpdateIsIdempotent(s: StoreState, messageId: string, content: string)
    ensures UpdateStreamingMessage(UpdateStreamingMessage(s, messageId, content), messageId, content)
            == UpdateStreamingMessage(s, messageId, content)
  {
    var once := UpdateStreamingMessage(s, messageId, content);
    assert UpdateStreamingMessage(once, messageId, content).messages == once.messages;
  }
}
