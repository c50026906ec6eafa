/** The HTTP handlers of backend/src/index.ts: the validation each route
    performs before it calls into the discussion controller, and the status
    and JSON body it answers with. */
module Server {
  import opened Types
  import opened Streams
  import opened Controller

  /** The JSON bodies the routes answer with. */
  datatype Body =
    | ErrorBody(error: string)
    | DiscussionIdBody(discussionId: string)
    | MessageIdBody(messageId: string)
    | StatusBody(status: string)

  datatype Reply = Reply(status: nat, body: Body)

  const InvalidStart := Reply(400, ErrorBody("Invalid request: topic and exactly 2 participants required"))
  const ContentRequired := Reply(400, ErrorBody("Message content is required"))
  const NotFound := Reply(404, ErrorBody("Discussion not found"))
  const AlreadyStopped := Reply(400, ErrorBody("Discussion has been stopped"))

  /** The characters `String.prototype.trim` removes: white space and line
      terminators as section 12.2 and 12.3 of ECMA-262 define them. */
  predicate IsTrimmable(c: char)
  {
    || c == '\U{9}' || c == '\U{B}' || c == '\U{C}' || c == ' ' || c == '\U{A0}' || c == '\U{FEFF}'
    || c == '\U{A}' || c == '\U{D}' || c == '\U{2028}' || c == '\U{2029}'
    || c == '\U{1680}' || ('\U{2000}' <= c <= '\U{200A}') || c == '\U{202F}' || c == '\U{205F}' || c == '\U{3000}'
  }

  function TrimStart(s: string): (r: string)
    ensures |r| <= |s| && r == s[|s| - |r|..]
    ensures forall i :: 0 <= i < |s| - |r| ==> IsTrimmable(s[i])
    ensures r == [] || !IsTrimmable(r[0])
  {
    if s != [] && IsTrimmable(s[0]) then TrimStart(s[1..]) else s
  }

  function TrimEnd(s: string): (r: string)
    ensures |r| <= |s| && r == s[..|r|]
    ensures forall i :: |r| <= i < |s| ==> IsTrimmable(s[i])
    ensures r == [] || !IsTrimmable(r[|r| - 1])
  {
    if s != [] && IsTrimmable(s[|s| - 1]) then TrimEnd(s[..|s| - 1]) else s
  }

  /** `r` sits in `s` starting at position `a`. */
  predicate StretchAt(r: string, s: string, a: nat)
  {
    a + |r| <= |s| && r == s[a..a + |r|]
  }

  /** `String.prototype.trim`: the stretch of `s` left once the trimmable
      characters at both ends are dropped. */
  function Trim(s: string): (r: string)
    ensures exists a: nat :: StretchAt(r, s, a)
              && (forall i :: 0 <= i < a ==> IsTrimmable(s[i]))
              && (forall i :: a + |r| <= i < |s| ==> IsTrimmable(s[i]))
    ensures r == [] || (!IsTrimmable(r[0]) && !IsTrimmable(r[|r| - 1]))
  {
    var t := TrimStart(s);
    var r := TrimEnd(t);
    TrimIsStretch(s, t, r);
    r
  }

  /** Proof helper: what survives both trims is a stretch of `s` with only trimmable characters around it. */
  lemma TrimIsStretch(s: string, t: string, r: string)
    requires |t| <= |s| && t == s[|s| - |t|..] && (forall i :: 0 <= i < |s| - |t| ==> IsTrimmable(s[i]))
    requires t == [] || !IsTrimmable(t[0])
    requires |r| <= |t| && r == t[..|r|] && (forall i :: |r| <= i < |t| ==> IsTrimmable(t[i]))
    requires r == [] || !IsTrimmable(r[|r| - 1])
    ensures StretchAt(r, s, |s| - |t|)
    ensures forall i :: 0 <= i < |s| - |t| ==> IsTrimmable(s[i])
    ensures forall i :: |s| - |t| + |r| <= i < |s| ==> IsTrimmable(s[i])
    ensures r == [] || (!IsTrimmable(r[0]) && !IsTrimmable(r[|r| - 1]))
  {
    var a := |s| - |t|;
    forall k | 0 <= k < |r|
      ensures r[k] == s[a + k]
    {
      assert r[k] == t[k];
    }
    assert r == s[a..a + |r|];
    forall i | a + |r| <= i < |s|
      ensures IsTrimmable(s[i])
    {
      assert s[i] == t[i - a];
    }
    if r != [] {
      assert r[0] == t[0];
    }
  }

  /** `content.trim().length === 0` holds exactly for the texts made only of
      trimmable characters, the empty text among them. */
  lemma TrimEmptyIffBlank(s: string)
    ensures |Trim(s)| == 0 <==> forall i :: 0 <= i < |s| ==> IsTrimmable(s[i])
  {
    var t := TrimStart(s);
    if |Trim(s)| == 0 {
      assert t == [];
    } else {
      assert !IsTrimmable(t[0]);
      assert t[0] == s[|s| - |t|];
    }
  }

  /** The guard of the start route, as a reply when the request is refused. */
  function StartGuard(topic: Option<string>, participants: Option<seq<Participant>>): (r: Option<Reply>)
    ensures r.None? <==> topic.Some? && topic.value != "" && participants.Some? && |participants.value| == 2
    ensures r.Some? ==> r.value == InvalidStart
  {
    if topic.None? || topic.value == "" || participants.None? || |participants.value| != 2 then Some(InvalidStart)
    else None
  }

  /** The first guard of the intervention route: a missing, empty or blank
      content is refused before the discussion is looked up. */
  function ContentGuard(content: Option<string>): (r: Option<Reply>)
    ensures r.None? <==> content.Some? && exists i :: 0 <= i < |content.value| && !IsTrimmable(content.value[i])
    ensures r.Some? ==> r.value == ContentRequired
  {
    if content.None? || content.value == "" then Some(ContentRequired)
    else
      TrimEmptyIffBlank(content.value);
      if |Trim(content.value)| == 0 then Some(ContentRequired) else None
  }

  /** `POST /api/discussions/start`: creates the discussion under `newId` and
      answers with its id. The opening turn runs in the background
      (`Controller.DiscussionController.StartDiscussionLoop`); its failure is
      only logged and never reaches this reply. The participants' roles are
      not checked here. */
  method Start(controller: DiscussionController, newId: string,
               topic: Option<string>, participants: Option<seq<Participant>>)
    returns (reply: Reply)
    requires controller.Valid()
    modifies controller
    ensures controller.Valid()
    ensures StartGuard(topic, participants).Some? ==>
              reply == InvalidStart
              && controller.discussions == old(controller.discussions) && controller.loops == old(controller.loops)
    ensures StartGuard(topic, participants).None? ==>
              reply == Reply(200, DiscussionIdBody(newId))
              && controller.discussions
                 == old(controller.discussions)[newId := Discussion(newId, topic.value, participants.value, [], Running)]
              && controller.loops == old(controller.loops)[newId := true]
  {
    var refused := StartGuard(topic, participants);
    if refused.Some? {
      return refused.value;
    }
    var id := controller.CreateDiscussion(newId, topic.value, participants.value);
    reply := Reply(200, DiscussionIdBody(id));
  }

  /** `GET /api/discussions/:id/stream`: `None` is the answer that stays open
      as an event stream, attached as the discussion's only subscriber. */
  method Subscribe(controller: DiscussionController, id: string, res: Sink) returns (reply: Option<Reply>)
    modifies controller.streams
    ensures id !in controller.discussions ==>
              reply == Some(NotFound) && controller.streams.clients == old(controller.streams.clients)
              && controller.streams.listeners == old(controller.streams.listeners)
    ensures id in controller.discussions ==>
              reply == None && controller.streams.clients == old(controller.streams.clients)[id := res]
              && controller.streams.listeners == old(controller.streams.listeners) + {(id, res)}
    ensures controller.streams.published == old(controller.streams.published)
  {
    var d := controller.GetDiscussion(id);
    if d.None? {
      return Some(NotFound);
    }
    controller.streams.AddClient(id, res);
    reply := None;
  }

  /** The controller's tables, its event log and every attached response are as they were. */
  twostate predicate Unchanged(controller: DiscussionController)
    reads controller, controller.streams, controller.streams.clients.Values
  {
    && controller.discussions == old(controller.discussions) && controller.loops == old(controller.loops)
    && controller.streams.published == old(controller.streams.published)
    && controller.streams.clients == old(controller.streams.clients)
    && controller.streams.Logs() == old(controller.streams.Logs())
  }

  /** `POST /api/discussions/:id/intervention`: content first, then existence,
      then status; an accepted message is answered, once the primary's turn
      has run, with the id of the human's message. */
  method Intervene(controller: DiscussionController, id: string, content: Option<string>,
                   humanId: string, humanNow: Timestamp, messageId: string, now: Timestamp, run: AdapterRun)
    returns (reply: Reply)
    requires controller.Valid()
    modifies controller, controller.streams, controller.streams.clients.Values
    ensures controller.Valid()
    ensures controller.streams.clients == old(controller.streams.clients)
    ensures ContentGuard(content).Some? ==> reply == ContentRequired && Unchanged(controller)
    ensures ContentGuard(content).None? && id !in old(controller.discussions) ==> reply == NotFound && Unchanged(controller)
    ensures ContentGuard(content).None? && id in old(controller.discussions)
            && old(controller.discussions[id].status) == Stopped ==>
              reply == AlreadyStopped && Unchanged(controller)
    ensures ContentGuard(content).None? && id in old(controller.discussions)
            && old(controller.discussions[id].status) == Running ==>
              var out := Intervention(old(controller.discussions[id]), old(controller.loops[id]),
                                      Message(humanId, Human, content.value, humanNow), messageId, now, run);
              && reply == Reply(200, MessageIdBody(humanId))
              && controller.discussions == old(controller.discussions)[id := out.discussion]
              && controller.loops == old(controller.loops)[id := out.flag]
              && controller.streams.published == old(controller.streams.published) + Tagged(id, out.events)
              && controller.streams.Logs()
                 == Deliver(old(controller.streams.Logs()), controller.streams.clients, id, Frames(controller.streams.encode, out.events))
  {
    var refused := ContentGuard(content);
    if refused.Some? {
      return refused.value;
    }
    var d := controller.GetDiscussion(id);
    if d.None? {
      return NotFound;
    }
    if d.value.status == Stopped {
      return AlreadyStopped;
    }
    var r, call, again := controller.HandleIntervention(id, content.value, humanId, humanNow, messageId, now, run);
    reply := Reply(200, MessageIdBody(r.value));
  }

  /** `POST /api/discussions/:id/stop`. */
  method Stop(controller: DiscussionController, id: string) returns (reply: Reply)
    requires controller.Valid()
    modifies controller
    ensures controller.Valid()
    ensures id !in old(controller.discussions) ==>
              reply == NotFound && controller.discussions == old(controller.discussions) && controller.loops == old(controller.loops)
    ensures id in old(controller.discussions) ==>
              reply == Reply(200, StatusBody("stopped"))
              && controller.discussions == old(controller.discussions)[id := old(controller.discussions[id]).(status := Stopped)]
              && controller.loops == old(controller.loops)[id := false]
  {
    var d := controller.GetDiscussion(id);
    if d.None? {
      return NotFound;
    }
    controller.StopDiscussion(id);
    reply := Reply(200, StatusBody("stopped"));
  }

  /** Once a discussion has been stopped, every intervention with content is
      refused with "Discussion has been stopped" and leaves it unchanged. */
  method StopThenIntervene(controller: DiscussionController, id: string, content: string,
                           humanId: string, humanNow: Timestamp, messageId: string, now: Timestamp, run: AdapterRun)
    returns (stopped: Reply, refused: Reply)
    requires controller.Valid() && id in controller.discussions
    requires exists i :: 0 <= i < |content| && !IsTrimmable(content[i])
    modifies controller, controller.streams, controller.streams.clients.Values
    ensures stopped == Reply(200, StatusBody("stopped")) && refused == AlreadyStopped
  {
    stopped := Stop(controller, id);
    refused := Intervene(controller, id, Some(content), humanId, humanNow, messageId, now, run);
  }
}
