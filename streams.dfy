/** The event sink registry (backend/src/streamManager.ts): at most one
    subscriber response per discussion id, to which events are written as
    server-sent-event frames. */
module Streams {
  import opened Types

  /** The frame written for one event: `data: <json>` and a blank line. */
  function Frame(json: string): (f: string)
    ensures FramePayload(f) == Some(json)
  {
    var f := "data: " + json + "\n\n";
    assert f[..6] == "data: " && f[|f| - 2..] == "\n\n" && f[6..|f| - 2] == json;
    f
  }

  /** What a subscriber reads back out of a frame. */
  function FramePayload(f: string): Option<string>
  {
    if |f| >= 8 && f[..6] == "data: " && f[|f| - 2..] == "\n\n" then Some(f[6..|f| - 2]) else None
  }

  /** The frames written for a sequence of events, in order. */
  function Frames(encode: StreamEvent -> string, events: seq<StreamEvent>): (r: seq<string>)
    ensures |r| == |events|
    ensures forall i :: 0 <= i < |events| ==> r[i] == Frame(encode(events[i]))
  {
    seq(|events|, i requires 0 <= i < |events| => Frame(encode(events[i])))
  }

  lemma FramesAppend(encode: StreamEvent -> string, a: seq<StreamEvent>, b: seq<StreamEvent>)
    ensures Frames(encode, a + b) == Frames(encode, a) + Frames(encode, b)
  {
  }

  /** What one attached response holds: its frames and whether it was ended. */
  datatype SinkLog = SinkLog(frames: seq<string>, ended: bool)

  /** The logs after `frames` are written to the sink attached under `id`,
      if any; every other sink, including one attached under another id,
      keeps its log. */
  function Deliver(logs: map<Sink, SinkLog>, clients: map<string, Sink>, id: string, frames: seq<string>): (r: map<Sink, SinkLog>)
    ensures r.Keys == logs.Keys
    ensures forall s :: s in logs && !(id in clients && s == clients[id]) ==> r[s] == logs[s]
    ensures id in clients && clients[id] in logs ==>
              r[clients[id]] == logs[clients[id]].(frames := logs[clients[id]].frames + frames)
  {
    if id in clients && clients[id] in logs then
      logs[clients[id] := logs[clients[id]].(frames := logs[clients[id]].frames + frames)]
    else logs
  }

  /** Writing `a` and then `b` to the same id writes `a + b`. */
  lemma DeliverAppend(logs: map<Sink, SinkLog>, clients: map<string, Sink>, id: string, a: seq<string>, b: seq<string>)
    ensures Deliver(Deliver(logs, clients, id, a), clients, id, b) == Deliver(logs, clients, id, a + b)
  {
    if id in clients && clients[id] in logs {
      var s := clients[id];
      assert (logs[s].frames + a) + b == logs[s].frames + (a + b);
    }
  }

  lemma DeliverNothing(logs: map<Sink, SinkLog>, clients: map<string, Sink>, id: string)
    ensures Deliver(logs, clients, id, []) == logs
  {
    if id in clients && clients[id] in logs {
      assert logs[clients[id]].frames + [] == logs[clients[id]].frames;
    }
  }

  /** A subscriber's HTTP response: the frames written to it so far and whether it was ended. */
  class Sink {
    var frames: seq<string>
    var ended: bool

    constructor ()
      ensures frames == [] && !ended
    {
      frames := [];
      ended := false;
    }

    method Write(frame: string)
      modifies this
      ensures frames == old(frames) + [frame] && ended == old(ended)
    {
      frames := frames + [frame];
    }

    method End()
      modifies this
      ensures ended && frames == old(frames)
    {
      ended := true;
    }
  }

  class StreamManager {
    /** `JSON.stringify`, taken as given. */
    const encode: StreamEvent -> string
    /** The `clients` map: discussion id to its one attached response. */
    var clients: map<string, Sink>
    /** Every (id, response) pair `AddClient` has seen: each registered a close
        handler that stays armed after the response is replaced. */
    ghost var listeners: set<(string, Sink)>
    /** Every `SendEvent` call, in order, whether or not a sink was attached. */
    ghost var published: seq<(string, StreamEvent)>

    /** The log of every attached response. */
    ghost function Logs(): (r: map<Sink, SinkLog>)
      reads this, clients.Values
      ensures r.Keys == clients.Values
    {
      map s | s in clients.Values :: SinkLog(s.frames, s.ended)
    }

    constructor (encode: StreamEvent -> string)
      ensures this.encode == encode
      ensures clients == map[] && listeners == {} && published == []
    {
      this.encode := encode;
      clients := map[];
      listeners := {};
      published := [];
    }

    /** Attaches `res` as the only sink of `id`, replacing any previous one. */
    method AddClient(id: string, res: Sink)
      modifies this
      ensures clients == old(clients)[id := res]
      ensures listeners == old(listeners) + {(id, res)}
      ensures published == old(published)
    {
      clients := clients[id := res];
      listeners := listeners + {(id, res)};
    }

    /** The close handler of a response once attached under `id`: it deletes
        whatever entry `id` has now, even when `res` was replaced since. */
    method OnClose(id: string, res: Sink)
      requires (id, res) in listeners
      modifies this
      ensures clients == old(clients) - {id}
      ensures listeners == old(listeners) && published == old(published)
    {
      clients := clients - {id};
    }

    /** The close handler as evidently intended: only the response currently
        attached under `id` detaches itself. */
    method OnCloseGuarded(id: string, res: Sink)
      requires (id, res) in listeners
      modifies this
      ensures clients == if id in old(clients) && old(clients)[id] == res then old(clients) - {id} else old(clients)
      ensures listeners == old(listeners) && published == old(published)
    {
      if id in clients && clients[id] == res {
        clients := clients - {id};
      }
    }

    /** Writes one frame for `e` to the sink of `id`, if one is attached, and to nothing else. */
    method SendEvent(id: string, e: StreamEvent)
      modifies this, if id in clients then {clients[id]} else {}
      ensures clients == old(clients) && listeners == old(listeners)
      ensures published == old(published) + [(id, e)]
      ensures Logs() == Deliver(old(Logs()), clients, id, [Frame(encode(e))])
    {
      published := published + [(id, e)];
      if id in clients {
        clients[id].Write(Frame(encode(e)));
      }
    }

    /** Ends and detaches the sink of `id`; nothing happens when none is attached. */
    method RemoveClient(id: string)
      modifies this, if id in clients then {clients[id]} else {}
      ensures clients == old(clients) - {id}
      ensures listeners == old(listeners) && published == old(published)
      ensures id in old(clients) ==> old(clients)[id].ended
      ensures id in old(clients) ==> old(clients)[id].frames == old(clients[id].frames)
    {
      if id in clients {
        clients[id].End();
        clients := clients - {id};
      }
    }

    method HasClient(id: string) returns (attached: bool)
      ensures attached <==> id in clients
    {
      attached := id in clients;
    }
  }

  /** A second subscription to the same discussion replaces the first; when the
      first response then closes, its handler detaches the second, which
      receives nothing more. */
  method StaleCloseDetachesReplacement(encode: StreamEvent -> string, id: string, e: StreamEvent)
    returns (attached: bool, delivered: seq<string>)
    ensures !attached && delivered == []
  {
    var manager := new StreamManager(encode);
    var first := new Sink();
    var second := new Sink();
    manager.AddClient(id, first);
    manager.AddClient(id, second);
    manager.OnClose(id, first);
    manager.SendEvent(id, e);
    attached := manager.HasClient(id);
    delivered := second.frames;
  }

  /** With the guarded close handler the replacement stays attached and receives the event. */
  method GuardedCloseKeepsReplacement(encode: StreamEvent -> string, id: string, e: StreamEvent)
    returns (attached: bool, delivered: seq<string>)
    ensures attached && delivered == [Frame(encode(e))]
  {
    var manager := new StreamManager(encode);
    var first := new Sink();
    var second := new Sink();
    manager.AddClient(id, first);
    manager.AddClient(id, second);
    manager.OnCloseGuarded(id, first);
    manager.SendEvent(id, e);
    attached := manager.HasClient(id);
    delivered := second.frames;
  }
}
