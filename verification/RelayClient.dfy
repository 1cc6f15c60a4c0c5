/** The daemon's end of the tunnel as code, against what module Tunnel says a daemon end does with a frame. */
module RelayClient {
  import opened Basics
  import Flow
  import Hub
  import opened Tunnel

  type StreamId = nat

  class Client {
    /** Streams with a local connection. */
    var streams: set<StreamId>
    ghost var ever: set<StreamId>
    ghost var written: map<StreamId, Bytes>

    ghost predicate Valid()
      reads this
    {
      streams <= ever
    }

    ghost function EndOf(id: StreamId): Flow.EndState
      reads this
    {
      if id in streams then Flow.Opened else if id in ever then Flow.Ended else Flow.Unopened
    }

    /** What the local connections of a stream were given. */
    ghost function Written(id: StreamId): Bytes
      reads this
    {
      if id in written then written[id] else []
    }

    constructor ()
      ensures Valid() && streams == {} && forall id :: EndOf(id).Unopened? && Written(id) == []
    {
      streams, ever, written := {}, {}, map[];
    }

    /** dialed: the local port answered; sent: the answer went out. An error ends the connection to the relay. */
    method OpenStream(id: StreamId, dialed: bool, sent: bool) returns (reply: Option<Frame>, error: bool)
      requires Valid()
      modifies this`streams, this`ever
      ensures Valid() && error == (id == 0 || !dialed || !sent)
      ensures id == 0 ==> reply == None && EndOf(id) == old(EndOf(id))
      ensures id != 0 ==> reply == Reply(Hub.DaemonRole, old(EndOf(id)), OpenFrame(id), dialed)
      ensures id != 0 && (sent || !dialed) ==>
                EndOf(id) == EndAfter(Hub.DaemonRole, old(EndOf(id)), OpenFrame(id), dialed)
      ensures id != 0 && dialed && !sent ==> EndOf(id).Ended?
      ensures forall o :: o != id ==> EndOf(o) == old(EndOf(o))
    {
      if id == 0 { return None, true; }
      if !dialed { return Some(CloseFrame(id)), true; }
      streams := streams + {id};
      ever := ever + {id};
      if !sent {
        CloseStream(id);
        return Some(AcceptFrame(id)), true;
      }
      return Some(AcceptFrame(id)), false;
    }

    /** ok: the local write took it all; otherwise it took the first `taken` bytes. */
    method HandleData(id: StreamId, payload: Bytes, ok: bool, taken: nat) returns (reply: Option<Frame>)
      requires Valid()
      modifies this`streams, this`written
      ensures Valid() && reply == Reply(Hub.DaemonRole, old(EndOf(id)), DataFrame(id, payload), ok)
      ensures EndOf(id) == EndAfter(Hub.DaemonRole, old(EndOf(id)), DataFrame(id, payload), ok)
      ensures Written(id) == old(Written(id)) + Taken(old(EndOf(id)), DataFrame(id, payload), ok, taken)
      ensures forall o :: o != id ==> EndOf(o) == old(EndOf(o)) && Written(o) == old(Written(o))
    {
      if id !in streams {
        return Some(CloseFrame(id));
      }
      written := written[id := Written(id) + if ok || taken > |payload| then payload else payload[..taken]];
      if !ok {
        CloseStream(id);
      }
      reply := None;
    }

    method CloseStream(id: StreamId)
      requires Valid()
      modifies this`streams
      ensures Valid() && EndOf(id) == EndAfter(Hub.DaemonRole, old(EndOf(id)), CloseFrame(id), true)
      ensures forall o :: o != id ==> EndOf(o) == old(EndOf(o))
    {
      streams := streams - {id};
    }

    /** The connection to the relay is gone: every stream goes with it. */
    method CloseStreamsLocked()
      requires Valid()
      modifies this`streams
      ensures Valid() && forall id :: EndOf(id) == EndAfter(Hub.DaemonRole, old(EndOf(id)), CloseFrame(id), true)
    {
      while streams != {}
        invariant Valid() && streams <= old(streams)
        decreases |streams|
      {
        var id :| id in streams;
        streams := streams - {id};
      }
    }
  }
}
