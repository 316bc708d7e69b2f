/** Client connections: requests arrive in arbitrary fragments, responses leave in arbitrary
    fragments (`handleClientRead` and `handleClientWrite` in src/runnerd_main.cpp). */
module Connection {
  import opened Jobs
  import opened Wire
  import opened Exceptions
  import opened Frames
  import opened Requests
  import opened Machine
  import opened MachineInvariant
  import opened Daemon

  datatype Received = Chunk(bytes: Bytes) | Closed | ReadInterrupted | NothingYet | ReadFailed
  datatype Written = Wrote(count: nat) | WriteInterrupted | NoRoom | WriteFailed

  /** A non-blocking stream socket with its answers fixed in advance; it remembers all that passed through. */
  class Socket {
    var incoming: seq<Received>
    var outgoing: seq<Written>
    ghost var received: Bytes
    ghost var sent: Bytes

    constructor (incoming: seq<Received>, outgoing: seq<Written>)
      ensures this.incoming == incoming && this.outgoing == outgoing && received == [] && sent == []
    {
      this.incoming, this.outgoing, received, sent := incoming, outgoing, [], [];
    }

    method Read() returns (a: Received)
      modifies this
      ensures sent == old(sent) && outgoing == old(outgoing)
      ensures received == if a.Chunk? then old(received) + a.bytes else old(received)
      ensures old(incoming) == [] ==> a.NothingYet?
      ensures old(incoming) != [] ==> |incoming| < |old(incoming)|
    {
      a := NothingYet;
      if incoming != [] {
        a, incoming := incoming[0], incoming[1..];
        if a.Chunk? {
          received := received + a.bytes;
        }
      }
    }

    /** A successful write takes at least one byte and at most all of them. */
    method Write(data: Bytes) returns (a: Written)
      requires data != []
      modifies this
      ensures received == old(received) && incoming == old(incoming)
      ensures a.Wrote? ==> 0 < a.count <= |data| && sent == old(sent) + data[..a.count]
      ensures !a.Wrote? ==> sent == old(sent)
      ensures old(outgoing) == [] ==> a.NoRoom?
      ensures old(outgoing) != [] ==> |outgoing| < |old(outgoing)|
    {
      a := NoRoom;
      if outgoing != [] {
        a, outgoing := outgoing[0], outgoing[1..];
        if a.Wrote? {
          a := Wrote(if a.count == 0 then 1 else if a.count > |data| then |data| else a.count);
          sent := sent + data[..a.count];
        }
      }
    }
  }

  class Connection {
    const decoder: FrameDecoder
    var writeBuffer: Bytes
    var writeOffset: nat
    var readClosed: bool
    /** Every response given so far; the state the connection was opened in, and what the daemon did since. */
    ghost var responses: seq<Bytes>
    ghost const born: Machine
    ghost var life: seq<Deed>

    /** Bytes received are the frames of the requests decoded so far and the decoder's buffer; those requests
        have been answered, each in the state it met; and bytes sent followed by bytes still to send are the
        frames of the responses. */
    ghost predicate Exact(socket: Socket)
      reads this, decoder, socket
    {
      && decoder.Valid() && decoder.fed == socket.received
      && Answers(born, life, decoder.popped, responses)
      && Pending(socket)
    }

    ghost predicate Pending(socket: Socket)
      reads this, socket
    {
      writeOffset <= |writeBuffer| && Fits(responses) && socket.sent + writeBuffer[writeOffset..] == Stream(responses)
    }

    /** Between two events the decoder holds no complete frame. */
    ghost predicate Valid(socket: Socket)
      reads this, decoder, socket
    {
      Exact(socket) && !HasFirst(decoder.buffer) && !Oversized(decoder.buffer)
    }

    constructor (socket: Socket, ghost m: Machine)
      requires socket.received == [] && socket.sent == []
      ensures Valid(socket) && fresh(decoder) && responses == [] && born == m && life == []
    {
      decoder := new FrameDecoder();
      writeBuffer, writeOffset, readClosed, responses := [], 0, false, [];
      born, life := m, [];
    }

    predicate HasPendingWrite()
      reads this
    {
      writeOffset < |writeBuffer|
    }

    /** False means that the connection must be closed. */
    method HandleClientWrite(socket: Socket) returns (ok: bool)
      requires Valid(socket)
      modifies this`writeBuffer, this`writeOffset, socket
      ensures Valid(socket) && socket.received == old(socket.received)
      ensures old(socket.sent) <= socket.sent
      ensures ok && !HasPendingWrite() ==> socket.sent == Stream(responses)
    {
      hide Stream, Fits, Answers;
      while HasPendingWrite()
        invariant Valid(socket) && socket.received == old(socket.received)
        invariant old(socket.sent) <= socket.sent
        decreases |writeBuffer| - writeOffset, |socket.outgoing|
      {
        ghost var sent, offset := socket.sent, writeOffset;
        var a := socket.Write(writeBuffer[writeOffset..]);
        match a {
          case Wrote(n) =>
            writeOffset := writeOffset + n;
            assert writeBuffer[offset..][..n] + writeBuffer[writeOffset..] == writeBuffer[offset..];
            assert sent + writeBuffer[offset..][..n] + writeBuffer[writeOffset..] == sent + writeBuffer[offset..];
          case WriteInterrupted =>
          case NoRoom => return true;
          case WriteFailed => return false;
        }
      }
      assert writeBuffer[writeOffset..] == [];
      assert socket.sent + [] == socket.sent;
      writeBuffer, writeOffset := [], 0;
      ok := true;
    }

    /** Answer one request and queue the frame of its response. */
    method Respond(request: Bytes, daemon: Daemon, ghost socket: Socket, ghost requests: seq<Bytes>) returns (r: Outcome)
      requires daemon.Valid() && Healthy(daemon.View()) && daemon.alive && daemon.View() == StateAfter(born, life)
      requires Pending(socket) && Answers(born, life, requests, responses)
      modifies this`writeBuffer, this`responses, this`life, daemon`nextJobId, daemon`degraded, daemon.host, daemon.table, daemon.outbox, daemon.scheduler, daemon.monitor, daemon.timers
      ensures daemon.Valid() && Healthy(daemon.View()) && daemon.alive && daemon.View() == After(old(daemon.View()), request)
      ensures r.Done? ==>
        && life == old(life) + [Asked(request)] && daemon.View() == StateAfter(born, life)
        && Pending(socket) && Answers(born, life, requests + [request], responses)
    {
      hide Inv, Healthy, After, Answer, Stream, Fits, Answers, StateAfter;
      var response;
      r, response := daemon.HandleRequest(request);
      if r.Done? {
        var frame;
        r, frame := EncodeFrame(response);
        StreamAppend(responses, response);
        assert (writeBuffer + frame)[writeOffset..] == writeBuffer[writeOffset..] + frame;
        Regroup(socket.sent, writeBuffer[writeOffset..], frame);
        OneMoreAnswer(born, life, requests, responses, request, response);
        writeBuffer := writeBuffer + frame;
        responses := responses + [response];
        life := life + [Asked(request)];
      }
    }

    /** Every complete request in the decoder is answered, in order. */
    method AnswerAll(daemon: Daemon, ghost socket: Socket) returns (r: Outcome)
      requires Exact(socket) && daemon.Valid() && Healthy(daemon.View()) && daemon.alive && daemon.View() == StateAfter(born, life)
      modifies this`writeBuffer, this`responses, this`life, decoder, daemon`nextJobId, daemon`degraded, daemon.host, daemon.table, daemon.outbox, daemon.scheduler, daemon.monitor, daemon.timers
      ensures daemon.Valid() && Healthy(daemon.View()) && daemon.alive
      ensures r.Done? ==> Valid(socket) && daemon.View() == StateAfter(born, life) && EventsOf(life) == old(EventsOf(life))
    {
      hide Inv, Healthy, After, Answer, Stream, Fits, HasFirst, Oversized, Answers, StateAfter, EventsOf;
      var has;
      r, has := decoder.HasFrame();
      while r.Done? && has
        invariant Exact(socket) && daemon.Valid() && Healthy(daemon.View()) && daemon.alive && daemon.View() == StateAfter(born, life)
        invariant r == (if Oversized(decoder.buffer) then Threw(RuntimeError) else Done) && (r.Done? ==> has == HasFirst(decoder.buffer))
        invariant EventsOf(life) == old(EventsOf(life))
        decreases |decoder.buffer|
      {
        ghost var asked := decoder.popped;
        var request;
        r, request := decoder.PopFrame();
        EventsAppend(life, Asked(request));
        r := Respond(request, daemon, socket, asked);
        if r.Threw? {
          return;
        }
        r, has := decoder.HasFrame();
      }
    }

    /** Read until the socket is empty or closed.  An exception, like a failed read, ends the connection. */
    method HandleClientRead(socket: Socket, daemon: Daemon) returns (r: Outcome, ok: bool)
      requires Valid(socket) && daemon.Valid() && Healthy(daemon.View()) && daemon.alive && daemon.View() == StateAfter(born, life)
      modifies this, decoder, socket, daemon`nextJobId, daemon`degraded, daemon.host, daemon.table, daemon.outbox, daemon.scheduler, daemon.monitor, daemon.timers
      ensures daemon.Valid() && Healthy(daemon.View()) && daemon.alive
      ensures r.Done? ==> Valid(socket) && ParseStream(socket.received) == Parse(decoder.popped, decoder.buffer, false)
      ensures r.Done? ==> daemon.View() == StateAfter(born, life) && EventsOf(life) == old(EventsOf(life))
    {
      hide Inv, Healthy, Stream, Fits, HasFirst, Oversized, Answers, StateAfter, EventsOf, ParseStream;
      while true
        invariant Valid(socket) && daemon.Valid() && Healthy(daemon.View()) && daemon.alive && daemon.View() == StateAfter(born, life)
        invariant EventsOf(life) == old(EventsOf(life))
        decreases |socket.incoming|
      {
        var a := socket.Read();
        match a {
          case Chunk(bytes) =>
            r := decoder.Feed(bytes);
            if r.Done? {
              r := AnswerAll(daemon, socket);
            }
            if r.Threw? {
              return r, false;
            }
          case Closed =>
            readClosed := true;
            AllDecoded(decoder);
            return Done, true;
          case ReadInterrupted =>
          case NothingYet =>
            AllDecoded(decoder);
            return Done, true;
          case ReadFailed =>
            AllDecoded(decoder);
            return Done, false;
        }
      }
    }
  }

  /** The requests answered are all the complete frames among the bytes received. */
  lemma AllDecoded(decoder: FrameDecoder)
    requires decoder.Valid() && !HasFirst(decoder.buffer) && !Oversized(decoder.buffer)
    ensures ParseStream(decoder.fed) == Parse(decoder.popped, decoder.buffer, false)
  {
    decoder.Refines();
    assert decoder.popped + [] == decoder.popped;
  }

  // ----- a whole life -----

  /** What happens while a connection is open: it becomes readable or writable, or something else happens to the daemon. */
  datatype Happening = Readable | Writable | Other(event: Event)

  function OthersIn(script: seq<Happening>): seq<Event> {
    if script == [] then [] else
      OthersIn(script[..|script| - 1]) + if script[|script| - 1].Other? then [script[|script| - 1].event] else []
  }

  /** Over the whole life of a connection, with any other events in between (requests on other connections among
      them): as long as it is open, every complete frame received has been answered, one response each, in order,
      each in the state the daemon was in when it was asked; and bytes sent followed by bytes unsent are the
      frames of the responses. */
  method Converse(daemon: Daemon, socket: Socket, script: seq<Happening>) returns (conn: Connection, open: bool)
    requires daemon.Valid() && Healthy(daemon.View()) && daemon.alive && socket.received == [] && socket.sent == []
    modifies socket, daemon, daemon.host, daemon.table, daemon.outbox, daemon.scheduler, daemon.monitor, daemon.timers
    ensures daemon.Valid() && Healthy(daemon.View()) && fresh(conn) && conn.born == old(daemon.View())
    ensures open ==>
      && daemon.View() == StateAfter(conn.born, conn.life) && EventsOf(conn.life) == OthersIn(script)
      && ParseStream(socket.received) == Parse(conn.decoder.popped, conn.decoder.buffer, false)
      && Answers(conn.born, conn.life, conn.decoder.popped, conn.responses)
      && conn.writeOffset <= |conn.writeBuffer| && Fits(conn.responses)
      && socket.sent + conn.writeBuffer[conn.writeOffset..] == Stream(conn.responses)
  {
    hide Inv, Healthy, Stream, Fits, HasFirst, Oversized, Answers, Step, ParseStream, StateAfter, EventsOf;
    Beginning(daemon.View());
    conn := new Connection(socket, daemon.View());
    open := true;
    assert script[..0] == [];
    for i := 0 to |script|
      invariant daemon.Valid() && Healthy(daemon.View()) && daemon.alive && open
      invariant fresh(conn) && fresh(conn.decoder) && conn.born == old(daemon.View())
      invariant conn.Valid(socket) && daemon.View() == StateAfter(conn.born, conn.life) && EventsOf(conn.life) == OthersIn(script[..i])
    {
      assert script[..i + 1][..i] == script[..i];
      match script[i] {
        case Readable =>
          var r;
          r, open := conn.HandleClientRead(socket, daemon);
          open := open && r.Done?;
        case Writable =>
          open := conn.HandleClientWrite(socket);
        case Other(e) =>
          EventsAppend(conn.life, Happened(e));
          OneMoreEvent(conn.born, conn.life, conn.decoder.popped, conn.responses, e);
          daemon.Handle(e);
          conn.life := conn.life + [Happened(e)];
          open := daemon.alive;
      }
      if !open {
        return;
      }
    }
    assert script[..|script|] == script;
    AllDecoded(conn.decoder);
  }
}
