/**
 * The ingest path: the broadcaster's WebSocket, seen only through its ready state and
 * the frames it was asked to send, and the chunk send queue that drains into it one
 * chunk per step.
 */
module Ingest {
  /** One recorded media fragment: the bytes of the `ArrayBuffer` the recorder produced. */
  type Chunk = seq<bv8>

  /** `WebSocket.readyState`; it only ever moves forward. */
  datatype ReadyState = Connecting | Open | Closing | Closed {
    function Rank(): nat {
      match this
      case Connecting => 0
      case Open => 1
      case Closing => 2
      case Closed => 3
    }
  }

  class Socket {
    const url: string
    var readyState: ReadyState
    /** Every frame handed to `send`, in order. */
    ghost var sent: seq<Chunk>

    /** `new WebSocket(url)`: connecting, nothing sent. */
    constructor (url: string)
      ensures this.url == url && readyState == Connecting && sent == []
    {
      this.url := url;
      readyState := Connecting;
      sent := [];
    }

    /** `ws.send(chunk)` on an open socket: one binary frame. */
    method Send(chunk: Chunk)
      requires readyState == Open
      modifies this
      ensures readyState == Open && sent == old(sent) + [chunk]
    {
      sent := sent + [chunk];
    }

    /** `ws.close()`: a connecting or open socket starts closing; otherwise nothing happens. */
    method Close()
      modifies this
      ensures readyState == if old(readyState).Rank() < 2 then Closing else old(readyState)
      ensures readyState.Rank() >= 2 && sent == old(sent)
    {
      if readyState.Rank() < 2 {
        readyState := Closing;
      }
    }

    /** The network moves the socket forward: it opens, fails, or is closed from the far end. */
    method Advance(next: ReadyState)
      requires readyState.Rank() < next.Rank()
      modifies this
      ensures readyState == next && sent == old(sent)
    {
      readyState := next;
    }
  }

  /**
   * The page's `sendQueue` and `isSending`. The ghost logs record every chunk ever
   * pushed and every chunk handed to the socket; Valid() says that what was sent
   * followed by what is still queued is exactly what was pushed, in push order.
   */
  class ChunkQueue {
    var items: seq<Chunk>
    var isSending: bool
    ghost var enqueued: seq<Chunk>
    ghost var delivered: seq<Chunk>

    ghost predicate Valid()
      reads this
    {
      enqueued == delivered + items
    }

    constructor ()
      ensures Valid() && items == [] && !isSending && enqueued == [] && delivered == []
    {
      items, isSending := [], false;
      enqueued, delivered := [], [];
    }

    /** `sendQueue.push(chunk)`. */
    method Push(chunk: Chunk)
      requires Valid()
      modifies this
      ensures Valid()
      ensures items == old(items) + [chunk] && enqueued == old(enqueued) + [chunk]
      ensures delivered == old(delivered) && isSending == old(isSending)
    {
      items := items + [chunk];
      enqueued := enqueued + [chunk];
    }

    /**
     * `processQueue(ws)`: one drain step. When a send is in flight, the queue is empty or the
     * socket is not open it does nothing at all, so held chunks stay queued. Otherwise it
     * removes the head, sends exactly that chunk, clears the in-flight flag again and asks
     * for another step (the 50 ms timeout); `rescheduled` says whether it did.
     */
    method ProcessQueue(ws: Socket) returns (rescheduled: bool)
      requires Valid()
      modifies this, ws
      ensures Valid()
      ensures rescheduled == (!old(isSending) && old(items) != [] && old(ws.readyState) == Open)
      ensures isSending == old(isSending) && enqueued == old(enqueued)
      ensures ws.readyState == old(ws.readyState)
      ensures rescheduled ==>
        items == old(items)[1..] && delivered == old(delivered) + [old(items)[0]] &&
        ws.sent == old(ws.sent) + [old(items)[0]]
      ensures !rescheduled ==>
        items == old(items) && delivered == old(delivered) && ws.sent == old(ws.sent)
    {
      if isSending || |items| == 0 || ws.readyState != Open {
        return false;
      }
      isSending := true;
      var chunk := items[0];
      items := items[1..];
      delivered := delivered + [chunk];
      // `if (chunk)`: an ArrayBuffer is always truthy, so the head is always sent.
      ws.Send(chunk);
      isSending := false;
      rescheduled := true;
    }
  }
}
