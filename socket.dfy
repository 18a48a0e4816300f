/** One accepted TCP connection as a request handler sees it: the bytes the
    peer sent, and an append-only record of what the handler did to it. */
module Socket {
  import opened Wire

  /** What a handler can do to its connection, in the order it does it. */
  datatype Event =
    | Send(data: seq<byte>)    // one `sendall` call
    | Sleep(seconds: nat)      // `time.sleep` between two writes
    | Close                    // `request.close()`

  /** The bytes the peer receives: every `Send` payload, in order. */
  function Sent(events: seq<Event>): (r: seq<byte>)
  {
    if events == [] then []
    else
      var last := events[|events| - 1];
      Sent(events[..|events| - 1]) + (if last.Send? then last.data else [])
  }

  lemma {:induction false} SentAppend(a: seq<Event>, b: seq<Event>)
    ensures Sent(a + b) == Sent(a) + Sent(b)
    decreases |b|
  {
    if b == [] {
      assert a + b == a;
    } else {
      var b' := b[..|b| - 1];
      assert (a + b)[..|a + b| - 1] == a + b';
      SentAppend(a, b');
    }
  }

  /** The number of `Close` events in a record. */
  function CloseCount(events: seq<Event>): (n: nat)
    ensures n <= |events|
    ensures n == 0 <==> Close !in events
  {
    if events == [] then 0
    else
      var rest := CloseCount(events[..|events| - 1]);
      assert events == events[..|events| - 1] + [events[|events| - 1]];
      rest + (if events[|events| - 1] == Close then 1 else 0)
  }

  lemma {:induction false} CloseCountAppend(a: seq<Event>, b: seq<Event>)
    ensures CloseCount(a + b) == CloseCount(a) + CloseCount(b)
    decreases |b|
  {
    if b == [] {
      assert a + b == a;
    } else {
      var b' := b[..|b| - 1];
      assert (a + b)[..|a + b| - 1] == a + b';
      CloseCountAppend(a, b');
    }
  }

  class Connection {
    /** Everything the peer has sent on this connection. */
    const inbound: seq<byte>
    /** Everything done to the connection so far, oldest first. */
    var events: seq<Event>

    constructor (inbound: seq<byte>)
      ensures this.inbound == inbound && events == []
    {
      this.inbound := inbound;
      events := [];
    }

    /** `recv(bufsize)`: the pending bytes, at most `bufsize` of them. */
    method Recv(bufsize: nat) returns (data: seq<byte>)
      ensures data == Received(inbound, bufsize)
    {
      data := inbound[..Min(bufsize, |inbound|)];
    }

    method SendAll(data: seq<byte>)
      modifies this
      ensures events == old(events) + [Send(data)]
      ensures Sent(events) == old(Sent(events)) + data
    {
      SentAppend(events, [Send(data)]);
      events := events + [Send(data)];
    }

    method Pause(seconds: nat)
      modifies this
      ensures events == old(events) + [Sleep(seconds)]
    {
      events := events + [Sleep(seconds)];
    }

    method Close()
      modifies this
      ensures events == old(events) + [Event.Close]
    {
      events := events + [Event.Close];
    }
  }

  /** What `recv(bufsize)` hands a handler that reads once from `inbound`. */
  function Received(inbound: seq<byte>, bufsize: nat): (head: seq<byte>)
    ensures |head| <= bufsize && head <= inbound
    ensures |head| < bufsize ==> head == inbound
  {
    inbound[..Min(bufsize, |inbound|)]
  }
}
