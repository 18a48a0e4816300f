/** The two raw-socket fixture endpoints: `BrokenRspHandler` (deliberately
    malformed responses, written in one piece) and `SleepRspHandler` (well-formed
    responses written in two halves with a one-second pause between them). Both
    share the request-line reading of `SimpleTestHTTPHandler`. */
module CannedHandlers {
  import opened Wire
  import opened Socket
  import opened RequestLine

  /** The reply to a malformed head or an unregistered path. */
  const NotFoundResponse: seq<byte> := Ascii("HTTP/1.1 404 Not Found\r\nConnection: Close\r\n\r\n")

  const Head200: seq<byte> := Ascii("HTTP/1.1 200 OK\r\n")

  /** The route table of `BrokenRspHandler`. */
  const BrokenRoutes: map<seq<byte>, seq<byte>> := map[
    Ascii("/test/0") := Ascii("HTTP1.1 OK\r\n"),
    Ascii("/test/1") := Ascii("HTTP/1.1 200OK\r\n"),
    Ascii("/test/2") := Head200,
    Ascii("/test/3") := Head200 + Ascii("brokenHeader-)^-=-34haneda=\n"),
    Ascii("/test/4") := Head200 + Ascii(": it is broken"),
    Ascii("/test/5") := Head200 + Ascii("ebisu :\r\n"),
    Ascii("/test/6") := Head200 + Ascii("Connection: Close\r\nContent-Length: 4294967299\r\n\r\n"),
    Ascii("/test/7") := Head200 + Ascii("Content-Length: -2147483649\r\n\r\nshinagawa"),
    Ascii("/test/8") := Head200 + Ascii("Transfer-Encoding: chunked\r\n\r\n-3\r\nakihabara")
  ]

  /** The 128-character text drawn once per process from upper-case letters and digits. */
  predicate IsRandomString128(s: string)
  {
    |s| == 128 && forall i :: 0 <= i < |s| ==> 'A' <= s[i] <= 'Z' || '0' <= s[i] <= '9'
  }

  /** The route table of `SleepRspHandler`, for the process's random text. */
  function DelayedRoutes(random128: string): map<seq<byte>, seq<byte>>
  {
    map[
      Ascii("/test/10") := Head200 + Ascii("Connection: Close\r\n\r\nHello World!"),
      Ascii("/test/11") := Head200 + Ascii("Content-Length: 10\r\n\r\nJavaScript"),
      Ascii("/test/12") := Head200 + Ascii("Content-Length: 128\r\n\r\n") + Ascii(random128)
    ]
  }

  /** Which `handle_route` override a handler runs. */
  datatype HandlerKind = BrokenResponse | DelayedResponse

  /** The writes `handle_route` makes for `path`. */
  function RouteReply(kind: HandlerKind, routes: map<seq<byte>, seq<byte>>, path: seq<byte>): (r: seq<Event>)
    // the writes put exactly the registered response (or the 404 reply) on the wire
    ensures Sent(r) == if path in routes then routes[path] else NotFoundResponse
    // handle_route never closes the connection itself
    ensures CloseCount(r) == 0
    // one write, except for a registered path of the delayed table
    ensures (kind == BrokenResponse || path !in routes) <==> |r| == 1
    ensures |r| == 1 ==> r[0].Send?
    // a registered delayed response: first half, one-second pause, second half
    ensures kind == DelayedResponse && path in routes ==>
      |r| == 3 && r[0].Send? && |r[0].data| == |routes[path]| / 2 && r[1] == Sleep(1) && r[2].Send?
  {
    if path !in routes then [Send(NotFoundResponse)]
    else
      var rsp := routes[path];
      match kind
      case BrokenResponse => [Send(rsp)]
      case DelayedResponse =>
        var mid := |rsp| / 2;
        var r := [Send(rsp[..mid]), Sleep(1), Send(rsp[mid..])];
        assert r[..2] == [Send(rsp[..mid]), Sleep(1)] && r[..2][..1] == [Send(rsp[..mid])];
        assert Sent(r[..2][..1]) == rsp[..mid];
        assert Sent(r[..2]) == rsp[..mid];
        assert rsp[..mid] + rsp[mid..] == rsp;
        r
  }

  /** The writes `handle` makes for the received head. */
  function Reply(kind: HandlerKind, routes: map<seq<byte>, seq<byte>>, head: seq<byte>): seq<Event>
  {
    match ExtractPath(head)
    case None => [Send(NotFoundResponse)]
    case Some(path) => RouteReply(kind, routes, path)
  }

  /** `handle` leaves closing the connection to `finish`. */
  lemma ReplyKeepsOpen(kind: HandlerKind, routes: map<seq<byte>, seq<byte>>, head: seq<byte>)
    ensures CloseCount(Reply(kind, routes, head)) == 0
  {
    match ExtractPath(head)
    case None =>
      assert Close !in [Send(NotFoundResponse)];
    case Some(path) =>
  }

  /** A head without two spaces gets the 404 reply, in one write, whatever the table. */
  lemma MalformedHeadIsNotFound(kind: HandlerKind, routes: map<seq<byte>, seq<byte>>, head: seq<byte>)
    requires !exists i, j :: 0 <= i < j < |head| && head[i] == SP && head[j] == SP
    ensures Reply(kind, routes, head) == [Send(NotFoundResponse)]
  {
  }

  /** A well-formed head's reply is exactly the registered response of the
      bytes between its first two spaces, or the 404 reply. */
  lemma {:induction false} ReplyOnWire(kind: HandlerKind, routes: map<seq<byte>, seq<byte>>, head: seq<byte>, i: int, j: int)
    requires IsTargetBetween(head, i, j)
    ensures Sent(Reply(kind, routes, head)) ==
      if head[i + 1..j] in routes then routes[head[i + 1..j]] else NotFoundResponse
  {
    var r := ExtractPath(head);
    assert r.Some?;
    var i', j' :| 0 <= i' < j' < |head| && IsTargetBetween(head, i', j') && r.value == head[i' + 1..j'];
    TargetIsUnique(head, i, j, i', j');
  }

  lemma TargetIsUnique(head: seq<byte>, i: int, j: int, i': int, j': int)
    requires IsTargetBetween(head, i, j) && IsTargetBetween(head, i', j')
    ensures i == i' && j == j'
  {
  }

  /** The /test/12 reply carries the random text as its last 128 bytes, as its
      Content-Length header of 128 announces. */
  lemma DelayedRandomBody(random128: string)
    requires IsRandomString128(random128)
    ensures var rsp := DelayedRoutes(random128)[Ascii("/test/12")];
      |rsp| > 128 && rsp[|rsp| - 128..] == Ascii(random128)
  {
  }

  class TestHandler {
    /** The label `finish` logs with. */
    const name: string
    const kind: HandlerKind
    /** `rsp_list`: path -> canned response bytes. */
    const rspList: map<seq<byte>, seq<byte>>
    /** The accepted connection (`self.request`). */
    const request: Connection
    /** The path `handle` extracted, or empty. */
    var path: seq<byte>

    /** `BrokenRspHandler.__init__`. */
    constructor Broken(request: Connection)
      ensures this.request == request && kind == BrokenResponse && rspList == BrokenRoutes
      ensures name == "Broken Response" && path == []
    {
      this.request := request;
      kind := BrokenResponse;
      rspList := BrokenRoutes;
      name := "Broken Response";
      path := [];
    }

    /** `SleepRspHandler.__init__`, for the process's random text. */
    constructor Delayed(request: Connection, random128: string)
      ensures this.request == request && kind == DelayedResponse && rspList == DelayedRoutes(random128)
      ensures name == "Delayed Response" && path == []
    {
      this.request := request;
      kind := DelayedResponse;
      rspList := DelayedRoutes(random128);
      name := "Delayed Response";
      path := [];
    }

    method Response404()
      modifies request
      ensures request.events == old(request.events) + [Send(NotFoundResponse)]
    {
      request.SendAll(NotFoundResponse);
    }

    method HandleRoute(p: seq<byte>)
      modifies request
      ensures request.events == old(request.events) + RouteReply(kind, rspList, p)
    {
      if p !in rspList {
        Response404();
        return;
      }
      var rsp := rspList[p];
      match kind
      case BrokenResponse =>
        request.SendAll(rsp);
      case DelayedResponse =>
        var midLen := |rsp| / 2;
        request.SendAll(rsp[..midLen]);
        request.Pause(1);
        request.SendAll(rsp[midLen..]);
    }

    method Handle()
      modifies this, request
      ensures request.events == old(request.events) + Reply(kind, rspList, Received(request.inbound, RecvWindow))
      ensures path == match ExtractPath(Received(request.inbound, RecvWindow))
                      case Some(p) => p
                      case None => []
    {
      path := [];
      var head := request.Recv(RecvWindow);
      var spaceP := Find(head, SP);
      if spaceP < 0 {
        Response404();
        return;
      }
      head := head[spaceP + 1..];
      spaceP := Find(head, SP);
      if spaceP < 0 {
        Response404();
        return;
      }
      path := head[..spaceP];
      HandleRoute(path);
    }

    /** `finish`: the connection is closed (the log line is not modelled). */
    method Finish()
      modifies request
      ensures request.events == old(request.events) + [Event.Close]
    {
      request.Close();
    }

    /** The handler's life on one fresh connection: `handle`, then `finish`.
        Whatever branch `handle` takes, the connection ends closed exactly once. */
    method Serve()
      requires request.events == []
      modifies this, request
      ensures request.events == Reply(kind, rspList, Received(request.inbound, RecvWindow)) + [Event.Close]
      ensures CloseCount(request.events) == 1
    {
      ghost var reply := Reply(kind, rspList, Received(request.inbound, RecvWindow));
      Handle();
      assert request.events == reply;
      Finish();
      ReplyKeepsOpen(kind, rspList, Received(request.inbound, RecvWindow));
      CloseCountAppend(reply, [Event.Close]);
      assert CloseCount([Event.Close]) == 1 by {
        assert [Event.Close][..0] == [];
      }
    }
  }
}
