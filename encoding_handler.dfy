/** The encoding fixture endpoint, `DifferentEncodingRspHandler.do_GET`: a
    chunked plain-text body (/test/20), a gzip body in one piece (/test/21),
    and the same gzip body cut into chunks of random length (/test/22). The
    request line is parsed by the HTTP library, which hands over `path`; the
    library's status line, header lines and end of headers are recorded as
    events, in the order the handler asks for them. */
module EncodingHandler {
  import opened Wire
  import opened ChunkedCoding
  import opened GzipFixture

  const OK: int := 200
  const NotFound: int := 404

  /** A header name and its value. */
  type Header = (string, string)

  /** What the handler emits on its connection, in order. */
  datatype HttpEvent =
    | StatusLine(code: int)                  // `send_response(code)`
    | HeaderLine(name: string, value: string) // `send_header(name, value)`
    | EndOfHeaders                           // `end_headers()`
    | BodyWrite(data: seq<byte>)             // one `wfile.write(data)`

  /** The status codes sent, in order. */
  function Statuses(log: seq<HttpEvent>): seq<int>
  {
    if log == [] then []
    else
      var e := log[|log| - 1];
      Statuses(log[..|log| - 1]) + (if e.StatusLine? then [e.code] else [])
  }

  /** The header lines sent, in order. */
  function HeadersOf(log: seq<HttpEvent>): seq<Header>
  {
    if log == [] then []
    else
      var e := log[|log| - 1];
      HeadersOf(log[..|log| - 1]) + (if e.HeaderLine? then [(e.name, e.value)] else [])
  }

  /** The body bytes written, in order. */
  function BodyOf(log: seq<HttpEvent>): seq<byte>
  {
    if log == [] then []
    else
      var e := log[|log| - 1];
      BodyOf(log[..|log| - 1]) + (if e.BodyWrite? then e.data else [])
  }

  /** What one more event adds to each projection. */
  lemma ProjectSnoc(a: seq<HttpEvent>, e: HttpEvent)
    ensures Statuses(a + [e]) == Statuses(a) + (if e.StatusLine? then [e.code] else [])
    ensures HeadersOf(a + [e]) == HeadersOf(a) + (if e.HeaderLine? then [(e.name, e.value)] else [])
    ensures BodyOf(a + [e]) == BodyOf(a) + (if e.BodyWrite? then e.data else [])
  {
    assert (a + [e])[..|a|] == a;
  }

  /** What a single event projects to. */
  lemma ProjectOne(e: HttpEvent)
    ensures Statuses([e]) == (if e.StatusLine? then [e.code] else [])
    ensures HeadersOf([e]) == (if e.HeaderLine? then [(e.name, e.value)] else [])
    ensures BodyOf([e]) == (if e.BodyWrite? then e.data else [])
  {
    assert [e][..0] == [];
  }

  lemma {:induction false} ProjectAppend(a: seq<HttpEvent>, b: seq<HttpEvent>)
    ensures Statuses(a + b) == Statuses(a) + Statuses(b)
    ensures HeadersOf(a + b) == HeadersOf(a) + HeadersOf(b)
    ensures BodyOf(a + b) == BodyOf(a) + BodyOf(b)
    decreases |b|
  {
    if b == [] {
      assert a + b == a;
    } else {
      var b' := b[..|b| - 1];
      var e := b[|b| - 1];
      assert a + b == (a + b') + [e] && b == b' + [e];
      ProjectAppend(a, b');
      ProjectSnoc(a + b', e);
      ProjectSnoc(b', e);
    }
  }

  /** The value a header dict holds for `k`. */
  function Lookup(h: seq<Header>, k: string): Option<string>
  {
    if h == [] then None
    else if h[0].0 == k then Some(h[0].1)
    else Lookup(h[1..], k)
  }

  /** `h[k] = v` on an insertion-ordered dict: a key already present keeps
      its place, a new key goes last. */
  function DictSet(h: seq<Header>, k: string, v: string): (r: seq<Header>)
    ensures Lookup(r, k) == Some(v)
    ensures forall k' :: k' != k ==> Lookup(r, k') == Lookup(h, k')
    ensures Lookup(h, k).None? ==> r == h + [(k, v)]
    ensures Lookup(h, k).Some? ==> |r| == |h|
  {
    if h == [] then [(k, v)]
    else if h[0].0 == k then [(k, v)] + h[1..]
    else
      var r := [h[0]] + DictSet(h[1..], k, v);
      assert r[1..] == DictSet(h[1..], k, v);
      assert Lookup(h, k).None? ==> r == [h[0]] + (h[1..] + [(k, v)]) == h + [(k, v)];
      r
  }

  /** One `send_header` per dict entry, in the dict's order. */
  function HeaderEvents(h: seq<Header>): (r: seq<HttpEvent>)
  {
    if h == [] then []
    else HeaderEvents(h[..|h| - 1]) + [HeaderLine(h[|h| - 1].0, h[|h| - 1].1)]
  }

  lemma {:induction false} ProjectHeaderEvents(h: seq<Header>)
    ensures Statuses(HeaderEvents(h)) == [] && BodyOf(HeaderEvents(h)) == []
    ensures HeadersOf(HeaderEvents(h)) == h
    decreases |h|
  {
    if h != [] {
      var init := h[..|h| - 1];
      ProjectHeaderEvents(init);
      ProjectAppend(HeaderEvents(init), [HeaderLine(h[|h| - 1].0, h[|h| - 1].1)]);
      assert init + [h[|h| - 1]] == h;
    }
  }

  /** What `send_rsp_headers(code, headers)` emits: status 200 whatever `code` is. */
  function RspHeaderEvents(h: seq<Header>): seq<HttpEvent>
  {
    [StatusLine(OK)] + HeaderEvents(h) + [EndOfHeaders]
  }

  lemma ProjectRspHeaderEvents(h: seq<Header>)
    ensures Statuses(RspHeaderEvents(h)) == [OK]
    ensures HeadersOf(RspHeaderEvents(h)) == h
    ensures BodyOf(RspHeaderEvents(h)) == []
  {
    ProjectHeaderEvents(h);
    ProjectAppend([StatusLine(OK)], HeaderEvents(h));
    ProjectAppend([StatusLine(OK)] + HeaderEvents(h), [EndOfHeaders]);
  }

  /** The four writes the /test/22 loop makes for one chunk. */
  function FrameWrites(chunk: seq<byte>): seq<HttpEvent>
  {
    [BodyWrite(SizeToken(|chunk|)), BodyWrite(CRLF), BodyWrite(chunk), BodyWrite(CRLF)]
  }

  function ChunkWrites(chunks: seq<seq<byte>>): seq<HttpEvent>
  {
    if chunks == [] then []
    else ChunkWrites(chunks[..|chunks| - 1]) + FrameWrites(chunks[|chunks| - 1])
  }

  /** The loop's writes carry no status or header, and put the framed chunks on the wire. */
  lemma {:induction false} ProjectChunkWrites(chunks: seq<seq<byte>>)
    ensures Statuses(ChunkWrites(chunks)) == [] && HeadersOf(ChunkWrites(chunks)) == []
    ensures BodyOf(ChunkWrites(chunks)) == Frames(chunks)
    decreases |chunks|
  {
    if chunks != [] {
      var init := chunks[..|chunks| - 1];
      var last := chunks[|chunks| - 1];
      ProjectChunkWrites(init);
      ProjectAppend(ChunkWrites(init), FrameWrites(last));
      ProjectFrameWrites(last);
    }
  }

  lemma ProjectFrameWrites(chunk: seq<byte>)
    ensures Statuses(FrameWrites(chunk)) == [] && HeadersOf(FrameWrites(chunk)) == []
    ensures BodyOf(FrameWrites(chunk)) == Frame(chunk)
  {
    var w1, w2, w3, w4 := BodyWrite(SizeToken(|chunk|)), BodyWrite(CRLF), BodyWrite(chunk), BodyWrite(CRLF);
    assert FrameWrites(chunk) == [w1, w2, w3] + [w4];
    assert [w1, w2, w3] == [w1, w2] + [w3];
    assert [w1, w2] == [w1] + [w2];
    assert [w1] == [] + [w1];
    ProjectSnoc([], w1);
    assert BodyOf([w1]) == SizeToken(|chunk|);
    ProjectSnoc([w1], w2);
    assert BodyOf([w1, w2]) == SizeToken(|chunk|) + CRLF;
    ProjectSnoc([w1, w2], w3);
    assert BodyOf([w1, w2, w3]) == SizeToken(|chunk|) + CRLF + chunk;
    ProjectSnoc([w1, w2, w3], w4);
    assert BodyOf([w1, w2, w3, w4]) == SizeToken(|chunk|) + CRLF + chunk + CRLF;
  }

  /** The hand-written chunked body of /test/20, as text: the four adjacent
      literals of the handler, here cut at their chunk boundaries. */
  const Test20Text: string :=
    ("7" + "\r\n" + "Hyoka C" + "\r\n") +
    ("d" + "\r\n" + "hitanda Eru\r\n" + "\r\n") +
    ("26" + "\r\n" + "Gochumon wa Usagi Desu ka Kafu Chino\r\n" + "\r\n") +
    ("2c" + "\r\n" + "Re Zero kara Hajimeru Isekai Seikatsu Remu\r\n" + "\r\n") +
    "0\r\n\r\n"

  const Test20Body: seq<byte> := Ascii(Test20Text)

  /** The chunk data of the /test/20 body, as a reader should see it. */
  const Test20Chunks: seq<seq<byte>> := [
    Ascii("Hyoka C"),
    Ascii("hitanda Eru\r\n"),
    Ascii("Gochumon wa Usagi Desu ka Kafu Chino\r\n"),
    Ascii("Re Zero kara Hajimeru Isekai Seikatsu Remu\r\n")
  ]

  /** The endpoints `do_GET` tells apart. */
  datatype Route = ChunkedText | GzipBody | ChunkedGzip | Unknown

  /** The branch `do_GET` takes: an exact match of the whole path. */
  function RouteOf(path: string): (r: Route)
    ensures r == Unknown <==> path !in {"/test/20", "/test/21", "/test/22"}
  {
    if path == "/test/20" then ChunkedText
    else if path == "/test/21" then GzipBody
    else if path == "/test/22" then ChunkedGzip
    else Unknown
  }

  /** The header dict `do_GET` fills in before it branches on the path, and
      the entries the branch then adds. */
  function ResponseHeaders(route: Route): seq<Header>
  {
    var headers := DictSet([], "Connection", "Close");
    match route
    case ChunkedText => DictSet(headers, "Transfer-Encoding", "chunked")
    case GzipBody => DictSet(headers, "Content-Encoding", "gzip")
    case ChunkedGzip => DictSet(DictSet(headers, "Transfer-Encoding", "chunked"), "Content-Encoding", "gzip")
    case Unknown => headers
  }

  /** `Connection: Close` on every route, `Transfer-Encoding: chunked` exactly
      on the chunked ones, `Content-Encoding: gzip` exactly on the gzip ones,
      and the dict's entries in the order they were set. */
  lemma HeaderValues(route: Route)
    ensures Lookup(ResponseHeaders(route), "Connection") == Some("Close")
    ensures Lookup(ResponseHeaders(route), "Transfer-Encoding") ==
      if route == ChunkedText || route == ChunkedGzip then Some("chunked") else None
    ensures Lookup(ResponseHeaders(route), "Content-Encoding") ==
      if route == GzipBody || route == ChunkedGzip then Some("gzip") else None
    ensures route == ChunkedGzip ==>
      ResponseHeaders(route) == [("Connection", "Close"), ("Transfer-Encoding", "chunked"), ("Content-Encoding", "gzip")]
  {
  }

  /** The body writes `do_GET` makes on `route` after the headers;
      `chunks` are the pieces the /test/22 loop happened to cut. */
  function BodyEvents(route: Route, gz: seq<byte>, chunks: seq<seq<byte>>): seq<HttpEvent>
  {
    match route
    case ChunkedText => [BodyWrite(Test20Body)]
    case GzipBody => [BodyWrite(gz)]
    case ChunkedGzip => ChunkWrites(chunks) + [BodyWrite(LastChunk)]
    case Unknown => []
  }

  /** Everything `do_GET` emits on `route`, with `gz` as the handler's gzip body. */
  function GetReply(route: Route, gz: seq<byte>, chunks: seq<seq<byte>>): seq<HttpEvent>
  {
    if route == Unknown then [StatusLine(NotFound), EndOfHeaders]
    else RspHeaderEvents(ResponseHeaders(route)) + BodyEvents(route, gz, chunks)
  }

  /** The body writes carry no status or header, and the bytes they put on the
      wire: the /test/20 literal, the gzip body, or the chunks framed. */
  lemma ProjectBodyEvents(route: Route, gz: seq<byte>, chunks: seq<seq<byte>>)
    ensures Statuses(BodyEvents(route, gz, chunks)) == [] && HeadersOf(BodyEvents(route, gz, chunks)) == []
    ensures BodyOf(BodyEvents(route, gz, chunks)) ==
      match route
      case ChunkedText => Test20Body
      case GzipBody => gz
      case ChunkedGzip => Frames(chunks) + LastChunk
      case Unknown => []
  {
    match route
    case ChunkedText =>
      ProjectOne(BodyWrite(Test20Body));
    case GzipBody =>
      ProjectOne(BodyWrite(gz));
    case ChunkedGzip =>
      var w := ChunkWrites(chunks);
      ProjectChunkWrites(chunks);
      ProjectAppend(w, [BodyWrite(LastChunk)]);
      ProjectOne(BodyWrite(LastChunk));
    case Unknown =>
  }

  /** A served reply: status 200, then exactly the header dict, then the body writes. */
  lemma ProjectServed(h: seq<Header>, tail: seq<HttpEvent>)
    requires Statuses(tail) == [] && HeadersOf(tail) == []
    ensures Statuses(RspHeaderEvents(h) + tail) == [OK]
    ensures HeadersOf(RspHeaderEvents(h) + tail) == h
    ensures BodyOf(RspHeaderEvents(h) + tail) == BodyOf(tail)
  {
    ProjectRspHeaderEvents(h);
    ProjectAppend(RspHeaderEvents(h), tail);
  }

  /** One status line per reply: 200 on the served routes, 404 otherwise; the
      served routes send their header dict and the 404 reply no header at all. */
  lemma HeaderDispatch(route: Route, gz: seq<byte>, chunks: seq<seq<byte>>)
    ensures Statuses(GetReply(route, gz, chunks)) == [if route == Unknown then NotFound else OK]
    ensures HeadersOf(GetReply(route, gz, chunks)) == if route == Unknown then [] else ResponseHeaders(route)
  {
    if route == Unknown {
      var e := [StatusLine(NotFound), EndOfHeaders];
      assert e == [StatusLine(NotFound)] + [EndOfHeaders];
      ProjectAppend([StatusLine(NotFound)], [EndOfHeaders]);
      ProjectOne(StatusLine(NotFound));
      ProjectOne(EndOfHeaders);
    } else {
      ProjectBodyEvents(route, gz, chunks);
      ProjectServed(ResponseHeaders(route), BodyEvents(route, gz, chunks));
    }
  }

  /** The body a client of a served route reads: the bytes of the body writes alone. */
  lemma ServedBody(route: Route, gz: seq<byte>, chunks: seq<seq<byte>>)
    requires route != Unknown
    ensures BodyOf(GetReply(route, gz, chunks)) ==
      match route
      case ChunkedText => Test20Body
      case GzipBody => gz
      case ChunkedGzip => Frames(chunks) + LastChunk
      case Unknown => []
  {
    ProjectBodyEvents(route, gz, chunks);
    ProjectServed(ResponseHeaders(route), BodyEvents(route, gz, chunks));
  }

  /** The /test/20 literal is well-formed chunked coding: each size token
      (7, d, 26, 2c) is the length of the data after it, and the last chunk ends it. */
  lemma Test20Framing()
    ensures Test20Body == Frames(Test20Chunks) + LastChunk
    ensures forall i :: 0 <= i < |Test20Chunks| ==> |Test20Chunks[i]| > 0
  {
    var c := Test20Chunks;
    assert |c[0]| == 7 && |c[1]| == 13 && |c[2]| == 38 && |c[3]| == 44;
    assert HexDigits(7) == "7" && HexDigits(13) == "d";
    assert HexDigits(38) == "26" && HexDigits(44) == "2c";
    FrameOf("Hyoka C", "7");
    FrameOf("hitanda Eru\r\n", "d");
    FrameOf("Gochumon wa Usagi Desu ka Kafu Chino\r\n", "26");
    FrameOf("Re Zero kara Hajimeru Isekai Seikatsu Remu\r\n", "2c");
    FramesOfFour(c);
    Test20Split();
  }

  /** The /test/20 literal cut at its chunk boundaries. */
  lemma Test20Split()
    ensures Test20Body ==
      Ascii("7" + "\r\n" + "Hyoka C" + "\r\n") +
      Ascii("d" + "\r\n" + "hitanda Eru\r\n" + "\r\n") +
      Ascii("26" + "\r\n" + "Gochumon wa Usagi Desu ka Kafu Chino\r\n" + "\r\n") +
      Ascii("2c" + "\r\n" + "Re Zero kara Hajimeru Isekai Seikatsu Remu\r\n" + "\r\n") +
      LastChunk
  {
    var f1 := "7" + "\r\n" + "Hyoka C" + "\r\n";
    var f2 := "d" + "\r\n" + "hitanda Eru\r\n" + "\r\n";
    var f3 := "26" + "\r\n" + "Gochumon wa Usagi Desu ka Kafu Chino\r\n" + "\r\n";
    var f4 := "2c" + "\r\n" + "Re Zero kara Hajimeru Isekai Seikatsu Remu\r\n" + "\r\n";
    AsciiAppend(f1, f2);
    AsciiAppend(f1 + f2, f3);
    AsciiAppend(f1 + f2 + f3, f4);
    AsciiAppend(f1 + f2 + f3 + f4, "0\r\n\r\n");
  }

  /** A chunk whose length is written `token` is framed as token, CRLF, data, CRLF. */
  lemma FrameOf(data: string, token: string)
    requires HexDigits(|data|) == token
    ensures Frame(Ascii(data)) == Ascii(token + "\r\n" + data + "\r\n")
  {
    AsciiAppend(token, "\r\n");
    AsciiAppend(token + "\r\n", data);
    AsciiAppend(token + "\r\n" + data, "\r\n");
    assert Ascii("\r\n") == CRLF;
  }

  lemma FramesOfFour(c: seq<seq<byte>>)
    requires |c| == 4
    ensures Frames(c) == Frame(c[0]) + Frame(c[1]) + Frame(c[2]) + Frame(c[3])
  {
    assert c[..3][..2][..1] == [c[0]];
    assert c[..3][..2] == c[..2];
    assert c[..3] == [c[0], c[1], c[2]];
    assert Frames([c[0]]) == Frames([]) + Frame(c[0]);
    assert Frames(c[..2]) == Frame(c[0]) + Frame(c[1]);
    assert Frames(c[..3]) == Frame(c[0]) + Frame(c[1]) + Frame(c[2]);
  }

  /** A client reading the /test/20 body gets the four chunks' data joined. */
  lemma Test20Decodes(gz: seq<byte>)
    ensures Dechunk(BodyOf(GetReply(ChunkedText, gz, []))) == Some(Flatten(Test20Chunks))
  {
    ServedBody(ChunkedText, gz, []);
    assert BodyOf(GetReply(ChunkedText, gz, [])) == Test20Body;
    Test20Framing();
    EncodingRoundTrip(Test20Chunks);
  }

  /** The /test/21 body is the gzip body, unframed. */
  lemma Test21Body(gz: seq<byte>)
    ensures BodyOf(GetReply(GzipBody, gz, [])) == gz
  {
    ServedBody(GzipBody, gz, []);
  }

  /** Whatever chunks the /test/22 loop cuts, a client reading the chunked
      body gets exactly the gzip body back. */
  lemma Test22Decodes(gz: seq<byte>, chunks: seq<seq<byte>>)
    requires ValidChunking(chunks) && Flatten(chunks) == gz
    ensures Dechunk(BodyOf(GetReply(ChunkedGzip, gz, chunks))) == Some(gz)
  {
    ServedBody(ChunkedGzip, gz, chunks);
    ChunkingIsTransparent(chunks);
  }

  /** The /test/22 loop cuts the 644-byte gzip body into 6 to 41 chunks. */
  lemma Test22ChunkCount(chunks: seq<seq<byte>>)
    requires ValidChunking(chunks) && Flatten(chunks) == GzippedBody
    ensures 6 <= |chunks| <= 41
  {
    GzipLength();
    ChunkCountBounds(chunks);
  }

  lemma SliceConcat<T>(s: seq<T>, i: nat, j: nat)
    requires i <= j <= |s|
    ensures s[..i] + s[i..j] == s[..j]
  {
  }

  lemma AppendAssoc<T>(a: seq<T>, b: seq<T>, c: seq<T>)
    ensures a + b + c == a + (b + c)
  {
  }

  lemma AppendFour<T>(s: seq<T>, a: T, b: T, c: T, d: T)
    ensures s + [a] + [b] + [c] + [d] == s + [a, b, c, d]
  {
  }

  /** One more chunk: its data follows the others', and its four writes follow theirs. */
  lemma ChunksSnoc(chunks: seq<seq<byte>>, c: seq<byte>)
    ensures Flatten(chunks + [c]) == Flatten(chunks) + c
    ensures ChunkWrites(chunks + [c]) == ChunkWrites(chunks) + FrameWrites(c)
  {
    assert (chunks + [c])[..|chunks|] == chunks;
  }

  /** `chunks` is a valid cut of the body's first `p` bytes that the loop can
      still extend: while bytes remain, no chunk so far was clamped. */
  ghost predicate CutPrefix(chunks: seq<seq<byte>>, body: seq<byte>, p: nat)
  {
    p <= |body| && ValidChunking(chunks) && Flatten(chunks) == body[..p] &&
    (p < |body| ==> forall i :: 0 <= i < |chunks| ==> MinChunk <= |chunks[i]|)
  }

  /** One turn of the /test/22 loop: the next `l` bytes, at least MinChunk
      unless clamped to the rest of the body, extend the cut. */
  lemma CutStep(chunks: seq<seq<byte>>, body: seq<byte>, p: nat, l: nat, chunks': seq<seq<byte>>, p': nat)
    requires CutPrefix(chunks, body, p) && p < |body|
    requires 1 <= l <= MaxChunk && p + l <= |body| && (MinChunk <= l || p + l == |body|)
    requires p' == p + l && chunks' == chunks + [body[p..p + l]]
    ensures CutPrefix(chunks', body, p')
  {
    var c := body[p..p + l];
    var cs := chunks + [c];
    assert forall i :: 0 <= i < |chunks| ==> cs[i] == chunks[i];
    ChunksSnoc(chunks, c);
    SliceConcat(body, p, p + l);
  }

  class DifferentEncodingHandler {
    /** The request-target the HTTP library parsed. */
    const path: string
    /** `gzipped_body`: the gzip-compressed text the handler serves. */
    const gzippedBody: seq<byte>
    /** Everything emitted on the connection so far, oldest first. */
    var log: seq<HttpEvent>

    constructor (path: string)
      ensures this.path == path && gzippedBody == GzippedBody && log == []
    {
      this.path := path;
      gzippedBody := GzippedBody;
      log := [];
    }

    method SendResponse(code: int)
      modifies this
      ensures log == old(log) + [StatusLine(code)]
    {
      log := log + [StatusLine(code)];
    }

    method SendHeader(name: string, value: string)
      modifies this
      ensures log == old(log) + [HeaderLine(name, value)]
    {
      log := log + [HeaderLine(name, value)];
    }

    method EndHeaders()
      modifies this
      ensures log == old(log) + [EndOfHeaders]
    {
      log := log + [EndOfHeaders];
    }

    /** `wfile.write(data)`. */
    method Write(data: seq<byte>)
      modifies this
      ensures log == old(log) + [BodyWrite(data)]
    {
      log := log + [BodyWrite(data)];
    }

    /** `send_rsp_headers`: `code` is ignored and 200 is sent. */
    method SendRspHeaders(code: int, headers: seq<Header>)
      modifies this
      ensures log == old(log) + RspHeaderEvents(headers)
    {
      SendResponse(OK);
      var i := 0;
      while i < |headers|
        invariant 0 <= i <= |headers|
        invariant log == old(log) + [StatusLine(OK)] + HeaderEvents(headers[..i])
      {
        assert headers[..i + 1][..i] == headers[..i];
        SendHeader(headers[i].0, headers[i].1);
        i := i + 1;
      }
      assert headers[..i] == headers;
      EndHeaders();
    }

    /** One turn of the /test/22 loop's writes: the chunk's length as `hex`
        prints it without its "0x", CRLF, the chunk, CRLF. */
    method WriteFrame(chunk: seq<byte>)
      modifies this
      ensures log == old(log) + FrameWrites(chunk)
    {
      var token := Ascii(PyHex(|chunk|)[2..]);
      assert token == SizeToken(|chunk|) by {
        assert PyHex(|chunk|)[2..] == HexDigits(|chunk|);
      }
      Write(token);
      Write(CRLF);
      Write(chunk);
      Write(CRLF);
      AppendFour(old(log), BodyWrite(token), BodyWrite(CRLF), BodyWrite(chunk), BodyWrite(CRLF));
    }

    /** The /test/22 loop: cut `body` into chunks of random length 16..128
        (the last one clamped to what remains), write each as size, CRLF,
        data, CRLF, then write the last chunk. `chunks` records the cut. */
    method SendChunkedBody(body: seq<byte>) returns (ghost chunks: seq<seq<byte>>)
      modifies this
      ensures ValidChunking(chunks) && Flatten(chunks) == body
      ensures log == old(log) + (ChunkWrites(chunks) + [BodyWrite(LastChunk)])
    {
      var p := 0;
      chunks := [];
      while p < |body|
        invariant CutPrefix(chunks, body, p)
        invariant log == old(log) + ChunkWrites(chunks)
        decreases |body| - p
      {
        var l :| MinChunk <= l <= MaxChunk;
        if p + l > |body| {
          l := |body| - p;
        }
        var chunk := body[p..p + l];
        WriteFrame(chunk);
        ChunksSnoc(chunks, chunk);
        AppendAssoc(old(log), ChunkWrites(chunks), FrameWrites(chunk));
        CutStep(chunks, body, p, l, chunks + [chunk], p + l);
        chunks := chunks + [chunk];
        p := p + l;
      }
      assert body[..p] == body;
      Write(LastChunk);
      AppendAssoc(old(log), ChunkWrites(chunks), [BodyWrite(LastChunk)]);
    }

    /** `do_GET`: the headers and body for `path`; `chunks` records the cut
        the /test/22 loop made (none on other paths). The comparisons of
        `path` with the three served paths are `RouteOf`. */
    method DoGet() returns (ghost chunks: seq<seq<byte>>)
      modifies this
      ensures RouteOf(path) == ChunkedGzip ==> ValidChunking(chunks) && Flatten(chunks) == gzippedBody
      ensures RouteOf(path) != ChunkedGzip ==> chunks == []
      ensures log == old(log) + GetReply(RouteOf(path), gzippedBody, chunks)
    {
      chunks := [];
      var headers := DictSet([], "Connection", "Close");
      var route := RouteOf(path);
      match route
      case ChunkedText =>
        headers := DictSet(headers, "Transfer-Encoding", "chunked");
        SendRspHeaders(OK, headers);
        Write(Test20Body);
        AppendAssoc(old(log), RspHeaderEvents(headers), BodyEvents(route, gzippedBody, chunks));
      case GzipBody =>
        headers := DictSet(headers, "Content-Encoding", "gzip");
        SendRspHeaders(OK, headers);
        Write(gzippedBody);
        AppendAssoc(old(log), RspHeaderEvents(headers), BodyEvents(route, gzippedBody, chunks));
      case ChunkedGzip =>
        headers := DictSet(headers, "Transfer-Encoding", "chunked");
        headers := DictSet(headers, "Content-Encoding", "gzip");
        SendRspHeaders(OK, headers);
        chunks := SendChunkedBody(gzippedBody);
        AppendAssoc(old(log), RspHeaderEvents(headers), BodyEvents(route, gzippedBody, chunks));
      case Unknown =>
        SendResponse(NotFound);
        EndHeaders();
        AppendAssoc(old(log), [StatusLine(NotFound)], [EndOfHeaders]);
    }
  }
}
