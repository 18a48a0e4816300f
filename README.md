# HTTP fixture server: response generation

A model of the response side of `test-server.py`, a fixture server that
HTTP client tests run against. It has three endpoints:

- **Broken responses** (`BrokenRspHandler`, raw TCP). The handler reads the
  request head, takes the bytes between its first and second space as the
  path, and writes a deliberately malformed canned response in one piece.
- **Delayed responses** (`SleepRspHandler`, raw TCP). Same path extraction.
  The well-formed canned response is written in two halves with a one-second
  pause between them.
- **Different encodings** (`DifferentEncodingRspHandler.do_GET`, on the HTTP
  library). `/test/20` returns a hand-written chunked body. `/test/21`
  returns a gzip body in one piece. `/test/22` returns the same gzip body cut
  into chunks of random length 16..128. Any other path gets 404.

Modules:

- `Wire`: bytes, ASCII literals, and `bytes.find`.
- `Socket`: a connection as the bytes the peer sent plus an append-only log
  of what the handler did to it (`Send`, `Sleep`, `Close`).
- `RequestLine`: the path extraction of `SimpleTestHTTPHandler.handle`.
- `CannedHandlers`: both route tables, `handle_route`, `handle`, `finish`.
  `TestHandler` is a class over the connection.
- `ChunkedCoding`: the chunked transfer coding of section 4.1 of RFC 7230.
  It covers the size token as Python's `hex(l)[2:]` prints it, the framing,
  and `Dechunk`, an independent reading of a chunked body as a client
  performs it. The framing is proved to round-trip through `Dechunk` for
  every admissible cut.
- `GzipFixture`: the 644-byte `gzipped_body`, kept opaque.
- `EncodingHandler`: `do_GET` as the class `DifferentEncodingHandler`. It
  records its status line, header lines, end of headers and body writes in
  an event log. Projections of that log (`Statuses`, `HeadersOf`, `BodyOf`)
  state what a client sees.

The `/test/22` loop is an imperative method. Each iteration the random
length `l` is a nondeterministic choice in 16..128, clamped to what remains.
The method returns, as a ghost value, the chunks it actually cut. Its
postcondition says two things:

- The cut is valid: every chunk has 1..128 bytes, and every chunk but the
  last has at least 16.
- The cut rejoins to the body, and the log grew by exactly the framed writes.

The lemmas then show that any valid cut of the gzip body decodes back to it
(`Test22Decodes`).

The `/test/20` literal is written in `Test20Text` as the concatenation of
its four framed chunks and the last chunk. It is the same characters as
the handler's four adjacent literals, cut at chunk boundaries instead of
line ends. `Test20Framing` proves that each size token (7, d, 26, 2c) is the
length of the data after it.

## Model

| member | source | states |
|---|---|---|
| Wire.Find | test-server.py:49 | `find` returns the lowest index holding the byte, or -1 exactly when the byte is absent |
| Socket.Received | test-server.py:48 | one `recv(1024)` yields at most 1024 bytes, a prefix of what the peer sent, and all of it when fewer arrived |
| Socket.Connection.Recv | test-server.py:48 | the bytes read are `Received(inbound, bufsize)` |
| Socket.Connection.SendAll | test-server.py:42-44 | `sendall` appends one write, and the peer's received bytes grow by exactly the data |
| RequestLine.ExtractPath | test-server.py:46-58 | no path exactly when the head lacks a space followed later by another; otherwise the path is the bytes strictly between the first space and the next, and holds no space (possibly empty) |
| CannedHandlers.RouteReply | test-server.py:81-110 | a registered path puts exactly its canned bytes on the wire and an unregistered one the 404 bytes; one write for the broken table or a miss; for the delayed table a first half of `len/2` bytes, a one-second pause, then the rest; never a close |
| CannedHandlers.MalformedHeadIsNotFound | test-server.py:49-57 | a head without two spaces is answered with the 404 bytes alone, in one write, whatever the table |
| CannedHandlers.ReplyOnWire | test-server.py:46-59 | for a well-formed head, the bytes on the wire are the registered response of the bytes between its first two spaces, or the 404 bytes |
| CannedHandlers.ReplyKeepsOpen | test-server.py:46-62 | `handle` never closes the connection on any branch |
| CannedHandlers.DelayedRandomBody | test-server.py:89-98 | the /test/12 response ends with the 128-character random text, as its Content-Length of 128 announces |
| CannedHandlers.TestHandler.Broken | test-server.py:66-79 | the broken handler starts with the nine-entry table, its label and an empty path |
| CannedHandlers.TestHandler.Delayed | test-server.py:93-100 | the delayed handler starts with the three-entry table for the process's random text, its label and an empty path |
| CannedHandlers.TestHandler.Response404 | test-server.py:41-44 | appends one write of `HTTP/1.1 404 Not Found\r\nConnection: Close\r\n\r\n` |
| CannedHandlers.TestHandler.HandleRoute | test-server.py:81-110 | the connection log grows by exactly `RouteReply` for the handler's table |
| CannedHandlers.TestHandler.Handle | test-server.py:46-59 | the log grows by the reply to the received head, and `path` is the extracted path or empty |
| CannedHandlers.TestHandler.Finish | test-server.py:37-39 | appends one close |
| CannedHandlers.TestHandler.Serve | test-server.py:37-59 | on a fresh connection, `handle` then `finish` leave the reply followed by exactly one close |
| ChunkedCoding.HexDigits | test-server.py:169 | `hex(l)[2:]` is non-empty lower-case hex, with a leading zero only for 0 |
| ChunkedCoding.SizeTokenRoundTrip | test-server.py:169 | the size token written for `l` parses back to `l` |
| ChunkedCoding.DechunkLastChunk | test-server.py:174 | `0\r\n\r\n` reads as the end of an empty body |
| ChunkedCoding.DechunkFrame | test-server.py:169-172 | one frame (size, CRLF, data, CRLF) of non-empty data reads as that data followed by what comes after |
| ChunkedCoding.DechunkFrames | test-server.py:164-173 | framed non-empty chunks read as their data joined, followed by what comes after: chunk boundaries are invisible |
| ChunkedCoding.EncodingRoundTrip | test-server.py:164-174 | framed non-empty chunks plus the last chunk decode to exactly their joined data |
| ChunkedCoding.ChunkingIsTransparent | test-server.py:164-174 | every valid cut (1..128 bytes each, all but the last at least 16) decodes to the joined data |
| ChunkedCoding.ChunkCountBounds | test-server.py:165-168 | a valid cut into n chunks carries at most 128n bytes and more than 16(n-1) |
| GzipFixture.GzipLength | test-server.py:114-134 | `gzipped_body` is 644 bytes |
| EncodingHandler.DictSet | test-server.py:144-162 | `headers[k] = v` makes `k` map to `v`, leaves other keys alone, appends a new key last, and overwrites an existing key without growing the dict |
| EncodingHandler.ProjectRspHeaderEvents | test-server.py:136-141 | `send_rsp_headers` sends status 200 whatever `code` is, then exactly the dict's entries in order, and no body |
| EncodingHandler.RouteOf | test-server.py:147-176 | only the exact paths /test/20, /test/21 and /test/22 are served |
| EncodingHandler.HeaderValues | test-server.py:144-162 | `Connection: Close` on every route; `Transfer-Encoding: chunked` exactly on /test/20 and /test/22; `Content-Encoding: gzip` exactly on /test/21 and /test/22; for /test/22 the three entries in the order they were set |
| EncodingHandler.HeaderDispatch | test-server.py:136-178 | one status line per reply, 200 on a served path and 404 otherwise; a served path sends its header dict and the 404 reply sends no header |
| EncodingHandler.ServedBody | test-server.py:147-174 | the body a client reads is the /test/20 literal, the gzip body, or the framed chunks plus the last chunk |
| EncodingHandler.ProjectChunkWrites | test-server.py:164-173 | the loop's writes carry no status or header and put exactly the framed chunks on the wire |
| EncodingHandler.Test20Framing | test-server.py:150-153 | the /test/20 literal is exactly four frames of non-empty chunks (size tokens 7, d, 26, 2c) followed by the last chunk |
| EncodingHandler.Test20Decodes | test-server.py:150-153 | a client reading the /test/20 body gets the four chunks' data joined |
| EncodingHandler.Test21Body | test-server.py:155-158 | the /test/21 body is the gzip body, unframed |
| EncodingHandler.Test22Decodes | test-server.py:160-174 | whatever valid cut the loop makes, a client reading the /test/22 body gets exactly the gzip body |
| EncodingHandler.Test22ChunkCount | test-server.py:164-168 | the loop cuts the 644-byte gzip body into 6 to 41 chunks |
| EncodingHandler.DifferentEncodingHandler.constructor | test-server.py:114-134 | the handler starts with the parsed path, the fixture gzip body and an empty log |
| EncodingHandler.DifferentEncodingHandler.SendRspHeaders | test-server.py:136-141 | the log grows by status 200, one header line per dict entry in order, and the end of headers |
| EncodingHandler.DifferentEncodingHandler.WriteFrame | test-server.py:169-172 | the four writes of one iteration are the size token as `hex` prints it without "0x", CRLF, the data and CRLF |
| EncodingHandler.DifferentEncodingHandler.SendChunkedBody | test-server.py:164-174 | the loop terminates with a valid cut of the whole body (1..128 bytes each, all but the last at least 16) that rejoins to it, and the log grows by its frames then the last chunk |
| EncodingHandler.DifferentEncodingHandler.DoGet | test-server.py:143-178 | the log grows by the reply for the route `path` selects, and on /test/22 the cut is valid and rejoins to the gzip body |

## Left out

- `test.py`: client-side test scenarios (subprocesses, urllib, gzip decoding, DNS lookups); all I/O, not response generation.
- `TestTCPServer`, `TestHTTPServer`, `run_server` and the `__main__` block: socket binding and thread-per-connection serving. Each handler is modelled on one connection.
- `time.sleep(1)`: recorded as a `Sleep(1)` event between the two writes; no clock is modelled.
- `random.randint(16, 128)`: a nondeterministic choice in 16..128. `random.choice` for `random_string_128`: the text is a constructor parameter, described by `IsRandomString128`.
- The contents of `gzipped_body`: served as an opaque 644-byte string; gzip (RFC 1952) decompression is not modelled.
- `BaseHTTPRequestHandler` internals: its request parsing that yields `self.path`, the HTTP version in the status line, and the `Server` and `Date` headers `send_response` adds. The status line, header lines and end of headers are modelled as events.
- The log line `finish` prints: the peer's name is never modelled.
- Write failures and exceptions on the socket or `wfile`: every write is assumed to succeed.
- `recv(1024)`: modelled as returning up to 1024 of the bytes the peer sent; a short read of a head that arrives in pieces is not modelled.
- `SimpleTestHTTPHandler.handle_route`, the base `pass`: only the two overrides are modelled.
- `int(len(rsp) / 2)`: modelled as integer division, which agrees for every response length since all are far below 2^53.
- ChunkedCoding.Dechunk: accepts one or more hex digits of either case as the size, but no chunk extensions and no trailer fields. The fixture server writes neither.
