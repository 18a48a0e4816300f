/** The chunked transfer coding of section 4.1 of RFC 7230 as the encoding
    endpoint writes it: each chunk is its length in lower-case hexadecimal,
    CRLF, the chunk data, CRLF; the body ends with the last chunk `0` CRLF CRLF.
    `Dechunk` is the reading a client applies to such a body. */
module ChunkedCoding {
  import opened Wire

  /** The range `random.randint` draws chunk lengths from. */
  const MinChunk: nat := 16
  const MaxChunk: nat := 128

  /** `0\r\n\r\n`: the last chunk with an empty trailer. */
  const LastChunk: seq<byte> := Ascii("0\r\n\r\n")

  function HexChar(d: nat): (c: char)
    requires d < 16
  {
    if d < 10 then ('0' as int + d) as char else ('a' as int + d - 10) as char
  }

  predicate IsLowerHexChar(c: char)
  {
    '0' <= c <= '9' || 'a' <= c <= 'f'
  }

  /** `hex(n)[2:]`: the digits of n in base 16. */
  function HexDigits(n: nat): (s: string)
    ensures |s| >= 1
    ensures forall i :: 0 <= i < |s| ==> IsLowerHexChar(s[i])
    ensures s[0] == '0' <==> n == 0
    decreases n
  {
    if n < 16 then [HexChar(n)] else HexDigits(n / 16) + [HexChar(n % 16)]
  }

  /** Python's `hex(n)` for a non-negative n. */
  function PyHex(n: nat): string
  {
    "0x" + HexDigits(n)
  }

  /** The chunk-size bytes written for a chunk of n bytes. */
  function SizeToken(n: nat): seq<byte>
  {
    Ascii(HexDigits(n))
  }

  /** The value of a HEXDIG byte (either case, as in RFC 5234), or None. */
  function DigitValue(b: byte): (r: Option<nat>)
    ensures r.Some? ==> r.value < 16
  {
    if 48 <= b <= 57 then Some(b - 48)
    else if 97 <= b <= 102 then Some(b - 87)
    else if 65 <= b <= 70 then Some(b - 55)
    else None
  }

  predicate IsHexToken(t: seq<byte>)
  {
    forall i :: 0 <= i < |t| ==> DigitValue(t[i]).Some?
  }

  /** The number a string of hex digits denotes, most significant digit first. */
  function HexValue(t: seq<byte>): nat
    requires IsHexToken(t)
  {
    if t == [] then 0 else 16 * HexValue(t[..|t| - 1]) + DigitValue(t[|t| - 1]).value
  }

  /** The size token written for n reads back as n. */
  lemma {:induction false} SizeTokenRoundTrip(n: nat)
    ensures IsHexToken(SizeToken(n)) && HexValue(SizeToken(n)) == n
    decreases n
  {
    var t := SizeToken(n);
    if n < 16 {
      HexCharValue(n);
      assert t == [HexChar(n) as int % 256];
      assert t[..0] == [];
    } else {
      SizeTokenRoundTrip(n / 16);
      var init := SizeToken(n / 16);
      HexCharValue(n % 16);
      AsciiAppend(HexDigits(n / 16), [HexChar(n % 16)]);
      assert t == init + [HexChar(n % 16) as int % 256];
      assert t[..|t| - 1] == init;
      assert IsHexToken(t) by {
        forall i | 0 <= i < |t|
          ensures DigitValue(t[i]).Some?
        {
          if i < |init| {
            assert t[i] == init[i];
          }
        }
      }
    }
  }

  lemma HexCharValue(d: nat)
    requires d < 16
    ensures DigitValue(HexChar(d) as int % 256) == Some(d)
  {
  }

  /** The number of hex-digit bytes at the front of s. */
  function HexPrefixLength(s: seq<byte>): (k: nat)
    ensures k <= |s| && IsHexToken(s[..k])
    ensures k < |s| ==> DigitValue(s[k]).None?
  {
    if s == [] || DigitValue(s[0]).None? then 0
    else
      var k := HexPrefixLength(s[1..]);
      assert s[..k + 1] == [s[0]] + s[1..][..k];
      k + 1
  }

  lemma {:induction false} HexPrefixOf(t: seq<byte>, u: seq<byte>)
    requires IsHexToken(t)
    requires u != [] && DigitValue(u[0]).None?
    ensures HexPrefixLength(t + u) == |t|
    decreases |t|
  {
    var s := t + u;
    if t != [] {
      assert s[0] == t[0] && DigitValue(s[0]).Some?;
      assert s[1..] == t[1..] + u;
      assert IsHexToken(t[1..]) by {
        forall i | 0 <= i < |t| - 1
          ensures DigitValue(t[1..][i]).Some?
        {
          assert t[1..][i] == t[i + 1];
        }
      }
      HexPrefixOf(t[1..], u);
      assert HexPrefixLength(s) == HexPrefixLength(s[1..]) + 1;
    } else {
      assert s == u;
    }
  }

  function Prepend(prefix: seq<byte>, o: Option<seq<byte>>): Option<seq<byte>>
  {
    match o
    case None => None
    case Some(rest) => Some(prefix + rest)
  }

  /** Reads a chunked body: the chunk data concatenated, or None unless s is
      exactly a run of chunks ended by the last chunk. Chunk extensions and
      trailer fields are not accepted. */
  function Dechunk(s: seq<byte>): (r: Option<seq<byte>>)
    ensures r.Some? ==> |r.value| + |LastChunk| <= |s|
    decreases |s|
  {
    var k := HexPrefixLength(s);
    if k == 0 || |s| < k + 2 || s[k..k + 2] != CRLF then None
    else
      var size := HexValue(s[..k]);
      var rest := s[k + 2..];
      if size == 0 then
        if rest == CRLF then Some([]) else None
      else if |rest| < size + 2 || rest[size..size + 2] != CRLF then None
      else
        match Dechunk(rest[size + 2..])
        case None => None
        case Some(tail) => Some(rest[..size] + tail)
  }

  /** One chunk as written: size, CRLF, data, CRLF. */
  function Frame(chunk: seq<byte>): seq<byte>
  {
    SizeToken(|chunk|) + CRLF + chunk + CRLF
  }

  /** The chunks framed one after the other. */
  function Frames(chunks: seq<seq<byte>>): seq<byte>
  {
    if chunks == [] then []
    else Frames(chunks[..|chunks| - 1]) + Frame(chunks[|chunks| - 1])
  }

  /** The chunks' data joined back together. */
  function Flatten(chunks: seq<seq<byte>>): seq<byte>
  {
    if chunks == [] then []
    else Flatten(chunks[..|chunks| - 1]) + chunks[|chunks| - 1]
  }

  /** The last chunk reads as the end of an empty body. */
  lemma DechunkLastChunk()
    ensures Dechunk(LastChunk) == Some([])
  {
    var s: seq<byte> := [48, 13, 10, 13, 10];
    assert LastChunk == s;
    assert s[1..] == [13, 10, 13, 10];
    assert HexPrefixLength(s) == 1;
    assert s[..1] == [48] && HexValue([48]) == 0;
    assert s[1..3] == CRLF && s[3..] == CRLF;
  }

  /** A framed non-empty chunk reads back as its data, followed by whatever the rest reads as. */
  lemma DechunkFrame(chunk: seq<byte>, tail: seq<byte>)
    requires |chunk| > 0
    ensures Dechunk(Frame(chunk) + tail) == Prepend(chunk, Dechunk(tail))
  {
    var t := SizeToken(|chunk|);
    SizeTokenRoundTrip(|chunk|);
    var rest := chunk + CRLF + tail;
    assert Frame(chunk) + tail == t + CRLF + rest;
    SplitAtToken(t, rest);
    SplitAtData(chunk, tail);
  }

  lemma SplitAtToken(t: seq<byte>, rest: seq<byte>)
    requires IsHexToken(t) && t != []
    ensures var s := t + CRLF + rest;
      HexPrefixLength(s) == |t| && s[..|t|] == t && s[|t|..|t| + 2] == CRLF && s[|t| + 2..] == rest
  {
    assert t + CRLF + rest == t + (CRLF + rest);
    HexPrefixOf(t, CRLF + rest);
  }

  lemma SplitAtData(chunk: seq<byte>, tail: seq<byte>)
    ensures var rest := chunk + CRLF + tail;
      rest[..|chunk|] == chunk && rest[|chunk|..|chunk| + 2] == CRLF && rest[|chunk| + 2..] == tail
  {
  }

  /** Framed non-empty chunks read back as their data joined, followed by
      whatever the rest reads as: chunk boundaries are invisible to the reader. */
  lemma {:induction false} DechunkFrames(chunks: seq<seq<byte>>, tail: seq<byte>)
    requires forall i :: 0 <= i < |chunks| ==> |chunks[i]| > 0
    ensures Dechunk(Frames(chunks) + tail) == Prepend(Flatten(chunks), Dechunk(tail))
    decreases |chunks|
  {
    if chunks == [] {
      assert Frames(chunks) + tail == tail;
      match Dechunk(tail)
      case None =>
      case Some(r) => assert [] + r == r;
    } else {
      var init := chunks[..|chunks| - 1];
      var last := chunks[|chunks| - 1];
      assert Frames(chunks) + tail == Frames(init) + (Frame(last) + tail);
      DechunkFrames(init, Frame(last) + tail);
      DechunkFrame(last, tail);
      match Dechunk(tail)
      case None =>
      case Some(r) => assert Flatten(init) + (last + r) == Flatten(chunks) + r;
    }
  }

  /** A chunked body of non-empty chunks reads back as exactly their data. */
  lemma EncodingRoundTrip(chunks: seq<seq<byte>>)
    requires forall i :: 0 <= i < |chunks| ==> |chunks[i]| > 0
    ensures Dechunk(Frames(chunks) + LastChunk) == Some(Flatten(chunks))
  {
    DechunkFrames(chunks, LastChunk);
    DechunkLastChunk();
    assert Flatten(chunks) + [] == Flatten(chunks);
  }

  /** The chunks the encoding endpoint may cut a body into: each of 1 to
      MaxChunk bytes, and every one but the last at least MinChunk. */
  predicate ValidChunking(chunks: seq<seq<byte>>)
  {
    (forall i :: 0 <= i < |chunks| ==> 1 <= |chunks[i]| <= MaxChunk) &&
    (forall i :: 0 <= i < |chunks| - 1 ==> MinChunk <= |chunks[i]|)
  }

  /** How many chunks a valid cutting takes: together they hold at most
      MaxChunk bytes each, and all but the last hold at least MinChunk. */
  lemma {:induction false} ChunkCountBounds(chunks: seq<seq<byte>>)
    requires ValidChunking(chunks)
    ensures |Flatten(chunks)| <= |chunks| * MaxChunk
    ensures chunks != [] ==> (|chunks| - 1) * MinChunk < |Flatten(chunks)|
    decreases |chunks|
  {
    if chunks != [] {
      var init := chunks[..|chunks| - 1];
      assert ValidChunking(init) by {
        forall i | 0 <= i < |init|
          ensures 1 <= |init[i]| <= MaxChunk
          ensures i < |init| - 1 ==> MinChunk <= |init[i]|
        {
          assert init[i] == chunks[i];
        }
      }
      ChunkCountBounds(init);
      if init != [] {
        assert MinChunk <= |chunks[|init| - 1]|;
        assert |Flatten(init)| >= MinChunk * |init| by {
          ChunkCountAllFull(init);
        }
      }
    }
  }

  /** When every chunk is at least MinChunk long, so is each chunk's share of the body. */
  lemma {:induction false} ChunkCountAllFull(chunks: seq<seq<byte>>)
    requires forall i :: 0 <= i < |chunks| ==> MinChunk <= |chunks[i]|
    ensures |Flatten(chunks)| >= MinChunk * |chunks|
    decreases |chunks|
  {
    if chunks != [] {
      var init := chunks[..|chunks| - 1];
      assert forall i :: 0 <= i < |init| ==> init[i] == chunks[i];
      ChunkCountAllFull(init);
    }
  }

  /** Whatever valid chunking the encoding endpoint picks, the chunked body reads back as the data. */
  lemma ChunkingIsTransparent(chunks: seq<seq<byte>>)
    requires ValidChunking(chunks)
    ensures Dechunk(Frames(chunks) + LastChunk) == Some(Flatten(chunks))
  {
    EncodingRoundTrip(chunks);
  }
}
