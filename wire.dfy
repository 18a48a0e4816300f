/** Byte strings as the fixture server handles them: Python `bytes` values,
    ASCII literals, and the `bytes.find` search the request-line parser uses. */
module Wire {

  datatype Option<T> = None | Some(value: T)

  /** One octet on the wire. */
  type byte = b: int | 0 <= b < 256

  const SP: byte := 32
  const CR: byte := 13
  const LF: byte := 10
  const CRLF: seq<byte> := [CR, LF]

  /** `bytes(s, 'ascii')`: the byte string of an ASCII text, one octet per character. */
  function Ascii(s: string): (r: seq<byte>)
    ensures |r| == |s|
    ensures forall i :: 0 <= i < |s| ==> r[i] == (s[i] as int) % 256
  {
    seq(|s|, i requires 0 <= i < |s| => (s[i] as int) % 256)
  }

  lemma AsciiAppend(s: string, t: string)
    ensures Ascii(s + t) == Ascii(s) + Ascii(t)
  {
  }

  /** `s.find(bytes([b]))`: the lowest index holding `b`, or -1 when there is none. */
  function Find(s: seq<byte>, b: byte): (r: int)
    ensures -1 <= r < |s|
    ensures r == -1 <==> b !in s
    ensures 0 <= r ==> s[r] == b && b !in s[..r]
  {
    if |s| == 0 then -1
    else if s[0] == b then 0
    else
      var k := Find(s[1..], b);
      if k < 0 then -1
      else
        assert s[..k + 1] == [s[0]] + s[1..][..k];
        k + 1
  }

  function Min(a: int, b: int): int
  {
    if a <= b then a else b
  }
}
