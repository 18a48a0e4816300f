/** The loose request-line reading of `SimpleTestHTTPHandler.handle`: the
    request-target is whatever lies between the first space of the received
    head and the next space after it (a lax form of the request-line grammar
    of section 3.1.1 of RFC 7230; the method and the version are never looked at). */
module RequestLine {
  import opened Wire

  /** Bytes read from a new connection before the path is looked for. */
  const RecvWindow: nat := 1024

  /** The request-target of `head`, or None when `head` has no space or no
      second space after its first one (the handler then answers 404). */
  function ExtractPath(head: seq<byte>): (r: Option<seq<byte>>)
    ensures r.None? <==> !exists i, j :: 0 <= i < j < |head| && head[i] == SP && head[j] == SP
    ensures r.Some? ==> exists i, j :: 0 <= i < j < |head| && IsTargetBetween(head, i, j) && r.value == head[i + 1..j]
    ensures r.Some? ==> SP !in r.value
  {
    var first := Find(head, SP);
    if first < 0 then None
    else
      var rest := head[first + 1..];
      var second := Find(rest, SP);
      if second < 0 then
        NoSecondSpace(head, first);
        None
      else
        assert IsTargetBetween(head, first, first + 1 + second) by {
          assert head[first + 1..first + 1 + second] == rest[..second];
        }
        Some(rest[..second])
  }

  /** `i` is the first space of `head` and `j` the next space after it. */
  ghost predicate IsTargetBetween(head: seq<byte>, i: int, j: int)
  {
    0 <= i < j < |head| && head[i] == SP && head[j] == SP &&
    SP !in head[..i] && SP !in head[i + 1..j]
  }

  lemma NoSecondSpace(head: seq<byte>, first: int)
    requires 0 <= first < |head| && head[first] == SP && SP !in head[..first]
    requires SP !in head[first + 1..]
    ensures !exists i, j :: 0 <= i < j < |head| && head[i] == SP && head[j] == SP
  {
    forall i, j | 0 <= i < j < |head| && head[i] == SP
      ensures head[j] != SP
    {
      assert head[first + 1..][j - first - 1] == head[j];
    }
  }
}
