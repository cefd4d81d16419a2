/** Downloading a resource to a temporary file in byte ranges, with retries, a deadline and a size limit. */
module RangedDownload {
  import opened Numbers
  import opened Options

  type Byte = x: int | 0 <= x < 256

  const RETRY_COUNT := 3

  datatype Error = TimedOut | TooLarge | RequestFailed | StreamFailed

  /**
   * How the server answers one request: not at all, or with the bytes of the range that exist, the total
   * size announced or not, as a buffer or as a stream in pieces of some sizes that may break off.
   */
  datatype Reply =
    | NoReply
    | Reply(announced: bool, buffered: bool, sizes: nat -> nat, breaksAfter: Option<nat>)

  /**
   * The outside world: the replies, request by request, and whether the deadline has passed at each look at
   * the clock.
   */
  datatype World = World(replies: nat -> Reply, late: nat -> bool)

  /** Three requests in a row from the `n`-th on get no reply. */
  predicate ThreeFail(w: World, n: nat) {
    w.replies(n).NoReply? && w.replies(n + 1).NoReply? && w.replies(n + 2).NoReply?
  }

  /** No three requests in a row fail, no stream breaks off, and the deadline does not pass. */
  ghost predicate Calm(w: World) {
    && (forall n: nat :: !ThreeFail(w, n))
    && (forall n :: w.replies(n).Reply? ==> w.replies(n).breaksAfter.None?)
    && (forall n :: !w.late(n))
  }

  class TempFile {
    var bytes: seq<Byte>

    constructor ()
      ensures bytes == []
    {
      bytes := [];
    }

    method Append(more: seq<Byte>)
      modifies this
      ensures bytes == old(bytes) + more
    {
      bytes := bytes + more;
    }
  }

  /** The bytes of a range, both ends included, as far as they exist. */
  function Range(resource: seq<Byte>, from: nat, end: nat): (r: seq<Byte>)
    ensures |r| == if from < |resource| && from <= end then Min(end + 1, |resource|) - from else 0
  {
    if from < |resource| && from <= end then resource[from..Min(end + 1, |resource|)] else []
  }

  /** What a failure leaves in the file: what was there and some first part of the body. */
  ghost predicate PartOf(before: seq<Byte>, body: seq<Byte>, now: seq<Byte>) {
    exists n: nat :: n <= |body| && now == before + body[..n]
  }

  /** Write a streamed body to the file, piece by piece; a broken stream leaves the pieces before the break. */
  method PipeStream(file: TempFile, body: seq<Byte>, limit: nat, reply: Reply) returns (r: Result<nat, Error>)
    requires reply.Reply?
    modifies file
    ensures r.Success? ==> r.value == |body| && |body| <= limit && file.bytes == old(file.bytes) + body
    ensures r.Failure? ==> PartOf(old(file.bytes), body, file.bytes) && |file.bytes| <= |old(file.bytes)| + limit
    ensures r.Failure? ==>
      (r.error == TooLarge && |body| > limit) || (r.error == StreamFailed && reply.breaksAfter.Some?)
  {
    var written: nat, piece: nat := 0, 0;
    while written < |body|
      invariant written <= |body| && written <= limit && file.bytes == old(file.bytes) + body[..written]
    {
      if reply.breaksAfter == Some(piece) {
        return Failure(StreamFailed);
      }
      var size := reply.sizes(piece);
      var next := Min(written + if size == 0 then 1 else size, |body|);
      if next > limit {
        return Failure(TooLarge);
      }
      assert body[..next] == body[..written] + body[written..next];
      file.Append(body[written..next]);
      written, piece := next, piece + 1;
    }
    assert body[..|body|] == body;
    if reply.breaksAfter == Some(piece) {
      return Failure(StreamFailed);
    }
    return Success(written);
  }

  /** Write one answered range to the file, which may hold `room` more bytes. */
  method WriteChunk(file: TempFile, body: seq<Byte>, room: nat, reply: Reply) returns (r: Result<nat, Error>)
    requires reply.Reply?
    modifies file
    ensures r.Success? ==> r.value == |body| && |body| <= room && file.bytes == old(file.bytes) + body
    ensures r.Failure? ==> PartOf(old(file.bytes), body, file.bytes) && |file.bytes| <= |old(file.bytes)| + room
    ensures r.Failure? ==>
      (r.error == TooLarge && |body| > room) || (r.error == StreamFailed && reply.breaksAfter.Some?)
  {
    if !reply.buffered {
      r := PipeStream(file, body, room, reply);
      return;
    }
    if |body| > room {
      assert file.bytes == old(file.bytes) + body[..0];
      return Failure(TooLarge);
    }
    file.Append(body);
    return Success(|body|);
  }

  /** Ask for one range, up to three times; `n` and `t` count the requests made and the looks at the clock. */
  method Request(w: World, n0: nat, t0: nat) returns (r: Result<Reply, Error>, n: nat, t: nat)
    ensures n0 <= n <= n0 + 3 && t0 <= t
    ensures r.Success? ==> r.value.Reply? && n > n0 && r.value == w.replies(n - 1)
    ensures forall k :: n0 <= k < (if r.Success? then n - 1 else n) ==> w.replies(k).NoReply?
    ensures r.Failure? ==> r.error == TimedOut || r.error == RequestFailed
    ensures r == Failure(TimedOut) ==> t > t0 && w.late(t - 1)
    ensures r == Failure(RequestFailed) ==> (n == n0 + 3 && ThreeFail(w, n0)) || (n > n0 && t > t0 && w.late(t - 1))
  {
    n, t := n0, t0;
    for attempt := 1 to RETRY_COUNT + 1
      invariant n == n0 + attempt - 1 && t0 <= t
      invariant forall k :: n0 <= k < n ==> w.replies(k).NoReply?
    {
      t := t + 1;
      if w.late(t - 1) {
        return Failure(TimedOut), n, t;
      }
      n := n + 1;
      if w.replies(n - 1).Reply? {
        return Success(w.replies(n - 1)), n, t;
      }
      t := t + 1;
      if attempt >= RETRY_COUNT || w.late(t - 1) {
        return Failure(RequestFailed), n, t;
      }
    }
    return Failure(RequestFailed), n, t;
  }

  /** The file so far is the first `offset` bytes of the resource. */
  lemma NextRange(resource: seq<Byte>, offset: nat, end: nat)
    requires offset <= |resource| && offset <= end
    ensures resource[..offset] + Range(resource, offset, end) == resource[..offset + |Range(resource, offset, end)|]
    ensures forall now :: PartOf(resource[..offset], Range(resource, offset, end), now) ==> now <= resource
  {
    var body := Range(resource, offset, end);
    forall now | PartOf(resource[..offset], body, now) ensures now <= resource {
      var n: nat :| n <= |body| && now == resource[..offset] + body[..n];
      assert now == resource[..offset + n];
    }
  }

  /**
   * The file is a prefix of the resource at all times. A normal return leaves the whole resource, which
   * is then within the limit, whether its size was ever announced or not; the size limit is the reason
   * for a failure only when the resource is larger. When no three requests in a row fail, no stream breaks and
   * there is time, the download succeeds exactly for the resources within the limit. It never writes more than
   * the limit, and nothing of a resource whose announced size is above it.
   */
  method Download(file: TempFile, resource: seq<Byte>, chunkSize: nat, maxBytes: nat, w: World)
    returns (r: Result<(), Error>)
    requires chunkSize > 0 && file.bytes == []
    modifies file
    ensures file.bytes <= resource && |file.bytes| <= maxBytes
    ensures r.Success? ==> file.bytes == resource && |resource| <= maxBytes
    ensures r == Failure(TooLarge) ==> |resource| > maxBytes
    ensures r == Failure(TimedOut) ==> exists k :: w.late(k)
    ensures r == Failure(RequestFailed) ==> (exists k: nat :: ThreeFail(w, k)) || (exists k :: w.late(k))
    ensures r == Failure(StreamFailed) ==> exists k :: w.replies(k).Reply? && w.replies(k).breaksAfter.Some?
    ensures Calm(w) ==> r == if |resource| <= maxBytes then Success(()) else Failure(TooLarge)
    ensures (forall k :: w.replies(k).Reply? ==> w.replies(k).announced) && |resource| > maxBytes ==> file.bytes == []
  {
    hide Range, PartOf;
    var offset: nat, accumulated: nat, n: nat, t: nat := 0, 0, 0, 0;
    var total: Option<nat> := None;
    while true
      invariant offset == accumulated <= |resource| && accumulated <= maxBytes && file.bytes == resource[..offset]
      invariant total.Some? ==> total.value == |resource| <= maxBytes
      invariant (forall k :: w.replies(k).Reply? ==> w.replies(k).announced) && total.None? ==> offset == 0
      decreases |resource| - offset
    {
      t := t + 1;
      if w.late(t - 1) {
        return Failure(TimedOut);
      }
      var end: int := offset + chunkSize - 1;
      if total.Some? && end >= total.value {
        end := total.value - 1;
      }
      if total.Some? && offset >= total.value {
        break;
      }
      ghost var n0 := n;
      var answer;
      answer, n, t := Request(w, n, t);
      if answer.Failure? {
        assert answer.error == TimedOut ==> w.late(t - 1);
        assert answer.error == RequestFailed ==> ThreeFail(w, n0) || w.late(t - 1);
        return Failure(answer.error);
      }
      var reply := answer.value;
      if reply.announced {
        total := Some(|resource|);
        if |resource| > maxBytes {
          return Failure(TooLarge);
        }
      }
      NextRange(resource, offset, end);
      var body := Range(resource, offset, end);
      var written := WriteChunk(file, body, maxBytes - accumulated, reply);
      if written.Failure? {
        assert reply == w.replies(n - 1);
        return Failure(written.error);
      }
      accumulated := accumulated + written.value;
      offset := offset + written.value;
      if accumulated > maxBytes {
        return Failure(TooLarge);
      }
      if written.value == 0 {
        break;
      }
      if total.Some? && offset >= total.value {
        break;
      }
      if written.value < end - (offset - written.value) + 1 {
        break;
      }
    }
    assert resource[..|resource|] == resource;
    return Success(());
  }
}
