/** One IPC message on the wire (ipc.rs): a line of at most 64 KiB, however it is split into
    reads and writes. */
module IpcFraming {
  import opened Records

  type byte = x: int | 0 <= x < 256

  const LF: byte := 10
  const MAX_MESSAGE: nat := 65536
  const READ_BUDGET: nat := 4096
  const WRITE_BUDGET: nat := 16384
  const PROTOCOL_VERSION: nat := 1

  datatype Command = Subscription | Other(code: nat)

  datatype Message = Message(version: nat, command: Command)

  datatype Refusal = TooLong | BadVersion | BadJson

  datatype Action = OneShot(command: Command) | Subscribe | Reject(refusal: Refusal)

  /** How a line is read as JSON; the codec is not part of this model. */
  type Codec = seq<byte> -> Option<Message>

  /** `classify_request`. */
  function Classify(decode: Codec, line: seq<byte>): Action {
    if |line| > MAX_MESSAGE then Reject(TooLong)
    else match decode(line)
      case None => Reject(BadJson)
      case Some(m) =>
        if m.version != PROTOCOL_VERSION then Reject(BadVersion)
        else if m.command == Subscription then Subscribe
        else OneShot(m.command)
  }

  // ---------------------------------------------------------------- whole-message parsing

  /** The position of the first line feed, or the length of the text. */
  function FirstLf(s: seq<byte>): (n: nat)
    ensures n <= |s| && LF !in s[..n] && (n < |s| ==> s[n] == LF)
  {
    if s == [] then 0
    else if s[0] == LF then 0
    else
      var n := FirstLf(s[1..]);
      assert s[..n + 1] == [s[0]] + s[1..][..n];
      n + 1
  }

  /** What a stream asks for, taken as a whole: the line up to the first line feed within the
      size limit; a refusal when those bytes hold none; otherwise not decided yet. */
  function Parse(decode: Codec, stream: seq<byte>): Option<Action> {
    var n := FirstLf(stream);
    if n < |stream| && n < MAX_MESSAGE then Some(Classify(decode, stream[..n + 1]))
    else if |stream| >= MAX_MESSAGE then Some(Reject(TooLong))
    else None
  }

  // ---------------------------------------------------------------- reading piece by piece

  /** One read of `handle_pending_readable`: the new buffer and the action it completes. */
  function Receive(decode: Codec, buffer: seq<byte>, chunk: seq<byte>): (r: (seq<byte>, Option<Action>)) {
    var filled := buffer + chunk;
    var n := FirstLf(filled);
    (filled,
     if n < |filled| then Some(Classify(decode, filled[..n + 1]))
     else if |filled| == MAX_MESSAGE then Some(Reject(TooLong))
     else None)
  }

  /** A chunk the read can return: at least one byte, at most the budget and the room left. */
  predicate Readable(buffer: seq<byte>, chunk: seq<byte>) {
    0 < |chunk| <= READ_BUDGET && |buffer| + |chunk| <= MAX_MESSAGE
  }

  /** The reads of one connection until an action ends them. */
  function ReadAll(decode: Codec, buffer: seq<byte>, chunks: seq<seq<byte>>): Option<Action>
    decreases |chunks|
  {
    if chunks == [] then None
    else
      var (filled, action) := Receive(decode, buffer, chunks[0]);
      if action.Some? then action else ReadAll(decode, filled, chunks[1..])
  }

  predicate AllReadable(decode: Codec, buffer: seq<byte>, chunks: seq<seq<byte>>)
    decreases |chunks|
  {
    chunks == [] ||
    (Readable(buffer, chunks[0]) &&
     (Receive(decode, buffer, chunks[0]).1.Some? || AllReadable(decode, buffer + chunks[0], chunks[1..])))
  }

  function Joined(chunks: seq<seq<byte>>): seq<byte>
    decreases |chunks|
  {
    if chunks == [] then [] else chunks[0] + Joined(chunks[1..])
  }

  lemma {:induction false} FirstLfAt(s: seq<byte>, k: nat)
    requires k < |s| && s[k] == LF && LF !in s[..k]
    ensures FirstLf(s) == k
    decreases k
  {
    if k == 0 {
    } else {
      assert s[0] == s[..k][0];
      assert s[1..][..k - 1] == s[..k][1..];
      FirstLfAt(s[1..], k - 1);
    }
  }

  lemma {:induction false} FirstLfAfter(s: seq<byte>, more: seq<byte>)
    requires LF !in s
    ensures FirstLf(s + more) == |s| + FirstLf(more)
  {
    if s == [] {
      assert s + more == more;
    } else {
      assert (s + more)[1..] == s[1..] + more;
      FirstLfAfter(s[1..], more);
    }
  }

  /** Once decided, more bytes change nothing. */
  lemma ParseStable(decode: Codec, s: seq<byte>, more: seq<byte>)
    requires Parse(decode, s).Some?
    ensures Parse(decode, s + more) == Parse(decode, s)
  {
    var n := FirstLf(s);
    if n < |s| {
      assert (s + more)[..n] == s[..n] && (s + more)[..n + 1] == s[..n + 1];
      FirstLfAt(s + more, n);
    } else {
      assert s[..n] == s;
      FirstLfAfter(s, more);
    }
  }

  lemma ReceiveIsParse(decode: Codec, buffer: seq<byte>, chunk: seq<byte>)
    requires |buffer| + |chunk| <= MAX_MESSAGE
    ensures Receive(decode, buffer, chunk).1 == Parse(decode, buffer + chunk)
  {
  }

  /** The non-blocking reader refines whole-message parsing: for every stream and every split of
      it into reads, the action dispatched is the one the joined bytes ask for. */
  lemma {:induction false} FramingRefinesParsing(decode: Codec, buffer: seq<byte>, chunks: seq<seq<byte>>)
    requires AllReadable(decode, buffer, chunks) && Parse(decode, buffer).None?
    ensures ReadAll(decode, buffer, chunks) == Parse(decode, buffer + Joined(chunks))
    decreases |chunks|
  {
    if chunks == [] {
      assert buffer + Joined(chunks) == buffer;
    } else {
      var filled := buffer + chunks[0];
      ReceiveIsParse(decode, buffer, chunks[0]);
      assert buffer + Joined(chunks) == filled + Joined(chunks[1..]);
      if Parse(decode, filled).Some? {
        ParseStable(decode, filled, Joined(chunks[1..]));
      } else {
        FramingRefinesParsing(decode, filled, chunks[1..]);
      }
    }
  }

  /** So the split does not matter. */
  lemma SplitIndependent(decode: Codec, chunks: seq<seq<byte>>, others: seq<seq<byte>>)
    requires AllReadable(decode, [], chunks) && AllReadable(decode, [], others) && Joined(chunks) == Joined(others)
    ensures ReadAll(decode, [], chunks) == ReadAll(decode, [], others)
  {
    FramingRefinesParsing(decode, [], chunks);
    FramingRefinesParsing(decode, [], others);
  }

  /** The reader never needs more than the limit to decide. */
  lemma DecidedAtLimit(decode: Codec, stream: seq<byte>)
    ensures Parse(decode, stream).Some? <==> |stream| >= MAX_MESSAGE || LF in stream
  {
    var n := FirstLf(stream);
    assert stream[..|stream|] == stream;
  }

  // ---------------------------------------------------------------- responses

  /** `encode_response`: the body and its line feed must fit one message. */
  function Encode(body: seq<byte>): Option<seq<byte>> {
    if |body| + 1 > MAX_MESSAGE then None else Some(body + [LF])
  }

  /** A response whose body holds no line feed is one line to a reader of the same framing:
      whatever the split, it arrives whole or not at all. */
  lemma EncodedIsOneLine(decode: Codec, body: seq<byte>)
    requires LF !in body && Encode(body).Some?
    ensures Parse(decode, Encode(body).value) == Some(Classify(decode, Encode(body).value))
  {
    var line := body + [LF];
    assert line[..|body|] == body;
    FirstLfAt(line, |body|);
    assert line[..|body| + 1] == line;
  }
}
