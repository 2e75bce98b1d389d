/** The chunked file transfer: the sender's loop over a file, and the receiver of F, D and E frames. */
module FileTransfer {
  import opened Wrappers
  import opened Text
  import opened Bytes
  import opened Base64

  const MAX_FILE_SIZE := 2 * 1024 * 1024 * 1024

  datatype Frame = Header(body: string, msgId: nat) | Chunk(body: string) | End

  datatype Ack = Ack(name: string, msgId: nat)

  datatype Incoming = Incoming(name: string, size: int, content: seq<byte>, msgId: nat)

  datatype Done = Done(name: string, size: int, content: seq<byte>)

  /** One transfer at most is under way; `done` lists what was completed, `acks` what was acknowledged. */
  datatype Receiver = Receiver(incoming: Option<Incoming>, done: seq<Done>, acks: seq<Ack>)

  const IDLE := Receiver(None, [], [])

  /** The user's answer to an offer, and the free name it is saved under. */
  datatype Offer = Offer(accepted: bool, name: string)

  function Bar(body: string): (i: nat)
    ensures i <= |body| && '|' !in body[..i] && (i < |body| ==> body[i] == '|')
  {
    if body == "" || body[0] == '|' then 0
    else
      var i := 1 + Bar(body[1..]);
      assert body[..i] == [body[0]] + body[1..][..i - 1];
      i
  }

  /** The two fields of a header; None when there are not exactly two. */
  function Fields(body: string): Option<(string, string)> {
    var i := Bar(body);
    if i == |body| || '|' in body[i + 1..] then None else Some((body[..i], body[i + 1..]))
  }

  /** An optional sign and decimal digits. */
  function ParseSize(s: string): Option<int> {
    var signed := s != "" && (s[0] == '-' || s[0] == '+');
    var digits := if signed then s[1..] else s;
    if digits == "" || !AllDigits(digits) then None
    else Some(if signed && s[0] == '-' then -DecimalValue(digits) else DecimalValue(digits))
  }

  function OnHeader(r: Receiver, body: string, msgId: nat, offer: Offer): Receiver {
    var fields := Fields(body);
    if fields.None? then r
    else
      var size := ParseSize(fields.value.1);
      if size.None? then r
      else if size.value > MAX_FILE_SIZE || !offer.accepted then r.(incoming := None)
      else r.(incoming := Some(Incoming(offer.name, size.value, [], msgId)))
  }

  /** The text encoding of chunks. */
  datatype Coding = Coding(encode: seq<byte> -> string, decode: string -> Option<seq<byte>>)

  const BASE64 := Coding(Encode, Decode)

  /** Every chunk reads back, and its text is exactly as long as the bound allows. */
  ghost predicate Faithful(k: Coding) {
    forall c :: k.decode(k.encode(c)) == Some(c) && |k.encode(c)| == MaxChars(|c|)
  }

  lemma Base64IsFaithful()
    ensures Faithful(BASE64)
  {
    forall c ensures BASE64.decode(BASE64.encode(c)) == Some(c) && |BASE64.encode(c)| == MaxChars(|c|) {
      RoundTrip(c);
    }
  }

  function OnChunk(k: Coding, r: Receiver, body: string): Receiver {
    if r.incoming.None? then r
    else
      var i := r.incoming.value;
      var remaining := i.size - |i.content|;
      var chunk := k.decode(body);
      if remaining <= 0 || |body| > MaxChars(remaining) || chunk.None? || |chunk.value| > remaining then
        r.(incoming := None)
      else r.(incoming := Some(i.(content := i.content + chunk.value)))
  }

  function OnEnd(r: Receiver): Receiver {
    if r.incoming.None? then r
    else
      var i := r.incoming.value;
      if |i.content| != i.size then r.(incoming := None)
      else Receiver(None, r.done + [Done(i.name, i.size, i.content)], r.acks + [Ack(i.name, i.msgId)])
  }

  function Receive(k: Coding, r: Receiver, f: Frame, offer: Offer): Receiver {
    match f
    case Header(body, msgId) => OnHeader(r, body, msgId, offer)
    case Chunk(body) => OnChunk(k, r, body)
    case End => OnEnd(r)
  }

  /** The user's answers, one for each frame that turns out to be an offer. */
  type Answers = nat -> Offer

  /** The frames from the `at`-th on. */
  function ReceiveAll(k: Coding, r: Receiver, frames: seq<Frame>, answers: Answers, at: nat): Receiver
    decreases |frames|
  {
    if frames == [] then r else ReceiveAll(k, Receive(k, r, frames[0], answers(at)), frames[1..], answers, at + 1)
  }

  /** The chunks read from a file, up to the first empty read. */
  function ChunkFrames(k: Coding, content: seq<byte>, chunkSize: nat): seq<Frame>
    requires chunkSize > 0
    decreases |content|
  {
    if content == [] then []
    else if |content| <= chunkSize then [Chunk(k.encode(content))]
    else [Chunk(k.encode(content[..chunkSize]))] + ChunkFrames(k, content[chunkSize..], chunkSize)
  }

  function SendFile(k: Coding, name: string, content: seq<byte>, chunkSize: nat, msgId: nat): seq<Frame>
    requires chunkSize > 0
  {
    [Header(name + "|" + Decimal(|content|), msgId)] + ChunkFrames(k, content, chunkSize) + [End]
  }

  /** The sender's loop. */
  method SendFileLoop(k: Coding, name: string, content: seq<byte>, chunkSize: nat, msgId: nat)
    returns (frames: seq<Frame>)
    requires chunkSize > 0
    ensures frames == SendFile(k, name, content, chunkSize, msgId)
  {
    frames := [Header(name + "|" + Decimal(|content|), msgId)];
    var sent := 0;
    while sent < |content|
      invariant sent <= |content|
      invariant frames + ChunkFrames(k, content[sent..], chunkSize) == SendFile(k, name, content, chunkSize, msgId)[..1]
             + ChunkFrames(k, content, chunkSize)
    {
      var rest := content[sent..];
      var chunk := if |rest| <= chunkSize then rest else rest[..chunkSize];
      assert ChunkFrames(k, rest, chunkSize)
          == [Chunk(k.encode(chunk))] + ChunkFrames(k, content[sent + |chunk|..], chunkSize) by {
        assert rest[|chunk|..] == content[sent + |chunk|..];
      }
      frames := frames + [Chunk(k.encode(chunk))];
      sent := sent + |chunk|;
    }
    frames := frames + [End];
  }

  class FileReceiver {
    var incoming: Option<Incoming>
    var done: seq<Done>
    var acks: seq<Ack>

    constructor ()
      ensures View() == IDLE
    {
      incoming, done, acks := None, [], [];
    }

    function View(): Receiver
      reads this
    {
      Receiver(incoming, done, acks)
    }

    method HandleHeader(body: string, msgId: nat, offer: Offer)
      modifies this
      ensures View() == OnHeader(old(View()), body, msgId, offer)
    {
      var fields := Fields(body);
      if fields.None? {
        return;
      }
      var size := ParseSize(fields.value.1);
      if size.None? {
        return;
      }
      if size.value > MAX_FILE_SIZE || !offer.accepted {
        incoming := None;
        return;
      }
      incoming := Some(Incoming(offer.name, size.value, [], msgId));
    }

    method HandleChunk(k: Coding, body: string)
      modifies this
      ensures View() == OnChunk(k, old(View()), body)
    {
      if incoming.None? {
        return;
      }
      var i := incoming.value;
      var remaining := i.size - |i.content|;
      if remaining <= 0 || |body| > MaxChars(remaining) {
        incoming := None;
        return;
      }
      var chunk := k.decode(body);
      if chunk.None? || |chunk.value| > remaining {
        incoming := None;
        return;
      }
      incoming := Some(i.(content := i.content + chunk.value));
    }

    method HandleEnd()
      modifies this
      ensures View() == OnEnd(old(View()))
    {
      if incoming.None? {
        return;
      }
      var i := incoming.value;
      incoming := None;
      if |i.content| == i.size {
        done := done + [Done(i.name, i.size, i.content)];
        acks := acks + [Ack(i.name, i.msgId)];
      }
    }
  }

  // ---------- any sequence of frames ----------

  /** Received never exceeds a non-negative size, and every acknowledged file is whole. */
  ghost predicate ReceiverOk(r: Receiver) {
    && (r.incoming.Some? && r.incoming.value.size >= 0 ==> |r.incoming.value.content| <= r.incoming.value.size)
    && |r.acks| == |r.done|
    && (forall i :: 0 <= i < |r.done| ==> |r.done[i].content| == r.done[i].size && r.acks[i].name == r.done[i].name)
  }

  lemma {:induction false} AnyFramesKeepOk(k: Coding, r: Receiver, frames: seq<Frame>, answers: Answers, at: nat)
    requires ReceiverOk(r)
    ensures ReceiverOk(ReceiveAll(k, r, frames, answers, at))
    decreases |frames|
  {
    if frames != [] {
      AnyFramesKeepOk(k, Receive(k, r, frames[0], answers(at)), frames[1..], answers, at + 1);
    }
  }

  // ---------- the honest transfer ----------

  lemma {:induction false} BarInName(name: string, rest: string)
    ensures '|' !in name ==> Bar(name + "|" + rest) == |name|
    ensures '|' in name ==> Bar(name + "|" + rest) < |name|
  {
    var body := name + "|" + rest;
    if name != "" && name[0] != '|' {
      assert body[1..] == name[1..] + "|" + rest;
      BarInName(name[1..], rest);
      assert '|' in name <==> '|' in name[1..];
    }
  }

  lemma FieldsOf(name: string, digits: string)
    requires forall i :: 0 <= i < |digits| ==> digits[i] != '|'
    ensures Fields(name + "|" + digits) == if '|' in name then None else Some((name, digits))
  {
    var body := name + "|" + digits;
    BarInName(name, digits);
    if '|' !in name {
      assert body[..|name|] == name && body[|name| + 1..] == digits;
    } else {
      assert body[|name|] == '|' && body[Bar(body) + 1..][|name| - Bar(body) - 1] == '|';
    }
  }

  /** The header reads back exactly for names without the separator. */
  lemma HeaderReads(name: string, size: nat)
    ensures Fields(name + "|" + Decimal(size)) == if '|' in name then None else Some((name, Decimal(size)))
    ensures ParseSize(Decimal(size)) == Some(size)
  {
    DecimalReads(size);
    FieldsOf(name, Decimal(size));
  }

  /** An honest chunk is never refused. */
  lemma HonestChunk(k: Coding, r: Receiver, chunk: seq<byte>)
    requires Faithful(k) && r.incoming.Some? && 0 < |chunk| <= r.incoming.value.size - |r.incoming.value.content|
    ensures OnChunk(k, r, k.encode(chunk))
         == r.(incoming := Some(r.incoming.value.(content := r.incoming.value.content + chunk)))
  {
    assert k.decode(k.encode(chunk)) == Some(chunk);
    MaxCharsGrows(|chunk|, r.incoming.value.size - |r.incoming.value.content|);
  }

  function FirstChunk(content: seq<byte>, chunkSize: nat): seq<byte> {
    if |content| <= chunkSize then content else content[..chunkSize]
  }

  lemma OneChunkArrives(k: Coding, r: Receiver, content: seq<byte>, chunkSize: nat, rest: seq<Frame>, answers: Answers,
                        at: nat)
    requires chunkSize > 0 && content != []
    ensures var chunk := FirstChunk(content, chunkSize);
            var left := content[|chunk|..];
            && |ChunkFrames(k, content, chunkSize)| == 1 + |ChunkFrames(k, left, chunkSize)|
            && ReceiveAll(k, r, ChunkFrames(k, content, chunkSize) + rest, answers, at)
               == ReceiveAll(k, OnChunk(k, r, k.encode(chunk)), ChunkFrames(k, left, chunkSize) + rest, answers, at + 1)
  {
    var chunk := FirstChunk(content, chunkSize);
    var left := content[|chunk|..];
    var frames := ChunkFrames(k, content, chunkSize) + rest;
    assert ChunkFrames(k, content, chunkSize) == [Chunk(k.encode(chunk))] + ChunkFrames(k, left, chunkSize);
    assert frames[0] == Chunk(k.encode(chunk)) && frames[1..] == ChunkFrames(k, left, chunkSize) + rest;
  }

  lemma {:induction false} ChunksArrive(k: Coding, r: Receiver, content: seq<byte>, chunkSize: nat,
                                        rest: seq<Frame>, answers: Answers, at: nat)
    requires Faithful(k) && chunkSize > 0 && r.incoming.Some?
    requires |content| <= r.incoming.value.size - |r.incoming.value.content|
    ensures ReceiveAll(k, r, ChunkFrames(k, content, chunkSize) + rest, answers, at)
         == ReceiveAll(k, r.(incoming := Some(r.incoming.value.(content := r.incoming.value.content + content))), rest,
                       answers, at + |ChunkFrames(k, content, chunkSize)|)
    decreases |content|
  {
    var i := r.incoming.value;
    if content == [] {
      assert i.content + content == i.content;
      assert ChunkFrames(k, content, chunkSize) + rest == rest;
    } else {
      var chunk := FirstChunk(content, chunkSize);
      OneChunkArrives(k, r, content, chunkSize, rest, answers, at);
      HonestChunk(k, r, chunk);
      ChunksArrive(k, OnChunk(k, r, k.encode(chunk)), content[|chunk|..], chunkSize, rest, answers, at + 1);
      assert (i.content + chunk) + content[|chunk|..] == i.content + content;
    }
  }

  /** What an offer leaves when it is the first frame. */
  function Offered(name: string, size: nat, msgId: nat, offer: Offer): Receiver {
    if '|' in name || size > MAX_FILE_SIZE || !offer.accepted then IDLE
    else IDLE.(incoming := Some(Incoming(offer.name, size, [], msgId)))
  }

  /** One file, byte for byte, with one acknowledgement. */
  function Completed(name: string, content: seq<byte>, msgId: nat): Receiver {
    Receiver(None, [Done(name, |content|, content)], [Ack(name, msgId)])
  }

  lemma HeaderArrives(name: string, size: nat, msgId: nat, offer: Offer)
    ensures OnHeader(IDLE, name + "|" + Decimal(size), msgId, offer) == Offered(name, size, msgId, offer)
  {
    HeaderReads(name, size);
  }

  lemma AfterHeader(k: Coding, header: Frame, content: seq<byte>, chunkSize: nat, answers: Answers)
    requires chunkSize > 0
    ensures ReceiveAll(k, IDLE, [header] + ChunkFrames(k, content, chunkSize) + [End], answers, 0)
         == ReceiveAll(k, Receive(k, IDLE, header, answers(0)), ChunkFrames(k, content, chunkSize) + [End], answers, 1)
  {
    var frames := [header] + ChunkFrames(k, content, chunkSize) + [End];
    assert frames[0] == header && frames[1..] == ChunkFrames(k, content, chunkSize) + [End];
  }

  lemma AcceptedArrives(k: Coding, r: Receiver, content: seq<byte>, chunkSize: nat, answers: Answers, at: nat)
    requires Faithful(k) && chunkSize > 0 && r.incoming.Some? && r.done == [] && r.acks == []
    requires r.incoming.value.content == [] && r.incoming.value.size == |content|
    ensures ReceiveAll(k, r, ChunkFrames(k, content, chunkSize) + [End], answers, at)
         == Completed(r.incoming.value.name, content, r.incoming.value.msgId)
  {
    var end := at + |ChunkFrames(k, content, chunkSize)|;
    ChunksArrive(k, r, content, chunkSize, [End], answers, at);
    assert [] + content == content;
    var full := r.(incoming := Some(r.incoming.value.(content := content)));
    assert ReceiveAll(k, full, [End], answers, end) == ReceiveAll(k, OnEnd(full), [], answers, end + 1);
  }

  /**
    A file arrives byte for byte with exactly one acknowledgement, for every chunk size, exactly when
    its name has no separator, its size is allowed and the offer is accepted; otherwise nothing
    arrives and nothing is acknowledged.
   */
  lemma FileArrives(k: Coding, name: string, content: seq<byte>, chunkSize: nat, msgId: nat, answers: Answers)
    requires Faithful(k) && chunkSize > 0
    ensures ReceiveAll(k, IDLE, SendFile(k, name, content, chunkSize, msgId), answers, 0)
         == if '|' in name || |content| > MAX_FILE_SIZE || !answers(0).accepted then IDLE
            else Completed(answers(0).name, content, msgId)
  {
    HeaderArrives(name, |content|, msgId, answers(0));
    AfterHeader(k, Header(name + "|" + Decimal(|content|), msgId), content, chunkSize, answers);
    var r := Offered(name, |content|, msgId, answers(0));
    if r == IDLE {
      IgnoredWhenIdle(k, content, chunkSize, answers, 1);
    } else {
      AcceptedArrives(k, r, content, chunkSize, answers, 1);
    }
  }

  lemma {:induction false} IgnoredWhenIdle(k: Coding, content: seq<byte>, chunkSize: nat, answers: Answers, at: nat)
    requires chunkSize > 0
    ensures ReceiveAll(k, IDLE, ChunkFrames(k, content, chunkSize) + [End], answers, at) == IDLE
    decreases |content|
  {
    var frames := ChunkFrames(k, content, chunkSize) + [End];
    if content == [] {
      assert frames == [End];
      assert ReceiveAll(k, OnEnd(IDLE), [], answers, at + 1) == IDLE;
    } else {
      var chunk := if |content| <= chunkSize then content else content[..chunkSize];
      assert frames[0] == Chunk(k.encode(chunk));
      assert frames[1..] == ChunkFrames(k, content[|chunk|..], chunkSize) + [End];
      IgnoredWhenIdle(k, content[|chunk|..], chunkSize, answers, at + 1);
    }
  }

  /** In particular with the Base64 texts that the transfer uses. */
  lemma Base64FileArrives(name: string, content: seq<byte>, chunkSize: nat, msgId: nat, answers: Answers)
    requires chunkSize > 0
    ensures ReceiveAll(BASE64, IDLE, SendFile(BASE64, name, content, chunkSize, msgId), answers, 0)
         == if '|' in name || |content| > MAX_FILE_SIZE || !answers(0).accepted then IDLE
            else Completed(answers(0).name, content, msgId)
  {
    Base64IsFaithful();
    FileArrives(BASE64, name, content, chunkSize, msgId, answers);
  }
}
