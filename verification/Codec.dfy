/** Framing on the wire: a fixed header with a magic number, and a reader that looks for the next magic. */
module Codec {
  import opened Wrappers
  import opened Bytes

  const MAGIC: seq<byte> := [0x89, 73, 50, 80]
  const VERSION: byte := 4
  const HEADER_SIZE := 19

  datatype Frame = Frame(kind: byte, payload: seq<byte>, flags: byte, msgId: nat)

  /** The frame types in use, the largest payload, and how far the reader looks for a magic number. */
  datatype Codec = Codec(kinds: set<byte>, maxBody: nat, resyncLimit: nat)
  {
    predicate Valid() {
      resyncLimit >= HEADER_SIZE && maxBody < Pow256(4)
    }
  }

  predicate Fits(c: Codec, f: Frame) {
    f.kind in c.kinds && |f.payload| <= c.maxBody && f.msgId < Pow256(8)
  }

  function Header(f: Frame): seq<byte> {
    [VERSION, f.kind, f.flags] + (BigEndian(f.msgId, 8) + BigEndian(|f.payload|, 4))
  }

  /** None where encoding raises; a message id is cut to 64 bits. */
  function Encode(c: Codec, kind: byte, payload: seq<byte>, flags: byte, msgId: nat): Option<seq<byte>> {
    if kind !in c.kinds || |payload| > c.maxBody then None
    else Some(MAGIC + (Header(Frame(kind, payload, flags, msgId % Pow256(8))) + payload))
  }

  /** Reading raises on a malformed frame, and waits for ever where the stream is too short. */
  datatype Reading = Read(frame: Frame, rest: seq<byte>) | Malformed | Short

  predicate MagicAt(s: seq<byte>, i: nat) {
    i + 4 <= |s| && s[i..i + 4] == MAGIC
  }

  /** The number of bytes before the first magic number, or the whole length. */
  function Skip(s: seq<byte>): (i: nat)
    ensures i <= |s| && (i < |s| ==> MagicAt(s, i)) && forall j :: 0 <= j < i ==> !MagicAt(s, j)
  {
    if s == [] || MagicAt(s, 0) then 0
    else
      var i := Skip(s[1..]) + 1;
      assert forall j :: 1 <= j < i ==> (MagicAt(s, j) <==> MagicAt(s[1..], j - 1)) by {
        forall j | 1 <= j < i ensures MagicAt(s, j) <==> MagicAt(s[1..], j - 1) {
          assert j + 4 <= |s| ==> s[j..j + 4] == s[1..][j - 1..j + 3];
        }
      }
      assert i < |s| ==> s[i..i + 4] == s[1..][i - 1..i + 3];
      i
  }

  /** What follows a magic number. */
  function ReadBody(c: Codec, s: seq<byte>): Reading {
    if |s| < 15 then Short
    else
      var length := Value(s[11..15]);
      if s[0] != VERSION || s[1] !in c.kinds || length > c.maxBody then Malformed
      else if |s| < 15 + length then Short
      else Read(Frame(s[1], s[15..15 + length], s[2], Value(s[3..11])), s[15 + length..])
  }

  function ReadFrame(c: Codec, s: seq<byte>): Reading {
    var i := Skip(s);
    if i + 4 > c.resyncLimit && c.resyncLimit < |s| then Malformed
    else if i == |s| then Short
    else ReadBody(c, s[i + 4..])
  }

  /** The last four of the first `n` bytes. */
  function Window(s: seq<byte>, n: nat): seq<byte>
    requires n <= |s|
  {
    s[if n < 4 then 0 else n - 4..n]
  }

  lemma WindowSlides(s: seq<byte>, n: nat)
    requires n < |s|
    ensures var longer := Window(s, n) + [s[n]];
            Window(s, n + 1) == if |longer| > 4 then longer[1..] else longer
  {
  }

  /** The reader's loop: a window of four bytes slides over the stream. */
  method FindMagic(c: Codec, s: seq<byte>) returns (found: Option<nat>, gaveUp: bool)
    requires c.Valid()
    ensures gaveUp <==> Skip(s) + 4 > c.resyncLimit && c.resyncLimit < |s|
    ensures !gaveUp ==> found == if Skip(s) < |s| then Some(Skip(s) + 4) else None
  {
    if s == [] {
      return None, false;
    }
    var buffer, scanned := [s[0]], 1;
    while buffer != MAGIC
      invariant 1 <= scanned <= |s| && scanned <= c.resyncLimit
      invariant buffer == Window(s, scanned)
      invariant forall j :: 0 <= j && j + 4 < scanned ==> !MagicAt(s, j)
      decreases |s| - scanned
    {
      if scanned == |s| {
        NoMagic(s);
        return None, false;
      }
      WindowSlides(s, scanned);
      buffer := buffer + [s[scanned]];
      scanned := scanned + 1;
      if |buffer| > 4 {
        buffer := buffer[1..];
      }
      if scanned > c.resyncLimit {
        if Skip(s) < |s| {
          assert MagicAt(s, Skip(s));
        }
        return None, true;
      }
    }
    assert MagicAt(s, scanned - 4);
    FirstMagic(s, scanned - 4);
    return Some(scanned), false;
  }

  lemma NoMagic(s: seq<byte>)
    requires forall j :: 0 <= j && j + 4 <= |s| ==> !MagicAt(s, j)
    ensures Skip(s) == |s|
  {
  }

  lemma FirstMagic(s: seq<byte>, i: nat)
    requires MagicAt(s, i) && forall j :: 0 <= j < i ==> !MagicAt(s, j)
    ensures Skip(s) == i
  {
  }

  // ---------- round trips ----------

  lemma HeaderParts(f: Frame, rest: seq<byte>)
    ensures var s := Header(f) + rest;
            && |s| == 15 + |rest| && s[0] == VERSION && s[1] == f.kind && s[2] == f.flags
            && s[3..11] == BigEndian(f.msgId, 8) && s[11..15] == BigEndian(|f.payload|, 4) && s[15..] == rest
  {
    var s := Header(f) + rest;
    var b := BigEndian(|f.payload|, 4) + rest;
    assert s[3..] == BigEndian(f.msgId, 8) + b;
    assert s[3..11] == s[3..][..8] && s[11..] == b && s[11..15] == s[11..][..4];
  }

  lemma BodyReads(c: Codec, f: Frame, rest: seq<byte>)
    requires c.Valid() && Fits(c, f)
    ensures ReadBody(c, Header(f) + (f.payload + rest)) == Read(f, rest)
  {
    var s := Header(f) + (f.payload + rest);
    HeaderParts(f, f.payload + rest);
    ReadsBack(f.msgId, 8);
    ReadsBack(|f.payload|, 4);
    assert s[15..15 + |f.payload|] == s[15..][..|f.payload|];
    assert s[15 + |f.payload|..] == s[15..][|f.payload|..];
    assert (f.payload + rest)[..|f.payload|] == f.payload && (f.payload + rest)[|f.payload|..] == rest;
  }

  function Wire(f: Frame): seq<byte> {
    MAGIC + (Header(f) + f.payload)
  }

  ghost predicate HoldsMagic(s: seq<byte>) {
    exists i: nat :: MagicAt(s, i)
  }

  /** The magic number does not overlap itself, so in front of one it can only occur as a whole. */
  lemma MagicAfterJunk(junk: seq<byte>, rest: seq<byte>)
    ensures Skip(junk + (MAGIC + rest)) == |junk| <==> !HoldsMagic(junk)
  {
    var s := junk + (MAGIC + rest);
    assert MagicAt(s, |junk|) by {
      assert s[|junk|..|junk| + 4] == MAGIC;
    }
    forall i: nat | i + 4 <= |junk| ensures MagicAt(s, i) <==> MagicAt(junk, i) {
      assert s[i..i + 4] == junk[i..i + 4];
    }
    forall i: nat | |junk| < i + 4 && i < |junk| ensures !MagicAt(s, i) {
      assert s[|junk|] == 0x89;
      assert s[i..i + 4][|junk| - i] == s[|junk|];
    }
    if !HoldsMagic(junk) {
      FirstMagic(s, |junk|);
    } else {
      var i: nat :| MagicAt(junk, i);
      assert MagicAt(s, i);
    }
  }

  /**
    A frame is read back after any junk that holds no magic number and fits the search limit; the
    reader is then exactly behind the frame.
   */
  lemma ReadsAfterJunk(c: Codec, junk: seq<byte>, f: Frame, rest: seq<byte>)
    requires c.Valid() && Fits(c, f) && !HoldsMagic(junk) && |junk| + 4 <= c.resyncLimit
    ensures ReadFrame(c, junk + Wire(f) + rest) == Read(f, rest)
  {
    var body := Header(f) + (f.payload + rest);
    var s := junk + (MAGIC + body);
    assert junk + Wire(f) + rest == s;
    MagicAfterJunk(junk, body);
    assert s[|junk| + 4..] == body;
    BodyReads(c, f, rest);
  }

  /** Encoding, then reading, gives the frame back with its message id cut to 64 bits. */
  lemma EncodeReads(c: Codec, kind: byte, payload: seq<byte>, flags: byte, msgId: nat, rest: seq<byte>)
    requires c.Valid() && Encode(c, kind, payload, flags, msgId).Some?
    ensures ReadFrame(c, Encode(c, kind, payload, flags, msgId).value + rest)
         == Read(Frame(kind, payload, flags, msgId % Pow256(8)), rest)
  {
    var f := Frame(kind, payload, flags, msgId % Pow256(8));
    assert !HoldsMagic([]);
    ReadsAfterJunk(c, [], f, rest);
    assert [] + Wire(f) + rest == Encode(c, kind, payload, flags, msgId).value + rest;
  }

  function WireAll(frames: seq<Frame>): seq<byte> {
    if frames == [] then [] else Wire(frames[0]) + WireAll(frames[1..])
  }

  /** All frames read from a stream, and what stopped the reading. */
  function ReadAll(c: Codec, s: seq<byte>, fuel: nat): (seq<Frame>, Reading)
    decreases fuel
  {
    var r := ReadFrame(c, s);
    if !r.Read? || fuel == 0 then ([], r)
    else
      var (frames, last) := ReadAll(c, r.rest, fuel - 1);
      ([r.frame] + frames, last)
  }

  /** A stream of frames is read back frame by frame, up to its end. */
  lemma {:induction false} StreamReadsBack(c: Codec, frames: seq<Frame>)
    requires c.Valid() && forall i :: 0 <= i < |frames| ==> Fits(c, frames[i])
    ensures ReadAll(c, WireAll(frames), |frames|) == (frames, Short)
  {
    if frames == [] {
      assert ReadFrame(c, []) == Short;
    } else {
      StreamReadsBack(c, frames[1..]);
      OneMoreFrame(c, frames[0], WireAll(frames[1..]), |frames| - 1);
      assert [frames[0]] + frames[1..] == frames;
    }
  }

  lemma OneMoreFrame(c: Codec, f: Frame, rest: seq<byte>, fuel: nat)
    requires c.Valid() && Fits(c, f)
    ensures var (frames, last) := ReadAll(c, rest, fuel);
            ReadAll(c, Wire(f) + rest, fuel + 1) == ([f] + frames, last)
  {
    assert !HoldsMagic([]);
    ReadsAfterJunk(c, [], f, rest);
    assert [] + Wire(f) + rest == Wire(f) + rest;
  }
}
