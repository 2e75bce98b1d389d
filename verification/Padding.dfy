/**
  The two paddings: the envelope of live frames, and the header and bucket of BlindBox blobs. The random
  filler is a parameter.
 */
module Padding {
  import opened Wrappers
  import opened Bytes

  predicate StartsWith(s: seq<byte>, prefix: seq<byte>) {
    |prefix| <= |s| && s[..|prefix|] == prefix
  }

  function Blocks(length: nat, block: nat): nat
    requires block > 0
  {
    (length + block - 1) / block
  }

  /** The bytes missing to whole blocks. */
  function Gap(length: nat, block: nat): (g: nat)
    requires block > 0
    ensures length + g == Blocks(length, block) * block && g < block
  {
    var q, r := (length + block - 1) / block, (length + block - 1) % block;
    assert length + block - 1 == q * block + r;
    q * block - length
  }

  function Filler(random: nat -> byte, n: nat): (s: seq<byte>)
    ensures |s| == n
  {
    seq(n, i requires 0 <= i < n => random(i))
  }

  // ---------- live frames ----------

  datatype Profile = Off | Balanced

  const ENVELOPE: seq<byte> := [73, 50, 80, 80, 65, 68, 49]
  const BLOCK := 128

  /** None: the length does not fit its four bytes. */
  function ApplyProfile(p: Profile, body: seq<byte>, random: nat -> byte): Option<seq<byte>> {
    if p.Off? then Some(body)
    else if |body| >= Pow256(4) then None
    else
      var wrapped := ENVELOPE + (BigEndian(|body|, 4) + body);
      Some(wrapped + Filler(random, Gap(|wrapped|, BLOCK)))
  }

  /** None: malformed. */
  function RemoveProfile(s: seq<byte>): Option<seq<byte>> {
    if !StartsWith(s, ENVELOPE) then Some(s)
    else if |s| < |ENVELOPE| + 4 then None
    else
      var length, payload := Value(s[|ENVELOPE|..|ENVELOPE| + 4]), s[|ENVELOPE| + 4..];
      if length > |payload| then None else Some(payload[..length])
  }

  lemma EnvelopeParts(length: seq<byte>, body: seq<byte>, fill: seq<byte>)
    requires |length| == 4
    ensures var s := ENVELOPE + (length + body) + fill;
            && StartsWith(s, ENVELOPE) && s[|ENVELOPE|..|ENVELOPE| + 4] == length
            && s[|ENVELOPE| + 4..] == body + fill
  {
    var s := ENVELOPE + (length + body) + fill;
    assert s == ENVELOPE + (length + (body + fill));
    assert s[..|ENVELOPE|] == ENVELOPE;
  }

  lemma EnvelopeOpens(length: seq<byte>, body: seq<byte>, fill: seq<byte>)
    requires |length| == 4 && Value(length) == |body|
    ensures RemoveProfile(ENVELOPE + (length + body) + fill) == Some(body)
  {
    EnvelopeParts(length, body, fill);
    assert (body + fill)[..|body|] == body;
  }

  /** The envelope gives back every body, and always fills whole blocks. */
  lemma BalancedRoundTrip(body: seq<byte>, random: nat -> byte)
    requires |body| < Pow256(4)
    ensures var s := ApplyProfile(Balanced, body, random).value;
            RemoveProfile(s) == Some(body) && |s| % BLOCK == 0 && |s| < |body| + |ENVELOPE| + 4 + BLOCK
  {
    var length := BigEndian(|body|, 4);
    ReadsBack(|body|, 4);
    EnvelopeOpens(length, body, Filler(random, Gap(|ENVELOPE + (length + body)|, BLOCK)));
  }

  /** Without padding a body comes back exactly when it does not itself start like an envelope. */
  lemma OffRoundTripIff(body: seq<byte>, random: nat -> byte)
    ensures RemoveProfile(ApplyProfile(Off, body, random).value) == Some(body) <==> !StartsWith(body, ENVELOPE)
  {
    if StartsWith(body, ENVELOPE) && RemoveProfile(body).Some? {
      assert |RemoveProfile(body).value| < |body|;
    }
  }

  // ---------- BlindBox blobs ----------

  datatype Direction = Send | Recv

  const MAGIC: seq<byte> := [66, 76, 78, 68, 66, 88, 48, 49]
  const VERSION: byte := 1
  const HEADER_SIZE := 38
  const MAX_FRAME := 2 * 1024 * 1024

  function Code(d: Direction): byte {
    if d.Send? then 1 else 2
  }

  function Header(d: Direction, index: nat, tag: seq<byte>, length: nat): seq<byte> {
    MAGIC + ([VERSION, Code(d)] + (BigEndian(index, 8) + (tag + BigEndian(length, 4))))
  }

  /** The padded plaintext of a blob; None where sealing raises. */
  function Seal(frame: seq<byte>, d: Direction, index: int, tag: seq<byte>, bucket: int, random: nat -> byte)
    : Option<seq<byte>>
  {
    if frame == [] || |frame| > MAX_FRAME || |tag| != 16 || index < 0 || index >= Pow256(8) || bucket <= 0 then None
    else
      var plain := Header(d, index, tag, |frame|) + frame;
      Some(plain + Filler(random, Gap(|plain|, bucket)))
  }

  /** The frame of an opened blob that was sealed for this direction, index and tag. */
  function Open(plain: seq<byte>, d: Direction, index: nat, tag: seq<byte>): Option<seq<byte>> {
    if |tag| != 16 || |plain| < HEADER_SIZE || plain[..8] != MAGIC || plain[8] != VERSION then None
    else
      var code, length, payload := plain[9], Value(plain[34..38]), plain[38..];
      if (code != 1 && code != 2) || length == 0 || length > MAX_FRAME || length > |payload| then None
      else if code != Code(d) || Value(plain[10..18]) != index || plain[18..34] != tag then None
      else Some(payload[..length])
  }

  lemma HeaderParts(d: Direction, index: nat, tag: seq<byte>, length: nat, rest: seq<byte>)
    requires |tag| == 16
    ensures var s := Header(d, index, tag, length) + rest;
            && |s| == HEADER_SIZE + |rest| && s[..8] == MAGIC && s[8] == VERSION && s[9] == Code(d)
            && s[10..18] == BigEndian(index, 8) && s[18..34] == tag && s[34..38] == BigEndian(length, 4)
            && s[38..] == rest
  {
    var s := Header(d, index, tag, length) + rest;
    var b := BigEndian(length, 4) + rest;
    var c := tag + b;
    var e := BigEndian(index, 8) + c;
    var f := [VERSION, Code(d)] + e;
    assert s == MAGIC + f;
    assert s[8..] == f && f[2..] == e && e[8..] == c && c[16..] == b && b[4..] == rest;
    assert s[10..] == e && s[18..] == c && s[34..] == b && s[38..] == rest;
    assert s[10..18] == s[10..][..8] && s[18..34] == s[18..][..16] && s[34..38] == s[34..][..4];
    assert s[8] == f[0] && s[9] == f[1];
  }

  lemma OpenFinds(frame: seq<byte>, d: Direction, index: nat, tag: seq<byte>, fill: seq<byte>)
    requires |tag| == 16 && index < Pow256(8) && 0 < |frame| <= MAX_FRAME
    ensures Open(Header(d, index, tag, |frame|) + (frame + fill), d, index, tag) == Some(frame)
  {
    HeaderParts(d, index, tag, |frame|, frame + fill);
    ReadsBack(index, 8);
    PowersOf256();
    ReadsBack(|frame|, 4);
    assert (frame + fill)[..|frame|] == frame;
  }

  lemma PowersOf256()
    ensures Pow256(4) == 0x1_0000_0000
  {
    assert Pow256(1) == 256 && Pow256(2) == 256 * 256 && Pow256(3) == 256 * 256 * 256;
  }

  /** Sealing, then opening for the same slot, returns the frame; the plaintext fills whole buckets. */
  lemma SealOpens(frame: seq<byte>, d: Direction, index: int, tag: seq<byte>, bucket: int, random: nat -> byte)
    requires Seal(frame, d, index, tag, bucket, random).Some?
    ensures var s := Seal(frame, d, index, tag, bucket, random).value;
            Open(s, d, index, tag) == Some(frame) && |s| == Blocks(HEADER_SIZE + |frame|, bucket) * bucket
  {
    var plain := Header(d, index, tag, |frame|) + frame;
    var fill := Filler(random, Gap(|plain|, bucket));
    HeaderParts(d, index, tag, |frame|, frame);
    OpenFinds(frame, d, index, tag, fill);
    assert plain + fill == Header(d, index, tag, |frame|) + (frame + fill);
  }

  /** A plaintext of at least a header's length, spelt field by field. */
  lemma PlainParts(plain: seq<byte>)
    requires |plain| >= HEADER_SIZE
    ensures plain
         == plain[..8] + ([plain[8], plain[9]] + (plain[10..18] + (plain[18..34] + (plain[34..38] + plain[38..]))))
  {
    var b := plain[34..38] + plain[38..];
    assert plain[34..] == b;
    assert plain[18..] == plain[18..34] + b;
    assert plain[10..] == plain[10..18] + plain[18..];
    assert plain[8..] == [plain[8], plain[9]] + plain[10..];
  }

  lemma OpenedIsHeader(plain: seq<byte>, d: Direction, index: nat, tag: seq<byte>, frame: seq<byte>)
    requires Open(plain, d, index, tag) == Some(frame)
    ensures plain == Header(d, index, tag, |frame|) + (frame + plain[HEADER_SIZE + |frame|..])
  {
    var rest := plain[38..];
    PlainParts(plain);
    WritesBack(plain[10..18]);
    WritesBack(plain[34..38]);
    assert rest == frame + plain[38 + |frame|..];
    HeaderThen(d, index, tag, |frame|, rest);
  }

  lemma HeaderThen(d: Direction, index: nat, tag: seq<byte>, length: nat, rest: seq<byte>)
    ensures Header(d, index, tag, length) + rest
         == MAGIC + ([VERSION, Code(d)] + (BigEndian(index, 8) + (tag + (BigEndian(length, 4) + rest))))
  {
  }

  /** Opening yields a frame exactly for the plaintexts that carry it for this direction, index and tag. */
  lemma OpensIff(plain: seq<byte>, d: Direction, index: nat, tag: seq<byte>, frame: seq<byte>)
    requires |tag| == 16 && index < Pow256(8) && 0 < |frame| <= MAX_FRAME
    ensures Open(plain, d, index, tag) == Some(frame)
            <==> exists fill :: plain == Header(d, index, tag, |frame|) + (frame + fill)
  {
    if Open(plain, d, index, tag) == Some(frame) {
      OpenedIsHeader(plain, d, index, tag, frame);
    }
    if fill :| plain == Header(d, index, tag, |frame|) + (frame + fill) {
      OpenFinds(frame, d, index, tag, fill);
    }
  }

  /** A blob sealed for another slot or direction never opens here. */
  lemma OtherSlotDoesNotOpen(frame: seq<byte>, d: Direction, index: int, tag: seq<byte>, bucket: int,
                             random: nat -> byte,
                             d': Direction, index': nat, tag': seq<byte>)
    requires Seal(frame, d, index, tag, bucket, random).Some?
    ensures Open(Seal(frame, d, index, tag, bucket, random).value, d', index', tag').Some?
            <==> d == d' && index == index' && tag == tag'
  {
    var plain := Header(d, index, tag, |frame|) + frame;
    var fill := Filler(random, Gap(|plain|, bucket));
    HeaderParts(d, index, tag, |frame|, frame + fill);
    assert plain + fill == Header(d, index, tag, |frame|) + (frame + fill);
    SealOpens(frame, d, index, tag, bucket, random);
    ReadsBack(index, 8);
  }
}
