/**
  The encrypted frames of a live session after its handshake: each carries a sequence number and a MAC over
  type, number, flags, message id and ciphertext. The cryptography is a parameter; what is assumed of it
  is that decryption undoes encryption and that MACs are not forged.
 */
module FrameStream {
  import opened Wrappers
  import opened Bytes
  import opened Padding

  const ENCRYPTED: byte := 1
  const TRAILER := 40
  const HANDSHAKE: byte := 72
  const MAX_FRAME_BODY := 2 * 1024 * 1024

  datatype Suite = Suite(mac: (nat, seq<byte>) -> seq<byte>,
                         encrypt: (nat, seq<byte>, nat) -> seq<byte>,
                         decrypt: (nat, seq<byte>) -> Option<seq<byte>>)

  ghost predicate Sound(s: Suite) {
    && (forall k, x :: |s.mac(k, x)| == 32)
    && (forall k, p, n :: s.decrypt(k, s.encrypt(k, p, n)) == Some(p) && s.encrypt(k, p, n) != [])
  }

  datatype Frame = Frame(kind: byte, flags: byte, msgId: nat, payload: seq<byte>)

  /** What the MAC covers. */
  function MacInput(kind: byte, number: nat, flags: byte, msgId: nat, enc: seq<byte>): seq<byte> {
    [kind] + (BigEndian(number, 8) + ([flags] + (BigEndian(msgId, 8) + enc)))
  }

  /** The receiver's reading of an encrypted payload: number, ciphertext, MAC. */
  function Number(f: Frame): nat
    requires |f.payload| >= TRAILER
  {
    Value(f.payload[..8])
  }

  function Cipher(f: Frame): seq<byte>
    requires |f.payload| >= TRAILER
  {
    f.payload[8..|f.payload| - 32]
  }

  function InputOf(f: Frame): seq<byte>
    requires |f.payload| >= TRAILER
  {
    MacInput(f.kind, Number(f), f.flags, f.msgId, Cipher(f))
  }

  predicate Verifies(s: Suite, key: nat, f: Frame) {
    |f.payload| >= TRAILER && f.payload[|f.payload| - 32..] == s.mac(key, InputOf(f))
  }

  datatype Sent = Sent(kind: byte, number: nat, msgId: nat, enc: seq<byte>, body: seq<byte>)

  datatype Accepted = Accepted(kind: byte, number: nat, msgId: nat, enc: seq<byte>, body: seq<byte>)

  /** One side: its numbers, what it framed and what it accepted. `running`: its receive loop goes on. */
  datatype End = End(sendKey: nat, recvKey: nat, profile: Profile, sendSeq: nat, recvSeq: nat,
                     sent: seq<Sent>, accepted: seq<Accepted>, running: bool)

  datatype Message = Message(kind: byte, msgId: nat, body: seq<byte>, nonce: nat, random: nat -> byte)

  /** The number is used up even where framing raises. */
  function FrameMessage(s: Suite, e: End, m: Message): (End, Option<Frame>) {
    var number := e.sendSeq + 1;
    var e' := e.(sendSeq := number);
    var padded := ApplyProfile(e.profile, m.body, m.random);
    if number >= Pow256(8) || padded.None? then (e', None)
    else
      var enc := s.encrypt(e.sendKey, padded.value, m.nonce);
      var payload := BigEndian(number, 8) + enc + s.mac(e.sendKey, MacInput(m.kind, number, ENCRYPTED, m.msgId, enc));
      if |payload| > MAX_FRAME_BODY then (e', None)
      else (e'.(sent := e.sent + [Sent(m.kind, number, m.msgId, enc, m.body)]),
            Some(Frame(m.kind, ENCRYPTED, m.msgId, payload)))
  }

  /** Every frame that is not accepted ends the receive loop. */
  function ReceiveFrame(s: Suite, e: End, f: Frame): End {
    if !e.running then e
    else if f.kind == HANDSHAKE || f.flags as int % 2 == 0 || |f.payload| < TRAILER || Cipher(f) == [] then
      e.(running := false)
    else if !Verifies(s, e.recvKey, f) || Number(f) != e.recvSeq + 1 then e.(running := false)
    else
      var plain := s.decrypt(e.recvKey, Cipher(f));
      if plain.None? || RemoveProfile(plain.value).None? then e.(running := false)
      else
        e.(recvSeq := Number(f),
           accepted := e.accepted + [Accepted(f.kind, Number(f), f.msgId, Cipher(f), RemoveProfile(plain.value).value)])
  }

  class SecureStream {
    const suite: Suite
    const sendKey: nat
    const recvKey: nat
    const profile: Profile
    var sendSeq: nat
    var recvSeq: nat
    var running: bool
    ghost var sent: seq<Sent>
    ghost var accepted: seq<Accepted>

    constructor (suite: Suite, sendKey: nat, recvKey: nat, profile: Profile)
      ensures View() == End(sendKey, recvKey, profile, 0, 0, [], [], true) && this.suite == suite
    {
      this.suite, this.sendKey, this.recvKey, this.profile := suite, sendKey, recvKey, profile;
      sendSeq, recvSeq, running, sent, accepted := 0, 0, true, [], [];
    }

    ghost function View(): End
      reads this
    {
      End(sendKey, recvKey, profile, sendSeq, recvSeq, sent, accepted, running)
    }

    /** The buffer under the MAC, built field by field. */
    method ComputeMac(key: nat, kind: byte, body: seq<byte>, number: nat, msgId: nat, flags: byte)
      returns (mac: seq<byte>)
      ensures mac == suite.mac(key, MacInput(kind, number, flags, msgId, body))
    {
      var input := [kind];
      input := input + BigEndian(number, 8);
      input := input + [flags];
      input := input + BigEndian(msgId, 8);
      input := input + body;
      assert input == MacInput(kind, number, flags, msgId, body);
      mac := suite.mac(key, input);
    }

    method FrameOut(m: Message) returns (frame: Option<Frame>)
      modifies this
      ensures (View(), frame) == FrameMessage(suite, old(View()), m)
    {
      sendSeq := sendSeq + 1;
      var padded := ApplyProfile(profile, m.body, m.random);
      if sendSeq >= Pow256(8) || padded.None? {
        return None;
      }
      var enc := suite.encrypt(sendKey, padded.value, m.nonce);
      var mac := ComputeMac(sendKey, m.kind, enc, sendSeq, m.msgId, ENCRYPTED);
      var payload := BigEndian(sendSeq, 8) + enc + mac;
      if |payload| > MAX_FRAME_BODY {
        return None;
      }
      sent := sent + [Sent(m.kind, sendSeq, m.msgId, enc, m.body)];
      frame := Some(Frame(m.kind, ENCRYPTED, m.msgId, payload));
    }

    /** One turn of the receive loop; None ends it. */
    method FrameIn(f: Frame) returns (body: Option<seq<byte>>)
      requires running
      modifies this
      ensures View() == ReceiveFrame(suite, old(View()), f)
      ensures body.Some? == running
    {
      body := None;
      if f.kind == HANDSHAKE || f.flags as int % 2 == 0 || |f.payload| < TRAILER || Cipher(f) == [] {
        running := false;
        return;
      }
      var number, enc := Value(f.payload[..8]), Cipher(f);
      var mac := ComputeMac(recvKey, f.kind, enc, number, f.msgId, f.flags);
      if f.payload[|f.payload| - 32..] != mac || number != recvSeq + 1 {
        running := false;
        return;
      }
      var plain := suite.decrypt(recvKey, enc);
      if plain.None? {
        running := false;
        return;
      }
      body := RemoveProfile(plain.value);
      if body.None? {
        running := false;
        return;
      }
      recvSeq := number;
      accepted := accepted + [Accepted(f.kind, number, f.msgId, enc, body.value)];
    }
  }

  // ---------- the MAC input ----------

  /** What the MAC covers determines every field. */
  lemma MacInputInjective(kind: byte, number: nat, flags: byte, msgId: nat, enc: seq<byte>,
                          kind': byte, number': nat, flags': byte, msgId': nat, enc': seq<byte>)
    requires number < Pow256(8) && number' < Pow256(8) && msgId < Pow256(8) && msgId' < Pow256(8)
    requires MacInput(kind, number, flags, msgId, enc) == MacInput(kind', number', flags', msgId', enc')
    ensures kind == kind' && number == number' && flags == flags' && msgId == msgId' && enc == enc'
  {
    var c, c' := BigEndian(msgId, 8) + enc, BigEndian(msgId', 8) + enc';
    var b, b' := [flags] + c, [flags'] + c';
    var a, a' := BigEndian(number, 8) + b, BigEndian(number', 8) + b';
    SameSplit([kind], a, [kind'], a');
    SameSplit(BigEndian(number, 8), b, BigEndian(number', 8), b');
    SameSplit([flags], c, [flags'], c');
    SameSplit(BigEndian(msgId, 8), enc, BigEndian(msgId', 8), enc');
    BigEndianInjective(number, number', 8);
    BigEndianInjective(msgId, msgId', 8);
    assert [kind][0] == [kind'][0] && [flags][0] == [flags'][0];
  }

  // ---------- two ends and a network ----------

  datatype World = World(a: End, b: End)

  datatype Side = SideA | SideB

  datatype Step = Emit(side: Side, message: Message) | Deliver(side: Side, frame: Frame)

  function Of(w: World, side: Side): End {
    if side.SideA? then w.a else w.b
  }

  function With(w: World, side: Side, e: End): World {
    if side.SideA? then w.(a := e) else w.(b := e)
  }

  function Other(side: Side): Side {
    if side.SideA? then SideB else SideA
  }

  function Apply(s: Suite, w: World, step: Step): World {
    match step
    case Emit(side, m) => With(w, side, FrameMessage(s, Of(w, side), m).0)
    case Deliver(side, f) => With(w, side, ReceiveFrame(s, Of(w, side), f))
  }

  /** Every input that its owner has put under the MAC with its sending key. */
  ghost predicate WasTagged(e: End, input: seq<byte>) {
    exists i :: 0 <= i < |e.sent|
                && input == MacInput(e.sent[i].kind, e.sent[i].number, ENCRYPTED, e.sent[i].msgId, e.sent[i].enc)
  }

  /** Somebody who sends with this key has tagged the input. */
  ghost predicate TaggedUnder(w: World, key: nat, input: seq<byte>) {
    exists owner: Side :: Of(w, owner).sendKey == key && WasTagged(Of(w, owner), input)
  }

  /**
    MACs are not forged: whatever the network delivers (dropped, repeated, reordered, reflected or made
    up), if it verifies under a side's sending key then an owner of that key has tagged exactly this
    input.
   */
  ghost predicate StepOk(s: Suite, w: World, step: Step) {
    match step
    case Emit(_, m) => m.msgId < Pow256(8)
    case Deliver(_, f) =>
      f.msgId < Pow256(8)
      && forall side :: Verifies(s, Of(w, side).sendKey, f) ==> TaggedUnder(w, Of(w, side).sendKey, InputOf(f))
  }

  ghost predicate RunOk(s: Suite, w: World, steps: seq<Step>)
    decreases |steps|
  {
    steps != [] ==> StepOk(s, w, steps[0]) && RunOk(s, Apply(s, w, steps[0]), steps[1..])
  }

  function Exec(s: Suite, w: World, steps: seq<Step>): World
    decreases |steps|
  {
    if steps == [] then w else Exec(s, Apply(s, w, steps[0]), steps[1..])
  }

  /** Numbers of framed messages grow, from one up. */
  ghost predicate SentOk(s: Suite, e: End) {
    && |e.sent| <= e.sendSeq
    && (forall i :: 0 <= i < |e.sent| ==> i < e.sent[i].number <= e.sendSeq
                                          && e.sent[i].number < Pow256(8) && e.sent[i].msgId < Pow256(8))
    && (forall i, j :: 0 <= i < j < |e.sent| ==> e.sent[i].number < e.sent[j].number)
    && (forall i :: 0 <= i < |e.sent| ==> SealedFrom(s, e.sendKey, e.profile, e.sent[i]))
  }

  /** The ciphertext holds the padded body. */
  ghost predicate SealedFrom(s: Suite, key: nat, profile: Profile, x: Sent) {
    exists random :: ApplyProfile(profile, x.body, random).Some?
                     && s.decrypt(key, x.enc) == Some(ApplyProfile(profile, x.body, random).value)
  }

  /** Kind, number, id and ciphertext of an accepted frame are those of the one sent in its place. */
  ghost predicate IsFrame(x: Accepted, y: Sent) {
    x.kind == y.kind && x.number == y.number && x.msgId == y.msgId && x.enc == y.enc
  }

  /** A body that padding and removal give back. */
  predicate Plain(profile: Profile, body: seq<byte>) {
    profile.Balanced? || !StartsWith(body, ENVELOPE)
  }

  /** What one side has accepted is a prefix of what the other has sent, in order and once each. */
  ghost predicate PrefixOf(receiver: End, sender: End) {
    && receiver.recvSeq == |receiver.accepted| <= |sender.sent|
    && (forall i :: 0 <= i < |receiver.accepted| ==>
          IsFrame(receiver.accepted[i], sender.sent[i]) && sender.sent[i].number == i + 1)
    && (forall i :: 0 <= i < |receiver.accepted| && Plain(sender.profile, sender.sent[i].body) ==>
          receiver.accepted[i].body == sender.sent[i].body)
  }

  ghost predicate Inv(s: Suite, w: World) {
    && w.a.sendKey == w.b.recvKey && w.b.sendKey == w.a.recvKey && w.a.sendKey != w.b.sendKey
    && SentOk(s, w.a) && SentOk(s, w.b) && PrefixOf(w.a, w.b) && PrefixOf(w.b, w.a)
  }

  lemma EmitKeepsSent(s: Suite, e: End, m: Message)
    requires Sound(s) && SentOk(s, e) && m.msgId < Pow256(8)
    ensures SentOk(s, FrameMessage(s, e, m).0) && e.sent <= FrameMessage(s, e, m).0.sent
  {
    var (e', f) := FrameMessage(s, e, m);
    if f.Some? {
      var x := e'.sent[|e.sent|];
      assert SealedFrom(s, e.sendKey, e.profile, x) by {
        assert s.decrypt(e.sendKey, x.enc) == Some(ApplyProfile(e.profile, x.body, m.random).value);
      }
    }
    forall i | 0 <= i < |e'.sent|
      ensures SealedFrom(s, e'.sendKey, e'.profile, e'.sent[i])
    {
      if i < |e.sent| {
        assert SealedFrom(s, e.sendKey, e.profile, e.sent[i]);
      }
    }
  }

  lemma PaddingGivesBack(profile: Profile, body: seq<byte>, random: nat -> byte)
    requires Plain(profile, body) && ApplyProfile(profile, body, random).Some?
    ensures RemoveProfile(ApplyProfile(profile, body, random).value) == Some(body)
  {
    if profile.Balanced? {
      BalancedRoundTrip(body, random);
    } else {
      OffRoundTripIff(body, random);
    }
  }

  /** The frame a receiver accepts next is the next one its peer sent. */
  lemma AcceptsTheNext(s: Suite, receiver: End, sender: End, f: Frame)
    requires SentOk(s, sender) && PrefixOf(receiver, sender) && receiver.recvKey == sender.sendKey
    requires f.msgId < Pow256(8) && Verifies(s, sender.sendKey, f) && WasTagged(sender, InputOf(f))
    requires Number(f) == receiver.recvSeq + 1
    ensures var k := |receiver.accepted|;
            && k < |sender.sent| && sender.sent[k].number == k + 1 == Number(f)
            && sender.sent[k].kind == f.kind && sender.sent[k].msgId == f.msgId && sender.sent[k].enc == Cipher(f)
  {
    var i :| 0 <= i < |sender.sent|
             && InputOf(f) == MacInput(sender.sent[i].kind, sender.sent[i].number, ENCRYPTED, sender.sent[i].msgId,
                                       sender.sent[i].enc);
    var x := sender.sent[i];
    WritesBack(f.payload[..8]);
    MacInputInjective(f.kind, Number(f), f.flags, f.msgId, Cipher(f), x.kind, x.number, ENCRYPTED, x.msgId, x.enc);
    var k := |receiver.accepted|;
    forall j | 0 <= j < |sender.sent| && j != k ensures sender.sent[j].number != k + 1 {
      if j < k {
        assert IsFrame(receiver.accepted[j], sender.sent[j]);
      } else {
        assert k < sender.sent[k].number < sender.sent[j].number;
      }
    }
  }

  lemma ReceiveKeepsPrefix(s: Suite, receiver: End, sender: End, f: Frame)
    requires SentOk(s, sender) && PrefixOf(receiver, sender) && receiver.recvKey == sender.sendKey
    requires f.msgId < Pow256(8) && (Verifies(s, sender.sendKey, f) ==> WasTagged(sender, InputOf(f)))
    ensures PrefixOf(ReceiveFrame(s, receiver, f), sender)
  {
    var r := ReceiveFrame(s, receiver, f);
    if r.accepted != receiver.accepted {
      AcceptsTheNext(s, receiver, sender, f);
      var x := sender.sent[|receiver.accepted|];
      assert SealedFrom(s, sender.sendKey, sender.profile, x);
      var random :| ApplyProfile(sender.profile, x.body, random).Some?
                    && s.decrypt(sender.sendKey, x.enc) == Some(ApplyProfile(sender.profile, x.body, random).value);
      if Plain(sender.profile, x.body) {
        PaddingGivesBack(sender.profile, x.body, random);
      }
    }
  }

  lemma EmitKeepsPrefix(s: Suite, e: End, peer: End, m: Message)
    requires Sound(s) && SentOk(s, e) && m.msgId < Pow256(8) && PrefixOf(peer, e) && PrefixOf(e, peer)
    ensures var e' := FrameMessage(s, e, m).0; PrefixOf(peer, e') && PrefixOf(e', peer)
  {
    EmitKeepsSent(s, e, m);
  }

  lemma ReceiveKeepsSent(s: Suite, receiver: End, sender: End, f: Frame)
    requires SentOk(s, receiver) && PrefixOf(sender, receiver)
    ensures var r := ReceiveFrame(s, receiver, f); SentOk(s, r) && PrefixOf(sender, r)
  {
    var r := ReceiveFrame(s, receiver, f);
    assert (r.sendKey, r.profile, r.sendSeq, r.sent)
        == (receiver.sendKey, receiver.profile, receiver.sendSeq, receiver.sent);
    forall i | 0 <= i < |r.sent| ensures SealedFrom(s, r.sendKey, r.profile, r.sent[i]) {
      assert SealedFrom(s, receiver.sendKey, receiver.profile, receiver.sent[i]);
    }
  }

  /** The invariant for one end and its peer. */
  ghost predicate PairOk(s: Suite, e: End, peer: End) {
    && e.sendKey == peer.recvKey && peer.sendKey == e.recvKey
    && SentOk(s, e) && SentOk(s, peer) && PrefixOf(e, peer) && PrefixOf(peer, e)
  }

  lemma EmitKeepsPair(s: Suite, e: End, peer: End, m: Message)
    requires Sound(s) && PairOk(s, e, peer) && m.msgId < Pow256(8)
    ensures PairOk(s, FrameMessage(s, e, m).0, peer)
  {
    EmitKeepsSent(s, e, m);
    EmitKeepsPrefix(s, e, peer, m);
  }

  lemma ReceiveKeepsPair(s: Suite, e: End, peer: End, f: Frame)
    requires PairOk(s, e, peer) && f.msgId < Pow256(8) && (Verifies(s, peer.sendKey, f) ==> WasTagged(peer, InputOf(f)))
    ensures PairOk(s, ReceiveFrame(s, e, f), peer)
  {
    ReceiveKeepsPrefix(s, e, peer, f);
    ReceiveKeepsSent(s, e, peer, f);
  }

  lemma StepKeepsInv(s: Suite, w: World, step: Step)
    requires Sound(s) && Inv(s, w) && StepOk(s, w, step)
    ensures Inv(s, Apply(s, w, step))
  {
    var e, peer := Of(w, step.side), Of(w, Other(step.side));
    assert PairOk(s, e, peer);
    match step
    case Emit(_, m) => EmitKeepsPair(s, e, peer, m);
    case Deliver(side, f) =>
      OwnerIsUnique(s, w, Other(side), f);
      ReceiveKeepsPair(s, e, peer, f);
  }

  /** With a key for each direction only its one owner can have tagged. */
  lemma OwnerIsUnique(s: Suite, w: World, side: Side, f: Frame)
    requires w.a.sendKey != w.b.sendKey && StepOk(s, w, Deliver(side, f))
    ensures Verifies(s, Of(w, side).sendKey, f) ==> WasTagged(Of(w, side), InputOf(f))
  {
  }

  /**
    In every run against a network that drops, repeats, reorders, reflects and makes up frames, each
    side's accepted frames are a prefix of what the other sent, in order and once each, with the same
    bodies wherever padding gives them back.
   */
  lemma {:induction false} RunKeepsPrefix(s: Suite, w: World, steps: seq<Step>)
    requires Sound(s) && Inv(s, w) && RunOk(s, w, steps)
    ensures Inv(s, Exec(s, w, steps))
    decreases |steps|
  {
    if steps != [] {
      StepKeepsInv(s, w, steps[0]);
      RunKeepsPrefix(s, Apply(s, w, steps[0]), steps[1..]);
    }
  }

  /** Two ends as a handshake leaves them: each sends with the key the other receives with. */
  function NewPair(keyA: nat, keyB: nat, profileA: Profile, profileB: Profile): World {
    World(End(keyA, keyB, profileA, 0, 0, [], [], true), End(keyB, keyA, profileB, 0, 0, [], [], true))
  }

  /** In particular from the end of the handshake on, for both directions. */
  lemma AcceptedIsPrefixOfSent(s: Suite, keyA: nat, keyB: nat, profileA: Profile, profileB: Profile, steps: seq<Step>)
    requires Sound(s) && keyA != keyB && RunOk(s, NewPair(keyA, keyB, profileA, profileB), steps)
    ensures var w := Exec(s, NewPair(keyA, keyB, profileA, profileB), steps);
            PrefixOf(w.a, w.b) && PrefixOf(w.b, w.a)
  {
    RunKeepsPrefix(s, NewPair(keyA, keyB, profileA, profileB), steps);
  }

  // ---------- what a faithful network delivers ----------

  /** With one key for both directions a reflected frame is accepted, though the peer has sent nothing. */
  lemma OneKeyReflects(s: Suite, key: nat, profile: Profile, m: Message)
    requires Sound(s) && m.kind != HANDSHAKE && m.msgId < Pow256(8) && Plain(profile, m.body)
    requires FrameMessage(s, NewPair(key, key, profile, profile).a, m).1.Some?
    ensures var w := NewPair(key, key, profile, profile);
            var f := FrameMessage(s, w.a, m).1.value;
            var steps := [Emit(SideA, m), Deliver(SideA, f)];
            && RunOk(s, w, steps)
            && |Exec(s, w, steps).a.accepted| == 1 && Exec(s, w, steps).b.sent == []
  {
    var w := NewPair(key, key, profile, profile);
    var (a, f) := FrameMessage(s, w.a, m);
    var w1 := w.(a := a);
    PaddingGivesBack(profile, m.body, m.random);
    HonestFrameAcceptedIff(s, w.a, a, m);
    FrameIsTagged(s, w.a, m);
    assert TaggedUnder(w1, key, InputOf(f.value)) by {
      assert Of(w1, SideA).sendKey == key && WasTagged(Of(w1, SideA), InputOf(f.value));
    }
    var steps := [Emit(SideA, m), Deliver(SideA, f.value)];
    assert steps[1..] == [Deliver(SideA, f.value)] && steps[1..][1..] == [];
    assert StepOk(s, w1, Deliver(SideA, f.value));
    var w2 := Apply(s, w1, Deliver(SideA, f.value));
    assert Exec(s, w1, steps[1..]) == Exec(s, w2, []) == w2;
  }

  lemma FrameIsTagged(s: Suite, e: End, m: Message)
    requires Sound(s) && FrameMessage(s, e, m).1.Some?
    ensures var (e', f) := FrameMessage(s, e, m);
            |f.value.payload| >= TRAILER && WasTagged(e', InputOf(f.value)) && f.value.msgId == m.msgId
  {
    var number := e.sendSeq + 1;
    var (e', f) := FrameMessage(s, e, m);
    var enc := s.encrypt(e.sendKey, ApplyProfile(e.profile, m.body, m.random).value, m.nonce);
    var mac := s.mac(e.sendKey, MacInput(m.kind, number, ENCRYPTED, m.msgId, enc));
    PayloadParts(BigEndian(number, 8), enc, mac);
    ReadsBack(number, 8);
    assert f.value.payload == BigEndian(number, 8) + enc + mac;
    var x := e'.sent[|e.sent|];
    assert InputOf(f.value) == MacInput(x.kind, x.number, ENCRYPTED, x.msgId, x.enc);
  }

  /** An honest frame is accepted exactly when its number is the next one and its body survives the padding. */
  lemma HonestFrameAcceptedIff(s: Suite, sender: End, receiver: End, m: Message)
    requires Sound(s) && receiver.running && receiver.recvKey == sender.sendKey && m.kind != HANDSHAKE
    requires FrameMessage(s, sender, m).1.Some?
    ensures var (sender', f) := FrameMessage(s, sender, m);
            var r := ReceiveFrame(s, receiver, f.value);
            && (r.running <==> && receiver.recvSeq == sender.sendSeq
                               && RemoveProfile(ApplyProfile(sender.profile, m.body, m.random).value).Some?)
            && (r.running ==> r.recvSeq == sender'.sendSeq && |r.accepted| == |receiver.accepted| + 1)
  {
    var number := sender.sendSeq + 1;
    var f := FrameMessage(s, sender, m).1.value;
    var enc := s.encrypt(sender.sendKey, ApplyProfile(sender.profile, m.body, m.random).value, m.nonce);
    var mac := s.mac(sender.sendKey, MacInput(m.kind, number, ENCRYPTED, m.msgId, enc));
    PayloadParts(BigEndian(number, 8), enc, mac);
    ReadsBack(number, 8);
    assert f.payload == BigEndian(number, 8) + enc + mac;
    assert Cipher(f) == enc && Number(f) == number && Verifies(s, sender.sendKey, f);
  }

  lemma PayloadParts(a: seq<byte>, b: seq<byte>, c: seq<byte>)
    requires |a| == 8 && |c| == 32
    ensures var p := a + b + c;
            p[..8] == a && p[8..|p| - 32] == b && p[|p| - 32..] == c && |p| >= TRAILER
  {
  }

  /**
    A number used up by a frame that could not be made is a gap: however much of what was sent before it
    is still under way, nothing sent after it is ever accepted.
   */
  lemma GapStopsStream(s: Suite, w: World, steps: seq<Step>)
    requires Sound(s) && Inv(s, w) && RunOk(s, w, steps) && w.a.sendSeq > |w.a.sent|
    ensures |Exec(s, w, steps).b.accepted| <= |w.a.sent|
  {
    StoppedForGood(s, w, steps, |w.a.sent|);
  }

  /** Every message after the gap is numbered past its place. */
  ghost predicate Gapped(w: World, at: nat) {
    && |w.b.accepted| <= at <= |w.a.sent| < w.a.sendSeq
    && (forall i :: at <= i < |w.a.sent| ==> w.a.sent[i].number > i + 1)
  }

  lemma StillStopped(s: Suite, w: World, step: Step, at: nat)
    requires Sound(s) && Inv(s, w) && StepOk(s, w, step) && Gapped(w, at)
    ensures Gapped(Apply(s, w, step), at)
  {
    if step.Deliver? && step.side.SideB? {
      var r := ReceiveFrame(s, w.b, step.frame);
      if r.accepted != w.b.accepted {
        OwnerIsUnique(s, w, SideA, step.frame);
        AcceptsTheNext(s, w.b, w.a, step.frame);
      }
    }
  }

  lemma {:induction false} StoppedForGood(s: Suite, w: World, steps: seq<Step>, at: nat)
    requires Sound(s) && Inv(s, w) && RunOk(s, w, steps) && Gapped(w, at)
    ensures |Exec(s, w, steps).b.accepted| <= at
    decreases |steps|
  {
    if steps != [] {
      StepKeepsInv(s, w, steps[0]);
      StillStopped(s, w, steps[0], at);
      StoppedForGood(s, Apply(s, w, steps[0]), steps[1..], at);
    }
  }
}
