/**
  The signed handshake of a live session: INIT, RESP and FINISHED, with directional keys. Cryptography is
  ideal: a public key names its private one, a signature and a tag are the pair of key and content, and
  a derived key is identified with everything it is derived from.
 */
module Handshake {
  import opened Wrappers

  type Addr = string
  type SignKey = nat

  /** A public key some private number belongs to, or a point that the exchange rejects. */
  datatype Public = Pub(n: nat) | LowOrder

  datatype Purpose = EncI2R | MacI2R | EncR2I | MacR2I

  datatype Key = Key(low: nat, high: nat, nonceInit: nat, nonceResp: nat, purpose: Purpose)

  datatype Role = Initiator | Responder

  /** Both addresses, nonces, ephemeral keys and signing keys: what RESP signs and FINISHED confirms. */
  datatype Transcript = Transcript(responder: Addr, initiator: Addr, initNonce: nat, initEph: Public, initSign: SignKey,
                                   respNonce: nat, respEph: Public, respSign: SignKey)

  datatype Payload =
    | InitPayload(signer: Addr, remote: Addr, nonce: nat, eph: Public, sign: SignKey)
    | RespPayload(transcript: Transcript)

  datatype Signature = Signature(signer: SignKey, payload: Payload)

  datatype Tag = Tag(key: Key, transcript: Transcript)

  datatype HFrame =
    | Init(nonce: nat, eph: Public, sign: SignKey, signature: Signature)
    | Resp(nonce: nat, eph: Public, sign: SignKey, signature: Signature)
    | Finished(tag: Tag)
    | Malformed

  datatype Installed = Installed(send: Key, sendMac: Key, recv: Key, recvMac: Key)

  datatype Session = Session(
    myNonce: Option<nat>, peerNonce: Option<nat>, myPrivate: Option<nat>, myPublic: Option<Public>,
    peerPublic: Option<Public>, peerSign: Option<SignKey>, keys: Option<Installed>,
    initiated: bool, role: Option<Role>, transcript: Option<Transcript>, finishedSent: bool, peerFinished: bool,
    trustPending: Option<SignKey>, encrypted: bool, complete: bool, sendSeq: nat, recvSeq: nat)

  /** A new session, and what reset_crypto leaves. */
  const BLANK := Session(None, None, None, None, None, None, None, false,
                         None, None, false, false, None, false, false, 0, 0)

  datatype Node = Node(me: Addr, sign: SignKey)

  /** The answer of the trust store for a peer's signing key. */
  datatype Pin = Refused | Matches | Accepted | Deferred

  /** What is drawn and decided while one frame is handled; a write may fail after its bytes went out. */
  datatype Luck = Luck(priv: nat, nonce: nat, pin: Pin, respWritten: bool, finishedWritten: bool, approved: bool)

  /** `failed`: the handling ended in an error, and a disconnect is scheduled. */
  datatype Handled = Handled(session: Session, sent: seq<HFrame>, failed: bool)

  function SharedKey(priv: nat, pub: nat, nonceInit: nat, nonceResp: nat, purpose: Purpose): Key {
    Key(if priv <= pub then priv else pub, if priv <= pub then pub else priv, nonceInit, nonceResp, purpose)
  }

  /** The four subkeys as one role uses them. */
  function Subkeys(priv: nat, pub: nat, nonceInit: nat, nonceResp: nat, role: Role): Installed {
    var k := (p: Purpose) => SharedKey(priv, pub, nonceInit, nonceResp, p);
    if role.Initiator? then Installed(k(EncI2R), k(MacI2R), k(EncR2I), k(MacR2I))
    else Installed(k(EncR2I), k(MacR2I), k(EncI2R), k(MacI2R))
  }

  /** None where the exchange raises. */
  function InstallKeys(s: Session, role: Role): Option<Session> {
    if s.myPrivate.None? || s.peerPublic.None? || s.myNonce.None? || s.peerNonce.None? then None
    else if s.peerPublic.value.LowOrder? then None
    else
      var (nonceInit, nonceResp) := if role.Initiator? then (s.myNonce.value, s.peerNonce.value)
                                    else (s.peerNonce.value, s.myNonce.value);
      Some(s.(keys := Some(Subkeys(s.myPrivate.value, s.peerPublic.value.n, nonceInit, nonceResp, role)),
              myPrivate := None))
  }

  function Pinned(s: Session, pin: Pin, sign: SignKey): Session {
    match pin
    case Refused => s
    case Matches => s.(trustPending := None)
    case Accepted => s
    case Deferred => s.(trustPending := Some(sign))
  }

  /** Sets role and transcript, and sends FINISHED over it. */
  function Confirm(s: Session, role: Role, t: Transcript, sent: seq<HFrame>, written: bool): Handled
    requires s.keys.Some?
  {
    var s' := s.(role := Some(role), transcript := Some(t), peerFinished := false);
    Handled(if written then s'.(finishedSent := true) else s',
            sent + [Finished(Tag(s.keys.value.sendMac, t))], !written)
  }

  /** A well-formed INIT or RESP has been read: its nonce and ephemeral key are kept before any check. */
  function Read(s: Session, nonce: nat, eph: Public): Session {
    s.(peerNonce := Some(nonce), peerPublic := Some(eph))
  }

  function Trusts(s: Session, pin: Pin, sign: SignKey): Session {
    Pinned(s, pin, sign).(peerSign := Some(sign))
  }

  function Draws(s: Session, luck: Luck): Session {
    s.(myPrivate := Some(luck.priv), myPublic := Some(Pub(luck.priv)), myNonce := Some(luck.nonce))
  }

  function InitTranscript(n: Node, peer: Addr, f: HFrame, luck: Luck): Transcript
    requires f.Init?
  {
    Transcript(n.me, peer, f.nonce, f.eph, f.sign, luck.nonce, Pub(luck.priv), n.sign)
  }

  function Answer(n: Node, t: Transcript): HFrame {
    Resp(t.respNonce, t.respEph, n.sign, Signature(n.sign, RespPayload(t)))
  }

  function HandleInit(n: Node, peer: Addr, s: Session, f: HFrame, luck: Luck): Handled
    requires f.Init?
  {
    if s.initiated then Handled(s, [], true)
    else
      var s1 := Read(s, f.nonce, f.eph);
      if f.signature != Signature(f.sign, InitPayload(peer, n.me, f.nonce, f.eph, f.sign)) || luck.pin.Refused? then
        Handled(s1, [], true)
      else AnswerInit(n, Draws(Trusts(s1, luck.pin, f.sign), luck), InitTranscript(n, peer, f, luck), luck)
  }

  function AnswerInit(n: Node, s: Session, t: Transcript, luck: Luck): Handled {
    var s' := InstallKeys(s, Responder);
    if !luck.respWritten || s'.None? then Handled(s, [Answer(n, t)], true)
    else Confirm(s'.value, Responder, t, [Answer(n, t)], luck.finishedWritten)
  }

  function RespTranscript(n: Node, peer: Addr, s: Session, f: HFrame): Transcript
    requires f.Resp? && s.myNonce.Some? && s.myPublic.Some?
  {
    Transcript(peer, n.me, s.myNonce.value, s.myPublic.value, n.sign, f.nonce, f.eph, f.sign)
  }

  function HandleResp(n: Node, peer: Addr, s: Session, f: HFrame, luck: Luck): Handled
    requires f.Resp?
  {
    if !s.initiated || s.myNonce.None? || s.myPublic.None? then Handled(s, [], true)
    else
      var s1, t := Read(s, f.nonce, f.eph), RespTranscript(n, peer, s, f);
      if f.signature != Signature(f.sign, RespPayload(t)) || luck.pin.Refused? then Handled(s1, [], true)
      else ConfirmResp(Trusts(s1, luck.pin, f.sign), t, luck)
  }

  function ConfirmResp(s: Session, t: Transcript, luck: Luck): Handled {
    var s' := InstallKeys(s, Initiator);
    if s'.None? then Handled(s, [], true) else Confirm(s'.value, Initiator, t, [], luck.finishedWritten)
  }

  function Finalize(s: Session, approved: bool): (Session, bool) {
    if s.complete then (s, true)
    else if s.trustPending.Some? && !approved then (s.(trustPending := None), false)
    else
      (s.(trustPending := None, encrypted := true, complete := true, initiated := false, sendSeq := 0, recvSeq := 0),
       true)
  }

  function HandleFinished(s: Session, tag: Tag, luck: Luck): Handled {
    if s.transcript.None? || s.keys.None? || tag != Tag(s.keys.value.recvMac, s.transcript.value) then
      Handled(s, [], true)
    else
      var (s', ok) := Finalize(s.(peerFinished := true), luck.approved);
      Handled(s', [], !ok)
  }

  /** A handshake frame on a session that is already complete is refused before it gets here. */
  function Handle(n: Node, peer: Addr, s: Session, f: HFrame, luck: Luck): Handled {
    if s.complete then Handled(s, [], true)
    else
      match f
      case Init(_, _, _, _) => HandleInit(n, peer, s, f, luck)
      case Resp(_, _, _, _) => HandleResp(n, peer, s, f, luck)
      case Finished(tag) => HandleFinished(s, tag, luck)
      case Malformed => Handled(s, [], true)
  }

  function Initiate(n: Node, peer: Addr, s: Session, luck: Luck): Handled {
    var payload := InitPayload(n.me, peer, luck.nonce, Pub(luck.priv), n.sign);
    Handled(s.(myNonce := Some(luck.nonce), myPrivate := Some(luck.priv), myPublic := Some(Pub(luck.priv)),
               initiated := true),
            [Init(luck.nonce, Pub(luck.priv), n.sign, Signature(n.sign, payload))], false)
  }

  class LivePeerSession {
    const node: Node
    const peer: Addr
    var myNonce: Option<nat>
    var peerNonce: Option<nat>
    var myPrivate: Option<nat>
    var myPublic: Option<Public>
    var peerPublic: Option<Public>
    var peerSign: Option<SignKey>
    var keys: Option<Installed>
    var initiated: bool
    var role: Option<Role>
    var transcript: Option<Transcript>
    var finishedSent: bool
    var peerFinished: bool
    var trustPending: Option<SignKey>
    var encrypted: bool
    var complete: bool
    var sendSeq: nat
    var recvSeq: nat

    constructor (node: Node, peer: Addr)
      ensures this.node == node && this.peer == peer && View() == BLANK
    {
      this.node, this.peer := node, peer;
      myNonce, peerNonce, myPrivate, myPublic, peerPublic, peerSign := None, None, None, None, None, None;
      keys, role, transcript, trustPending := None, None, None, None;
      initiated, finishedSent, peerFinished, encrypted, complete := false, false, false, false, false;
      sendSeq, recvSeq := 0, 0;
    }

    function View(): Session
      reads this
    {
      Session(myNonce, peerNonce, myPrivate, myPublic, peerPublic, peerSign, keys, initiated, role, transcript,
              finishedSent, peerFinished, trustPending, encrypted, complete, sendSeq, recvSeq)
    }

    method ResetCrypto()
      modifies this
      ensures View() == BLANK
    {
      ForgetKeys();
      encrypted := false;
      complete := false;
      initiated := false;
      role := None;
      transcript := None;
      finishedSent := false;
      peerFinished := false;
      trustPending := None;
      sendSeq := 0;
      recvSeq := 0;
    }

    method ForgetKeys()
      modifies this
      ensures View() == old(View()).(myNonce := None, peerNonce := None, myPrivate := None, myPublic := None,
                                     peerPublic := None, peerSign := None, keys := None)
    {
      keys := None;
      myNonce := None;
      peerNonce := None;
      myPrivate := None;
      myPublic := None;
      peerPublic := None;
      peerSign := None;
    }

    method InitiateHandshake(luck: Luck) returns (sent: seq<HFrame>)
      modifies this
      ensures Handled(View(), sent, false) == Initiate(node, peer, old(View()), luck)
    {
      myNonce, myPrivate, myPublic := Some(luck.nonce), Some(luck.priv), Some(Pub(luck.priv));
      initiated := true;
      var payload := InitPayload(node.me, peer, luck.nonce, Pub(luck.priv), node.sign);
      sent := [Init(luck.nonce, Pub(luck.priv), node.sign, Signature(node.sign, payload))];
    }

    method InstallSessionKeys(now: Role) returns (ok: bool)
      modifies this
      ensures ok == InstallKeys(old(View()), now).Some?
      ensures View() == if ok then InstallKeys(old(View()), now).value else old(View())
    {
      if myPrivate.None? || peerPublic.None? || myNonce.None? || peerNonce.None? || peerPublic.value.LowOrder? {
        return false;
      }
      keys := Some(Subkeys(myPrivate.value, peerPublic.value.n,
                           if now.Initiator? then myNonce.value else peerNonce.value,
                           if now.Initiator? then peerNonce.value else myNonce.value, now));
      myPrivate := None;
      ok := true;
    }

    method ReadPayload(nonce: nat, eph: Public)
      modifies this
      ensures View() == Read(old(View()), nonce, eph)
    {
      peerNonce := Some(nonce);
      peerPublic := Some(eph);
    }

    method PinPeerKey(pin: Pin, sign: SignKey)
      modifies this
      ensures View() == Trusts(old(View()), pin, sign)
    {
      if pin.Matches? {
        trustPending := None;
      } else if pin.Deferred? {
        trustPending := Some(sign);
      }
      peerSign := Some(sign);
    }

    method DrawEphemeral(luck: Luck)
      modifies this
      ensures View() == Draws(old(View()), luck)
    {
      myPrivate := Some(luck.priv);
      myPublic := Some(Pub(luck.priv));
      myNonce := Some(luck.nonce);
    }

    method ConfirmKeys(now: Role, t: Transcript, before: seq<HFrame>, written: bool)
      returns (sent: seq<HFrame>, failed: bool)
      requires keys.Some?
      modifies this
      ensures Handled(View(), sent, failed) == Confirm(old(View()), now, t, before, written)
    {
      role, transcript, peerFinished := Some(now), Some(t), false;
      sent := before + [Finished(Tag(keys.value.sendMac, t))];
      if written {
        finishedSent := true;
      }
      failed := !written;
    }

    method FinalizeSecureChannel(approved: bool) returns (ok: bool)
      modifies this
      ensures (View(), ok) == Finalize(old(View()), approved)
    {
      if complete {
        return true;
      }
      if trustPending.Some? {
        trustPending := None;
        if !approved {
          return false;
        }
      }
      encrypted, complete, initiated := true, true, false;
      recvSeq, sendSeq := 0, 0;
      ok := true;
    }

    method HandleInitFrame(f: HFrame, luck: Luck) returns (sent: seq<HFrame>, failed: bool)
      requires f.Init?
      modifies this
      ensures Handled(View(), sent, failed) == HandleInit(node, peer, old(View()), f, luck)
    {
      if initiated {
        return [], true;
      }
      ReadPayload(f.nonce, f.eph);
      if f.signature != Signature(f.sign, InitPayload(peer, node.me, f.nonce, f.eph, f.sign)) || luck.pin.Refused? {
        return [], true;
      }
      PinPeerKey(luck.pin, f.sign);
      DrawEphemeral(luck);
      sent, failed := SendAnswer(InitTranscript(node, peer, f, luck), luck);
    }

    method SendAnswer(t: Transcript, luck: Luck) returns (sent: seq<HFrame>, failed: bool)
      modifies this
      ensures Handled(View(), sent, failed) == AnswerInit(node, old(View()), t, luck)
    {
      sent := [Answer(node, t)];
      if !luck.respWritten {
        return sent, true;
      }
      var ok := InstallSessionKeys(Responder);
      if !ok {
        return sent, true;
      }
      sent, failed := ConfirmKeys(Responder, t, sent, luck.finishedWritten);
    }

    method HandleRespFrame(f: HFrame, luck: Luck) returns (sent: seq<HFrame>, failed: bool)
      requires f.Resp?
      modifies this
      ensures Handled(View(), sent, failed) == HandleResp(node, peer, old(View()), f, luck)
    {
      if !initiated || myNonce.None? || myPublic.None? {
        return [], true;
      }
      ReadPayload(f.nonce, f.eph);
      var t := RespTranscript(node, peer, View(), f);
      if f.signature != Signature(f.sign, RespPayload(t)) || luck.pin.Refused? {
        return [], true;
      }
      PinPeerKey(luck.pin, f.sign);
      sent, failed := InstallAndConfirm(t, luck);
    }

    method InstallAndConfirm(t: Transcript, luck: Luck) returns (sent: seq<HFrame>, failed: bool)
      modifies this
      ensures Handled(View(), sent, failed) == ConfirmResp(old(View()), t, luck)
    {
      var ok := InstallSessionKeys(Initiator);
      if !ok {
        return [], true;
      }
      sent, failed := ConfirmKeys(Initiator, t, [], luck.finishedWritten);
    }

    method HandleHandshakeMessage(f: HFrame, luck: Luck) returns (sent: seq<HFrame>, failed: bool)
      modifies this
      ensures Handled(View(), sent, failed) == Handle(node, peer, old(View()), f, luck)
    {
      if complete {
        return [], true;
      }
      match f
      case Malformed => return [], true;
      case Init(_, _, _, _) => sent, failed := HandleInitFrame(f, luck);
      case Resp(_, _, _, _) => sent, failed := HandleRespFrame(f, luck);
      case Finished(tag) =>
        if transcript.None? || keys.None? || tag != Tag(keys.value.recvMac, transcript.value) {
          return [], true;
        }
        peerFinished := true;
        var ok := FinalizeSecureChannel(luck.approved);
        return [], !ok;
    }
  }
}
