/** What the handshake guarantees against a network that drops, repeats, reorders and forges what it can. */
module HandshakeGuarantees {
  import opened Wrappers
  import opened Text
  import opened Handshake

  // ---------- what the network can know ----------

  /** The signing keys and private numbers that are not honest. */
  datatype Evil = Evil(signKeys: set<SignKey>, privates: set<nat>)

  /** A node put keys in place and sent its FINISHED over this transcript. */
  datatype Install = Install(node: Node, peer: Addr, role: Role, transcript: Transcript)

  /** Everything honest nodes have signed and tagged so far, and where they put keys in place. */
  datatype Known = Known(sigs: set<Signature>, tags: set<Tag>, installs: set<Install>)

  predicate Honest(p: Public, e: Evil) {
    p.Pub? && p.n !in e.privates
  }

  predicate CanSign(sig: Signature, k: Known, e: Evil) {
    sig in k.sigs || sig.signer in e.signKeys
  }

  /** Whoever holds one private number of an exchange knows its keys. */
  predicate CanTag(tag: Tag, k: Known, e: Evil) {
    tag in k.tags || tag.key.low in e.privates || tag.key.high in e.privates
  }

  predicate Derivable(f: HFrame, k: Known, e: Evil) {
    match f
    case Init(_, _, _, signature) => CanSign(signature, k, e)
    case Resp(_, _, _, signature) => CanSign(signature, k, e)
    case Finished(tag) => CanTag(tag, k, e)
    case Malformed => true
  }

  predicate BothPub(t: Transcript) {
    t.initEph.Pub? && t.respEph.Pub?
  }

  /** The keys of a role are a function of the transcript alone. */
  function KeysOf(t: Transcript, role: Role): Installed
    requires BothPub(t)
  {
    Subkeys(t.initEph.n, t.respEph.n, t.initNonce, t.respNonce, role)
  }

  function Opposite(role: Role): Role {
    if role.Initiator? then Responder else Initiator
  }

  function MyEph(t: Transcript, role: Role): Public {
    if role.Initiator? then t.initEph else t.respEph
  }

  function PeerSign(t: Transcript, role: Role): SignKey {
    if role.Initiator? then t.respSign else t.initSign
  }

  /** What the peer must have signed for this transcript to be accepted. */
  function PeerSignature(t: Transcript, role: Role): Signature {
    if role.Initiator? then Signature(t.respSign, RespPayload(t))
    else Signature(t.initSign, InitPayload(t.initiator, t.responder, t.initNonce, t.initEph, t.initSign))
  }

  predicate Names(t: Transcript, role: Role, n: Node, peer: Addr) {
    if role.Initiator? then t.initiator == n.me && t.initSign == n.sign && t.responder == peer
    else t.responder == n.me && t.respSign == n.sign && t.initiator == peer
  }

  ghost predicate TranscriptOk(n: Node, peer: Addr, role: Role, t: Transcript, keys: Installed, k: Known, e: Evil) {
    && BothPub(t) && keys == KeysOf(t, role) && Names(t, role, n, peer)
    && Honest(MyEph(t, role), e) && CanSign(PeerSignature(t, role), k, e)
  }

  ghost predicate SessionOk(n: Node, peer: Addr, s: Session, k: Known, e: Evil) {
    && (s.myPrivate.Some? ==> s.myPublic == Some(Pub(s.myPrivate.value)))
    && (s.myPublic.Some? ==> Honest(s.myPublic.value, e))
    && s.transcript.Some? == s.keys.Some? == s.role.Some?
    && (s.transcript.Some? ==> TranscriptOk(n, peer, s.role.value, s.transcript.value, s.keys.value, k, e))
    && (s.peerFinished ==> s.transcript.Some? && CanTag(Tag(s.keys.value.recvMac, s.transcript.value), k, e))
    && (s.complete ==> s.peerFinished && s.encrypted)
  }

  predicate SignedHonestly(sig: Signature, e: Evil) {
    match sig.payload
    case InitPayload(_, _, _, eph, sign) => sign == sig.signer && Honest(eph, e)
    case RespPayload(t) => t.respSign == sig.signer && Honest(t.respEph, e)
  }

  predicate TagOf(tag: Tag, i: Install) {
    BothPub(i.transcript) && Names(i.transcript, i.role, i.node, i.peer)
    && tag == Tag(KeysOf(i.transcript, i.role).sendMac, i.transcript)
  }

  ghost predicate KnownOk(k: Known, e: Evil) {
    && (forall sig :: sig in k.sigs ==> SignedHonestly(sig, e))
    && (forall tag :: tag in k.tags ==> exists i :: i in k.installs && TagOf(tag, i))
  }

  lemma SharedKeyCommutes(a: nat, b: nat, x: nat, y: nat, p: Purpose)
    ensures SharedKey(a, b, x, y, p) == SharedKey(b, a, x, y, p)
  {
  }

  /** Both roles derive from the same exchange exactly each other's keys. */
  lemma SubkeysMirror(a: nat, b: nat, x: nat, y: nat)
    ensures var i, r := Subkeys(a, b, x, y, Initiator), Subkeys(b, a, x, y, Responder);
            && i.send == r.recv && i.sendMac == r.recvMac && i.recv == r.send && i.recvMac == r.sendMac
            && i.send != i.recv && i.sendMac != i.recvMac
  {
    SharedKeyCommutes(a, b, x, y, EncI2R);
    SharedKeyCommutes(a, b, x, y, MacI2R);
    SharedKeyCommutes(a, b, x, y, EncR2I);
    SharedKeyCommutes(a, b, x, y, MacR2I);
  }

  // ---------- one frame ----------

  function SignaturesIn(sent: seq<HFrame>): set<Signature> {
    set f <- sent | f.Init? || f.Resp? :: f.signature
  }

  function TagsIn(sent: seq<HFrame>): set<Tag> {
    set f <- sent | f.Finished? :: f.tag
  }

  /** What the network learns from one handled frame. */
  function Learn(k: Known, n: Node, peer: Addr, h: Handled): Known {
    var s := h.session;
    Known(k.sigs + SignaturesIn(h.sent), k.tags + TagsIn(h.sent),
          if TagsIn(h.sent) != {} && s.role.Some? && s.transcript.Some? then
            k.installs + {Install(n, peer, s.role.value, s.transcript.value)}
          else k.installs)
  }

  predicate KnownGrows(k: Known, k': Known) {
    k.sigs <= k'.sigs && k.tags <= k'.tags && k.installs <= k'.installs
  }

  lemma StaysOk(n: Node, peer: Addr, s: Session, k: Known, k': Known, e: Evil)
    requires SessionOk(n, peer, s, k, e) && KnownGrows(k, k')
    ensures SessionOk(n, peer, s, k', e)
  {
  }

  lemma InstallMatchesTranscript(s: Session, role: Role, t: Transcript, e: Evil)
    requires s.myPrivate.Some? ==> s.myPublic == Some(Pub(s.myPrivate.value))
    requires InstallKeys(s, role).Some? && Spells(s, role, t)
    ensures BothPub(t) && InstallKeys(s, role).value.keys == Some(KeysOf(t, role))
  {
    SubkeysMirror(t.initEph.n, t.respEph.n, t.initNonce, t.respNonce);
    SubkeysMirror(t.respEph.n, t.initEph.n, t.initNonce, t.respNonce);
  }

  lemma ConfirmOk(n: Node, peer: Addr, s: Session, role: Role, t: Transcript, sent: seq<HFrame>, written: bool,
                  k: Known, e: Evil)
    requires s.myPrivate.None? && (s.myPublic.Some? ==> Honest(s.myPublic.value, e)) && !s.complete && s.keys.Some?
    requires TranscriptOk(n, peer, role, t, s.keys.value, k, e) && KnownOk(k, e)
    requires forall f :: f in sent ==> f.Resp? && SignedHonestly(f.signature, e)
    ensures var h := Confirm(s, role, t, sent, written);
            var k' := Learn(k, n, peer, h);
            SessionOk(n, peer, h.session, k', e) && KnownOk(k', e) && KnownGrows(k, k')
  {
    var h := Confirm(s, role, t, sent, written);
    var k' := Learn(k, n, peer, h);
    var tag, i := Tag(s.keys.value.sendMac, t), Install(n, peer, role, t);
    assert h.sent[|sent|] == Finished(tag);
    assert tag in TagsIn(h.sent) by {
      assert Finished(tag) in h.sent;
    }
    assert i in k'.installs && TagOf(tag, i);
    forall x | x in k'.tags ensures exists j :: j in k'.installs && TagOf(x, j) {
      if x in k.tags {
        var j :| j in k.installs && TagOf(x, j);
        assert j in k'.installs;
      } else {
        assert x == tag;
      }
    }
  }

  /** Frames sent without FINISHED. */
  lemma OnlySignatures(n: Node, peer: Addr, h: Handled, k: Known, e: Evil)
    requires KnownOk(k, e) && SessionOk(n, peer, h.session, k, e)
    requires forall f :: f in h.sent ==> (f.Init? || f.Resp?) && SignedHonestly(f.signature, e)
    ensures var k' := Learn(k, n, peer, h);
            SessionOk(n, peer, h.session, k', e) && KnownOk(k', e) && KnownGrows(k, k')
  {
    var k' := Learn(k, n, peer, h);
    assert TagsIn(h.sent) == {};
    StaysOk(n, peer, h.session, k, k', e);
  }

  ghost predicate HandledOk(n: Node, peer: Addr, h: Handled, k: Known, e: Evil) {
    var k' := Learn(k, n, peer, h);
    SessionOk(n, peer, h.session, k', e) && KnownOk(k', e) && KnownGrows(k, k')
  }

  predicate SameInCore(s: Session, s': Session) {
    && s'.myPrivate == s.myPrivate && s'.myPublic == s.myPublic && s'.keys == s.keys && s'.role == s.role
    && s'.transcript == s.transcript && s'.peerFinished == s.peerFinished
    && s'.complete == s.complete && s'.encrypted == s.encrypted
  }

  lemma ReadAndTrustKeepCore(s: Session, nonce: nat, eph: Public, pin: Pin, sign: SignKey)
    ensures SameInCore(s, Read(s, nonce, eph)) && SameInCore(s, Trusts(Read(s, nonce, eph), pin, sign))
    ensures Trusts(Read(s, nonce, eph), pin, sign).peerPublic == Some(eph)
    ensures Trusts(Read(s, nonce, eph), pin, sign).peerNonce == Some(nonce)
    ensures Trusts(Read(s, nonce, eph), pin, sign).myNonce == s.myNonce
  {
  }

  /** What the invariant looks at is as before. */
  lemma SameCore(n: Node, peer: Addr, s: Session, s': Session, k: Known, e: Evil)
    requires SessionOk(n, peer, s, k, e) && SameInCore(s, s')
    ensures SessionOk(n, peer, s', k, e)
  {
  }

  lemma DrawKeepsOk(n: Node, peer: Addr, s: Session, luck: Luck, k: Known, e: Evil)
    requires SessionOk(n, peer, s, k, e) && luck.priv !in e.privates
    ensures SessionOk(n, peer, Draws(s, luck), k, e)
  {
  }

  lemma Refuses(n: Node, peer: Addr, s: Session, s': Session, k: Known, e: Evil)
    requires SessionOk(n, peer, s, k, e) && KnownOk(k, e) && SameInCore(s, s')
    ensures HandledOk(n, peer, Handled(s', [], true), k, e)
  {
    SameCore(n, peer, s, s', k, e);
    OnlySignatures(n, peer, Handled(s', [], true), k, e);
  }

  /** The transcript names this session's draw and what it has read. */
  predicate Spells(s: Session, role: Role, t: Transcript) {
    var (eph, nonce, peerEph, peerNonce) :=
      if role.Initiator? then (t.initEph, t.initNonce, t.respEph, t.respNonce)
      else (t.respEph, t.respNonce, t.initEph, t.initNonce);
    && s.myPublic == Some(eph) && s.myNonce == Some(nonce)
    && s.peerPublic == Some(peerEph) && s.peerNonce == Some(peerNonce)
  }

  lemma InstallThenConfirm(n: Node, peer: Addr, s: Session, role: Role, t: Transcript, sent: seq<HFrame>, written: bool,
                           k: Known, e: Evil)
    requires SessionOk(n, peer, s, k, e) && KnownOk(k, e) && !s.complete
    requires InstallKeys(s, role).Some? && Spells(s, role, t)
    requires Names(t, role, n, peer) && CanSign(PeerSignature(t, role), k, e)
    requires forall f :: f in sent ==> f.Resp? && SignedHonestly(f.signature, e)
    ensures HandledOk(n, peer, Confirm(InstallKeys(s, role).value, role, t, sent, written), k, e)
  {
    InstallMatchesTranscript(s, role, t, e);
    ConfirmOk(n, peer, InstallKeys(s, role).value, role, t, sent, written, k, e);
  }

  lemma AnswerOk(n: Node, peer: Addr, s: Session, t: Transcript, luck: Luck, k: Known, e: Evil)
    requires SessionOk(n, peer, s, k, e) && KnownOk(k, e) && !s.complete && Spells(s, Responder, t)
    requires Names(t, Responder, n, peer) && CanSign(PeerSignature(t, Responder), k, e)
    ensures HandledOk(n, peer, AnswerInit(n, s, t, luck), k, e)
  {
    if !luck.respWritten || InstallKeys(s, Responder).None? {
      OnlySignatures(n, peer, Handled(s, [Answer(n, t)], true), k, e);
    } else {
      InstallThenConfirm(n, peer, s, Responder, t, [Answer(n, t)], luck.finishedWritten, k, e);
    }
  }

  lemma InitOk(n: Node, peer: Addr, s: Session, f: HFrame, luck: Luck, k: Known, e: Evil)
    requires f.Init? && SessionOk(n, peer, s, k, e) && KnownOk(k, e) && !s.complete
    requires CanSign(f.signature, k, e) && luck.priv !in e.privates
    ensures HandledOk(n, peer, HandleInit(n, peer, s, f, luck), k, e)
  {
    ReadAndTrustKeepCore(s, f.nonce, f.eph, luck.pin, f.sign);
    var h, s1 := HandleInit(n, peer, s, f, luck), Read(s, f.nonce, f.eph);
    if h == Handled(s, [], true) {
      Refuses(n, peer, s, s, k, e);
    } else if h == Handled(s1, [], true) {
      Refuses(n, peer, s, s1, k, e);
    } else {
      var s2, t := Trusts(s1, luck.pin, f.sign), InitTranscript(n, peer, f, luck);
      SameCore(n, peer, s, s2, k, e);
      DrawKeepsOk(n, peer, s2, luck, k, e);
      AnswerOk(n, peer, Draws(s2, luck), t, luck, k, e);
    }
  }

  lemma ConfirmRespOk(n: Node, peer: Addr, s: Session, t: Transcript, luck: Luck, k: Known, e: Evil)
    requires SessionOk(n, peer, s, k, e) && KnownOk(k, e) && !s.complete && Spells(s, Initiator, t)
    requires Names(t, Initiator, n, peer) && CanSign(PeerSignature(t, Initiator), k, e)
    ensures HandledOk(n, peer, ConfirmResp(s, t, luck), k, e)
  {
    if InstallKeys(s, Initiator).None? {
      Refuses(n, peer, s, s, k, e);
    } else {
      InstallThenConfirm(n, peer, s, Initiator, t, [], luck.finishedWritten, k, e);
    }
  }

  lemma RespOk(n: Node, peer: Addr, s: Session, f: HFrame, luck: Luck, k: Known, e: Evil)
    requires f.Resp? && SessionOk(n, peer, s, k, e) && KnownOk(k, e) && !s.complete
    requires CanSign(f.signature, k, e)
    ensures HandledOk(n, peer, HandleResp(n, peer, s, f, luck), k, e)
  {
    ReadAndTrustKeepCore(s, f.nonce, f.eph, luck.pin, f.sign);
    var h, s1 := HandleResp(n, peer, s, f, luck), Read(s, f.nonce, f.eph);
    if h == Handled(s, [], true) {
      Refuses(n, peer, s, s, k, e);
    } else if h == Handled(s1, [], true) {
      Refuses(n, peer, s, s1, k, e);
    } else {
      var s2, t := Trusts(s1, luck.pin, f.sign), RespTranscript(n, peer, s, f);
      SameCore(n, peer, s, s2, k, e);
      ConfirmRespOk(n, peer, s2, t, luck, k, e);
    }
  }

  lemma HandleOk(n: Node, peer: Addr, s: Session, f: HFrame, luck: Luck, k: Known, e: Evil)
    requires SessionOk(n, peer, s, k, e) && KnownOk(k, e) && Derivable(f, k, e) && luck.priv !in e.privates
    ensures HandledOk(n, peer, Handle(n, peer, s, f, luck), k, e)
  {
    if !s.complete && f.Init? {
      InitOk(n, peer, s, f, luck, k, e);
    } else if !s.complete && f.Resp? {
      RespOk(n, peer, s, f, luck, k, e);
    } else {
      OnlySignatures(n, peer, Handle(n, peer, s, f, luck), k, e);
    }
  }

  lemma InitiateOk(n: Node, peer: Addr, s: Session, luck: Luck, k: Known, e: Evil)
    requires SessionOk(n, peer, s, k, e) && KnownOk(k, e) && luck.priv !in e.privates
    ensures HandledOk(n, peer, Initiate(n, peer, s, luck), k, e)
  {
    OnlySignatures(n, peer, Initiate(n, peer, s, luck), k, e);
  }

  // ---------- every run ----------

  datatype Live = Live(node: Node, peer: Addr, session: Session)

  datatype World = World(lives: map<nat, Live>, known: Known)

  datatype Step =
    | Open(id: nat, node: Node, peer: Addr)
    | Start(id: nat, luck: Luck)
    | Deliver(id: nat, frame: HFrame, luck: Luck)
    | Drop(id: nat)

  ghost predicate StepOk(w: World, s: Step, e: Evil) {
    match s
    case Open(id, node, _) => id !in w.lives && node.sign !in e.signKeys
    case Start(id, luck) => id in w.lives && luck.priv !in e.privates
    case Deliver(id, frame, luck) => id in w.lives && luck.priv !in e.privates && Derivable(frame, w.known, e)
    case Drop(_) => true
  }

  function After(w: World, id: nat, h: Handled): World
    requires id in w.lives
  {
    var l := w.lives[id];
    World(w.lives[id := l.(session := h.session)], Learn(w.known, l.node, l.peer, h))
  }

  function Apply(w: World, s: Step): World
    requires s.Start? || s.Deliver? ==> s.id in w.lives
  {
    match s
    case Open(id, node, peer) => w.(lives := w.lives[id := Live(node, peer, BLANK)])
    case Start(id, luck) => After(w, id, Initiate(w.lives[id].node, w.lives[id].peer, w.lives[id].session, luck))
    case Deliver(id, frame, luck) =>
      After(w, id, Handle(w.lives[id].node, w.lives[id].peer, w.lives[id].session, frame, luck))
    case Drop(id) => w.(lives := w.lives - {id})
  }

  ghost predicate RunOk(w: World, steps: seq<Step>, e: Evil)
    decreases |steps|
  {
    steps != [] ==> StepOk(w, steps[0], e) && RunOk(Apply(w, steps[0]), steps[1..], e)
  }

  ghost function Exec(w: World, steps: seq<Step>, e: Evil): World
    requires RunOk(w, steps, e)
    decreases |steps|
  {
    if steps == [] then w else Exec(Apply(w, steps[0]), steps[1..], e)
  }

  const EMPTY := World(map[], Known({}, {}, {}))

  ghost predicate LiveOk(l: Live, k: Known, e: Evil) {
    SessionOk(l.node, l.peer, l.session, k, e)
  }

  ghost predicate Inv(w: World, e: Evil) {
    KnownOk(w.known, e) && forall id :: id in w.lives ==> LiveOk(w.lives[id], w.known, e)
  }

  lemma AfterKeepsInv(w: World, id: nat, h: Handled, e: Evil)
    requires Inv(w, e) && id in w.lives && HandledOk(w.lives[id].node, w.lives[id].peer, h, w.known, e)
    ensures Inv(After(w, id, h), e)
  {
    var w' := After(w, id, h);
    forall x | x in w'.lives ensures LiveOk(w'.lives[x], w'.known, e) {
      if x != id {
        assert LiveOk(w.lives[x], w.known, e);
        StaysOk(w.lives[x].node, w.lives[x].peer, w.lives[x].session, w.known, w'.known, e);
      }
    }
  }

  lemma StepKeepsInv(w: World, s: Step, e: Evil)
    requires Inv(w, e) && StepOk(w, s, e)
    ensures Inv(Apply(w, s), e)
  {
    if s.Start? || s.Deliver? {
      var l := w.lives[s.id];
      assert LiveOk(l, w.known, e);
      if s.Start? {
        InitiateOk(l.node, l.peer, l.session, s.luck, w.known, e);
        AfterKeepsInv(w, s.id, Initiate(l.node, l.peer, l.session, s.luck), e);
      } else {
        HandleOk(l.node, l.peer, l.session, s.frame, s.luck, w.known, e);
        AfterKeepsInv(w, s.id, Handle(l.node, l.peer, l.session, s.frame, s.luck), e);
      }
    } else {
      var w' := Apply(w, s);
      forall x | x in w'.lives ensures LiveOk(w'.lives[x], w'.known, e) {
        assert x in w.lives ==> LiveOk(w.lives[x], w.known, e);
      }
    }
  }

  lemma {:induction false} RunKeepsInv(w: World, steps: seq<Step>, e: Evil)
    requires Inv(w, e) && RunOk(w, steps, e)
    ensures Inv(Exec(w, steps, e), e)
    decreases |steps|
  {
    if steps != [] {
      StepKeepsInv(w, steps[0], e);
      RunKeepsInv(Apply(w, steps[0]), steps[1..], e);
    }
  }

  // ---------- the guarantees ----------

  /** The peer, in the opposite role, has put keys in place for the same transcript. */
  ghost predicate PeerConfirmed(n: Node, peer: Addr, t: Transcript, role: Role, k: Known) {
    Install(Node(peer, PeerSign(t, role)), n.me, Opposite(role), t) in k.installs
  }

  lemma TagMeansInstall(n: Node, peer: Addr, role: Role, t: Transcript, k: Known, e: Evil)
    requires KnownOk(k, e) && BothPub(t) && Names(t, role, n, peer) && Honest(MyEph(t, role), e)
    requires PeerSignature(t, role) in k.sigs
    requires CanTag(Tag(KeysOf(t, role).recvMac, t), k, e)
    ensures PeerConfirmed(n, peer, t, role, k)
  {
    var tag := Tag(KeysOf(t, role).recvMac, t);
    assert SignedHonestly(PeerSignature(t, role), e);
    assert tag in k.tags;
    var i :| i in k.installs && TagOf(tag, i);
    assert i == Install(Node(peer, PeerSign(t, role)), n.me, Opposite(role), t);
  }

  /**
    In every run, a complete session has its keys in place, exactly those of its transcript, and a
    verified FINISHED; and if the peer's signing key is honest, that peer has put the mirrored keys in
    place for the very same transcript.
   */
  lemma CompleteMeansAgreement(steps: seq<Step>, e: Evil, id: nat)
    requires RunOk(EMPTY, steps, e) && id in Exec(EMPTY, steps, e).lives
    requires Exec(EMPTY, steps, e).lives[id].session.complete
    ensures var l := Exec(EMPTY, steps, e).lives[id];
            var s := l.session;
            && s.peerFinished && s.encrypted && s.keys.Some? && s.transcript.Some? && s.role.Some?
            && BothPub(s.transcript.value) && s.keys.value == KeysOf(s.transcript.value, s.role.value)
            && Names(s.transcript.value, s.role.value, l.node, l.peer)
            && (PeerSign(s.transcript.value, s.role.value) !in e.signKeys ==>
                  PeerConfirmed(l.node, l.peer, s.transcript.value, s.role.value, Exec(EMPTY, steps, e).known))
  {
    RunKeepsInv(EMPTY, steps, e);
    var w := Exec(EMPTY, steps, e);
    var l := w.lives[id];
    var s := l.session;
    assert LiveOk(l, w.known, e);
    if PeerSign(s.transcript.value, s.role.value) !in e.signKeys {
      TagMeansInstall(l.node, l.peer, s.role.value, s.transcript.value, w.known, e);
    }
  }

  /** Two sessions over the same transcript in opposite roles: what one sends with, the other receives with. */
  lemma SameTranscriptSameKeys(t: Transcript)
    requires BothPub(t)
    ensures var i, r := KeysOf(t, Initiator), KeysOf(t, Responder);
            i.send == r.recv && i.sendMac == r.recvMac && i.recv == r.send && i.recvMac == r.sendMac
    ensures KeysOf(t, Initiator).send != KeysOf(t, Initiator).recv
  {
    SubkeysMirror(t.initEph.n, t.respEph.n, t.initNonce, t.respNonce);
    SubkeysMirror(t.respEph.n, t.initEph.n, t.initNonce, t.respNonce);
  }

  /** Different transcripts never share a key. */
  lemma KeysNameTheExchange(t: Transcript, t': Transcript, role: Role, role': Role)
    requires BothPub(t) && BothPub(t') && KeysOf(t, role).sendMac == KeysOf(t', role').sendMac
    ensures role == role' && t.initNonce == t'.initNonce && t.respNonce == t'.respNonce
    ensures {t.initEph, t.respEph} == {t'.initEph, t'.respEph}
  {
    var k, k' := KeysOf(t, role).sendMac, KeysOf(t', role').sendMac;
    assert {t.initEph, t.respEph} == {Pub(k.low), Pub(k.high)};
    assert {t'.initEph, t'.respEph} == {Pub(k'.low), Pub(k'.high)};
  }

  // ---------- the honest exchange ----------

  function Smooth(priv: nat, nonce: nat): Luck {
    Luck(priv, nonce, Matches, true, true, true)
  }

  /** Undisturbed, the exchange completes on both sides over one transcript. */
  lemma HonestExchangeCompletes(a: Node, b: Node, x: nat, nx: nat, y: nat, ny: nat)
    ensures var h1 := Initiate(a, b.me, BLANK, Smooth(x, nx));
            var h2 := Handle(b, a.me, BLANK, h1.sent[0], Smooth(y, ny));
            && !h2.failed && |h2.sent| == 2
            && var h3 := Handle(a, b.me, h1.session, h2.sent[0], Smooth(0, 0));
               && !h3.failed && |h3.sent| == 1
               && var a' := Handle(a, b.me, h3.session, h2.sent[1], Smooth(0, 0));
                  var b' := Handle(b, a.me, h2.session, h3.sent[0], Smooth(0, 0));
                  && !a'.failed && !b'.failed && a'.session.complete && b'.session.complete
                  && a'.session.transcript == b'.session.transcript
                  && a'.session.role == Some(Initiator) && b'.session.role == Some(Responder)
                  && a'.session.myPrivate.None? && b'.session.myPrivate.None?
  {
    SubkeysMirror(x, y, nx, ny);
    var h1 := Initiate(a, b.me, BLANK, Smooth(x, nx));
    var h2 := Handle(b, a.me, BLANK, h1.sent[0], Smooth(y, ny));
    assert h2.session.keys == Some(Subkeys(y, x, nx, ny, Responder));
    var h3 := Handle(a, b.me, h1.session, h2.sent[0], Smooth(0, 0));
    assert h3.session.keys == Some(Subkeys(x, y, nx, ny, Initiator));
  }

  // ---------- when the private number is gone ----------

  /** One handshake event of a session: starting it, or handling a frame. */
  datatype Happening = Starts(luck: Luck) | Arrives(frame: HFrame, luck: Luck)

  function Happen(n: Node, peer: Addr, s: Session, h: Happening): Session {
    match h
    case Starts(luck) => Initiate(n, peer, s, luck).session
    case Arrives(f, luck) => Handle(n, peer, s, f, luck).session
  }

  function HappenAll(n: Node, peer: Addr, s: Session, hs: seq<Happening>): Session
    decreases |hs|
  {
    if hs == [] then s else HappenAll(n, peer, Happen(n, peer, s, hs[0]), hs[1..])
  }

  /** An INIT that passes every check: its answer is made. */
  predicate AcceptsInit(n: Node, peer: Addr, s: Session, h: Happening) {
    && h.Arrives? && h.frame.Init? && !s.complete && !s.initiated && !h.luck.pin.Refused?
    && h.frame.signature == Signature(h.frame.sign, InitPayload(peer, n.me, h.frame.nonce, h.frame.eph, h.frame.sign))
  }

  predicate AcceptsResp(n: Node, peer: Addr, s: Session, h: Happening) {
    && h.Arrives? && h.frame.Resp? && !s.complete && s.initiated && s.myNonce.Some? && s.myPublic.Some?
    && !h.luck.pin.Refused?
    && h.frame.signature == Signature(h.frame.sign, RespPayload(RespTranscript(n, peer, s, h.frame)))
  }

  /** Its RESP is written and its ephemeral key can be used. */
  predicate GoesThrough(h: Happening)
    requires h.Arrives? && h.frame.Init?
  {
    h.luck.respWritten && h.frame.eph.Pub?
  }

  /** Keys are in place, and a new private number is drawn that is not used up. */
  predicate Breaks(n: Node, peer: Addr, s: Session, h: Happening) {
    s.keys.Some? && (h.Starts? || (AcceptsInit(n, peer, s, h) && !GoesThrough(h)))
  }

  /** An exchange whose installation succeeds. */
  predicate Repairs(n: Node, peer: Addr, s: Session, h: Happening) {
    || (AcceptsInit(n, peer, s, h) && GoesThrough(h))
    || (AcceptsResp(n, peer, s, h) && h.frame.eph.Pub?)
  }

  /** Keys are in place beside a private number. */
  predicate LeftOver(s: Session) {
    s.keys.Some? && s.myPrivate.Some?
  }

  lemma InitLeaves(n: Node, peer: Addr, s: Session, h: Happening)
    requires h.Arrives? && h.frame.Init? && !s.complete
    ensures var s' := Happen(n, peer, s, h);
            && (!AcceptsInit(n, peer, s, h) ==> s'.keys == s.keys && s'.myPrivate == s.myPrivate)
            && (AcceptsInit(n, peer, s, h) && GoesThrough(h) ==> s'.keys.Some? && s'.myPrivate.None?)
            && (AcceptsInit(n, peer, s, h) && !GoesThrough(h) ==> s'.keys == s.keys && s'.myPrivate.Some?)
  {
    ReadAndTrustKeepCore(s, h.frame.nonce, h.frame.eph, h.luck.pin, h.frame.sign);
  }

  lemma RespLeaves(n: Node, peer: Addr, s: Session, h: Happening)
    requires h.Arrives? && h.frame.Resp? && !s.complete
    ensures var s' := Happen(n, peer, s, h);
            if AcceptsResp(n, peer, s, h) && h.frame.eph.Pub? && s.myPrivate.Some? then
              s'.keys.Some? && s'.myPrivate.None?
            else s'.keys == s.keys && s'.myPrivate == s.myPrivate
  {
    ReadAndTrustKeepCore(s, h.frame.nonce, h.frame.eph, h.luck.pin, h.frame.sign);
  }

  /** One event: exactly what leaves a private number beside keys, and exactly what removes it. */
  lemma EventLeavesIff(n: Node, peer: Addr, s: Session, h: Happening)
    ensures LeftOver(Happen(n, peer, s, h)) <==>
              Breaks(n, peer, s, h) || (LeftOver(s) && !Repairs(n, peer, s, h))
  {
    if h.Arrives? && !s.complete && h.frame.Init? {
      InitLeaves(n, peer, s, h);
    } else if h.Arrives? && !s.complete && h.frame.Resp? {
      RespLeaves(n, peer, s, h);
    }
  }

  /** The session as the `k`-th event finds it. */
  function Before(n: Node, peer: Addr, s: Session, hs: seq<Happening>, k: nat): Session
    requires k <= |hs|
  {
    HappenAll(n, peer, s, hs[..k])
  }

  lemma {:induction false} HappenLast(n: Node, peer: Addr, s: Session, hs: seq<Happening>)
    requires hs != []
    ensures HappenAll(n, peer, s, hs) == Happen(n, peer, Before(n, peer, s, hs, |hs| - 1), hs[|hs| - 1])
    decreases |hs|
  {
    if |hs| > 1 {
      var rest := hs[1..];
      HappenLast(n, peer, Happen(n, peer, s, hs[0]), rest);
      assert hs[..|hs| - 1][1..] == rest[..|rest| - 1];
    } else {
      assert hs[1..] == [] && hs[..0] == [];
    }
  }

  /** Event `k` leaves a private number beside keys, and no later exchange puts new keys in place. */
  ghost predicate LastsFrom(n: Node, peer: Addr, s: Session, hs: seq<Happening>, k: nat)
    requires k < |hs|
  {
    && Breaks(n, peer, Before(n, peer, s, hs, k), hs[k])
    && forall j :: k < j < |hs| ==> !Repairs(n, peer, Before(n, peer, s, hs, j), hs[j])
  }

  lemma SamePrefix(n: Node, peer: Addr, s: Session, hs: seq<Happening>, m: nat, k: nat)
    requires k <= m <= |hs|
    ensures Before(n, peer, s, hs[..m], k) == Before(n, peer, s, hs, k)
  {
    assert hs[..m][..k] == hs[..k];
  }

  lemma LastsOneMore(n: Node, peer: Addr, s: Session, hs: seq<Happening>, k: nat)
    requires k + 1 < |hs|
    ensures LastsFrom(n, peer, s, hs, k) <==>
              LastsFrom(n, peer, s, hs[..|hs| - 1], k)
              && !Repairs(n, peer, Before(n, peer, s, hs, |hs| - 1), hs[|hs| - 1])
  {
    var m := |hs| - 1;
    forall j | k <= j < m ensures Before(n, peer, s, hs[..m], j) == Before(n, peer, s, hs, j) {
      SamePrefix(n, peer, s, hs, m, j);
    }
  }

  /**
    Over every run of a session: a private number stands beside installed keys at the end exactly if some
    event left one there, a start or an INIT that was accepted but did not go through while keys were in
    place, and no exchange went through after it.
   */
  lemma {:induction false} LeftOverIff(n: Node, peer: Addr, s: Session, hs: seq<Happening>)
    requires !LeftOver(s)
    ensures LeftOver(HappenAll(n, peer, s, hs)) <==> exists k :: 0 <= k < |hs| && LastsFrom(n, peer, s, hs, k)
    decreases |hs|
  {
    if hs != [] {
      var m := |hs| - 1;
      HappenLast(n, peer, s, hs);
      EventLeavesIff(n, peer, Before(n, peer, s, hs, m), hs[m]);
      LeftOverIff(n, peer, s, hs[..m]);
      if LeftOver(HappenAll(n, peer, s, hs)) {
        if Breaks(n, peer, Before(n, peer, s, hs, m), hs[m]) {
          assert LastsFrom(n, peer, s, hs, m);
        } else {
          var k :| 0 <= k < m && LastsFrom(n, peer, s, hs[..m], k);
          LastsOneMore(n, peer, s, hs, k);
        }
      }
      if k :| 0 <= k < |hs| && LastsFrom(n, peer, s, hs, k) {
        if k < m {
          LastsOneMore(n, peer, s, hs, k);
        }
      }
    }
  }

  lemma CompleteHasKeys(n: Node, peer: Addr, s: Session, h: Happening)
    requires (s.complete ==> s.keys.Some?)
    ensures var s' := Happen(n, peer, s, h); s'.complete ==> s'.keys.Some?
  {
    if h.Arrives? && !s.complete && h.frame.Init? {
      InitLeaves(n, peer, s, h);
    } else if h.Arrives? && !s.complete && h.frame.Resp? {
      RespLeaves(n, peer, s, h);
    }
  }

  lemma {:induction false} RunCompleteHasKeys(n: Node, peer: Addr, s: Session, hs: seq<Happening>)
    requires s.complete ==> s.keys.Some?
    ensures var s' := HappenAll(n, peer, s, hs); s'.complete ==> s'.keys.Some?
    decreases |hs|
  {
    if hs != [] {
      CompleteHasKeys(n, peer, s, hs[0]);
      RunCompleteHasKeys(n, peer, Happen(n, peer, s, hs[0]), hs[1..]);
    }
  }

  /** A complete session has its private number erased, exactly unless such an event came last. */
  lemma CompleteIsErasedIff(n: Node, peer: Addr, hs: seq<Happening>)
    requires HappenAll(n, peer, BLANK, hs).complete
    ensures HappenAll(n, peer, BLANK, hs).myPrivate.None? <==>
              forall k :: 0 <= k < |hs| ==> !LastsFrom(n, peer, BLANK, hs, k)
  {
    RunCompleteHasKeys(n, peer, BLANK, hs);
    LeftOverIff(n, peer, BLANK, hs);
  }

  /** An INIT whose RESP cannot be written, after keys are in place, leaves a new one in a complete session. */
  lemma InterruptedLeavesPrivate(n: Node, peer: Addr, sign: SignKey)
    ensures var init := Init(1, Pub(2), sign, Signature(sign, InitPayload(peer, n.me, 1, Pub(2), sign)));
            var s1 := Handle(n, peer, BLANK, init, Smooth(3, 4)).session;
            var s2 := Handle(n, peer, s1, init, Smooth(5, 6).(respWritten := false)).session;
            && s1.keys.Some? && s1.transcript.Some?
            && var s3 := Handle(n, peer, s2, Finished(Tag(s1.keys.value.recvMac, s1.transcript.value)),
                                Smooth(0, 0)).session;
               s3.complete && s3.myPrivate == Some(5)
  {
  }

  // ---------- the signed text ----------

  function EphText(p: Public): string {
    if p.Pub? then Hex(p.n, 64) else Hex(0, 64)
  }

  const RESP_PREFIX := "I2PCHAT-HS3|RESP|"

  function RespTail(t: Transcript): string {
    Hex(t.initNonce, 64) + ['|'] + (EphText(t.initEph) + ['|'] + (Hex(t.initSign, 64) + ['|']
      + (Hex(t.respNonce, 64) + ['|'] + (EphText(t.respEph) + ['|'] + Hex(t.respSign, 64)))))
  }

  /** The text that RESP signs, and that FINISHED confirms. */
  function RespText(t: Transcript): string {
    RESP_PREFIX + (t.responder + ['|'] + (t.initiator + ['|'] + RespTail(t)))
  }

  predicate Fits(p: Public) {
    p.Pub? && 0 < p.n < Pow16(64)
  }

  predicate FitsText(t: Transcript) {
    && '|' !in t.responder && '|' !in t.initiator
    && t.initNonce < Pow16(64) && t.respNonce < Pow16(64) && t.initSign < Pow16(64) && t.respSign < Pow16(64)
    && Fits(t.initEph) && Fits(t.respEph)
  }

  lemma {:induction false} HexHasNoBar(n: nat, width: nat)
    ensures '|' !in Hex(n, width)
  {
    if width > 0 {
      HexHasNoBar(n / 16, width - 1);
      DigitsRead(n % 16);
    }
  }

  lemma HexField(n: nat, x: string, n': nat, x': string)
    requires n < Pow16(64) && n' < Pow16(64)
    requires Hex(n, 64) + ['|'] + x == Hex(n', 64) + ['|'] + x'
    ensures n == n' && x == x'
  {
    HexHasNoBar(n, 64);
    HexHasNoBar(n', 64);
    FieldInjective(Hex(n, 64), x, Hex(n', 64), x', '|');
    HexReads(n, 64);
    HexReads(n', 64);
  }

  lemma TailInjective(t: Transcript, t': Transcript)
    requires FitsText(t) && FitsText(t') && RespTail(t) == RespTail(t')
    ensures t.initNonce == t'.initNonce && t.initEph == t'.initEph && t.initSign == t'.initSign
    ensures t.respNonce == t'.respNonce && t.respEph == t'.respEph && t.respSign == t'.respSign
  {
    var z, z' := Hex(t.respSign, 64), Hex(t'.respSign, 64);
    var y, y' := Hex(t.respEph.n, 64) + ['|'] + z, Hex(t'.respEph.n, 64) + ['|'] + z';
    var x, x' := Hex(t.respNonce, 64) + ['|'] + y, Hex(t'.respNonce, 64) + ['|'] + y';
    var v, v' := Hex(t.initSign, 64) + ['|'] + x, Hex(t'.initSign, 64) + ['|'] + x';
    var u, u' := Hex(t.initEph.n, 64) + ['|'] + v, Hex(t'.initEph.n, 64) + ['|'] + v';
    HexField(t.initNonce, u, t'.initNonce, u');
    HexField(t.initEph.n, v, t'.initEph.n, v');
    HexField(t.initSign, x, t'.initSign, x');
    HexField(t.respNonce, y, t'.respNonce, y');
    HexField(t.respEph.n, z, t'.respEph.n, z');
    HexReads(t.respSign, 64);
    HexReads(t'.respSign, 64);
  }

  /** For addresses without the separator, the signed text determines the whole transcript. */
  lemma TranscriptTextInjective(t: Transcript, t': Transcript)
    requires FitsText(t) && FitsText(t') && RespText(t) == RespText(t')
    ensures t == t'
  {
    var y, y' := t.initiator + ['|'] + RespTail(t), t'.initiator + ['|'] + RespTail(t');
    var x, x' := t.responder + ['|'] + y, t'.responder + ['|'] + y';
    assert RespText(t)[|RESP_PREFIX|..] == x && RespText(t')[|RESP_PREFIX|..] == x';
    FieldInjective(t.responder, y, t'.responder, y', '|');
    FieldInjective(t.initiator, RespTail(t), t'.initiator, RespTail(t'), '|');
    TailInjective(t, t');
  }
}
