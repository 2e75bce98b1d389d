/**
  Simultaneous connect: two nodes may dial each other at once, each keeps one session slot for the other,
  and the smaller id keeps its own dial. Every interleaving of connecting, accepting, yielding and
  closing is a run of the step system.
 */
module TieBreak {
  import opened Text

  /** The slot a node keeps for its peer: a dial under way, a session it dialled, or one it accepted. */
  datatype Slot = Empty | Dialing | LiveOut | LiveIn

  /** The dialling end of a node's own stream. */
  datatype Dial = Idle | Connecting | Prefaced | Open | Closed

  /** The accepting end of its peer's stream. */
  datatype Accept = Unseen | Held | Gone

  /** `sent`: its preface can be read by the peer. `met`: it has held the peer's stream at some time. */
  datatype Node = Node(slot: Slot, dial: Dial, sent: bool, accept: Accept, met: bool)

  const FRESH := Node(Empty, Idle, false, Unseen, false)

  /** True where the incoming session is to replace one that is not complete. */
  predicate PreferIncoming(local: string, peer: string) {
    local == "" || peer == "" || Before(peer, local)
  }

  /** Of two distinct known ids exactly one prefers the incoming session: the larger one. */
  lemma ExactlyOneYields(a: string, b: string)
    requires a != b && a != "" && b != ""
    ensures PreferIncoming(a, b) <==> !PreferIncoming(b, a)
    ensures PreferIncoming(a, b) <==> Before(b, a)
  {
    BeforeIsTotal(a, b);
  }

  // ---------- what one node does ----------

  function Dials(n: Node): Node {
    if n.slot.Empty? && n.dial.Idle? then n.(slot := Dialing, dial := Connecting) else n
  }

  /** The connection is up; the preface goes out only if the slot is still this dial's. */
  function ConnectReturns(n: Node): Node {
    if n.slot.Dialing? then n.(dial := Prefaced, sent := true) else n.(dial := Closed)
  }

  function Settles(n: Node): Node {
    if n.slot.Dialing? then n.(dial := Open, slot := LiveOut) else n.(dial := Closed)
  }

  /** Whatever session is in the slot by then is dropped from it. */
  function ConnectFails(n: Node): Node {
    n.(dial := Closed, slot := Empty)
  }

  /** `secure`: the session in the slot has completed its handshake. */
  function Accepts(n: Node, prefersIncoming: bool, secure: bool): Node {
    if n.slot.Empty? then n.(slot := LiveIn, accept := Held, met := true)
    else if secure || !prefersIncoming then n.(accept := Gone)
    else n.(slot := LiveIn, accept := Held, met := true, dial := if n.slot.LiveOut? then Closed else n.dial)
  }

  /** The receive loop of a stream ends: its end is closed and the slot is emptied. */
  function Ends(n: Node, outgoing: bool): Node {
    if outgoing then n.(dial := Closed, slot := Empty) else n.(accept := Gone, slot := Empty)
  }

  class Endpoint {
    const prefersIncoming: bool
    var slot: Slot
    var dial: Dial
    var sent: bool
    var accept: Accept
    var met: bool

    constructor (local: string, peer: string)
      ensures View() == FRESH && prefersIncoming == PreferIncoming(local, peer)
    {
      prefersIncoming := PreferIncoming(local, peer);
      slot, dial, sent, accept, met := Empty, Idle, false, Unseen, false;
    }

    function View(): Node
      reads this
    {
      Node(slot, dial, sent, accept, met)
    }

    method StartConnect()
      modifies this
      ensures View() == Dials(old(View()))
    {
      if slot.Empty? && dial.Idle? {
        slot := Dialing;
        dial := Connecting;
      }
    }

    method OnConnected()
      modifies this
      ensures View() == ConnectReturns(old(View()))
    {
      if !slot.Dialing? {
        dial := Closed;
        return;
      }
      dial := Prefaced;
      sent := true;
    }

    method OnPrefaceWritten()
      modifies this
      ensures View() == Settles(old(View()))
    {
      if !slot.Dialing? {
        dial := Closed;
        return;
      }
      dial := Open;
      slot := LiveOut;
    }

    method OnConnectFailed()
      modifies this
      ensures View() == ConnectFails(old(View()))
    {
      slot := Empty;
      dial := Closed;
    }

    method YieldSlot()
      modifies this
      ensures View() == old(View()).(slot := Empty, dial := if old(slot).LiveOut? then Closed else old(dial))
    {
      if slot.LiveOut? {
        dial := Closed;
      }
      slot := Empty;
    }

    method OnIncoming(secure: bool)
      modifies this
      ensures View() == Accepts(old(View()), prefersIncoming, secure)
    {
      if !slot.Empty? {
        if secure || !prefersIncoming {
          accept := Gone;
          return;
        }
        YieldSlot();
      }
      slot := LiveIn;
      accept := Held;
      met := true;
    }

    method OnStreamEnd(outgoing: bool)
      modifies this
      ensures View() == Ends(old(View()), outgoing)
    {
      if outgoing {
        dial := Closed;
      } else {
        accept := Gone;
      }
      slot := Empty;
    }
  }

  // ---------- two nodes ----------

  datatype Side = Small | Large

  /** `failed`: a dial of the smaller id failed; `killed`: a late failure dropped an accepted session; `broke`. */
  datatype World = World(small: Node, large: Node, failed: bool, killed: bool, broke: bool)

  datatype Step =
    | Start(side: Side)
    | Return(side: Side)
    | Settle(side: Side)
    | Fail(side: Side)
    | Incoming(side: Side, secure: bool)
    | Notice(side: Side, outgoing: bool)
    | Orphan(side: Side, outgoing: bool)
    | Break(side: Side, outgoing: bool)

  function Of(w: World, side: Side): Node {
    if side.Small? then w.small else w.large
  }

  function Peer(w: World, side: Side): Node {
    if side.Small? then w.large else w.small
  }

  function With(w: World, side: Side, n: Node): World {
    if side.Small? then w.(small := n) else w.(large := n)
  }

  predicate EndOpen(n: Node, outgoing: bool) {
    if outgoing then n.dial.Open? else n.accept.Held?
  }

  predicate InSlot(n: Node, outgoing: bool) {
    if outgoing then n.slot.LiveOut? else n.slot.LiveIn?
  }

  /** The other end of that stream has been closed. */
  predicate OtherEndClosed(peer: Node, outgoing: bool) {
    if outgoing then peer.accept.Gone? else peer.dial.Closed?
  }

  /** Whether a step can happen at a node, given its peer. */
  predicate CanStep(n: Node, peer: Node, s: Step) {
    match s
    case Start(_) => n.dial.Idle? && n.slot.Empty?
    case Return(_) => n.dial.Connecting?
    case Settle(_) => n.dial.Prefaced?
    case Fail(_) => n.dial.Connecting? || n.dial.Prefaced?
    case Incoming(_, secure) => peer.sent && n.accept.Unseen? && (secure ==> n.slot.LiveOut? && peer.met)
    case Notice(_, outgoing) => EndOpen(n, outgoing) && OtherEndClosed(peer, outgoing)
    case Orphan(_, outgoing) => EndOpen(n, outgoing) && !InSlot(n, outgoing)
    case Break(_, outgoing) => EndOpen(n, outgoing) && InSlot(n, outgoing)
  }

  function Local(n: Node, s: Step): Node {
    match s
    case Start(_) => Dials(n)
    case Return(_) => ConnectReturns(n)
    case Settle(_) => Settles(n)
    case Fail(_) => ConnectFails(n)
    case Incoming(side, secure) => Accepts(n, side.Large?, secure)
    case Notice(_, outgoing) => Ends(n, outgoing)
    case Orphan(_, outgoing) => Ends(n, outgoing)
    case Break(_, outgoing) => Ends(n, outgoing)
  }

  predicate StepOk(w: World, s: Step) {
    CanStep(Of(w, s.side), Peer(w, s.side), s)
  }

  function Apply(w: World, s: Step): World {
    With(w, s.side, Local(Of(w, s.side), s))
    .(failed := w.failed || (s.Fail? && s.side.Small?), killed := w.killed || (s.Fail? && Of(w, s.side).slot.LiveIn?),
      broke := w.broke || s.Break?)
  }

  ghost predicate RunOk(w: World, steps: seq<Step>)
    decreases |steps|
  {
    steps != [] ==> StepOk(w, steps[0]) && RunOk(Apply(w, steps[0]), steps[1..])
  }

  function Exec(w: World, steps: seq<Step>): World
    decreases |steps|
  {
    if steps == [] then w else Exec(Apply(w, steps[0]), steps[1..])
  }

  const APART := World(FRESH, FRESH, false, false, false)

  // ---------- invariants ----------

  predicate NodeOk(n: Node, peer: Node) {
    && (n.slot.Dialing? ==> n.dial.Connecting? || n.dial.Prefaced?)
    && (n.slot.LiveOut? ==> n.dial.Open?) && (n.slot.LiveIn? ==> n.accept.Held?)
    && (n.dial.Prefaced? || n.dial.Open? ==> n.sent) && (n.dial.Idle? ==> !n.sent)
    && (!n.accept.Unseen? ==> peer.sent) && (n.accept.Held? ==> n.met) && (n.met ==> !n.accept.Unseen?)
  }

  predicate Inv(w: World) {
    NodeOk(w.small, w.large) && NodeOk(w.large, w.small)
  }

  lemma LocalKeepsOk(n: Node, peer: Node, s: Step)
    requires NodeOk(n, peer) && NodeOk(peer, n) && CanStep(n, peer, s)
    ensures NodeOk(Local(n, s), peer) && NodeOk(peer, Local(n, s))
  {
  }

  lemma StepKeepsInv(w: World, s: Step)
    requires Inv(w) && StepOk(w, s)
    ensures Inv(Apply(w, s))
  {
    LocalKeepsOk(Of(w, s.side), Peer(w, s.side), s);
  }

  lemma {:induction false} RunKeepsInv(w: World, steps: seq<Step>)
    requires Inv(w) && RunOk(w, steps)
    ensures Inv(Exec(w, steps))
    decreases |steps|
  {
    if steps != [] {
      StepKeepsInv(w, steps[0]);
      RunKeepsInv(Apply(w, steps[0]), steps[1..]);
    }
  }

  // ---------- every run comes to rest ----------

  function Pending(n: Node): nat {
    (match n.dial case Idle => 4 case Connecting => 3 case Prefaced => 2 case Open => 1 case Closed => 0)
    + (match n.accept case Unseen => 2 case Held => 1 case Gone => 0)
  }

  function Work(w: World): nat {
    Pending(w.small) + Pending(w.large)
  }

  lemma LocalUsesUpWork(n: Node, peer: Node, s: Step)
    requires NodeOk(n, peer) && CanStep(n, peer, s)
    ensures Pending(Local(n, s)) < Pending(n)
  {
  }

  /** Every step uses up work, so every run is finite. */
  lemma StepsUseUpWork(w: World, s: Step)
    requires Inv(w) && StepOk(w, s)
    ensures Work(Apply(w, s)) < Work(w)
  {
    LocalUsesUpWork(Of(w, s.side), Peer(w, s.side), s);
  }

  lemma {:induction false} RunsAreShort(w: World, steps: seq<Step>)
    requires Inv(w) && RunOk(w, steps)
    ensures |steps| + Work(Exec(w, steps)) <= Work(w)
    decreases |steps|
  {
    if steps != [] {
      StepKeepsInv(w, steps[0]);
      StepsUseUpWork(w, steps[0]);
      RunsAreShort(Apply(w, steps[0]), steps[1..]);
    }
  }

  /** At rest: no step is left but a new dial or a session breaking of itself. */
  ghost predicate AtRest(w: World) {
    forall s :: StepOk(w, s) ==> s.Start? || s.Break?
  }

  predicate NodeAtRest(n: Node, peer: Node) {
    && !n.dial.Connecting? && !n.dial.Prefaced? && !(peer.sent && n.accept.Unseen?)
    && (forall outgoing :: EndOpen(n, outgoing) ==> InSlot(n, outgoing) && !OtherEndClosed(peer, outgoing))
  }

  lemma RestMeans(w: World, side: Side)
    requires AtRest(w)
    ensures NodeAtRest(Of(w, side), Peer(w, side))
  {
    var n, peer := Of(w, side), Peer(w, side);
    assert !StepOk(w, Return(side)) && !StepOk(w, Settle(side)) && !StepOk(w, Incoming(side, false));
    forall outgoing ensures EndOpen(n, outgoing) ==> InSlot(n, outgoing) && !OtherEndClosed(peer, outgoing) {
      assert !StepOk(w, Notice(side, outgoing)) && !StepOk(w, Orphan(side, outgoing));
    }
  }

  /** The stream both hold: what one dialled the other accepted, and both ends are open. */
  predicate Share(dialler: Node, acceptor: Node) {
    && dialler.slot.LiveOut? && acceptor.slot.LiveIn? && dialler.dial.Open? && acceptor.accept.Held?
    && !dialler.accept.Held? && !acceptor.dial.Open?
  }

  predicate Nothing(w: World) {
    && w.small.slot.Empty? && w.large.slot.Empty?
    && !w.small.dial.Open? && !w.small.accept.Held? && !w.large.dial.Open? && !w.large.accept.Held?
  }

  /**
    At rest, after any interleaving of dials, accepts, yields, failures and breaks, both nodes hold the
    same single stream or none at all.
   */
  lemma RestIsAgreement(steps: seq<Step>)
    requires RunOk(APART, steps) && AtRest(Exec(APART, steps))
    ensures var w := Exec(APART, steps); Share(w.small, w.large) || Share(w.large, w.small) || Nothing(w)
  {
    var w := Exec(APART, steps);
    RunKeepsInv(APART, steps);
    RestMeans(w, Small);
    RestMeans(w, Large);
    assert NodeAtRest(w.small, w.large) && NodeAtRest(w.large, w.small);
    assert forall n: Node, p :: NodeAtRest(n, p) && n.dial.Open? ==> EndOpen(n, true);
    assert forall n: Node, p :: NodeAtRest(n, p) && n.accept.Held? ==> EndOpen(n, false);
  }

  // ---------- who wins when both dial at once ----------

  const BOTH_DIAL := World(FRESH.(slot := Dialing, dial := Connecting), FRESH.(slot := Dialing, dial := Connecting),
                           false, false, false)

  /** While the dial of the smaller id neither fails nor breaks, it keeps its slot and is never refused. */
  predicate SmallKeeps(w: World) {
    !w.failed && !w.broke && !w.killed ==>
      && (w.small.slot.Dialing? || w.small.slot.LiveOut?) && !w.small.accept.Held? && !w.small.met
      && (w.small.dial.Connecting? || w.small.dial.Prefaced? || w.small.dial.Open?)
      && !w.large.accept.Gone? && (w.large.accept.Held? ==> w.large.slot.LiveIn?)
      && (w.large.dial.Open? ==> w.large.slot.LiveOut?)
  }

  /** Once a late failure has dropped the accepted session, the larger id holds nothing again. */
  predicate KilledStays(w: World) {
    && (w.killed && !w.failed && !w.broke ==>
          w.large.slot.Empty? && w.large.dial.Closed? && !w.large.accept.Unseen?)
    && !w.large.dial.Idle? && !w.small.dial.Idle?
  }

  lemma StepKeepsWinner(w: World, s: Step)
    requires Inv(w) && SmallKeeps(w) && KilledStays(w) && StepOk(w, s)
    ensures SmallKeeps(Apply(w, s)) && KilledStays(Apply(w, s))
  {
  }

  lemma {:induction false} RunKeepsWinner(w: World, steps: seq<Step>)
    requires Inv(w) && SmallKeeps(w) && KilledStays(w) && RunOk(w, steps)
    ensures var w' := Exec(w, steps); Inv(w') && SmallKeeps(w') && KilledStays(w')
    decreases |steps|
  {
    if steps != [] {
      StepKeepsInv(w, steps[0]);
      StepKeepsWinner(w, steps[0]);
      RunKeepsWinner(Apply(w, steps[0]), steps[1..]);
    }
  }

  /**
    Both dial at once and the smaller id's dial neither fails nor breaks: at rest both hold the stream it
    dialled, exactly unless the other dial failed only after that stream had been accepted.
   */
  lemma SmallerIdWins(steps: seq<Step>)
    requires RunOk(BOTH_DIAL, steps) && AtRest(Exec(BOTH_DIAL, steps))
    requires !Exec(BOTH_DIAL, steps).failed && !Exec(BOTH_DIAL, steps).broke
    ensures var w := Exec(BOTH_DIAL, steps);
            && (Share(w.small, w.large) <==> !w.killed)
            && (Nothing(w) <==> w.killed)
  {
    var w := Exec(BOTH_DIAL, steps);
    RunKeepsWinner(BOTH_DIAL, steps);
    RestMeans(w, Small);
    RestMeans(w, Large);
    assert NodeAtRest(w.small, w.large) && NodeAtRest(w.large, w.small);
    assert EndOpen(w.small, true) == w.small.dial.Open? && EndOpen(w.small, false) == w.small.accept.Held?;
    assert EndOpen(w.large, true) == w.large.dial.Open? && EndOpen(w.large, false) == w.large.accept.Held?;
  }

  /** So the larger id's stream can survive only where the smaller id's dial failed or a session broke. */
  lemma LargerIdWinsOnlyAfterFailure(steps: seq<Step>)
    requires RunOk(BOTH_DIAL, steps) && AtRest(Exec(BOTH_DIAL, steps))
    requires var w := Exec(BOTH_DIAL, steps); Share(w.large, w.small)
    ensures Exec(BOTH_DIAL, steps).failed || Exec(BOTH_DIAL, steps).broke
  {
    if !Exec(BOTH_DIAL, steps).failed && !Exec(BOTH_DIAL, steps).broke {
      SmallerIdWins(steps);
    }
  }

  // ---------- exactly which stream survives, failures and breaks included ----------

  /** A dialled stream that still stands at its dialler: under way in the slot, or open in it. */
  predicate DialStands(n: Node) {
    && !n.dial.Idle? && !n.dial.Closed? && !n.accept.Held?
    && (if n.dial.Open? then n.slot.LiveOut? else n.slot.Dialing?)
  }

  /** The peer has not answered the stream yet, or accepted it and holds it. */
  predicate Awaits(n: Node) {
    n.accept.Unseen? || (n.accept.Held? && n.slot.LiveIn? && n.dial.Closed?)
  }

  /** A step that ends the larger id's stream by itself: its dial fails, or one of its ends breaks. */
  predicate EndsLarge(s: Step) {
    s == Fail(Large) || s == Break(Large, true) || s == Break(Small, false)
  }

  /** The same for the smaller id's stream, which a failing dial of the other side may also drop. */
  predicate EndsSmall(w: World, s: Step) {
    s == Fail(Small) || s == Break(Small, true) || s == Break(Large, false)
    || (s == Fail(Large) && w.large.slot.LiveIn?)
  }

  /** A node that has held the incoming stream has given up its own dial. */
  predicate GaveUp(n: Node) {
    n.met ==> !n.dial.Open? && !n.slot.Dialing?
  }

  /** Every open dial is in its slot, and the smaller id accepts only once its own dial has ended. */
  predicate BothDialled(w: World) {
    && !w.small.dial.Idle? && !w.large.dial.Idle?
    && GaveUp(w.small) && GaveUp(w.large)
    && (w.small.dial.Open? ==> w.small.slot.LiveOut?) && (w.large.dial.Open? ==> w.large.slot.LiveOut?)
    && (w.small.met ==> w.small.dial.Closed?)
    && (w.small.slot.Empty? ==> w.small.dial.Closed?)
  }

  lemma StepKeepsBothDialled(w: World, s: Step)
    requires Inv(w) && BothDialled(w) && StepOk(w, s)
    ensures BothDialled(Apply(w, s))
  {
  }

  /** `ended`: some step so far has ended the larger id's stream by itself. */
  predicate LargeStream(w: World, ended: bool) {
    && (!ended && !w.large.met && (w.small.accept.Unseen? || w.small.met) ==> DialStands(w.large) && Awaits(w.small))
    && (ended ==> w.large.dial.Closed? || w.small.accept.Gone?)
  }

  lemma StepKeepsLargeStream(w: World, s: Step, ended: bool)
    requires Inv(w) && BothDialled(w) && LargeStream(w, ended) && StepOk(w, s)
    ensures LargeStream(Apply(w, s), ended || EndsLarge(s))
  {
  }

  /** `ended`: some step so far has ended the smaller id's stream by itself. */
  predicate SmallStream(w: World, ended: bool) {
    && (!ended && (w.large.accept.Unseen? || w.large.met) ==>
          DialStands(w.small) && (w.large.accept.Unseen? || (w.large.accept.Held? && w.large.slot.LiveIn?)))
    && (ended ==> w.small.dial.Closed? || w.large.accept.Gone?
                  || (w.large.slot.Empty? && w.large.dial.Closed? && !w.large.accept.Unseen?))
  }

  lemma StepKeepsSmallStream(w: World, s: Step, ended: bool)
    requires Inv(w) && BothDialled(w) && SmallStream(w, ended) && StepOk(w, s)
    ensures SmallStream(Apply(w, s), ended || EndsSmall(w, s))
  {
  }

  predicate LargeEnded(steps: seq<Step>) {
    exists i :: 0 <= i < |steps| && EndsLarge(steps[i])
  }

  ghost predicate SmallEnded(w: World, steps: seq<Step>)
    decreases |steps|
  {
    steps != [] && (EndsSmall(w, steps[0]) || SmallEnded(Apply(w, steps[0]), steps[1..]))
  }

  lemma {:induction false} RunKeepsStreams(w: World, steps: seq<Step>, largeEnded: bool, smallEnded: bool)
    requires Inv(w) && BothDialled(w) && RunOk(w, steps) && LargeStream(w, largeEnded) && SmallStream(w, smallEnded)
    ensures var w' := Exec(w, steps);
            && Inv(w') && BothDialled(w') && LargeStream(w', largeEnded || LargeEnded(steps))
            && SmallStream(w', smallEnded || SmallEnded(w, steps))
    decreases |steps|
  {
    if steps != [] {
      var w1, s, rest := Apply(w, steps[0]), steps[0], steps[1..];
      StepKeepsInv(w, s);
      StepKeepsBothDialled(w, s);
      StepKeepsLargeStream(w, s, largeEnded);
      StepKeepsSmallStream(w, s, smallEnded);
      RunKeepsStreams(w1, rest, largeEnded || EndsLarge(s), smallEnded || EndsSmall(w, s));
      assert LargeEnded(steps) <==> EndsLarge(s) || LargeEnded(rest) by {
        if i :| 0 <= i < |rest| && EndsLarge(rest[i]) {
          assert EndsLarge(steps[i + 1]);
        }
        if i :| 0 <= i < |steps| && EndsLarge(steps[i]) {
          assert i > 0 ==> EndsLarge(rest[i - 1]);
        }
      }
    }
  }

  lemma AtRestBoth(w: World)
    requires AtRest(w)
    ensures NodeAtRest(w.small, w.large) && NodeAtRest(w.large, w.small)
    ensures forall outgoing :: EndOpen(w.small, outgoing) ==>
              InSlot(w.small, outgoing) && !OtherEndClosed(w.large, outgoing)
    ensures forall outgoing :: EndOpen(w.large, outgoing) ==>
              InSlot(w.large, outgoing) && !OtherEndClosed(w.small, outgoing)
  {
    RestMeans(w, Small);
    RestMeans(w, Large);
  }

  /**
    Both dial at once, and anything may fail or break: at rest both hold the larger id's stream exactly
    if the smaller came to hold it, the larger never held the other one, and no step ended it by itself.
   */
  lemma LargerIdWinsIff(steps: seq<Step>)
    requires RunOk(BOTH_DIAL, steps) && AtRest(Exec(BOTH_DIAL, steps))
    ensures var w := Exec(BOTH_DIAL, steps);
            Share(w.large, w.small) <==> w.small.met && !w.large.met && !LargeEnded(steps)
  {
    var w := Exec(BOTH_DIAL, steps);
    RunKeepsStreams(BOTH_DIAL, steps, false, false);
    AtRestBoth(w);
    assert EndOpen(w.large, true) == w.large.dial.Open? && EndOpen(w.small, false) == w.small.accept.Held?;
  }

  /**
    And both hold the smaller id's stream exactly if the larger came to hold it and no step ended it by
    itself; in every other case both hold nothing or the larger id's stream.
   */
  lemma SmallerIdWinsIff(steps: seq<Step>)
    requires RunOk(BOTH_DIAL, steps) && AtRest(Exec(BOTH_DIAL, steps))
    ensures var w := Exec(BOTH_DIAL, steps);
            Share(w.small, w.large) <==> w.large.met && !SmallEnded(BOTH_DIAL, steps)
  {
    var w := Exec(BOTH_DIAL, steps);
    RunKeepsStreams(BOTH_DIAL, steps, false, false);
    AtRestBoth(w);
    assert EndOpen(w.small, true) == w.small.dial.Open? && EndOpen(w.large, false) == w.large.accept.Held?;
  }

  function ExecThree(w: World, a: Step, b: Step, c: Step): World {
    Apply(Apply(Apply(w, a), b), c)
  }

  /** It does survive when the smaller id's dial fails before the incoming stream is seen. */
  lemma LargerIdCanWin()
    ensures var w1 := ExecThree(BOTH_DIAL, Fail(Small), Return(Large), Settle(Large));
            var w := Apply(w1, Incoming(Small, false));
            StepOk(w1, Incoming(Small, false)) && Share(w.large, w.small) && AtRest(w) && !w.broke
  {
  }

  /** A dial of the larger id that fails late drops the session it had just accepted. */
  lemma LateFailureDropsTheWinner()
    ensures var w1 := ExecThree(BOTH_DIAL, Return(Small), Settle(Small), Incoming(Large, false));
            && Share(w1.small, w1.large) && StepOk(w1, Fail(Large))
            && var w := ExecThree(w1, Fail(Large), Orphan(Large, false), Notice(Small, true));
               Nothing(w) && AtRest(w)
  {
  }
}
