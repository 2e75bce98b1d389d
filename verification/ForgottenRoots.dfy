/**
  A receiver looks for the next slot under the roots it still tries. Once it has forgotten the root under which
  that slot was left, nothing it does moves the window any more.
 */
module ForgottenRoots {
  import opened Wrappers
  import opened BlindBoxRoots
  import opened KeySchedule
  import opened Replicas
  import opened SlotReceive
  import opened ReceiveGuarantees
  import opened Pinning
  import RootExchange
  import RootGuarantees

  /** The keys of each root tried, in order. */
  function KeysTried(tried: seq<Offer>, local: string, remote: string): seq<RootKeys> {
    seq(|tried|, i requires 0 <= i < |tried| => ReceiveKeys(tried[i].secret, local, remote, tried[i].epoch))
  }

  ghost predicate NoBars(sender: string, receiver: string) {
    forall s :: s in [sender, receiver] && NormalizePeer(s).Some? ==> '|' !in NormalizePeer(s).value
  }

  /** The slot at this index was left under this root, and so under this key. */
  ghost predicate LeftUnder(sealed: Offer, sender: string, receiver: string, index: nat, key: Keys) {
    NoBars(sender, receiver) && SendKeys(sealed.secret, sender, receiver, sealed.epoch)(index) == Some(key)
  }

  /** Nothing the boxes can ever serve opens at this index under another key. */
  ghost predicate OnlyUnder(w: World, boxes: seq<nat>, index: nat, key: Keys) {
    forall box, k, blob :: box in boxes && CanServe(w, box, k, blob) && OpensAt(blob, k, index) ==> k == key
  }

  /** Every root tried gives a key, and the slot's own key exactly if it is the slot's own root. */
  lemma TriedKeyIff(tried: seq<Offer>, j: nat, sealed: Offer, sender: string, receiver: string, index: nat, key: Keys)
    requires LeftUnder(sealed, sender, receiver, index, key) && j < |tried|
    ensures var k := KeysTried(tried, receiver, sender)[j](index);
            k.Some? && (k == Some(key) <==> tried[j] == sealed)
  {
    var o := tried[j];
    KeysMeet(sealed.secret, sender, receiver, sealed.epoch, index);
    KeysMeet(o.secret, sender, receiver, o.epoch, index);
    if KeysTried(tried, receiver, sender)[j](index) == Some(key) {
      assert NormalizePeer(sender).Some? && NormalizePeer(receiver).Some?;
      SlotsNeverShare(sealed.secret, sender, receiver, KeySchedule.Send, index, sealed.epoch,
                      o.secret, sender, receiver, KeySchedule.Send, index, o.epoch);
    }
  }

  /** Without its root among those tried the slot is closed, although the boxes hold its blob. */
  lemma ForgottenIsClosed(w: World, e: Setting, tried: seq<Offer>, sealed: Offer, sender: string, receiver: string,
                          index: nat, key: Keys)
    requires LeftUnder(sealed, sender, receiver, index, key) && OnlyUnder(w, e.boxes, index, key) && sealed !in tried
    ensures Closed(w, e, KeysTried(tried, receiver, sender), index, {})
  {
    forall j: nat | Tried(KeysTried(tried, receiver, sender), index, j)
      ensures ClosedSlot(w, e, KeysTried(tried, receiver, sender)[j](index).value, index, {})
    {
      TriedKeyIff(tried, j, sealed, sender, receiver, index, key);
    }
  }

  /** Whatever its turn, the handler takes this blob, which is new and which the box holds. */
  ghost predicate Waits(p: Polling, e: Setting, key: Keys, index: nat, box: nat) {
    forall turn: nat :: ServesNew(p, e, key, index, turn, box)
  }

  lemma TriedIsServed(p: Polling, e: Setting, tried: seq<Offer>, j: nat, sealed: Offer, sender: string,
                      receiver: string, index: nat, key: Keys, box: nat)
    requires LeftUnder(sealed, sender, receiver, index, key) && Waits(p, e, key, index, box)
    requires j < |tried| && tried[j] == sealed
    ensures ServedUnder(p, e, KeysTried(tried, receiver, sender), index, j)
  {
    forall i | 0 <= i <= j ensures KeysTried(tried, receiver, sender)[i](index).Some? {
      TriedKeyIff(tried, i, sealed, sender, receiver, index, key);
    }
    TriedKeyIff(tried, j, sealed, sender, receiver, index, key);
    assert ServesNew(p, e, key, index, p.turn + j, box);
  }

  lemma ServedIsTried(p: Polling, e: Setting, tried: seq<Offer>, j: nat, sealed: Offer, sender: string,
                      receiver: string, index: nat, key: Keys)
    requires LeftUnder(sealed, sender, receiver, index, key) && OnlyUnder(p.world, e.boxes, index, key)
    requires ServedUnder(p, e, KeysTried(tried, receiver, sender), index, j)
    ensures j < |tried| && tried[j] == sealed
  {
    var k := KeysTried(tried, receiver, sender)[j](index).value;
    var box: nat :| ServesNew(p, e, k, index, p.turn + j, box);
    assert CanServe(p.world, box, k, p.world.stores[box][k]);
    TriedKeyIff(tried, j, sealed, sender, receiver, index, key);
  }

  /** With a blob waiting in the base slot, some poll can move the base exactly if the slot's root is tried. */
  lemma BaseMovesIffTried(p: Polling, e: Setting, tried: seq<Offer>, sealed: Offer, sender: string, receiver: string,
                          key: Keys, box: nat)
    requires PollingOk(p, e.limit) && e.limit >= 1 && !p.stopped && Span(p.consumer, e.limits) >= 1
    requires LeftUnder(sealed, sender, receiver, p.consumer.recvBase, key)
    requires OnlyUnder(p.world, e.boxes, p.consumer.recvBase, key) && Waits(p, e, key, p.consumer.recvBase, box)
    ensures CanMove(p, e, KeysTried(tried, receiver, sender)) <==> sealed in tried
  {
    var base, roots := p.consumer.recvBase, KeysTried(tried, receiver, sender);
    BaseCanMoveIff(p, e, roots);
    if j: nat :| ServedUnder(p, e, roots, base, j) {
      ServedIsTried(p, e, tried, j, sealed, sender, receiver, base, key);
    }
    if sealed in tried {
      var j: nat :| j < |tried| && tried[j] == sealed;
      TriedIsServed(p, e, tried, j, sealed, sender, receiver, base, key, box);
    }
  }

  // ---------- over runs of the root exchange ----------

  /** A poll at time `at`, after these steps of the exchange. */
  datatype PollAt = PollAt(after: seq<RootExchange.Step>, at: int)

  ghost predicate PollAtOk(policy: Policy, w: RootExchange.World, x: PollAt) {
    RootExchange.AllClean(policy, w, x.after) && RootExchange.Exec(policy, w, x.after).now <= x.at
  }

  function ReaderAt(policy: Policy, w: RootExchange.World, who: RootExchange.Party, x: PollAt): RootExchange.Node {
    RootExchange.Exec(policy, w, x.after).At(who)
  }

  function TriedAt(policy: Policy, w: RootExchange.World, who: RootExchange.Party, x: PollAt): seq<Offer> {
    Candidates(policy, ReaderAt(policy, w, who, x).roots, x.at)
  }

  /** The state in which the sender left the slot, under its current root. */
  ghost predicate SealedIn(policy: Policy, now: int, before: seq<RootExchange.Step>, who: RootExchange.Party,
                           sealed: Offer) {
    var w := RootExchange.Exec(policy, RootExchange.Start(now), before);
    && policy.Valid() && RootExchange.AllClean(policy, RootExchange.Start(now), before)
    && w.At(who).roots.root == Some(sealed.secret) && w.At(who).roots.epoch == sealed.epoch
  }

  lemma TriedIffStillTried(policy: Policy, now: int, before: seq<RootExchange.Step>, who: RootExchange.Party,
                           sealed: Offer, x: PollAt)
    requires SealedIn(policy, now, before, who, sealed)
    requires PollAtOk(policy, RootExchange.Exec(policy, RootExchange.Start(now), before), x)
    ensures var w, other := RootExchange.Exec(policy, RootExchange.Start(now), before), RootGuarantees.Other(who);
            sealed in TriedAt(policy, w, other, x)
            <==> RootGuarantees.StillTried(policy, ReaderAt(policy, w, other, x), sealed.epoch, x.at)
  {
    RootGuarantees.LateBlobOpens(policy, now, before, x.after, who, x.at);
  }

  /**
    Whatever the exchange of roots went through since: a poll can move the base to the waiting frame exactly
    if the receiver has taken that frame's root and neither dropped it for newer ones nor let its grace time
    run out.
   */
  lemma BaseMovesIffStillTried(policy: Policy, now: int, before: seq<RootExchange.Step>, who: RootExchange.Party,
                               x: PollAt, p: Polling, e: Setting, sealed: Offer, sender: string, receiver: string,
                               key: Keys, box: nat)
    requires SealedIn(policy, now, before, who, sealed)
    requires PollAtOk(policy, RootExchange.Exec(policy, RootExchange.Start(now), before), x)
    requires PollingOk(p, e.limit) && e.limit >= 1 && !p.stopped && Span(p.consumer, e.limits) >= 1
    requires LeftUnder(sealed, sender, receiver, p.consumer.recvBase, key)
    requires OnlyUnder(p.world, e.boxes, p.consumer.recvBase, key) && Waits(p, e, key, p.consumer.recvBase, box)
    ensures var w, other := RootExchange.Exec(policy, RootExchange.Start(now), before), RootGuarantees.Other(who);
            CanMove(p, e, KeysTried(TriedAt(policy, w, other, x), receiver, sender))
            <==> RootGuarantees.StillTried(policy, ReaderAt(policy, w, other, x), sealed.epoch, x.at)
  {
    var w, other := RootExchange.Exec(policy, RootExchange.Start(now), before), RootGuarantees.Other(who);
    TriedIffStillTried(policy, now, before, who, sealed, x);
    BaseMovesIffTried(p, e, TriedAt(policy, w, other, x), sealed, sender, receiver, key, box);
  }

  function RootsTried(policy: Policy, w: RootExchange.World, who: RootExchange.Party, xs: seq<PollAt>, sender: string,
                      receiver: string): seq<seq<RootKeys>> {
    seq(|xs|, i requires 0 <= i < |xs| => KeysTried(TriedAt(policy, w, who, xs[i]), receiver, sender))
  }

  /**
    Once the root of the base slot is retired and expired, or dropped for newer ones, the frame left there pins
    the window: over every run of polls that do not try that root the base stays, and nothing past the window is
    handed on.
   */
  lemma ForgottenRootPinsForGood(policy: Policy, now: int, before: seq<RootExchange.Step>, who: RootExchange.Party,
                                 xs: seq<PollAt>, p: Polling, e: Setting, sealed: Offer, sender: string,
                                 receiver: string, key: Keys, start: nat)
    requires SealedIn(policy, now, before, who, sealed)
    requires var w, other := RootExchange.Exec(policy, RootExchange.Start(now), before), RootGuarantees.Other(who);
             forall i :: 0 <= i < |xs| ==>
               && PollAtOk(policy, w, xs[i])
               && !RootGuarantees.StillTried(policy, ReaderAt(policy, w, other, xs[i]), sealed.epoch, xs[i].at)
    requires PollingOk(p, e.limit) && e.limit >= 1 && Span(p.consumer, e.limits) >= 1
    requires LeftUnder(sealed, sender, receiver, p.consumer.recvBase, key)
    requires OnlyUnder(p.world, e.boxes, p.consumer.recvBase, key)
    requires WithinRange(p.inbox.handedOn, start, p.consumer.recvBase + 1,
                         p.consumer.recvBase + Span(p.consumer, e.limits))
    ensures var w, other := RootExchange.Exec(policy, RootExchange.Start(now), before), RootGuarantees.Other(who);
            var p', base := Polls(p, e, RootsTried(policy, w, other, xs, sender, receiver)), p.consumer.recvBase;
            && p'.consumer.recvBase == base
            && WithinRange(p'.inbox.handedOn, start, base + 1, base + Span(p.consumer, e.limits))
  {
    var w, other := RootExchange.Exec(policy, RootExchange.Start(now), before), RootGuarantees.Other(who);
    var roots := RootsTried(policy, w, other, xs, sender, receiver);
    forall i | 0 <= i < |roots| ensures Closed(p.world, e, roots[i], p.consumer.recvBase, {}) {
      TriedIffStillTried(policy, now, before, who, sealed, xs[i]);
      ForgottenIsClosed(p.world, e, TriedAt(policy, w, other, xs[i]), sealed, sender, receiver, p.consumer.recvBase,
                        key);
    }
    ClosedBasePinsForGood(p, e, roots, start);
  }
}
