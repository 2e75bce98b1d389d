/**
  Root rotation between two peers as a step system. The smaller id is the only initiator. The
  channel loses, repeats and reorders signals: everything ever sent may be delivered any number of
  times, or never. Stored state survives. Offline sends and the poller run beside the exchange: each works on
  a copy of the node's roots taken when it started and writes the whole copy back when it saves.
 */
module RootExchange {
  import opened Wrappers
  import opened BlindBoxRoots

  datatype Party = Initiator | Responder

  /** `retired` logs every root the node ever retired; `copies` holds what sends and polls started from. */
  datatype Node = Node(roots: Roots, sendIndex: nat, retired: seq<OldRoot>, copies: set<Roots>)

  datatype World = World(now: int, init: Node, resp: Node, offers: set<Offer>, acks: set<nat>)
  {
    function At(who: Party): Node {
      if who == Initiator then init else resp
    }

    function With(who: Party, n: Node): World {
      if who == Initiator then this.(init := n) else this.(resp := n)
    }
  }

  datatype Step =
    | Tick(seconds: nat)
    | SendOffer(force: bool, drawn: Secret)
    | Stage(who: Party, drawn: Secret)
    | DeliverOffer(offer: Offer)
    | DeliverAck(epoch: nat)
    | PruneStored(who: Party)
    | StartSend(who: Party)
    | SaveSend(who: Party, copy: Roots, sendIndex: nat)

  const FRESH_NODE := Node(NO_ROOTS, 0, [], {})

  function Start(now: int): World {
    World(now, FRESH_NODE, FRESH_NODE, {}, {})
  }

  /** A node after its roots changed; a root that is no longer current enters the log. */
  function Moved(p: Policy, n: Node, roots: Roots, now: int): Node {
    n.(roots := roots,
       retired := if n.roots.root.Some? && roots.epoch != n.roots.epoch
                  then n.retired + [OldRoot(n.roots.epoch, n.roots.root.value, now + p.grace)]
                  else n.retired)
  }

  function Apply(p: Policy, w: World, step: Step): World {
    match step
    case Tick(seconds) => w.(now := w.now + seconds)
    case SendOffer(force, drawn) =>
      var (roots, offer) := EnsurePending(p, w.init.roots, force, drawn, w.init.sendIndex, w.now);
      w.(init := Moved(p, w.init, roots, w.now),
         offers := if offer.Some? then w.offers + {offer.value} else w.offers)
    case Stage(who, drawn) =>
      var n := w.At(who);
      if n.roots.root.None? && n.roots.pending.None? then w
      else w.With(who, Moved(p, n, EnsurePending(p, n.roots, true, drawn, n.sendIndex, w.now).0, w.now))
    case DeliverOffer(offer) =>
      if offer !in w.offers then w
      else
        var (roots, ack) := ReceiveRoot(p, w.resp.roots, offer, w.resp.sendIndex, w.now);
        w.(resp := Moved(p, w.resp, roots, w.now),
           acks := if ack.Some? then w.acks + {ack.value} else w.acks)
    case DeliverAck(epoch) =>
      if epoch !in w.acks then w
      else w.(init := Moved(p, w.init,
                            CommitPending(p, w.init.roots, epoch, w.init.sendIndex, w.now).0, w.now))
    case PruneStored(who) =>
      var n := w.At(who);
      w.With(who, n.(roots := n.roots.(prev := Prune(p, n.roots.prev, w.now))))
    case StartSend(who) =>
      var n := w.At(who);
      if n.roots.root.None? then w else w.With(who, n.(copies := n.copies + {n.roots}))
    case SaveSend(who, copy, sendIndex) =>
      var n := w.At(who);
      if copy !in n.copies then w
      else w.With(who, n.(roots := copy, sendIndex := sendIndex))
  }

  function Exec(p: Policy, w: World, steps: seq<Step>): World {
    if steps == [] then w
    else Apply(p, Exec(p, w, steps[..|steps| - 1]), steps[|steps| - 1])
  }

  /** The save finds the epoch it started with, and drops no pending root that was already offered. */
  predicate Harmless(w: World, who: Party, copy: Roots) {
    var now := w.At(who).roots;
    && copy.epoch == now.epoch
    && (|| who == Responder || copy.pending == now.pending || now.pending.None?
        || Offer(now.pendingEpoch, now.pending.value) !in w.offers)
  }

  /** A save that takes effect is harmless. */
  predicate Clean(w: World, step: Step) {
    step.SaveSend? && step.copy in w.At(step.who).copies ==> Harmless(w, step.who, step.copy)
  }

  ghost predicate AllClean(p: Policy, w: World, steps: seq<Step>) {
    forall k :: 0 <= k < |steps| ==> Clean(Exec(p, w, steps[..k]), steps[k])
  }

  // ---------- the invariant ----------

  /** Every root the node ever made current, oldest first; epoch e is at position e - 1. */
  function History(n: Node): seq<Secret> {
    seq(|n.retired|, i requires 0 <= i < |n.retired| => n.retired[i].secret)
    + (if n.roots.root.Some? then [n.roots.root.value] else [])
  }

  ghost predicate LogOk(p: Policy, n: Node, now: int) {
    && (n.roots.root.None? <==> n.roots.epoch == 0)
    && |n.retired| == (if n.roots.epoch == 0 then 0 else n.roots.epoch - 1)
    && (forall j :: 0 <= j < |n.retired| ==> n.retired[j].epoch == j + 1)
    && (forall j, k :: 0 <= j < k < |n.retired| ==> n.retired[j].expiresAt <= n.retired[k].expiresAt)
    && (forall j :: 0 <= j < |n.retired| ==> n.retired[j].expiresAt <= now + p.grace)
  }

  /** The kept list is the newest part of the log; what it lacks has expired or is beyond the bound. */
  ghost predicate KeepsNewest(p: Policy, kept: seq<OldRoot>, log: seq<OldRoot>, now: int) {
    && |kept| <= |log| && |kept| <= p.maxPrevious
    && (forall i :: 0 <= i < |kept| ==> kept[i] == log[|log| - 1 - i])
    && (forall j :: 0 <= j < |log| - |kept| ==> log[j].expiresAt <= now || j < |log| - p.maxPrevious)
  }

  ghost predicate PendingOk(r: Roots) {
    r.pending.Some? <==> r.pendingEpoch > 0
  }

  /** The initiator's pending root is always for the very next epoch. */
  ghost predicate PendingNext(n: Node) {
    && (n.roots.pending.Some? ==> n.roots.pendingEpoch == n.roots.epoch + 1)
    && (forall c :: c in n.copies && c.pending.Some? ==> c.pendingEpoch == c.epoch + 1)
  }

  ghost predicate NodeOk(p: Policy, n: Node, now: int) {
    && LogOk(p, n, now)
    && KeepsNewest(p, n.roots.prev, n.retired, now)
    && PendingOk(n.roots)
    && (forall c :: c in n.copies ==> CopyOk(p, c, n, now))
  }

  ghost predicate CopyOk(p: Policy, c: Roots, n: Node, now: int) {
    && c.epoch <= n.roots.epoch && c.root.Some? && c.epoch > 0
    && PendingOk(c)
    && (c.epoch == n.roots.epoch ==>
          c.root == n.roots.root && KeepsNewest(p, c.prev, n.retired, now))
  }

  ghost predicate Inv(p: Policy, w: World) {
    var i, r := w.init, w.resp;
    && NodeOk(p, i, w.now) && NodeOk(p, r, w.now)
    && PendingNext(i) && InStep(i, r)
    && (forall o :: o in w.offers ==> Offered(i, o))
    && (forall a :: a in w.acks ==> 1 <= a <= r.roots.epoch)
    && (r.roots.root.Some? ==> Offer(r.roots.epoch, r.roots.root.value) in w.offers)
  }

  /** Both ends went through the same roots; the responder may already hold the pending one. */
  ghost predicate InStep(i: Node, r: Node) {
    || History(r) == History(i)
    || (i.roots.pending.Some? && History(r) == History(i) + [i.roots.pending.value])
  }

  /** An offer carries a root of the initiator's history, or its pending root. */
  ghost predicate Offered(i: Node, o: Offer) {
    || (1 <= o.epoch <= |History(i)| && History(i)[o.epoch - 1] == o.secret)
    || (i.roots.pending == Some(o.secret) && o.epoch == i.roots.pendingEpoch)
  }

  // ---------- pruning against the log ----------

  /** When expiry times do not grow along the list, the unexpired items are its first ones. */
  lemma {:induction false} UnexpiredIsPrefix(items: seq<OldRoot>, now: int) returns (n: nat)
    requires forall i, j :: 0 <= i < j < |items| ==> items[i].expiresAt >= items[j].expiresAt
    ensures n <= |items| && Unexpired(items, now) == items[..n]
    ensures forall i :: 0 <= i < |items| ==> (items[i].expiresAt > now <==> i < n)
  {
    if items == [] || items[0].expiresAt <= now {
      n := 0;
      NoneUnexpired(items, now);
    } else {
      var m := UnexpiredIsPrefix(items[1..], now);
      n := m + 1;
      assert items[..n] == [items[0]] + items[1..][..m];
    }
  }

  lemma {:induction false} NoneUnexpired(items: seq<OldRoot>, now: int)
    requires forall i :: 0 <= i < |items| ==> items[i].expiresAt <= now
    ensures Unexpired(items, now) == []
  {
    if items != [] {
      NoneUnexpired(items[1..], now);
    }
  }

  lemma {:induction false} UnexpiredAppend(items: seq<OldRoot>, x: OldRoot, now: int)
    requires x.expiresAt > now
    ensures Unexpired(items + [x], now) == Unexpired(items, now) + [x]
  {
    if items == [] {
      assert [] + [x] == [x] && [x][1..] == [];
    } else {
      UnexpiredAppend(items[1..], x, now);
      assert (items + [x])[1..] == items[1..] + [x];
    }
  }

  lemma {:induction false} InsertLast(sorted: seq<OldRoot>, x: OldRoot)
    requires forall i :: 0 <= i < |sorted| ==> sorted[i].epoch >= x.epoch
    ensures InsertByEpoch(sorted, x) == sorted + [x]
  {
    if sorted != [] {
      InsertLast(sorted[1..], x);
      assert sorted + [x] == [sorted[0]] + (sorted[1..] + [x]);
    }
  }

  lemma {:induction false} SortedStays(items: seq<OldRoot>)
    requires Descending(items)
    ensures NewestFirst(items) == items
  {
    if items != [] {
      var n := |items| - 1;
      SortedStays(items[..n]);
      InsertLast(items[..n], items[n]);
      assert items == items[..n] + [items[n]];
    }
  }

  lemma KeptOrder(p: Policy, n: Node, kept: seq<OldRoot>, now: int)
    requires LogOk(p, n, now) && KeepsNewest(p, kept, n.retired, now)
    ensures Descending(kept)
    ensures forall i, j :: 0 <= i < j < |kept| ==> kept[i].expiresAt >= kept[j].expiresAt
    ensures forall i :: 0 <= i < |kept| ==> kept[i].epoch < n.roots.epoch
  {
    forall i, j | 0 <= i < j < |kept|
      ensures kept[i].expiresAt >= kept[j].expiresAt && kept[i].epoch >= kept[j].epoch
    {
      var a, b := |n.retired| - 1 - i, |n.retired| - 1 - j;
      assert kept[i] == n.retired[a] && kept[j] == n.retired[b];
    }
  }

  /** The first part of a kept list still keeps the newest, if the rest has expired. */
  lemma KeptPrefix(p: Policy, kept: seq<OldRoot>, log: seq<OldRoot>, m: nat, before: int, now: int)
    requires KeepsNewest(p, kept, log, before) && before <= now && m <= |kept|
    requires forall i :: m <= i < |kept| ==> kept[i].expiresAt <= now
    ensures KeepsNewest(p, kept[..m], log, now)
  {
    forall j | 0 <= j < |log| - m
      ensures log[j].expiresAt <= now || j < |log| - p.maxPrevious
    {
      var i := |log| - 1 - j;
      if i < |kept| {
        assert kept[i] == log[|log| - 1 - i];
      }
    }
  }

  /** Re-pruning a kept list keeps exactly its unexpired entries, and is still the newest part. */
  lemma PruneKept(p: Policy, n: Node, kept: seq<OldRoot>, now: int, later: int)
    requires LogOk(p, n, now) && KeepsNewest(p, kept, n.retired, now) && now <= later
    ensures var pruned := Prune(p, kept, later);
            && pruned == Unexpired(kept, later)
            && KeepsNewest(p, pruned, n.retired, later)
            && (forall i :: 0 <= i < |pruned| ==> pruned[i].expiresAt > later)
  {
    KeptOrder(p, n, kept, now);
    var m := UnexpiredIsPrefix(kept, later);
    SortedStays(kept[..m]);
    KeptPrefix(p, kept, n.retired, m, now, later);
  }

  lemma ConsKeepsNewest(p: Policy, live: seq<OldRoot>, log: seq<OldRoot>, x: OldRoot, now: int)
    requires KeepsNewest(p, live, log, now)
    ensures var all := [x] + live;
            KeepsNewest(p, if |all| > p.maxPrevious then all[..p.maxPrevious] else all, log + [x], now)
  {
    var all, log' := [x] + live, log + [x];
    var kept := if |all| > p.maxPrevious then all[..p.maxPrevious] else all;
    forall i | 0 <= i < |kept|
      ensures kept[i] == log'[|log'| - 1 - i]
    {
      if i > 0 {
        assert kept[i] == live[i - 1];
      }
    }
    forall j | 0 <= j < |log'| - |kept|
      ensures log'[j].expiresAt <= now || j < |log'| - p.maxPrevious
    {
      if j < |log| - |live| {
        assert log'[j] == log[j];
      }
    }
  }

  /** Retiring the current root and pruning keeps the newest part of the longer log. */
  lemma PruneRetired(p: Policy, n: Node, now: int)
    requires p.Valid() && LogOk(p, n, now) && n.roots.root.Some?
    requires KeepsNewest(p, n.roots.prev, n.retired, now)
    ensures var x := OldRoot(n.roots.epoch, n.roots.root.value, now + p.grace);
            KeepsNewest(p, Prune(p, n.roots.prev + [x], now), n.retired + [x], now)
  {
    var x := OldRoot(n.roots.epoch, n.roots.root.value, now + p.grace);
    var live := Unexpired(n.roots.prev, now);
    UnexpiredAppend(n.roots.prev, x, now);
    PruneKept(p, n, n.roots.prev, now, now);
    KeptOrder(p, n, live, now);
    SortedStays(live);
    assert (live + [x])[..|live|] == live;
    assert NewestFirst(live + [x]) == InsertByEpoch(live, x) == [x] + live;
    ConsKeepsNewest(p, live, n.retired, x, now);
  }

  // ---------- each transition of one node ----------

  /** A later state of the same node: its history and its log have only grown. */
  ghost predicate Extends(n: Node, n': Node) {
    && History(n) <= History(n') && n.retired <= n'.retired && n.roots.epoch <= n'.roots.epoch
  }

  ghost predicate Forward(w: World, w': World) {
    && Extends(w.init, w'.init) && Extends(w.resp, w'.resp) && w.now <= w'.now
  }

  lemma NodeLater(p: Policy, n: Node, now: int, later: int)
    requires NodeOk(p, n, now) && now <= later
    ensures NodeOk(p, n, later)
  {
    KeptPrefix(p, n.roots.prev, n.retired, |n.roots.prev|, now, later);
    assert n.roots.prev[..|n.roots.prev|] == n.roots.prev;
    forall c | c in n.copies
      ensures CopyOk(p, c, n, later)
    {
      if c.epoch == n.roots.epoch {
        KeptPrefix(p, c.prev, n.retired, |c.prev|, now, later);
        assert c.prev[..|c.prev|] == c.prev;
      }
    }
  }

  lemma NodeStages(p: Policy, n: Node, force: bool, drawn: Secret, now: int)
    requires NodeOk(p, n, now)
    ensures var (roots, offer) := EnsurePending(p, n.roots, force, drawn, n.sendIndex, now);
            var n' := Moved(p, n, roots, now);
            && NodeOk(p, n', now) && History(n') == History(n) && n'.retired == n.retired
            && (PendingNext(n) ==> PendingNext(n'))
            && (n.roots.pending.Some? || offer.None? ==> n'.roots == n.roots)
            && (offer.Some? ==>
                  n'.roots.pending == Some(offer.value.secret)
                  && n'.roots.pendingEpoch == offer.value.epoch)
  {
    var (roots, offer) := EnsurePending(p, n.roots, force, drawn, n.sendIndex, now);
    var n' := Moved(p, n, roots, now);
    forall c | c in n'.copies
      ensures CopyOk(p, c, n', now)
    {
      assert CopyOk(p, c, n, now);
    }
  }

  /** Moving to the next epoch, with the old root (if any) retired and pruned. */
  lemma NodeAdvances(p: Policy, n: Node, roots: Roots, now: int)
    requires p.Valid() && NodeOk(p, n, now)
    requires roots.root.Some? && roots.epoch == n.roots.epoch + 1 && PendingOk(roots)
    requires || roots.prev == Prune(p, Retire(p, n.roots, now), now)
             || (n.roots.root.None? && roots.prev == n.roots.prev)
    ensures NodeOk(p, Moved(p, n, roots, now), now)
    ensures History(Moved(p, n, roots, now)) == History(n) + [roots.root.value]
    ensures Extends(n, Moved(p, n, roots, now))
  {
    var n' := Moved(p, n, roots, now);
    if n.roots.root.Some? {
      PruneRetired(p, n, now);
    } else {
      assert n.roots.prev == [] && Prune(p, [], now) == [];
    }
    forall c | c in n'.copies
      ensures CopyOk(p, c, n', now)
    {
      assert CopyOk(p, c, n, now);
    }
  }

  lemma NodeCommits(p: Policy, n: Node, ack: nat, now: int)
    requires p.Valid() && NodeOk(p, n, now) && PendingNext(n)
    ensures var (roots, committed) := CommitPending(p, n.roots, ack, n.sendIndex, now);
            var n' := Moved(p, n, roots, now);
            && NodeOk(p, n', now) && PendingNext(n') && Extends(n, n')
            && (committed <==> n.roots.pending.Some? && ack == n.roots.epoch + 1)
            && (committed ==>
                  History(n') == History(n) + [n.roots.pending.value] && n'.roots.pending.None?)
            && (!committed ==> n' == n)
  {
    var (roots, committed) := CommitPending(p, n.roots, ack, n.sendIndex, now);
    if committed {
      NodeAdvances(p, n, roots, now);
    }
  }

  lemma NodeReceives(p: Policy, n: Node, offer: Offer, now: int)
    requires p.Valid() && NodeOk(p, n, now) && 1 <= offer.epoch <= n.roots.epoch + 1
    ensures var (roots, ack) := ReceiveRoot(p, n.roots, offer, n.sendIndex, now);
            var n' := Moved(p, n, roots, now);
            && NodeOk(p, n', now) && Extends(n, n')
            && (offer.epoch == n.roots.epoch + 1 ==>
                  History(n') == History(n) + [offer.secret] && ack == Some(offer.epoch))
            && (offer.epoch <= n.roots.epoch ==>
                  n' == n && (ack == None || ack == Some(n.roots.epoch)))
  {
    var (roots, ack) := ReceiveRoot(p, n.roots, offer, n.sendIndex, now);
    if offer.epoch == n.roots.epoch + 1 {
      NodeAdvances(p, n, roots, now);
    }
  }

  lemma NodePrunes(p: Policy, n: Node, now: int, kept: seq<OldRoot>)
    requires NodeOk(p, n, now) && kept == Prune(p, n.roots.prev, now)
    ensures NodeOk(p, n.(roots := n.roots.(prev := kept)), now)
  {
    PruneKept(p, n, n.roots.prev, now, now);
    var n' := n.(roots := n.roots.(prev := kept));
    forall c | c in n'.copies
      ensures CopyOk(p, c, n', now)
    {
      assert CopyOk(p, c, n, now);
    }
  }

  lemma NodeStartsSend(p: Policy, n: Node, now: int)
    requires NodeOk(p, n, now) && n.roots.root.Some?
    ensures NodeOk(p, n.(copies := n.copies + {n.roots}), now)
  {
    var n' := n.(copies := n.copies + {n.roots});
    forall c | c in n'.copies
      ensures CopyOk(p, c, n', now)
    {
      assert c == n.roots || CopyOk(p, c, n, now);
    }
  }

  // ---------- every run ----------

  /** A node whose history stands still, and whose pending root is at most newly staged. */
  lemma QuietStep(p: Policy, w: World, who: Party, n': Node)
    requires Inv(p, w) && NodeOk(p, n', w.now)
    requires History(n') == History(w.At(who)) && n'.retired == w.At(who).retired
    requires n'.roots.epoch == w.At(who).roots.epoch && n'.roots.root == w.At(who).roots.root
    requires who == Initiator ==> PendingNext(n')
    requires w.At(who).roots.pending.Some? ==>
               n'.roots.pending == w.At(who).roots.pending
               && n'.roots.pendingEpoch == w.At(who).roots.pendingEpoch
    ensures Inv(p, w.With(who, n'))
    ensures Forward(w, w.With(who, n'))
  {
    forall o | o in w.offers
      ensures Offered(w.With(who, n').init, o)
    {
      assert Offered(w.init, o);
    }
  }

  lemma OfferStep(p: Policy, w: World, force: bool, drawn: Secret)
    requires Inv(p, w)
    ensures Inv(p, Apply(p, w, SendOffer(force, drawn)))
    ensures Forward(w, Apply(p, w, SendOffer(force, drawn)))
  {
    NodeStages(p, w.init, force, drawn, w.now);
    var n' := Moved(p, w.init, EnsurePending(p, w.init.roots, force, drawn, w.init.sendIndex, w.now).0, w.now);
    QuietStep(p, w, Initiator, n');
  }

  lemma DeliverOfferStep(p: Policy, w: World, offer: Offer)
    requires p.Valid() && Inv(p, w)
    ensures Inv(p, Apply(p, w, DeliverOffer(offer)))
    ensures Forward(w, Apply(p, w, DeliverOffer(offer)))
  {
    if offer in w.offers {
      assert Offered(w.init, offer);
      assert |History(w.init)| == w.init.roots.epoch && |History(w.resp)| == w.resp.roots.epoch;
      NodeReceives(p, w.resp, offer, w.now);
    }
  }

  lemma DeliverAckStep(p: Policy, w: World, epoch: nat)
    requires p.Valid() && Inv(p, w)
    ensures Inv(p, Apply(p, w, DeliverAck(epoch)))
    ensures Forward(w, Apply(p, w, DeliverAck(epoch)))
  {
    if epoch in w.acks {
      var w' := Apply(p, w, DeliverAck(epoch));
      assert |History(w.init)| == w.init.roots.epoch && |History(w.resp)| == w.resp.roots.epoch;
      NodeCommits(p, w.init, epoch, w.now);
      forall o | o in w'.offers
        ensures Offered(w'.init, o)
      {
        assert Offered(w.init, o);
      }
    }
  }

  lemma TickStep(p: Policy, w: World, seconds: nat)
    requires Inv(p, w)
    ensures Inv(p, w.(now := w.now + seconds))
  {
    NodeLater(p, w.init, w.now, w.now + seconds);
    NodeLater(p, w.resp, w.now, w.now + seconds);
  }

  lemma StageStep(p: Policy, w: World, who: Party, drawn: Secret)
    requires Inv(p, w)
    ensures Inv(p, Apply(p, w, Stage(who, drawn)))
    ensures Forward(w, Apply(p, w, Stage(who, drawn)))
  {
    var n := w.At(who);
    NodeStages(p, n, true, drawn, w.now);
    QuietStep(p, w, who, Moved(p, n, EnsurePending(p, n.roots, true, drawn, n.sendIndex, w.now).0, w.now));
  }

  lemma PruneStep(p: Policy, w: World, who: Party)
    requires Inv(p, w)
    ensures Inv(p, Apply(p, w, PruneStored(who))) && Forward(w, Apply(p, w, PruneStored(who)))
  {
    var n := w.At(who);
    var kept := Prune(p, n.roots.prev, w.now);
    NodePrunes(p, n, w.now, kept);
    QuietStep(p, w, who, n.(roots := n.roots.(prev := kept)));
  }

  lemma StartStep(p: Policy, w: World, who: Party)
    requires Inv(p, w)
    ensures Inv(p, Apply(p, w, StartSend(who))) && Forward(w, Apply(p, w, StartSend(who)))
  {
    var n := w.At(who);
    if n.roots.root.Some? {
      NodeStartsSend(p, n, w.now);
      QuietStep(p, w, who, n.(copies := n.copies + {n.roots}));
    }
  }

  lemma HarmlessSaveKeepsInv(p: Policy, w: World, who: Party, copy: Roots, sendIndex: nat)
    requires p.Valid() && Inv(p, w) && copy in w.At(who).copies && Harmless(w, who, copy)
    ensures Inv(p, Apply(p, w, SaveSend(who, copy, sendIndex)))
  {
    var n := w.At(who);
    var n' := n.(roots := copy, sendIndex := sendIndex);
    assert CopyOk(p, copy, n, w.now);
    forall c | c in n'.copies
      ensures CopyOk(p, c, n', w.now)
    {
      assert CopyOk(p, c, n, w.now);
    }
    assert History(n') == History(n);
    forall o | o in w.offers
      ensures Offered(w.With(who, n').init, o)
    {
      assert Offered(w.init, o);
    }
    if w.resp.roots.epoch == w.init.roots.epoch + 1 {
      CurrentRootOffered(p, w);
    }
    InvAgrees(p, w);
  }

  lemma CurrentRootOffered(p: Policy, w: World)
    requires Inv(p, w) && w.resp.roots.epoch == w.init.roots.epoch + 1
    ensures w.init.roots.pending.Some?
    ensures Offer(w.init.roots.pendingEpoch, w.init.roots.pending.value) in w.offers
  {
    InvAgrees(p, w);
  }

  lemma SaveStep(p: Policy, w: World, who: Party, copy: Roots, sendIndex: nat)
    requires p.Valid() && Inv(p, w) && Clean(w, SaveSend(who, copy, sendIndex))
    ensures var w' := Apply(p, w, SaveSend(who, copy, sendIndex)); Inv(p, w') && Forward(w, w')
  {
    if copy in w.At(who).copies {
      HarmlessSaveKeepsInv(p, w, who, copy, sendIndex);
      assert CopyOk(p, copy, w.At(who), w.now);
    }
  }

  lemma StepKeepsInv(p: Policy, w: World, step: Step)
    requires p.Valid() && Inv(p, w) && Clean(w, step)
    ensures Inv(p, Apply(p, w, step)) && Forward(w, Apply(p, w, step))
  {
    match step
    case Tick(seconds) => TickStep(p, w, seconds);
    case SendOffer(force, drawn) => OfferStep(p, w, force, drawn);
    case DeliverOffer(offer) => DeliverOfferStep(p, w, offer);
    case DeliverAck(epoch) => DeliverAckStep(p, w, epoch);
    case Stage(who, drawn) => StageStep(p, w, who, drawn);
    case PruneStored(who) => PruneStep(p, w, who);
    case StartSend(who) => StartStep(p, w, who);
    case SaveSend(who, copy, sendIndex) => SaveStep(p, w, who, copy, sendIndex);
  }

  lemma {:induction false} RunKeepsInv(p: Policy, w: World, steps: seq<Step>)
    requires p.Valid() && Inv(p, w) && AllClean(p, w, steps)
    ensures Inv(p, Exec(p, w, steps))
  {
    if steps != [] {
      var n := |steps| - 1;
      CleanPrefix(p, w, steps);
      RunKeepsInv(p, w, steps[..n]);
      StepKeepsInv(p, Exec(p, w, steps[..n]), steps[n]);
    }
  }

  lemma StartOk(p: Policy, now: int)
    ensures Inv(p, Start(now))
  {
  }

  // ---------- what every run keeps ----------

  /** The responder holds the initiator's current root, or its pending one; equal epochs, equal secrets. */
  predicate Agree(w: World) {
    var i, r := w.init.roots, w.resp.roots;
    || (r.epoch == i.epoch && r.root == i.root)
    || (i.pending.Some? && r.epoch == i.pendingEpoch == i.epoch + 1 && r.root == i.pending)
  }

  lemma InvAgrees(p: Policy, w: World)
    requires Inv(p, w)
    ensures Agree(w)
  {
    var i, r := w.init, w.resp;
    assert |History(i)| == i.roots.epoch && |History(r)| == r.roots.epoch;
    if r.roots.epoch > 0 {
      assert History(r)[r.roots.epoch - 1] == r.roots.root.value;
    }
    if i.roots.epoch > 0 {
      assert History(i)[i.roots.epoch - 1] == i.roots.root.value;
    }
  }

  /** In every state reached by a run whose saves are harmless the two ends agree. */
  lemma RootsAgree(p: Policy, now: int, steps: seq<Step>)
    requires p.Valid() && AllClean(p, Start(now), steps)
    ensures Agree(Exec(p, Start(now), steps))
  {
    StartOk(p, now);
    RunKeepsInv(p, Start(now), steps);
    InvAgrees(p, Exec(p, Start(now), steps));
  }

  /** A run never rewrites a node's past: epochs only grow and retired roots stay as logged. */
  lemma {:induction false} RunExtends(p: Policy, w: World, steps: seq<Step>)
    requires p.Valid() && Inv(p, w) && AllClean(p, w, steps)
    ensures Forward(w, Exec(p, w, steps))
  {
    if steps != [] {
      var n := |steps| - 1;
      CleanPrefix(p, w, steps);
      RunExtends(p, w, steps[..n]);
      RunKeepsInv(p, w, steps[..n]);
      StepKeepsInv(p, Exec(p, w, steps[..n]), steps[n]);
    }
  }

  lemma CleanPrefix(p: Policy, w: World, steps: seq<Step>)
    requires AllClean(p, w, steps) && steps != []
    ensures AllClean(p, w, steps[..|steps| - 1])
    ensures Clean(Exec(p, w, steps[..|steps| - 1]), steps[|steps| - 1])
  {
    var n := |steps| - 1;
    forall k | 0 <= k < n ensures Clean(Exec(p, w, steps[..n][..k]), steps[..n][k]) {
      assert steps[..n][..k] == steps[..k];
    }
  }

  /** The initiator commits only a secret the responder already holds as its current root. */
  lemma CommitsWhatResponderHolds(p: Policy, w: World, epoch: nat)
    requires p.Valid() && Inv(p, w)
    requires Apply(p, w, DeliverAck(epoch)).init.roots.epoch != w.init.roots.epoch
    ensures var w' := Apply(p, w, DeliverAck(epoch));
            && w'.init.roots.root == w.resp.roots.root && w'.init.roots.epoch == w.resp.roots.epoch
            && History(w'.init) == History(w.resp)
  {
    NodeCommits(p, w.init, epoch, w.now);
    InvAgrees(p, w);
    assert |History(w.init)| == w.init.roots.epoch && |History(w.resp)| == w.resp.roots.epoch;
  }

  /** However often signals were lost, one re-sent offer and its ACK bring both ends to the same root. */
  lemma ResendCompletes(p: Policy, w: World, drawn: Secret)
    requires p.Valid() && Inv(p, w) && w.init.roots.pending.Some?
    ensures var offer := Offer(w.init.roots.pendingEpoch, w.init.roots.pending.value);
            var w' := Apply(p, Apply(p, Apply(p, w, SendOffer(false, drawn)), DeliverOffer(offer)),
                            DeliverAck(offer.epoch));
            && w'.init.roots.root == w'.resp.roots.root == w.init.roots.pending
            && w'.init.roots.epoch == w'.resp.roots.epoch == w.init.roots.pendingEpoch
            && w'.init.roots.pending.None?
  {
    var offer := Offer(w.init.roots.pendingEpoch, w.init.roots.pending.value);
    var w1 := Apply(p, w, SendOffer(false, drawn));
    ResendsThePending(p, w, drawn);
    OfferStep(p, w, false, drawn);
    DeliverAgain(p, w1, offer);
    DeliverOfferStep(p, w1, offer);
    AckCommits(p, Apply(p, w1, DeliverOffer(offer)), offer);
  }

  lemma ResendsThePending(p: Policy, w: World, drawn: Secret)
    requires p.Valid() && Inv(p, w) && w.init.roots.pending.Some?
    ensures var w1 := Apply(p, w, SendOffer(false, drawn));
            w1.init == w.init && w1.resp == w.resp
            && Offer(w.init.roots.pendingEpoch, w.init.roots.pending.value) in w1.offers
  {
    InvAgrees(p, w);
  }

  lemma AckCommits(p: Policy, w: World, offer: Offer)
    requires p.Valid() && Inv(p, w) && offer.epoch in w.acks
    requires w.init.roots.pending == Some(offer.secret) && w.init.roots.pendingEpoch == offer.epoch
    ensures var w' := Apply(p, w, DeliverAck(offer.epoch));
            && w'.init.roots.root == Some(offer.secret) && w'.init.roots.epoch == offer.epoch
            && w'.init.roots.pending.None? && w'.resp == w.resp
  {
    InvAgrees(p, w);
    NodeCommits(p, w.init, offer.epoch, w.now);
  }

  /** A delivered pending root is the responder's current root afterwards, and is acknowledged. */
  lemma DeliverAgain(p: Policy, w: World, offer: Offer)
    requires p.Valid() && Inv(p, w) && offer in w.offers
    requires w.init.roots.pending == Some(offer.secret) && offer.epoch == w.init.roots.pendingEpoch
    ensures var w' := Apply(p, w, DeliverOffer(offer));
            && w'.resp.roots.root == Some(offer.secret) && w'.resp.roots.epoch == offer.epoch
            && offer.epoch in w'.acks && w'.init == w.init
  {
    InvAgrees(p, w);
  }
}
