/**
  The pairwise BlindBox root secrets one node keeps for one peer: the current root, a root that is
  offered but not yet acknowledged, and a bounded list of retired roots that still open late blobs.
 */
module BlindBoxRoots {
  import opened Wrappers

  /** 32 random bytes, read as a number; only ever compared. */
  type Secret = nat

  datatype OldRoot = OldRoot(epoch: nat, secret: Secret, expiresAt: int)

  datatype Policy = Policy(grace: int, maxPrevious: nat, rotateSeconds: int, rotateMessages: int)
  {
    /** The lower bounds the configuration loader enforces. */
    predicate Valid() {
      grace >= 300 && rotateSeconds >= 60 && rotateMessages >= 1
    }
  }

  datatype Roots = Roots(
    root: Option<Secret>, epoch: nat, createdAt: int, sendBase: nat,
    pending: Option<Secret>, pendingEpoch: nat, pendingCreatedAt: int, pendingSendBase: nat,
    prev: seq<OldRoot>)

  /** A BLINDBOX_ROOT signal on the wire. */
  datatype Offer = Offer(epoch: nat, secret: Secret)

  const NO_ROOTS := Roots(None, 0, 0, 0, None, 0, 0, 0, [])

  // ---------- the retired list ----------

  function Unexpired(items: seq<OldRoot>, now: int): seq<OldRoot> {
    if items == [] then []
    else (if items[0].expiresAt > now then [items[0]] else []) + Unexpired(items[1..], now)
  }

  /** Inserts behind every item of the same or a newer epoch, as a stable descending sort does. */
  function InsertByEpoch(sorted: seq<OldRoot>, x: OldRoot): seq<OldRoot> {
    if sorted == [] then [x]
    else if x.epoch > sorted[0].epoch then [x] + sorted
    else [sorted[0]] + InsertByEpoch(sorted[1..], x)
  }

  function NewestFirst(items: seq<OldRoot>): seq<OldRoot> {
    if items == [] then []
    else InsertByEpoch(NewestFirst(items[..|items| - 1]), items[|items| - 1])
  }

  function Prune(p: Policy, items: seq<OldRoot>, now: int): seq<OldRoot> {
    var sorted := NewestFirst(Unexpired(items, now));
    if |sorted| > p.maxPrevious then sorted[..p.maxPrevious] else sorted
  }

  predicate Descending(s: seq<OldRoot>) {
    forall i, j :: 0 <= i < j < |s| ==> s[i].epoch >= s[j].epoch
  }

  // ---------- the transitions of one node ----------

  predicate HasPending(r: Roots) {
    r.pending.Some? && r.pendingEpoch > 0
  }

  function Max(a: int, b: int): int {
    if a >= b then a else b
  }

  predicate ShouldRotate(p: Policy, r: Roots, sendIndex: nat, now: int) {
    && r.root.Some?
    && (|| Max(0, now - (if r.createdAt != 0 then r.createdAt else now)) >= p.rotateSeconds
        || Max(0, sendIndex - r.sendBase) >= p.rotateMessages)
  }

  /** Stages a fresh pending root when one is due; returns what is to be offered to the peer. */
  function EnsurePending(p: Policy, r: Roots, force: bool, drawn: Secret, sendIndex: nat, now: int)
    : (Roots, Option<Offer>)
  {
    if HasPending(r) then
      (r, Some(Offer(r.pendingEpoch, r.pending.value)))
    else if r.root.Some? && !force && !ShouldRotate(p, r, sendIndex, now) then
      (r, None)
    else
      var next := Max(r.epoch, r.pendingEpoch) + 1;
      (r.(pending := Some(drawn), pendingEpoch := next, pendingCreatedAt := now,
          pendingSendBase := sendIndex),
       Some(Offer(next, drawn)))
  }

  function Retire(p: Policy, r: Roots, now: int): seq<OldRoot> {
    if r.root.Some? then r.prev + [OldRoot(r.epoch, r.root.value, now + p.grace)] else r.prev
  }

  /** An ACK makes the pending root current, if it acknowledges exactly that epoch. */
  function CommitPending(p: Policy, r: Roots, ack: nat, sendIndex: nat, now: int): (Roots, bool) {
    if !HasPending(r) || ack != r.pendingEpoch then (r, false)
    else (Roots(r.pending, r.pendingEpoch, r.pendingCreatedAt, r.pendingSendBase,
                None, 0, 0, sendIndex, Prune(p, Retire(p, r, now), now)), true)
  }

  /** An offered root from the peer; the second result is the epoch to acknowledge. */
  function ReceiveRoot(p: Policy, r: Roots, offer: Offer, sendIndex: nat, now: int)
    : (Roots, Option<nat>)
  {
    if r.root.None? then
      (r.(root := Some(offer.secret), epoch := offer.epoch, createdAt := now, sendBase := sendIndex),
       Some(offer.epoch))
    else if offer.epoch > r.epoch then
      (r.(root := Some(offer.secret), epoch := offer.epoch, createdAt := now, sendBase := sendIndex,
          prev := Prune(p, Retire(p, r, now), now)),
       Some(offer.epoch))
    else if offer.epoch == r.epoch && r.root == Some(offer.secret) then
      (r, Some(offer.epoch))
    else
      (r, None)
  }

  /** The roots a receiver tries, current root first. */
  function Candidates(p: Policy, r: Roots, now: int): seq<Offer> {
    (if r.root.Some? then [Offer(r.epoch, r.root.value)] else [])
    + AsOffers(Prune(p, r.prev, now))
  }

  function AsOffers(items: seq<OldRoot>): seq<Offer> {
    seq(|items|, i requires 0 <= i < |items| => Offer(items[i].epoch, items[i].secret))
  }

  /** The stored snapshot of one peer, whose fields the signal handlers update in place. */
  class PeerRoots {
    const policy: Policy
    var root: Option<Secret>
    var epoch: nat
    var createdAt: int
    var sendBase: nat
    var pending: Option<Secret>
    var pendingEpoch: nat
    var pendingCreatedAt: int
    var pendingSendBase: nat
    var prev: seq<OldRoot>

    function View(): Roots
      reads this
    {
      Roots(root, epoch, createdAt, sendBase,
            pending, pendingEpoch, pendingCreatedAt, pendingSendBase, prev)
    }

    constructor (policy: Policy)
      ensures this.policy == policy && View() == NO_ROOTS
    {
      this.policy := policy;
      root, epoch, createdAt, sendBase := None, 0, 0, 0;
      pending, pendingEpoch, pendingCreatedAt, pendingSendBase := None, 0, 0, 0;
      prev := [];
    }

    method EnsurePendingRoot(force: bool, drawn: Secret, sendIndex: nat, now: int)
      returns (offer: Option<Offer>)
      modifies this
      ensures (View(), offer) == EnsurePending(policy, old(View()), force, drawn, sendIndex, now)
    {
      if pending.Some? && pendingEpoch > 0 {
        return Some(Offer(pendingEpoch, pending.value));
      }
      var shouldBootstrap := root.None?;
      var shouldRotate := force || ShouldRotate(policy, View(), sendIndex, now);
      if !shouldBootstrap && !shouldRotate {
        return None;
      }
      pendingEpoch := Max(epoch, pendingEpoch) + 1;
      pending := Some(drawn);
      pendingCreatedAt := now;
      pendingSendBase := sendIndex;
      offer := Some(Offer(pendingEpoch, drawn));
    }

    method CommitPendingRoot(ack: nat, sendIndex: nat, now: int) returns (committed: bool)
      modifies this
      ensures (View(), committed) == CommitPending(policy, old(View()), ack, sendIndex, now)
    {
      if !(pending.Some? && pendingEpoch > 0) || ack != pendingEpoch {
        return false;
      }
      if root.Some? {
        prev := prev + [OldRoot(epoch, root.value, now + policy.grace)];
      }
      root := pending;
      epoch := pendingEpoch;
      createdAt := pendingCreatedAt;
      sendBase := pendingSendBase;
      pending := None;
      pendingEpoch := 0;
      pendingCreatedAt := 0;
      pendingSendBase := sendIndex;
      prev := Prune(policy, prev, now);
      committed := true;
    }

    method HandleRootSignal(offer: Offer, sendIndex: nat, now: int) returns (ack: Option<nat>)
      modifies this
      ensures (View(), ack) == ReceiveRoot(policy, old(View()), offer, sendIndex, now)
    {
      if root.None? {
        root, epoch, createdAt, sendBase := Some(offer.secret), offer.epoch, now, sendIndex;
        return Some(offer.epoch);
      }
      if offer.epoch > epoch {
        prev := prev + [OldRoot(epoch, root.value, now + policy.grace)];
        root, epoch, createdAt, sendBase := Some(offer.secret), offer.epoch, now, sendIndex;
        prev := Prune(policy, prev, now);
        return Some(offer.epoch);
      }
      if offer.epoch == epoch && root == Some(offer.secret) {
        return Some(offer.epoch);
      }
      ack := None;
    }
  }

  // ---------- what pruning keeps ----------

  lemma {:induction false} UnexpiredIsFilter(items: seq<OldRoot>, now: int, x: OldRoot)
    ensures multiset(Unexpired(items, now))[x] == (if x.expiresAt > now then multiset(items)[x] else 0)
  {
    if items != [] {
      UnexpiredIsFilter(items[1..], now, x);
      assert items == [items[0]] + items[1..];
    }
  }

  lemma {:induction false} InsertKeepsOrder(sorted: seq<OldRoot>, x: OldRoot)
    requires Descending(sorted)
    ensures Descending(InsertByEpoch(sorted, x))
    ensures multiset(InsertByEpoch(sorted, x)) == multiset(sorted) + multiset{x}
  {
    if sorted != [] {
      assert sorted == [sorted[0]] + sorted[1..];
      if x.epoch <= sorted[0].epoch {
        InsertKeepsOrder(sorted[1..], x);
        var rest := InsertByEpoch(sorted[1..], x);
        forall i | 0 <= i < |rest|
          ensures rest[i].epoch <= sorted[0].epoch
        {
          assert rest[i] in multiset(rest);
          assert rest[i] in multiset(sorted[1..]) + multiset{x};
        }
      }
    }
  }

  lemma {:induction false} NewestFirstSorts(items: seq<OldRoot>)
    ensures Descending(NewestFirst(items))
    ensures multiset(NewestFirst(items)) == multiset(items)
  {
    if items != [] {
      var n := |items| - 1;
      NewestFirstSorts(items[..n]);
      InsertKeepsOrder(NewestFirst(items[..n]), items[n]);
      assert items == items[..n] + [items[n]];
    }
  }

  /** The first items of a list, newest first: as many as allowed, and nothing newer is left out. */
  ghost predicate IsNewestOf(kept: seq<OldRoot>, all: seq<OldRoot>, limit: nat) {
    && Descending(kept)
    && |kept| == (if |all| < limit then |all| else limit)
    && exists rest: seq<OldRoot> ::
         && multiset(kept) + multiset(rest) == multiset(all)
         && forall i, j :: 0 <= i < |kept| && 0 <= j < |rest| ==> kept[i].epoch >= rest[j].epoch
  }

  lemma TakeIsNewest(sorted: seq<OldRoot>, all: seq<OldRoot>, limit: nat)
    requires Descending(sorted) && multiset(sorted) == multiset(all)
    ensures IsNewestOf(if |sorted| > limit then sorted[..limit] else sorted, all, limit)
  {
    assert |sorted| == |multiset(sorted)| == |multiset(all)| == |all|;
    if |sorted| > limit {
      var rest := sorted[limit..];
      assert sorted == sorted[..limit] + rest;
      assert multiset(sorted[..limit]) + multiset(rest) == multiset(all);
    } else {
      assert multiset(sorted) + multiset([]) == multiset(all);
    }
  }

  /**
    Pruning any list keeps unexpired items only, as many as the bound allows, newest first, and
    leaves out an unexpired item only behind items at least as new.
   */
  lemma PruneKeepsNewest(p: Policy, items: seq<OldRoot>, now: int)
    ensures IsNewestOf(Prune(p, items, now), Unexpired(items, now), p.maxPrevious)
  {
    NewestFirstSorts(Unexpired(items, now));
    TakeIsNewest(NewestFirst(Unexpired(items, now)), Unexpired(items, now), p.maxPrevious);
  }
}
