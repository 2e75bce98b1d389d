/**
  When the base slot pins the window for good: exactly what the boxes must hold, for a peer whose slots were handed
  on once each, and for one whose base slot was handed on before, because a timeout struck late or a save moved
  the window back.
 */
module PinnedWindow {
  import opened Wrappers
  import opened KeySchedule
  import opened Replicas
  import opened PutQuorum
  import opened SlotReceive
  import opened ReceiveGuarantees
  import opened StoredWindows
  import opened Pinning

  // ---------- blobs of the base slot that are still remembered ----------

  function Below(n: nat): (s: set<nat>)
    ensures |s| == n && forall i: nat :: i in s <==> i < n
  {
    if n == 0 then {} else Below(n - 1) + {n - 1}
  }

  lemma {:induction false} CountDistinct(s: seq<nat>)
    requires NoRepeats(s)
    ensures |SetOf(s)| == |s|
  {
    if s != [] {
      CountDistinct(s[1..]);
      FirstAndRest(s);
      assert s[0] !in SetOf(s[1..]);
    }
  }

  lemma DistinctBelow(s: seq<nat>, n: nat)
    requires NoRepeats(s) && forall k :: 0 <= k < |s| ==> s[k] < n
    ensures |s| <= n
  {
    CountDistinct(s);
    SmallerSet(SetOf(s), Below(n));
  }

  /** Distinct slots of a range are no more than the range is long. */
  lemma FewDeliveries(p: Polling, start: nat, from: nat, to: nat)
    requires OncePerSlot(p, start) && WithinRange(p.inbox.handedOn, start, from, to) && from <= to
    ensures |p.inbox.handedOn| - start <= to - from
  {
    var h := p.inbox.handedOn;
    var s := seq(|h| - start, k requires 0 <= k < |h| - start =>
      if h[start + k].index >= from then h[start + k].index - from else 0);
    DistinctBelow(s, to - from);
  }

  /** An entry of the log that is recent enough is still remembered. */
  lemma StillSeen(i: Inbox, limit: nat, at: nat)
    requires InboxOk(i, limit) && at < |i.log| && |i.log| - at <= limit
    ensures i.log[at] in i.seen
  {
    assert i.order[at - (|i.log| - |i.order|)] == i.log[at];
  }

  /** Deliveries only join, so the log behind them only grows. */
  lemma LogGrows(i: Inbox, i': Inbox)
    requires SealedForSlot(i.handedOn, i.log) && SealedForSlot(i'.handedOn, i'.log) && i.handedOn <= i'.handedOn
    ensures i.log <= i'.log
  {
    forall k | 0 <= k < |i.log| ensures i.log[k] == i'.log[k] {
      assert i.handedOn[k] == i'.handedOn[k];
    }
  }

  lemma PollKeepsOnce(p: Polling, e: Setting, roots: seq<RootKeys>, start: nat)
    requires PollingOk(p, e.limit) && e.limit >= 1 && NeverLate(e) && OncePerSlot(p, start)
    ensures OncePerSlot(Poll(p, e, roots), start)
  {
    PollsKeepOrder(p, e, [roots], start);
    assert Polls(p, e, [roots]) == Polls(Poll(p, e, roots), e, []);
  }

  /**
    Blobs of the base slot were handed on between `at` and `start`, and since then only slots of the window after
    it, once each; all of these together fit what is remembered.
   */
  ghost predicate KnownCopies(p: Polling, e: Setting, base: nat, span: nat, at: nat, start: nat, known: set<Blob>) {
    && PollingOk(p, e.limit) && p.consumer.recvBase == base && Span(p.consumer, e.limits) == span >= 1
    && at <= start <= |p.inbox.log| && start - at + span - 1 <= e.limit
    && (forall b :: b in known ==> b in p.inbox.log[at..start])
    && OncePerSlot(p, start) && WithinRange(p.inbox.handedOn, start, base + 1, base + span)
  }

  lemma KnownIsSeen(p: Polling, e: Setting, base: nat, span: nat, at: nat, start: nat, known: set<Blob>)
    requires KnownCopies(p, e, base, span, at, start, known)
    ensures known <= p.inbox.seen
  {
    FewDeliveries(p, start, base + 1, base + span);
    forall b | b in known ensures b in p.inbox.seen {
      var k :| 0 <= k < |p.inbox.log[at..start]| && p.inbox.log[at..start][k] == b;
      StillSeen(p.inbox, e.limit, at + k);
    }
  }

  lemma KnownCopiesStay(p: Polling, e: Setting, roots: seq<RootKeys>, base: nat, span: nat, at: nat, start: nat,
                        known: set<Blob>)
    requires KnownCopies(p, e, base, span, at, start, known) && e.limit >= 1 && NeverLate(e)
    requires Closed(p.world, e, roots, base, known)
    ensures KnownCopies(Poll(p, e, roots), e, base, span, at, start, known)
    ensures OnlyBrought(p.world, Poll(p, e, roots).world)
  {
    KnownIsSeen(p, e, base, span, at, start, known);
    ClosedBaseStays(p, e, roots, known, start);
    PollKeepsPolling(p, e, roots);
    PollKeepsOnce(p, e, roots, start);
    LogGrows(p.inbox, Poll(p, e, roots).inbox);
    assert Poll(p, e, roots).inbox.log[at..start] == p.inbox.log[at..start];
  }

  /**
    A base slot from which the boxes can serve nothing but remembered copies, whatever roots are tried, pins the
    window over every run of polls without late timeouts: too few others are handed on within the window for the
    copies to be forgotten.
   */
  lemma {:induction false} KnownBasePinsForGood(p: Polling, e: Setting, roots: seq<seq<RootKeys>>, base: nat, span: nat,
                                                at: nat, start: nat, known: set<Blob>)
    requires KnownCopies(p, e, base, span, at, start, known) && e.limit >= 1 && NeverLate(e)
    requires forall i :: 0 <= i < |roots| ==> Closed(p.world, e, roots[i], base, known)
    ensures Polls(p, e, roots).consumer.recvBase == base
    ensures KnownCopies(Polls(p, e, roots), e, base, span, at, start, known)
    decreases |roots|
  {
    if roots != [] {
      KnownCopiesStay(p, e, roots[0], base, span, at, start, known);
      LaterPollsClosed(p.world, Poll(p, e, roots[0]).world, e, roots, base, known);
      KnownBasePinsForGood(Poll(p, e, roots[0]), e, roots[1..], base, span, at, start, known);
    }
  }

  /**
    So a blob that was handed on although its slot was not consumed, since a timeout struck late, pins the window
    for good if the boxes can serve nothing but this copy there.
   */
  lemma LateTimeoutPinsForGood(p: Polling, e: Setting, roots: seq<seq<RootKeys>>, at: nat)
    requires PollingOk(p, e.limit) && 1 <= Span(p.consumer, e.limits) <= e.limit
    requires NeverLate(e) && at < |p.inbox.log| && OncePerSlot(p, at + 1)
    requires WithinRange(p.inbox.handedOn, at + 1, p.consumer.recvBase + 1,
                         p.consumer.recvBase + Span(p.consumer, e.limits))
    requires forall i :: 0 <= i < |roots| ==>
               Closed(p.world, e, roots[i], p.consumer.recvBase, {p.inbox.log[at]})
    ensures Polls(p, e, roots).consumer.recvBase == p.consumer.recvBase
  {
    var known := {p.inbox.log[at]};
    assert p.inbox.log[at..at + 1][0] == p.inbox.log[at];
    KnownBasePinsForGood(p, e, roots, p.consumer.recvBase, Span(p.consumer, e.limits), at, at + 1, known);
  }

  /**
    And so does a save that moves the window back: when the slot it goes back to holds nothing but copies that were
    handed on before and are remembered long enough, the window is stuck there over every later run of polls.
   */
  lemma SaveRewindsAndPins(r: Receiver, e: Setting, copy: nat, roots: seq<seq<RootKeys>>, at: nat, known: set<Blob>)
    requires ReceiverOk(r, e.limit) && e.limit >= 1 && NeverLate(e) && copy < |r.copies|
    requires var c, log := r.copies[copy], r.polling.inbox.log;
             && Span(c, e.limits) >= 1 && at <= |log| && |log| - at + Span(c, e.limits) - 1 <= e.limit
             && (forall b :: b in known ==> b in log[at..])
             && forall i :: 0 <= i < |roots| ==> Closed(r.polling.world, e, roots[i], c.recvBase, known)
    ensures Polls(ApplyWindow(r, e, SaveWindow(copy)).polling, e, roots).consumer.recvBase == r.copies[copy].recvBase
  {
    var c, p := r.copies[copy], r.polling.(consumer := r.copies[copy]);
    assert p.inbox.log[at..|p.inbox.log|] == p.inbox.log[at..];
    KnownBasePinsForGood(p, e, roots, c.recvBase, Span(c, e.limits), at, |p.inbox.log|, known);
  }

  // ---------- exactly when no run of polls moves the base ----------

  /** Some handler of the run takes this frame. */
  ghost predicate CanTake(e: Setting, frame: Frame) {
    exists t: nat :: e.plans(t).process(frame).Taken?
  }

  /** Any order of answers, deadlines and verdicts, as long as no other frames are taken. */
  ghost predicate TakesNoMore(plans: nat -> Plan, e: Setting, late: bool) {
    forall t: nat :: (plans(t).late ==> late) && forall f :: plans(t).process(f).Taken? ==> CanTake(e, f)
  }

  /** Other writers in any order and at any time, as long as they bring nothing else. */
  ghost predicate BringsNoMore(others: nat -> seq<Store>, w: World) {
    forall box: nat, key, blob :: Brought(others, box, key, blob) ==> Brought(w.others, box, key, blob)
  }

  function Facing(p: Polling, fault: nat -> Fault, others: nat -> seq<Store>): Polling {
    p.(world := World(p.world.stores, p.world.clock, fault, others))
  }

  function Repeat(roots: seq<RootKeys>, n: nat): seq<seq<RootKeys>> {
    seq(n, i => roots)
  }

  /** No run of polls under these roots moves the base, whatever is lost, and whoever answers or writes when. */
  ghost predicate PinnedForGood(p: Polling, e: Setting, roots: seq<RootKeys>, late: bool) {
    forall n: nat, fault: nat -> Fault, others: nat -> seq<Store>, plans: nat -> Plan ::
      BringsNoMore(others, p.world) && TakesNoMore(plans, e, late) ==>
        Polls(Facing(p, fault, others), e.(plans := plans), Repeat(roots, n)).consumer.recvBase == p.consumer.recvBase
  }

  /** What is closed stays closed whoever answers or writes when. */
  lemma ClosedWhatever(p: Polling, e: Setting, roots: seq<RootKeys>, index: nat, known: set<Blob>, fault: nat -> Fault,
                       others: nat -> seq<Store>, plans: nat -> Plan, late: bool)
    requires Closed(p.world, e, roots, index, known) && BringsNoMore(others, p.world) && TakesNoMore(plans, e, late)
    ensures Closed(Facing(p, fault, others).world, e.(plans := plans), roots, index, known)
  {
    var w, o := Facing(p, fault, others).world, e.(plans := plans);
    forall j: nat | Tried(roots, index, j) ensures ClosedSlot(w, o, roots[j](index).value, index, known) {
      var key := roots[j](index).value;
      forall box, blob | box in o.boxes && CanServe(w, box, key, blob)
        ensures Rejected(o, blob, key, index) || blob in known
      {
        assert CanServe(p.world, box, key, blob);
        assert Rejected(e, blob, key, index) || blob in known;
      }
    }
  }

  /** A writer that brings this one blob to this one box, at every tick. */
  function Only(box: nat, key: Keys, blob: Blob): nat -> seq<Store> {
    (t: nat) => seq(box + 1, i => if i == box then map[key := blob] else map[])
  }

  /** Only this box answers, in the read of this turn, and only this frame is taken. */
  function OneAnswer(turn: nat, box: nat, frame: Frame): nat -> Plan {
    (t: nat) => Plan(if t == turn then [Batch([box])] else [], false,
                     (f: Frame) => if f == frame then Taken else Processing.Refused)
  }

  lemma OnlyBrings(w: World, box: nat, key: Keys, blob: Blob, clock: nat, fault: nat -> Fault)
    requires CanServe(w, box, key, blob)
    ensures var others := if key in w.stores[box] then (t: nat) => [] else Only(box, key, blob);
            && BringsNoMore(others, w)
            && Holds(Tick(World(w.stores, clock, fault, others)).stores, box, key, blob)
  {
  }

  /** An unseen blob that a box can serve, opens and can be taken lets some run of one poll move the base. */
  lemma ServableMoves(p: Polling, e: Setting, roots: seq<RootKeys>, j: nat, box: nat, blob: Blob, late: bool)
    requires PollingOk(p, e.limit) && e.limit >= 1 && !p.stopped && Span(p.consumer, e.limits) >= 1
    requires Tried(roots, p.consumer.recvBase, j) && box in e.boxes && blob !in p.inbox.seen
    requires var key := roots[j](p.consumer.recvBase).value;
             && CanServe(p.world, box, key, blob) && OpensAt(blob, key, p.consumer.recvBase) && CanTake(e, blob.frame)
    ensures !PinnedForGood(p, e, roots, late)
  {
    var base := p.consumer.recvBase;
    var key := roots[j](base).value;
    var fault: nat -> Fault := (t: nat) => Answered;
    var others := if key in p.world.stores[box] then (t: nat) => [] else Only(box, key, blob);
    var plans := OneAnswer(p.turn + j, box, blob.frame);
    OnlyBrings(p.world, box, key, blob, p.world.clock, fault);
    var q, o := Facing(p, fault, others), e.(plans := plans);
    assert AnswersNew(q, o, key, base, q.turn + j, box);
    OnlyAnswerMoves(q, o, roots, j, box);
    OnePoll(q, o, roots);
    assert TakesNoMore(plans, e, late);
  }

  lemma OnePoll(p: Polling, e: Setting, roots: seq<RootKeys>)
    ensures Polls(p, e, Repeat(roots, 1)) == Poll(p, e, roots)
  {
    assert Repeat(roots, 1) == [roots] && [roots][1..] == [];
    assert Polls(p, e, [roots]) == Polls(Poll(p, e, roots), e, []);
  }

  /** A blob that is remembered was handed on from the slot it was sealed for. */
  lemma SeenIsDelivered(i: Inbox, limit: nat, blob: Blob) returns (at: nat)
    requires InboxOk(i, limit) && blob in i.seen
    ensures blob.Sealed? && at < |i.handedOn| && i.handedOn[at].index == blob.index
  {
    var k :| 0 <= k < |i.order| && i.order[k] == blob;
    at := |i.log| - |i.order| + k;
    assert OpensAt(i.log[at], i.handedOn[at].key, i.handedOn[at].index);
  }

  /** While slots are handed on at most once, no blob of the base slot has been seen. */
  lemma BaseBlobIsNew(p: Polling, limit: nat, blob: Blob)
    requires PollingOk(p, limit) && OncePerSlot(p, 0) && blob.Sealed? && blob.index == p.consumer.recvBase
    ensures blob !in p.inbox.seen
  {
    if blob in p.inbox.seen {
      var at := SeenIsDelivered(p.inbox, limit, blob);
    }
  }

  /** The remembered blobs that were sealed for the base slot. */
  function KnownOf(p: Polling): set<Blob> {
    set b | b in p.inbox.seen && b.Sealed? && b.index == p.consumer.recvBase
  }

  /** If the slot is open, no run without the missing blob's delivery can be all there is. */
  lemma OpenIsNotPinned(p: Polling, e: Setting, roots: seq<RootKeys>, late: bool)
    requires PollingOk(p, e.limit) && e.limit >= 1 && !p.stopped && Span(p.consumer, e.limits) >= 1
    requires !Closed(p.world, e, roots, p.consumer.recvBase, KnownOf(p))
    ensures !PinnedForGood(p, e, roots, late)
  {
    var base, known := p.consumer.recvBase, KnownOf(p);
    var j: nat :| Tried(roots, base, j) && !ClosedSlot(p.world, e, roots[j](base).value, base, known);
    var key := roots[j](base).value;
    var box: nat, blob: Blob :|
      box in e.boxes && CanServe(p.world, box, key, blob) && !Rejected(e, blob, key, base) && blob !in known;
    ServableMoves(p, e, roots, j, box, blob, late);
  }

  /**
    The base slot pins the window for good, whoever answers or writes when and whether or not timeouts strike late,
    exactly when the boxes can serve nothing in it, under any root that is tried, but blobs that do not open there
    or are never taken.
   */
  lemma PinnedIff(p: Polling, e: Setting, roots: seq<RootKeys>, late: bool)
    requires PollingOk(p, e.limit) && e.limit >= 1 && !p.stopped && Span(p.consumer, e.limits) >= 1
    requires OncePerSlot(p, 0)
    ensures PinnedForGood(p, e, roots, late) <==> Closed(p.world, e, roots, p.consumer.recvBase, {})
  {
    var base := p.consumer.recvBase;
    if Closed(p.world, e, roots, base, {}) {
      forall n: nat, fault: nat -> Fault, others: nat -> seq<Store>, plans: nat -> Plan
        | BringsNoMore(others, p.world) && TakesNoMore(plans, e, late)
        ensures Polls(Facing(p, fault, others), e.(plans := plans), Repeat(roots, n)).consumer.recvBase == base
      {
        ClosedWhatever(p, e, roots, base, {}, fault, others, plans, late);
        ClosedBasePinsForGood(Facing(p, fault, others), e.(plans := plans), Repeat(roots, n), |p.inbox.handedOn|);
      }
    } else {
      if b :| b in KnownOf(p) {
        BaseBlobIsNew(p, e.limit, b);
      }
      OpenIsNotPinned(p, e, roots, late);
    }
  }

  /**
    The same for a peer whose base slot was handed on before, by a late timeout or before the window was moved
    back: while no further timeout is late it is pinned for good exactly when the boxes can serve nothing there
    but remembered copies, blobs that do not open and blobs that are never taken.
   */
  lemma KnownBasePinnedIff(p: Polling, e: Setting, roots: seq<RootKeys>, at: nat)
    requires PollingOk(p, e.limit) && e.limit >= 1 && !p.stopped && Span(p.consumer, e.limits) >= 1
    requires at <= |p.inbox.log| && |p.inbox.log| - at + Span(p.consumer, e.limits) - 1 <= e.limit
    requires forall b :: b in KnownOf(p) ==> b in p.inbox.log[at..]
    ensures PinnedForGood(p, e, roots, false) <==> Closed(p.world, e, roots, p.consumer.recvBase, KnownOf(p))
  {
    var base, known, top := p.consumer.recvBase, KnownOf(p), |p.inbox.log|;
    if Closed(p.world, e, roots, base, known) {
      forall n: nat, fault: nat -> Fault, others: nat -> seq<Store>, plans: nat -> Plan
        | BringsNoMore(others, p.world) && TakesNoMore(plans, e, false)
        ensures Polls(Facing(p, fault, others), e.(plans := plans), Repeat(roots, n)).consumer.recvBase == base
      {
        ClosedWhatever(p, e, roots, base, known, fault, others, plans, false);
        assert p.inbox.log[at..top] == p.inbox.log[at..];
        KnownBasePinsForGood(Facing(p, fault, others), e.(plans := plans), Repeat(roots, n), base,
                             Span(p.consumer, e.limits), at, top, known);
      }
    } else {
      OpenIsNotPinned(p, e, roots, false);
    }
  }
}
