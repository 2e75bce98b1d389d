/** What the receiving side guarantees, for every order of answers, losses and timeouts. */
module ReceiveGuarantees {
  import opened Wrappers
  import opened KeySchedule
  import opened Replicas
  import opened BlobClient
  import opened PutQuorum
  import opened SlotSend
  import opened SlotGuarantees
  import opened SlotReceive

  // ---------- the remembered digests ----------

  ghost predicate SetAgrees(seen: set<Blob>, order: seq<Blob>) {
    forall b :: b in seen <==> b in order
  }

  /** The queue is the end of the log, as long as the bound allows. */
  ghost predicate EndOfLog(order: seq<Blob>, log: seq<Blob>, limit: nat) {
    && |order| == (if |log| < limit then |log| else limit)
    && order == log[|log| - |order|..]
  }

  /** A blob appears twice in the log only more than `limit` entries apart. */
  ghost predicate FarApart(log: seq<Blob>, limit: nat) {
    forall a, b :: 0 <= a < b < |log| && log[a] == log[b] ==> b - a > limit
  }

  /** What was handed on is what was remembered, and was sealed for exactly the slot it was read from. */
  ghost predicate SealedForSlot(handedOn: seq<Delivery>, log: seq<Blob>) {
    && |handedOn| == |log|
    && forall k :: 0 <= k < |log| ==>
         handedOn[k].blob == log[k] && OpensAt(log[k], handedOn[k].key, handedOn[k].index)
  }

  /** Set and queue always agree and stay within the bound; no blob is handed on twice within it. */
  ghost predicate InboxOk(i: Inbox, limit: nat) {
    SetAgrees(i.seen, i.order) && EndOfLog(i.order, i.log, limit)
    && FarApart(i.log, limit) && SealedForSlot(i.handedOn, i.log)
  }

  lemma QueueHasNoRepeats(order: seq<Blob>, log: seq<Blob>, limit: nat)
    requires EndOfLog(order, log, limit) && FarApart(log, limit)
    ensures forall a, b :: 0 <= a < b < |order| ==> order[a] != order[b]
  {
    forall a, b | 0 <= a < b < |order| ensures order[a] != order[b] {
      var off := |log| - |order|;
      assert order[a] == log[off + a] && order[b] == log[off + b];
    }
  }

  lemma TrimOnce(order: seq<Blob>, seen: set<Blob>, limit: nat)
    requires |order| <= limit + 1
    ensures Trim(order, seen, limit) == if |order| > limit then (order[1..], seen - {order[0]}) else (order, seen)
  {
    if |order| > limit {
      assert |order[1..]| <= limit;
    }
  }

  lemma DropKeepsAgreement(order: seq<Blob>, seen: set<Blob>)
    requires order != [] && SetAgrees(seen, order)
    requires forall a, b :: 0 <= a < b < |order| ==> order[a] != order[b]
    ensures SetAgrees(seen - {order[0]}, order[1..])
  {
    forall b ensures b in seen - {order[0]} <==> b in order[1..] {
      if b in order {
        var k :| 0 <= k < |order| && order[k] == b;
        if k > 0 {
          assert order[1..][k - 1] == b;
        }
      }
    }
  }

  lemma LogStaysFarApart(order: seq<Blob>, log: seq<Blob>, blob: Blob, limit: nat)
    requires EndOfLog(order, log, limit) && FarApart(log, limit) && blob !in order
    ensures FarApart(log + [blob], limit)
  {
    var off := |log| - |order|;
    forall k | off <= k < |log| ensures log[k] in order {
      assert order[k - off] == log[k];
    }
  }

  lemma RememberOk(i: Inbox, d: Delivery, limit: nat)
    requires InboxOk(i, limit) && limit >= 1 && d.blob !in i.seen && OpensAt(d.blob, d.key, d.index)
    ensures var i' := Remember(i.(handedOn := i.handedOn + [d]), d.blob, limit);
            InboxOk(i', limit) && i'.handedOn == i.handedOn + [d]
  {
    var order, seen, log := i.order + [d.blob], i.seen + {d.blob}, i.log + [d.blob];
    LogStaysFarApart(i.order, i.log, d.blob, limit);
    TrimOnce(order, seen, limit);
    assert SetAgrees(seen, order);
    if |order| > limit {
      QueueHasNoRepeats(i.order, i.log, limit);
      DropKeepsAgreement(order, seen);
      assert EndOfLog(order[1..], log, limit);
    } else {
      assert EndOfLog(order, log, limit);
    }
    assert SealedForSlot(i.handedOn + [d], log);
  }

  // ---------- one read ----------

  /** Every started read is pending, completed or cancelled, and exactly one of these. */
  ghost predicate Accounted(r: Read, all: set<nat>) {
    && r.pending + r.completed + r.cancelled == all
    && r.pending !! r.completed && r.pending !! r.cancelled && r.completed !! r.cancelled
  }

  lemma {:induction false} OnlyPendingIsSubset(boxes: seq<nat>, pending: set<nat>)
    ensures forall b :: b in OnlyPending(boxes, pending) ==> b in pending && b in boxes
  {
    if boxes != [] {
      OnlyPendingIsSubset(boxes[1..], pending - {boxes[0]});
      OnlyPendingIsSubset(boxes[1..], pending);
    }
  }

  lemma EventKeepsAccount(r: Read, s: Slot, e: Event, all: set<nat>)
    requires Accounted(r, all)
    ensures Accounted(OnEvent(r, s, e), all)
  {
    if e.Batch? {
      OnlyPendingIsSubset(e.boxes, r.pending);
      var done := OnlyPending(e.boxes, r.pending);
      var finished := set b <- done;
      var r0 := r.(pending := r.pending - finished, completed := r.completed + finished);
      assert Accounted(r0, all);
      assert Accounted(ReadBatch(r0, s, done), all);
    }
  }

  lemma {:induction false} ReadSlotEnds(r: Read, s: Slot, script: seq<Event>, all: set<nat>)
    requires Accounted(r, all) && (!r.outcome.Waiting? ==> r.pending == {})
    ensures var r' := ReadSlot(r, s, script);
            Accounted(r', all) && r'.pending == {} && !r'.outcome.Waiting?
    decreases |script|
  {
    if r.outcome.Waiting? && r.pending != {} && script != [] {
      EventKeepsAccount(r, s, script[0], all);
      ReadSlotEnds(OnEvent(r, s, script[0]), s, script[1..], all);
    }
  }

  /** However a read ends, every box's task has completed or been cancelled. */
  lemma EveryReadEnds(w: World, inbox: Inbox, s: Slot, boxes: seq<nat>, script: seq<Event>, late: bool)
    ensures var r := GetFirstAccepted(w, inbox, s, boxes, script, late);
            && r.completed + r.cancelled == SetOf(boxes) && r.completed !! r.cancelled
            && r.pending == {} && !r.outcome.Waiting?
  {
    ReadSlotEnds(Read(w, inbox, SetOf(boxes), {}, {}, false, Waiting), s, script, SetOf(boxes));
  }

  // ---------- what one read hands on ----------

  /** A blob some configured box holds in this slot, which opens here and which the handler took. */
  ghost predicate ServedBlob(stores: seq<Store>, boxes: seq<nat>, s: Slot, blob: Blob) {
    && (exists box :: box in boxes && Holds(stores, box, s.key, blob))
    && OpensAt(blob, s.key, s.index) && s.process(blob.frame).Taken?
  }

  /**
    Nothing was handed on, or exactly one new blob was, which a box serves from this slot. The read
    reports it, unless the caller's timeout struck late.
   */
  ghost predicate ReadOk(i: Inbox, boxes: seq<nat>, s: Slot, r: Read) {
    && InboxOk(r.inbox, s.limit)
    && (r.inbox == i || HandsOn(i, boxes, s, r))
    && (r.outcome.Got? ==> r.inbox != i && r.outcome.blob == r.inbox.handedOn[|i.handedOn|].blob)
  }

  ghost predicate HandsOn(i: Inbox, boxes: seq<nat>, s: Slot, r: Read) {
    && |r.inbox.handedOn| == |i.handedOn| + 1
    && r.inbox.handedOn[..|i.handedOn|] == i.handedOn
    && var d := r.inbox.handedOn[|i.handedOn|];
       && d.key == s.key && d.index == s.index
       && d.blob !in i.seen && ServedBlob(r.world.stores, boxes, s, d.blob)
  }

  /** A read still waiting has handed on nothing. */
  ghost predicate ReadingOk(i: Inbox, boxes: seq<nat>, s: Slot, w: World, r: Read) {
    && ReadOk(i, boxes, s, r) && (r.outcome.Got? || r.inbox == i)
    && Grows(w.stores, r.world.stores)
  }

  lemma TakenOk(w: World, boxes: seq<nat>, s: Slot, r: Read, blob: Blob, i': Inbox)
    requires Grows(w.stores, r.world.stores) && ServedBlob(r.world.stores, boxes, s, blob) && blob !in r.inbox.seen
    requires InboxOk(i', s.limit) && i'.handedOn == r.inbox.handedOn + [Delivery(s.key, s.index, blob)]
    ensures ReadingOk(r.inbox, boxes, s, w, r.(inbox := i', outcome := Got(blob)))
  {
    assert i'.handedOn[..|r.inbox.handedOn|] == r.inbox.handedOn;
  }

  lemma OfferedOk(w: World, boxes: seq<nat>, s: Slot, r: Read, blob: Blob, box: nat)
    requires InboxOk(r.inbox, s.limit) && s.limit >= 1 && r.outcome.Waiting?
    requires Grows(w.stores, r.world.stores) && box in boxes && Holds(r.world.stores, box, s.key, blob)
    ensures ReadingOk(r.inbox, boxes, s, w, Offered(r, s, blob))
  {
    if blob !in r.inbox.seen && OpensAt(blob, s.key, s.index) && s.process(blob.frame).Taken? {
      var d := Delivery(s.key, s.index, blob);
      RememberOk(r.inbox, d, s.limit);
      TakenOk(w, boxes, s, r, blob, Remember(r.inbox.(handedOn := r.inbox.handedOn + [d]), blob, s.limit));
    } else {
      assert Offered(r, s, blob).inbox == r.inbox && Offered(r, s, blob).world == r.world;
    }
  }

  lemma ReadBoxOk(boxes: seq<nat>, s: Slot, w: World, r: Read, box: nat)
    requires InboxOk(r.inbox, s.limit) && s.limit >= 1 && r.outcome.Waiting? && box in boxes
    requires Grows(w.stores, r.world.stores)
    ensures ReadingOk(r.inbox, boxes, s, w, ReadBox(r, s, box))
  {
    if box < |r.world.stores| {
      var (w', found) := GetOnce(r.world, box, s.key);
      InterfereGrows(r.world.stores, r.world.others(r.world.clock));
      GrowsTrans(w.stores, r.world.stores, w'.stores);
      if found.Some? && found.value.Some? {
        OfferedOk(w, boxes, s, r.(world := w'), found.value.value, box);
      }
    }
  }

  lemma {:induction false} ReadBatchOk(boxes: seq<nat>, s: Slot, w: World, i: Inbox, r: Read, done: seq<nat>)
    requires ReadingOk(i, boxes, s, w, r) && s.limit >= 1 && forall b :: b in done ==> b in boxes
    ensures ReadingOk(i, boxes, s, w, ReadBatch(r, s, done))
    decreases |done|
  {
    if done != [] && r.outcome.Waiting? {
      ReadBoxOk(boxes, s, w, r, done[0]);
      ReadBatchOk(boxes, s, w, i, ReadBox(r, s, done[0]), done[1..]);
    }
  }

  lemma {:induction false} ReadSlotOk(boxes: seq<nat>, s: Slot, w: World, i: Inbox, r: Read, script: seq<Event>)
    requires ReadingOk(i, boxes, s, w, r) && s.limit >= 1 && r.pending <= SetOf(boxes)
    ensures ReadingOk(i, boxes, s, w, ReadSlot(r, s, script))
    decreases |script|
  {
    if r.outcome.Waiting? && r.pending != {} && script != [] {
      EventOk(boxes, s, w, i, r, script[0]);
      ReadSlotOk(boxes, s, w, i, OnEvent(r, s, script[0]), script[1..]);
    }
  }

  /** The bookkeeping of the tasks does not matter here. */
  lemma SameProgress(boxes: seq<nat>, s: Slot, w: World, i: Inbox, r: Read, r': Read)
    requires ReadingOk(i, boxes, s, w, r) && r'.world == r.world && r'.inbox == r.inbox
    requires r'.outcome == r.outcome || (!r.outcome.Got? && !r'.outcome.Got?)
    ensures ReadingOk(i, boxes, s, w, r')
  {
  }

  lemma EventOk(boxes: seq<nat>, s: Slot, w: World, i: Inbox, r: Read, e: Event)
    requires ReadingOk(i, boxes, s, w, r) && s.limit >= 1 && r.pending <= SetOf(boxes)
    requires r.outcome.Waiting?
    ensures ReadingOk(i, boxes, s, w, OnEvent(r, s, e)) && OnEvent(r, s, e).pending <= SetOf(boxes)
  {
    var r' := OnEvent(r, s, e);
    if e.Batch? {
      OnlyPendingIsSubset(e.boxes, r.pending);
      var done := OnlyPending(e.boxes, r.pending);
      var finished := set b <- done;
      var r0 := r.(pending := r.pending - finished, completed := r.completed + finished);
      SameProgress(boxes, s, w, i, r, r0);
      ReadBatchOk(boxes, s, w, i, r0, done);
      SameProgress(boxes, s, w, i, ReadBatch(r0, s, done), r');
    } else if r.armed {
      SameProgress(boxes, s, w, i, r, r');
    }
  }

  /** Each read hands on at most one blob, a new one that was sealed for exactly this slot. */
  lemma ReadHandsOnAtMostOne(w: World, i: Inbox, s: Slot, boxes: seq<nat>, script: seq<Event>, late: bool)
    requires InboxOk(i, s.limit) && s.limit >= 1
    ensures var r := GetFirstAccepted(w, i, s, boxes, script, late);
            && ReadOk(i, boxes, s, r) && Grows(w.stores, r.world.stores)
            && (!late && !r.outcome.Got? ==> r.inbox == i)
            && (late && |boxes| <= 1 && !r.outcome.Got? ==> r.inbox == i)
  {
    var r0 := Read(w, i, SetOf(boxes), {}, {}, false, Waiting);
    SelfGrows(w.stores);
    ReadSlotOk(boxes, s, w, i, r0, script);
    if |boxes| <= 1 {
      var r := ReadSlot(r0, s, script);
      if r.outcome.Got? {
        OneBoxCompletes(r0, s, script, boxes);
      }
    }
  }

  /** With one replica the read that yields a blob was the only one, so nothing is left to cancel. */
  lemma {:induction false} OneBoxCompletes(r: Read, s: Slot, script: seq<Event>, boxes: seq<nat>)
    requires |boxes| <= 1 && r.pending <= SetOf(boxes) && r.cancelled == {} && r.outcome.Waiting?
    requires ReadSlot(r, s, script).outcome.Got?
    ensures ReadSlot(r, s, script).cancelled == {}
    decreases |script|
  {
    var e := script[0];
    if e.Batch? {
      OnlyPendingIsSubset(e.boxes, r.pending);
      var done := OnlyPending(e.boxes, r.pending);
      if done != [] {
        assert done[0] in SetOf(boxes);
        assert r.pending - (set b <- done) == {};
      }
    }
    var r' := OnEvent(r, s, e);
    if r'.outcome.Waiting? {
      OneBoxCompletes(r', s, script[1..], boxes);
    }
  }

  /** The first box to answer decides: what it holds is handed on if it opens and is taken. */
  lemma FirstAnswerWins(w: World, i: Inbox, s: Slot, boxes: seq<nat>, box: nat, rest: seq<Event>, late: bool)
    requires box in boxes && box < |w.stores| && w.fault(w.clock) == Answered
    requires s.key in Tick(w).stores[box]
    requires var blob := Tick(w).stores[box][s.key];
             blob !in i.seen && OpensAt(blob, s.key, s.index) && s.process(blob.frame).Taken?
    ensures var r := GetFirstAccepted(w, i, s, boxes, [Batch([box])] + rest, late);
            var blob := Tick(w).stores[box][s.key];
            && r.world == Tick(w)
            && r.inbox == Remember(i.(handedOn := i.handedOn + [Delivery(s.key, s.index, blob)]), blob, s.limit)
            && r.cancelled == SetOf(boxes) - {box}
            && r.outcome == if late && r.cancelled != {} then SlotReceive.TimedOut else Got(blob)
  {
    var blob := Tick(w).stores[box][s.key];
    var r0 := Read(w, i, SetOf(boxes), {}, {}, false, Waiting);
    var script := [Batch([box])] + rest;
    assert OnlyPending([box], SetOf(boxes)) == [box] by {
      assert [box][1..] == [] && OnlyPending([], SetOf(boxes) - {box}) == [];
    }
    assert SetOf([box]) == (set b <- [box]) == {box};
    var r1 := Read(w, i, SetOf(boxes) - {box}, {box}, {}, false, Waiting);
    var r2 := ReadBox(r1, s, box);
    assert r2 == Offered(r1.(world := Tick(w)), s, blob);
    assert ReadBatch(r1, s, [box]) == r2;
    var finished := set b <- [box];
    assert r1 == r0.(pending := r0.pending - finished, completed := r0.completed + finished);
    assert OnEvent(r0, s, Batch([box])) == CancelRest(r2, Got(blob));
    assert ReadSlot(CancelRest(r2, Got(blob)), s, script[1..]) == CancelRest(r2, Got(blob));
  }

  // ---------- the window ----------

  /** The base is the least slot not consumed yet. */
  ghost predicate WindowOk(c: Consumer) {
    c.recvBase !in c.consumed && forall i :: 0 <= i < c.recvBase ==> i in c.consumed
  }

  lemma {:induction false} AdvanceBaseStops(base: nat, consumed: set<nat>)
    ensures var b := AdvanceBase(base, consumed);
            base <= b && b !in consumed && forall i :: base <= i < b ==> i in consumed
    decreases |consumed|
  {
    if base in consumed {
      assert |consumed - {base}| < |consumed|;
      AdvanceBaseStops(base + 1, consumed - {base});
      var b := AdvanceBase(base + 1, consumed - {base});
      assert b == AdvanceBase(base, consumed);
      forall i | base <= i < b ensures i in consumed {
        assert i == base || i in consumed - {base};
      }
    }
  }

  lemma MarkKeepsWindow(c: Consumer, index: nat)
    requires WindowOk(c)
    ensures WindowOk(MarkConsumed(c, index)) && MarkConsumed(c, index).recvBase >= c.recvBase
    ensures MarkConsumed(c, index).consumed == c.consumed + {index}
  {
    AdvanceBaseStops(c.recvBase, c.consumed + {index});
  }

  ghost predicate Ascending(s: seq<nat>) {
    forall a, b :: 0 <= a < b < |s| ==> s[a] < s[b]
  }

  lemma {:induction false} UnconsumedAscends(from: nat, to: nat, consumed: set<nat>)
    ensures Ascending(Unconsumed(from, to, consumed))
    decreases if from < to then to - from else 0
  {
    if from < to {
      UnconsumedAscends(from + 1, to, consumed);
      var rest := Unconsumed(from + 1, to, consumed);
      forall b | 0 <= b < |rest| ensures rest[b] > from {
        assert rest[b] in rest;
      }
    }
  }

  lemma {:induction false} NothingLeft(from: nat, to: nat, consumed: set<nat>)
    requires forall i :: from <= i < to ==> i in consumed
    ensures Unconsumed(from, to, consumed) == []
    decreases if from < to then to - from else 0
  {
    if from < to {
      NothingLeft(from + 1, to, consumed);
    }
  }

  /**
    A poll reads unconsumed slots in ascending order, the least unconsumed one first; the backtrack
    range never adds any.
   */
  lemma CandidatesAscendFromBase(c: Consumer, l: ScanLimits)
    requires WindowOk(c)
    ensures var s := RecvCandidates(c, l);
            && Ascending(s)
            && (forall i: nat :: i in s ==>
                  i !in c.consumed && c.recvBase <= i < c.recvBase + Larger(c.window, l.lookahead))
            && (c.window >= 1 || l.lookahead >= 1 ==> s != [] && s[0] == c.recvBase)
  {
    var end := c.recvBase + Larger(c.window, l.lookahead);
    var start := if c.recvBase >= l.backtrack then c.recvBase - l.backtrack else 0;
    var forward, back := Unconsumed(c.recvBase, end, c.consumed), Unconsumed(start, c.recvBase, c.consumed);
    NothingLeft(start, c.recvBase, c.consumed);
    UnconsumedAscends(c.recvBase, end, c.consumed);
    assert forward + back == forward;
    assert c.recvBase < end ==> forward[0] == c.recvBase;
    var s := AtMost(forward, Larger(1, l.perPoll));
    PrefixAscends(forward, Larger(1, l.perPoll));
    PrefixAscends(s, Larger(1, l.budget));
  }

  lemma PrefixAscends(s: seq<nat>, n: nat)
    requires Ascending(s) && n >= 1
    ensures var p := AtMost(s, n);
            Ascending(p) && (forall i: nat :: i in p ==> i in s) && (s != [] ==> p != [] && p[0] == s[0])
  {
  }

  // ---------- every run of polls ----------

  /** Since the `start`-th delivery, each slot was handed on at most once and is then consumed. */
  ghost predicate OncePerSlot(p: Polling, start: nat) {
    var h := p.inbox.handedOn;
    && start <= |h|
    && (forall k :: start <= k < |h| ==> h[k].index in p.consumer.consumed)
    && (forall a, b :: start <= a < b < |h| ==> h[a].index != h[b].index)
  }

  ghost predicate PollingOk(p: Polling, limit: nat) {
    InboxOk(p.inbox, limit) && WindowOk(p.consumer)
  }

  /** No timeout strikes after a blob was taken; with one replica none ever can. */
  ghost predicate NeverLate(e: Setting) {
    |e.boxes| <= 1 || forall t :: !e.plans(t).late
  }

  ghost predicate Progress(p: Polling, p': Polling) {
    && p.inbox.handedOn <= p'.inbox.handedOn && p.consumer.consumed <= p'.consumer.consumed
    && p.consumer.recvBase <= p'.consumer.recvBase && Grows(p.world.stores, p'.world.stores)
  }

  /** One slot: at most this index is consumed, and the slot is handed on at most once. */
  ghost predicate SlotPolled(p: Polling, p': Polling, e: Setting, index: nat, start: nat) {
    && PollingOk(p', e.limit) && Progress(p, p')
    && p'.consumer.consumed <= p.consumer.consumed + {index}
    && (NeverLate(e) && OncePerSlot(p, start) && index !in p.consumer.consumed ==> OncePerSlot(p', start))
  }

  lemma AfterReadProgress(p: Polling, e: Setting, key: Keys, index: nat)
    requires PollingOk(p, e.limit) && e.limit >= 1
    ensures var p' := AfterRead(p, e, key, index);
            PollingOk(p', e.limit) && Progress(p, p') && p'.consumer.consumed <= p.consumer.consumed + {index}
  {
    PlannedReadOk(p, e, key, index);
    MarkKeepsWindow(p.consumer, index);
  }

  lemma AfterReadOnce(p: Polling, e: Setting, key: Keys, index: nat, start: nat)
    requires PollingOk(p, e.limit) && e.limit >= 1
    requires NeverLate(e) && OncePerSlot(p, start) && index !in p.consumer.consumed
    ensures OncePerSlot(AfterRead(p, e, key, index), start)
  {
    PlannedReadOk(p, e, key, index);
    MarkKeepsWindow(p.consumer, index);
    if PlannedRead(p, e, key, index).outcome.Got? {
      OneMoreSlot(p, AfterRead(p, e, key, index), index, start);
    }
  }

  lemma AfterReadOk(p: Polling, e: Setting, key: Keys, index: nat, start: nat)
    requires PollingOk(p, e.limit) && e.limit >= 1
    ensures SlotPolled(p, AfterRead(p, e, key, index), e, index, start)
    ensures NeverLate(e) && !PlannedRead(p, e, key, index).outcome.Got? ==>
              AfterRead(p, e, key, index).inbox == p.inbox
  {
    AfterReadProgress(p, e, key, index);
    PlannedReadOk(p, e, key, index);
    if NeverLate(e) && OncePerSlot(p, start) && index !in p.consumer.consumed {
      AfterReadOnce(p, e, key, index, start);
    }
  }

  lemma PlannedReadOk(p: Polling, e: Setting, key: Keys, index: nat)
    requires PollingOk(p, e.limit) && e.limit >= 1
    ensures var r, h := PlannedRead(p, e, key, index), p.inbox.handedOn;
            && InboxOk(r.inbox, e.limit) && Grows(p.world.stores, r.world.stores)
            && (r.inbox == p.inbox
                || (exists blob :: r.inbox.handedOn == h + [Delivery(key, index, blob)]))
            && (r.outcome.Got? ==> r.inbox != p.inbox)
            && (NeverLate(e) && !r.outcome.Got? ==> r.inbox == p.inbox)
  {
    var plan := e.plans(p.turn);
    var s := Slot(key, index, plan.process, e.limit);
    ReadHandsOnAtMostOne(p.world, p.inbox, s, e.boxes, plan.script, plan.late);
    OneMoreDelivery(p.inbox, e.boxes, s, PlannedRead(p, e, key, index));
  }

  lemma OneMoreDelivery(i: Inbox, boxes: seq<nat>, s: Slot, r: Read)
    requires ReadOk(i, boxes, s, r)
    ensures r.inbox == i || exists blob :: r.inbox.handedOn == i.handedOn + [Delivery(s.key, s.index, blob)]
  {
    if r.inbox != i {
      var d := r.inbox.handedOn[|i.handedOn|];
      assert r.inbox.handedOn == i.handedOn + [Delivery(s.key, s.index, d.blob)];
    }
  }

  lemma OneMoreSlot(p: Polling, p': Polling, index: nat, start: nat)
    requires OncePerSlot(p, start) && index !in p.consumer.consumed
    requires p'.consumer.consumed == p.consumer.consumed + {index}
    requires exists key, blob :: p'.inbox.handedOn == p.inbox.handedOn + [Delivery(key, index, blob)]
    ensures OncePerSlot(p', start)
  {
  }

  lemma SlotPolledTwice(p: Polling, p1: Polling, p2: Polling, e: Setting, index: nat, start: nat)
    requires SlotPolled(p, p1, e, index, start) && SlotPolled(p1, p2, e, index, start)
    requires NeverLate(e) ==> p1.consumer == p.consumer
    ensures SlotPolled(p, p2, e, index, start)
  {
    GrowsTrans(p.world.stores, p1.world.stores, p2.world.stores);
  }

  lemma {:induction false} PollSlotOk(p: Polling, e: Setting, roots: seq<RootKeys>, index: nat, start: nat)
    requires PollingOk(p, e.limit) && e.limit >= 1
    ensures SlotPolled(p, PollSlot(p, e, roots, index), e, index, start)
    decreases |roots|
  {
    SelfGrows(p.world.stores);
    if roots != [] && roots[0](index).Some? {
      var key := roots[0](index).value;
      AfterReadOk(p, e, key, index, start);
      var p1 := AfterRead(p, e, key, index);
      if !PlannedRead(p, e, key, index).outcome.Got? {
        PollSlotOk(p1, e, roots[1..], index, start);
        SlotPolledTwice(p, p1, PollSlot(p1, e, roots[1..], index), e, index, start);
      }
    }
  }

  lemma {:induction false} PollSlotsOk(p: Polling, e: Setting, roots: seq<RootKeys>, indexes: seq<nat>, start: nat)
    requires PollingOk(p, e.limit) && e.limit >= 1
    requires Ascending(indexes) && forall i: nat :: i in indexes ==> i !in p.consumer.consumed
    ensures var p' := PollSlots(p, e, roots, indexes);
            && PollingOk(p', e.limit) && Progress(p, p')
            && (NeverLate(e) && OncePerSlot(p, start) ==> OncePerSlot(p', start))
    decreases |indexes|
  {
    SelfGrows(p.world.stores);
    if indexes != [] && !p.stopped {
      PollSlotOk(p, e, roots, indexes[0], start);
      var p1 := PollSlot(p, e, roots, indexes[0]);
      forall i: nat | i in indexes[1..] ensures i !in p1.consumer.consumed {
        assert i in indexes;
      }
      PollSlotsOk(p1, e, roots, indexes[1..], start);
      GrowsTrans(p.world.stores, p1.world.stores, PollSlots(p1, e, roots, indexes[1..]).world.stores);
    }
  }

  function Polls(p: Polling, e: Setting, roots: seq<seq<RootKeys>>): Polling
    decreases |roots|
  {
    if roots == [] then p else Polls(Poll(p, e, roots[0]), e, roots[1..])
  }

  /**
    Over every run of polls the digests stay in order, the base is the least unconsumed slot and only
    moves up, and unless a timeout strikes late every slot is handed on at most once.
   */
  lemma {:induction false} PollsKeepOrder(p: Polling, e: Setting, roots: seq<seq<RootKeys>>, start: nat)
    requires PollingOk(p, e.limit) && e.limit >= 1
    ensures var p' := Polls(p, e, roots);
            && PollingOk(p', e.limit) && Progress(p, p')
            && (NeverLate(e) && OncePerSlot(p, start) ==> OncePerSlot(p', start))
    decreases |roots|
  {
    SelfGrows(p.world.stores);
    if roots != [] {
      var p1 := Poll(p, e, roots[0]);
      CandidatesAscendFromBase(p.consumer, e.limits);
      PollSlotsOk(p, e, roots[0], RecvCandidates(p.consumer, e.limits), start);
      PollsKeepOrder(p1, e, roots[1..], start);
      GrowsTrans(p.world.stores, p1.world.stores, Polls(p1, e, roots[1..]).world.stores);
    }
  }

  // ---------- a run of polls that hands a slot on twice ----------

  function Fresh(w: World, window: nat): Polling {
    Polling(w, EMPTY_INBOX, Consumer(0, window, {}), 0, false)
  }

  ghost predicate RepeatsSlot(w: World, e: Setting, window: nat, roots: seq<seq<RootKeys>>) {
    var h := Polls(Fresh(w, window), e, roots).inbox.handedOn;
    e.limit >= 1 && exists a, b :: 0 <= a < b < |h| && h[a].index == h[b].index
  }

  ghost predicate CanRepeat(boxes: seq<nat>, late: bool) {
    exists w: World, e: Setting, window: nat, roots: seq<seq<RootKeys>> ::
      && e.boxes == boxes && (forall t :: e.plans(t).late ==> late)
      && RepeatsSlot(w, e, window, roots)
  }

  function TwoCopies(boxes: seq<nat>, key: Keys, a: Blob, b: Blob): World
    requires |boxes| >= 2
  {
    QuietWorld(seq(boxes[0] + boxes[1] + 1, i => if i == boxes[0] then map[key := a] else map[key := b]))
  }

  function LateSetting(boxes: seq<nat>): Setting
    requires |boxes| >= 2
  {
    var take: Process := (f: Frame) => Taken;
    Setting(boxes, 2, ScanLimits(0, 1, 1, 1),
            (t: nat) => Plan([Batch([if t == 0 then boxes[0] else boxes[1]])], true, take))
  }

  lemma LateRun(boxes: seq<nat>)
    requires NoRepeats(boxes) && |boxes| >= 2
    ensures CanRepeat(boxes, true)
  {
    var key := Keys(0, "", "");
    var a, b := Sealed(key, 0, "x", 0), Sealed(key, 0, "x", 1);
    var e, p := LateSetting(boxes), Fresh(TwoCopies(boxes, key, a, b), 1);
    var p1 := LatePoll(p, key, a);
    var keys: RootKeys := (i: nat) => Some(key);
    WindowOfOne();
    LateCopies(p, boxes, key, a, b, 0);
    LateStep(p, e, keys, key, boxes[0], a);
    LateCopies(p1, boxes, key, a, b, 1);
    LateStep(p1, e, keys, key, boxes[1], b);
    var p2 := LatePoll(p1, key, b);
    TwoPolls(p, p1, p2, e, [keys]);
    TwiceIsRepeat(p.world, e, [[keys], [keys]], p2.inbox.handedOn);
  }

  lemma WindowOfOne()
    ensures RecvCandidates(Consumer(0, 1, {}), ScanLimits(0, 1, 1, 1)) == [0]
  {
    NothingLeft(0, 0, {});
    assert Unconsumed(0, 1, {}) == [0];
  }

  lemma LateCopies(p: Polling, boxes: seq<nat>, key: Keys, a: Blob, b: Blob, turn: nat)
    requires NoRepeats(boxes) && |boxes| >= 2 && OpensAt(a, key, 0) && OpensAt(b, key, 0) && turn <= 1
    requires p.turn == turn && Quiet(p.world) && p.world.stores == TwoCopies(boxes, key, a, b).stores
    requires (if turn == 0 then a else b) !in p.inbox.seen
    ensures LateReady(p, LateSetting(boxes), key, boxes[turn], if turn == 0 then a else b)
    ensures Quiet(Tick(p.world)) && Tick(p.world).stores == p.world.stores
  {
    QuietTick(p.world);
    assert boxes[0] != boxes[1];
    assert p.world.fault(p.world.clock) == Answered;
  }

  lemma TwoPolls(p: Polling, p1: Polling, p2: Polling, e: Setting, roots: seq<RootKeys>)
    requires Poll(p, e, roots) == p1 && Poll(p1, e, roots) == p2
    ensures Polls(p, e, [roots, roots]) == p2
  {
    assert [roots, roots][1..] == [roots] && [roots][1..] == [];
    assert Polls(p1, e, [roots]) == Polls(p2, e, []);
  }

  lemma TwiceIsRepeat(w: World, e: Setting, roots: seq<seq<RootKeys>>, h: seq<Delivery>)
    requires Polls(Fresh(w, 1), e, roots).inbox.handedOn == h && |h| == 2 && h[0].index == h[1].index
    requires e.limit >= 1
    ensures RepeatsSlot(w, e, 1, roots)
  {
  }

  function LatePoll(p: Polling, key: Keys, blob: Blob): Polling {
    var i := p.inbox;
    p.(world := Tick(p.world), turn := p.turn + 1,
       inbox := Inbox(i.order + [blob], i.seen + {blob}, i.log + [blob], i.handedOn + [Delivery(key, 0, blob)]))
  }

  /** The next read is answered first by `box`, which serves this new blob, and is cut off late. */
  ghost predicate LateReady(p: Polling, e: Setting, key: Keys, box: nat, blob: Blob) {
    var plan := e.plans(p.turn);
    && blob.Sealed? && plan.script == [Batch([box])] && plan.late && plan.process(blob.frame).Taken?
    && box < |p.world.stores| && p.world.fault(p.world.clock) == Answered
    && key in Tick(p.world).stores[box] && Tick(p.world).stores[box][key] == blob
    && blob !in p.inbox.seen && OpensAt(blob, key, 0)
  }

  /** One poll of a one-slot window: the blob is taken, but the timeout keeps the slot unconsumed. */
  lemma LateStep(p: Polling, e: Setting, keys: RootKeys, key: Keys, box: nat, blob: Blob)
    requires NoRepeats(e.boxes) && |e.boxes| >= 2 && box in e.boxes && |p.inbox.order| < e.limit
    requires !p.stopped && RecvCandidates(p.consumer, e.limits) == [0] && keys(0) == Some(key)
    requires blob.Sealed? && LateReady(p, e, key, box, blob)
    ensures Poll(p, e, [keys]) == LatePoll(p, key, blob)
  {
    var plan := e.plans(p.turn);
    var s := Slot(key, 0, plan.process, e.limit);
    assert [Batch([box])] + [] == [Batch([box])];
    FirstAnswerWins(p.world, p.inbox, s, e.boxes, box, [], true);
    assert SetOf(e.boxes) - {box} != {} by {
      var other := if e.boxes[0] == box then e.boxes[1] else e.boxes[0];
      assert other in e.boxes && other in SetOf(e.boxes) - {box};
    }
    var p' := AfterRead(p, e, key, 0);
    assert p' == LatePoll(p, key, blob);
    assert [keys][1..] == [] && [0][1..] == [];
    assert PollSlot(p, e, [keys], 0) == PollSlot(p', e, [], 0) == p';
    assert PollSlots(p, e, [keys], [0]) == PollSlots(p', e, [keys], []);
  }

  // ---------- sender and receiver together ----------

  lemma UnanimousHolds(boxes: seq<nat>, stores: seq<Store>, key: Keys, blob: Blob, box: nat)
    requires |Holders(stores, boxes, key, blob)| >= |boxes| && box in boxes
    ensures Holds(stores, box, key, blob)
  {
    if !Holds(stores, box, key, blob) {
      SmallerSet(Holders(stores, boxes, key, blob), SetOf(boxes) - {box});
      AtMostLength(boxes);
    }
  }

  lemma OnlyThisServed(c: Config, stores: seq<Store>, e: Entry, s: Slot, blob: Blob)
    requires |Holders(stores, c.boxes, e.key, e.blob)| >= |c.boxes| && s.key == e.key
    requires ServedBlob(stores, c.boxes, s, blob)
    ensures blob == e.blob
  {
    var box :| box in c.boxes && Holds(stores, box, s.key, blob);
    UnanimousHolds(c.boxes, stores, e.key, e.blob, box);
  }

  /** With a quorum of all replicas, reading a queued frame's slot hands on that frame or nothing. */
  lemma QueuedFrameIsTheOnlyOne(c: Config, o: Outbox, e: Entry, w: World, i: Inbox, s: Slot,
                                script: seq<Event>, late: bool)
    requires EntryOk(c, o, e) && c.quorum == |c.boxes| && Grows(o.world.stores, w.stores)
    requires InboxOk(i, s.limit) && s.limit >= 1 && s.key == e.key && s.index == e.slot
    ensures var r := GetFirstAccepted(w, i, s, c.boxes, script, late);
            && (r.outcome.Got? ==> r.outcome.blob == e.blob)
            && (r.inbox == i || r.inbox.handedOn == i.handedOn + [Delivery(e.key, e.slot, e.blob)])
  {
    var r := GetFirstAccepted(w, i, s, c.boxes, script, late);
    ReadHandsOnAtMostOne(w, i, s, c.boxes, script, late);
    GrowsTrans(o.world.stores, w.stores, r.world.stores);
    EntryHeldLater(c, o, e, r.world.stores);
    OnlyThisHandedOn(c, e, i, s, r);
  }

  lemma OnlyThisHandedOn(c: Config, e: Entry, i: Inbox, s: Slot, r: Read)
    requires ReadOk(i, c.boxes, s, r) && s.key == e.key && s.index == e.slot
    requires |Holders(r.world.stores, c.boxes, e.key, e.blob)| >= |c.boxes|
    ensures r.outcome.Got? ==> r.outcome.blob == e.blob
    ensures r.inbox == i || r.inbox.handedOn == i.handedOn + [Delivery(e.key, e.slot, e.blob)]
  {
    if r.inbox != i {
      var d := r.inbox.handedOn[|i.handedOn|];
      OnlyThisServed(c, r.world.stores, e, s, d.blob);
      assert r.inbox.handedOn == i.handedOn + [d];
    }
  }

  lemma EntryHeldLater(c: Config, o: Outbox, e: Entry, later: seq<Store>)
    requires EntryOk(c, o, e) && Grows(o.world.stores, later)
    ensures |Holders(later, c.boxes, e.key, e.blob)| >= c.quorum
  {
    HoldersGrow(o.world.stores, later, c.boxes, e.key, e.blob);
    SmallerSet(Holders(o.world.stores, c.boxes, e.key, e.blob), Holders(later, c.boxes, e.key, e.blob));
  }

  /** And it is handed on as soon as one box answers, if it is new and the handler takes it. */
  lemma QueuedFrameArrives(c: Config, o: Outbox, e: Entry, w: World, i: Inbox, s: Slot, box: nat, rest: seq<Event>)
    requires EntryOk(c, o, e) && c.quorum == |c.boxes| && Grows(o.world.stores, w.stores)
    requires s.key == e.key && s.index == e.slot
    requires box in c.boxes && w.fault(w.clock) == Answered
    requires e.blob !in i.seen && s.process(e.blob.frame).Taken?
    ensures var r := GetFirstAccepted(w, i, s, c.boxes, [Batch([box])] + rest, false);
            r.outcome == Got(e.blob) && r.inbox.handedOn == i.handedOn + [Delivery(e.key, e.slot, e.blob)]
  {
    InterfereGrows(w.stores, w.others(w.clock));
    GrowsTrans(o.world.stores, w.stores, Tick(w).stores);
    EntryHeldLater(c, o, e, Tick(w).stores);
    UnanimousHolds(c.boxes, Tick(w).stores, e.key, e.blob, box);
    FirstAnswerWins(w, i, s, c.boxes, box, rest, false);
  }

  // ---------- exactly when a queued frame can lose its slot ----------

  /** The put of a frame is accepted, yet the next read of its slot takes another blob. */
  ghost predicate LosesSlot(c: Config, w: World, order: seq<nat>, s: Slot, blob: Blob, script: seq<Event>)
    requires InRange(order, |w.stores|)
  {
    var (w', r) := Put(c, w, order, s.key, blob);
    && OpensAt(blob, s.key, s.index) && s.limit >= 1 && r.Accepted?
    && var got := GetFirstAccepted(w', EMPTY_INBOX, s, c.boxes, script, false).outcome;
       got.Got? && got.blob != blob
  }

  ghost predicate CanLoseSlot(c: Config, n: nat) {
    exists w: World, order: seq<nat>, s: Slot, blob: Blob, script: seq<Event> ::
      && |w.stores| == n && InRange(order, n) && AnswerOrder(c, order)
      && LosesSlot(c, w, order, s, blob, script)
  }

  /**
    A frame reported queued can lose its slot to another blob exactly when the quorum is smaller than
    the number of replicas: overlapping quorums are not enough, since the first answer is taken.
   */
  lemma LosesSlotIffNotUnanimous(c: Config, n: nat)
    requires c.Valid(n) && NoRepeats(c.boxes)
    ensures CanLoseSlot(c, n) <==> c.quorum < |c.boxes|
  {
    if CanLoseSlot(c, n) {
      var w: World, order: seq<nat>, s: Slot, blob: Blob, script: seq<Event> :|
        && |w.stores| == n && InRange(order, n) && AnswerOrder(c, order)
        && LosesSlot(c, w, order, s, blob, script);
      var w' := Put(c, w, order, s.key, blob).0;
      ReadHandsOnAtMostOne(w', EMPTY_INBOX, s, c.boxes, script, false);
      var r := GetFirstAccepted(w', EMPTY_INBOX, s, c.boxes, script, false);
      var d := r.inbox.handedOn[0];
      var box :| box in c.boxes && Holds(r.world.stores, box, s.key, d.blob);
      AcceptedMeansQuorum(c, w, order, s.key, blob, r.world.stores);
      if c.quorum >= |c.boxes| {
        UnanimousHolds(c.boxes, r.world.stores, s.key, blob, box);
      }
    }
    if c.quorum < |c.boxes| {
      LosingRun(c, n);
    }
  }

  /** A cut-off put left an old copy in the slot of one box; the next frame is queued there via others. */
  lemma LosingRun(c: Config, n: nat)
    requires c.Valid(n) && NoRepeats(c.boxes) && c.quorum < |c.boxes|
    ensures CanLoseSlot(c, n)
  {
    var key, taken := Keys(0, "", ""), c.boxes[0];
    var stale, blob := Sealed(key, 0, "a", 0), Sealed(key, 0, "b", 1);
    var w := QuietWorld(seq(n, i => if i == taken then map[key := stale] else map[]));
    var order := if c.quorum == 1 then c.boxes[..2] else c.boxes;
    forall i | 1 <= i <= c.quorum ensures key !in w.stores[order[i]] {
      assert order[i] == c.boxes[i] != taken;
    }
    SkipTaken(c, w, order, key, blob);
    var w' := Put(c, w, order, key, blob).0;
    QuietTick(w');
    assert w'.fault(w'.clock) == Answered && taken in c.boxes;
    var take: Process := (f: Frame) => Taken;
    var s := Slot(key, 0, take, 1);
    FirstAnswerWins(w', EMPTY_INBOX, s, c.boxes, taken, [], false);
    assert [Batch([taken])] + [] == [Batch([taken])];
    assert LosesSlot(c, w, order, s, blob, [Batch([taken])]);
  }
}
