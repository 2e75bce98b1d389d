/**
  Receiving from several copies of one peer's state. The window and the consumed slots stand on disk, in memory
  for the selected peer, and in every copy a send or the poller has loaded. A save writes back a whole copy, so
  a send that ends after a poll moves the stored window back to where the send found it.
 */
module StoredWindows {
  import opened Wrappers
  import opened KeySchedule
  import opened Replicas
  import opened BlobClient
  import opened PutQuorum
  import opened SlotReceive
  import opened ReceiveGuarantees

  /** The consumer inside `polling` is the one on disk; the first copy is the selected peer's. */
  datatype Receiver = Receiver(polling: Polling, copies: seq<Consumer>)

  /**
    A copy is loaded from disk by a send or a poll, written back as it is by a send, or used by the poller to
    read one of its unconsumed slots, which marks the slot in it and saves it when the read yields a blob.
   */
  datatype WindowStep =
    | LoadWindow
    | SaveWindow(copy: nat)
    | ReadFrom(copy: nat, roots: seq<RootKeys>, index: nat)

  function NewReceiver(w: World, window: nat): Receiver {
    var p := Fresh(w, window);
    Receiver(p, [p.consumer])
  }

  predicate ReadsSlot(r: Receiver, step: WindowStep) {
    && step.ReadFrom? && step.copy < |r.copies| && !r.polling.stopped
    && step.index !in r.copies[step.copy].consumed
  }

  /** What the poller does with the copy it works on. */
  function ReadVia(r: Receiver, e: Setting, step: WindowStep): Polling
    requires ReadsSlot(r, step)
  {
    PollSlot(r.polling.(consumer := r.copies[step.copy]), e, step.roots, step.index)
  }

  function ApplyWindow(r: Receiver, e: Setting, step: WindowStep): Receiver {
    if step.LoadWindow? then r.(copies := r.copies + [r.polling.consumer])
    else if step.SaveWindow? then
      if step.copy < |r.copies| then r.(polling := r.polling.(consumer := r.copies[step.copy])) else r
    else if ReadsSlot(r, step) then
      var p := ReadVia(r, e, step);
      var saved := if step.index in p.consumer.consumed then p.consumer else r.polling.consumer;
      Receiver(p.(consumer := saved), r.copies[step.copy := p.consumer])
    else r
  }

  function ExecWindow(r: Receiver, e: Setting, steps: seq<WindowStep>): Receiver
    decreases |steps|
  {
    if steps == [] then r else ExecWindow(ApplyWindow(r, e, steps[0]), e, steps[1..])
  }

  // ---------- what every run keeps, whatever is written back ----------

  /** Set, queue and log of digests agree, and every copy's base is its least unconsumed slot. */
  ghost predicate ReceiverOk(r: Receiver, limit: nat) {
    && PollingOk(r.polling, limit)
    && forall k :: 0 <= k < |r.copies| ==> WindowOk(r.copies[k])
  }

  ghost predicate HandsOnMore(r: Receiver, r': Receiver) {
    && r.polling.inbox.handedOn <= r'.polling.inbox.handedOn
    && Grows(r.polling.world.stores, r'.polling.world.stores)
  }

  lemma StepKeepsReceiver(r: Receiver, e: Setting, step: WindowStep)
    requires ReceiverOk(r, e.limit) && e.limit >= 1
    ensures ReceiverOk(ApplyWindow(r, e, step), e.limit) && HandsOnMore(r, ApplyWindow(r, e, step))
  {
    SelfGrows(r.polling.world.stores);
    if ReadsSlot(r, step) {
      var p := r.polling.(consumer := r.copies[step.copy]);
      PollSlotOk(p, e, step.roots, step.index, |p.inbox.handedOn|);
    }
  }

  /**
    Over every run, whatever is loaded and written back and whenever timeouts strike: no digest is handed on
    again while it is remembered, every delivery was sealed for the slot it was read from, and the base of every
    copy is its least unconsumed slot.
   */
  lemma {:induction false} RunKeepsReceiver(r: Receiver, e: Setting, steps: seq<WindowStep>)
    requires ReceiverOk(r, e.limit) && e.limit >= 1
    ensures ReceiverOk(ExecWindow(r, e, steps), e.limit) && HandsOnMore(r, ExecWindow(r, e, steps))
    decreases |steps|
  {
    SelfGrows(r.polling.world.stores);
    if steps != [] {
      var r1 := ApplyWindow(r, e, steps[0]);
      StepKeepsReceiver(r, e, steps[0]);
      RunKeepsReceiver(r1, e, steps[1..]);
      GrowsTrans(r.polling.world.stores, r1.polling.world.stores,
                 ExecWindow(r1, e, steps[1..]).polling.world.stores);
    }
  }

  // ---------- once per slot, while no save finds the window moved ----------

  /** The copy that is used or written back is the one on disk. */
  predicate Current(r: Receiver, step: WindowStep) {
    !step.LoadWindow? && step.copy < |r.copies| ==> r.copies[step.copy] == r.polling.consumer
  }

  ghost predicate AllCurrent(r: Receiver, e: Setting, steps: seq<WindowStep>)
    decreases |steps|
  {
    steps != [] ==> Current(r, steps[0]) && AllCurrent(ApplyWindow(r, e, steps[0]), e, steps[1..])
  }

  lemma CurrentStepKeepsOnce(r: Receiver, e: Setting, step: WindowStep, start: nat)
    requires ReceiverOk(r, e.limit) && e.limit >= 1 && NeverLate(e)
    requires Current(r, step) && OncePerSlot(r.polling, start)
    ensures OncePerSlot(ApplyWindow(r, e, step).polling, start)
  {
    if ReadsSlot(r, step) {
      PollSlotOk(r.polling, e, step.roots, step.index, start);
      KeptUnlessConsumed(r.polling, e, step.roots, step.index);
      assert ApplyWindow(r, e, step).polling == ReadVia(r, e, step);
    }
  }

  /** Without late timeouts and stale copies every slot is handed on at most once. */
  lemma {:induction false} CurrentRunKeepsOnce(r: Receiver, e: Setting, steps: seq<WindowStep>, start: nat)
    requires ReceiverOk(r, e.limit) && e.limit >= 1 && NeverLate(e)
    requires AllCurrent(r, e, steps) && OncePerSlot(r.polling, start)
    ensures OncePerSlot(ExecWindow(r, e, steps).polling, start)
    decreases |steps|
  {
    if steps != [] {
      StepKeepsReceiver(r, e, steps[0]);
      CurrentStepKeepsOnce(r, e, steps[0], start);
      CurrentRunKeepsOnce(ApplyWindow(r, e, steps[0]), e, steps[1..], start);
    }
  }

  // ---------- polls of one copy are such runs ----------

  /** The selected peer's copy and the disk agree. */
  function OneCopy(p: Polling): Receiver {
    Receiver(p, [p.consumer])
  }

  function ReadsOf(roots: seq<RootKeys>, indexes: seq<nat>): seq<WindowStep> {
    if indexes == [] then [] else [ReadFrom(0, roots, indexes[0])] + ReadsOf(roots, indexes[1..])
  }

  /** These steps lead from the one state to the other, and none of them uses a stale copy. */
  ghost predicate Leads(r: Receiver, e: Setting, steps: seq<WindowStep>, r': Receiver) {
    ExecWindow(r, e, steps) == r' && AllCurrent(r, e, steps)
  }

  lemma FirstStepLeads(r: Receiver, e: Setting, step: WindowStep, steps: seq<WindowStep>, r': Receiver)
    requires Current(r, step) && Leads(ApplyWindow(r, e, step), e, steps, r')
    ensures Leads(r, e, [step] + steps, r')
  {
    assert ([step] + steps)[1..] == steps;
  }

  lemma {:induction false} StepsLead(r: Receiver, e: Setting, steps: seq<WindowStep>, more: seq<WindowStep>,
                                     r1: Receiver, r2: Receiver)
    requires Leads(r, e, steps, r1) && Leads(r1, e, more, r2)
    ensures Leads(r, e, steps + more, r2)
    decreases |steps|
  {
    if steps == [] {
      assert steps + more == more;
    } else {
      StepsLead(ApplyWindow(r, e, steps[0]), e, steps[1..], more, r1, r2);
      FirstStepLeads(r, e, steps[0], steps[1..] + more, r2);
      assert [steps[0]] + (steps[1..] + more) == steps + more;
    }
  }

  function AfterSlot(p: Polling, e: Setting, roots: seq<RootKeys>, index: nat): Polling {
    if p.stopped then p else PollSlot(p, e, roots, index)
  }

  lemma AscendingRest(indexes: seq<nat>)
    requires Ascending(indexes) && indexes != []
    ensures Ascending(indexes[1..])
    ensures forall i: nat :: i in indexes[1..] ==> i in indexes && i != indexes[0]
  {
    forall i: nat | i in indexes[1..] ensures i in indexes && i != indexes[0] {
      var k :| 0 <= k < |indexes[1..]| && indexes[1..][k] == i;
      assert indexes[0] < indexes[k + 1];
    }
  }

  lemma PassGoesOn(p: Polling, e: Setting, roots: seq<RootKeys>, indexes: seq<nat>)
    requires PollingOk(p, e.limit) && e.limit >= 1 && indexes != []
    requires Ascending(indexes) && forall i: nat :: i in indexes ==> i !in p.consumer.consumed
    ensures var p1 := AfterSlot(p, e, roots, indexes[0]);
            && PollingOk(p1, e.limit) && Ascending(indexes[1..])
            && (forall i: nat :: i in indexes[1..] ==> i !in p1.consumer.consumed)
            && PollSlots(p, e, roots, indexes) == PollSlots(p1, e, roots, indexes[1..])
  {
    AscendingRest(indexes);
    PollSlotOk(p, e, roots, indexes[0], |p.inbox.handedOn|);
    assert AfterSlot(p, e, roots, indexes[0]).consumer.consumed <= p.consumer.consumed + {indexes[0]};
  }

  lemma {:induction false} PassIsReads(p: Polling, e: Setting, roots: seq<RootKeys>, indexes: seq<nat>)
    requires PollingOk(p, e.limit) && e.limit >= 1
    requires Ascending(indexes) && forall i: nat :: i in indexes ==> i !in p.consumer.consumed
    ensures Leads(OneCopy(p), e, ReadsOf(roots, indexes), OneCopy(PollSlots(p, e, roots, indexes)))
    decreases |indexes|
  {
    if indexes != [] {
      var p1 := AfterSlot(p, e, roots, indexes[0]);
      PassGoesOn(p, e, roots, indexes);
      OneRead(p, e, roots, indexes[0]);
      PassIsReads(p1, e, roots, indexes[1..]);
      FirstStepLeads(OneCopy(p), e, ReadFrom(0, roots, indexes[0]), ReadsOf(roots, indexes[1..]),
                     OneCopy(PollSlots(p1, e, roots, indexes[1..])));
    }
  }

  lemma OneRead(p: Polling, e: Setting, roots: seq<RootKeys>, index: nat)
    requires PollingOk(p, e.limit) && e.limit >= 1 && index !in p.consumer.consumed
    ensures ApplyWindow(OneCopy(p), e, ReadFrom(0, roots, index))
         == OneCopy(AfterSlot(p, e, roots, index))
  {
    KeptUnlessConsumed(p, e, roots, index);
  }

  /** A slot's reads change the window only by consuming the slot. */
  lemma {:induction false} KeptUnlessConsumed(p: Polling, e: Setting, roots: seq<RootKeys>, index: nat)
    requires PollingOk(p, e.limit) && e.limit >= 1 && index !in p.consumer.consumed
    ensures var p' := PollSlot(p, e, roots, index);
            index in p'.consumer.consumed || p'.consumer == p.consumer
    decreases |roots|
  {
    if roots != [] && roots[0](index).Some? {
      var key := roots[0](index).value;
      AfterReadProgress(p, e, key, index);
      if PlannedRead(p, e, key, index).outcome.Got? {
        MarkKeepsWindow(p.consumer, index);
      } else {
        KeptUnlessConsumed(AfterRead(p, e, key, index), e, roots[1..], index);
      }
    }
  }

  /** Every run of polls is a run of reads of one copy. */
  lemma {:induction false} PollsAreReads(p: Polling, e: Setting, roots: seq<seq<RootKeys>>)
    returns (steps: seq<WindowStep>)
    requires PollingOk(p, e.limit) && e.limit >= 1
    ensures Leads(OneCopy(p), e, steps, OneCopy(Polls(p, e, roots)))
    decreases |roots|
  {
    if roots == [] {
      steps := [];
    } else {
      var p1, first := Poll(p, e, roots[0]), [];
      if !p.stopped {
        CandidatesAscendFromBase(p.consumer, e.limits);
        PassIsReads(p, e, roots[0], RecvCandidates(p.consumer, e.limits));
        first := ReadsOf(roots[0], RecvCandidates(p.consumer, e.limits));
        PollSlotsOk(p, e, roots[0], RecvCandidates(p.consumer, e.limits), |p.inbox.handedOn|);
      }
      var rest := PollsAreReads(p1, e, roots[1..]);
      StepsLead(OneCopy(p), e, first, rest, OneCopy(p1), OneCopy(Polls(p1, e, roots[1..])));
      steps := first + rest;
    }
  }

  // ---------- exactly when a slot can be handed on twice ----------

  ghost predicate Twice(h: seq<Delivery>) {
    exists a, b :: 0 <= a < b < |h| && h[a].index == h[b].index
  }

  /**
    Some run over these boxes hands a slot on twice; timeouts strike late only if `late`, and a copy is used or
    written back after the stored window moved on only if `stale`.
   */
  ghost predicate CanRepeatSlot(boxes: seq<nat>, late: bool, stale: bool) {
    exists w: World, e: Setting, window: nat, steps: seq<WindowStep> ::
      && e.boxes == boxes && e.limit >= 1 && (forall t :: e.plans(t).late ==> late)
      && (!stale ==> AllCurrent(NewReceiver(w, window), e, steps))
      && Twice(ExecWindow(NewReceiver(w, window), e, steps).polling.inbox.handedOn)
  }

  lemma OnceMeansNotTwice(w: World, e: Setting, window: nat, steps: seq<WindowStep>)
    requires e.limit >= 1 && NeverLate(e) && AllCurrent(NewReceiver(w, window), e, steps)
    ensures !Twice(ExecWindow(NewReceiver(w, window), e, steps).polling.inbox.handedOn)
  {
    CurrentRunKeepsOnce(NewReceiver(w, window), e, steps, 0);
  }

  lemma {:induction false} NoBoxNoSlot(p: Polling, e: Setting, roots: seq<RootKeys>, index: nat)
    requires e.boxes == []
    ensures PollSlot(p, e, roots, index).inbox == p.inbox
    decreases |roots|
  {
    if roots != [] && roots[0](index).Some? {
      var key := roots[0](index).value;
      assert (set b <- e.boxes) == {};
      NoBoxNoSlot(AfterRead(p, e, key, index), e, roots[1..], index);
    }
  }

  lemma {:induction false} NoBoxNothing(r: Receiver, e: Setting, steps: seq<WindowStep>)
    requires e.boxes == []
    ensures ExecWindow(r, e, steps).polling.inbox == r.polling.inbox
    decreases |steps|
  {
    if steps != [] {
      if ReadsSlot(r, steps[0]) {
        NoBoxNoSlot(r.polling.(consumer := r.copies[steps[0].copy]), e, steps[0].roots, steps[0].index);
      }
      NoBoxNothing(ApplyWindow(r, e, steps[0]), e, steps[1..]);
    }
  }

  lemma PollsRepeat(boxes: seq<nat>, late: bool, stale: bool)
    requires CanRepeat(boxes, late)
    ensures CanRepeatSlot(boxes, late, stale)
  {
    var w: World, e: Setting, window: nat, roots: seq<seq<RootKeys>> :|
      && e.boxes == boxes && (forall t :: e.plans(t).late ==> late)
      && RepeatsSlot(w, e, window, roots);
    var steps := PollsAreReads(Fresh(w, window), e, roots);
    assert NewReceiver(w, window) == OneCopy(Fresh(w, window));
    assert Twice(ExecWindow(NewReceiver(w, window), e, steps).polling.inbox.handedOn);
  }

  /**
    A send loads its copy, a poll takes slot 0, the send saves, and the next poll loads and reads slot 0 again.
   */
  function SaveAfterPoll(first: RootKeys, second: RootKeys): seq<WindowStep> {
    [LoadWindow, ReadFrom(0, [first], 0), SaveWindow(1), LoadWindow, ReadFrom(2, [second], 0)]
  }

  /** Both handlers take everything, no timeout is late, and these two boxes answer first. */
  function TwoReads(boxes: seq<nat>, first: nat, second: nat): Setting {
    var take: Process := (f: Frame) => Taken;
    Setting(boxes, 2, ScanLimits(0, 1, 1, 1),
            (t: nat) => Plan([Batch([if t == 0 then first else second])], false, take))
  }

  function Took(p: Polling, key: Keys, blob: Blob): Polling {
    var i := p.inbox;
    Polling(Tick(p.world),
            Inbox(i.order + [blob], i.seen + {blob}, i.log + [blob], i.handedOn + [Delivery(key, 0, blob)]),
            Consumer(1, p.consumer.window, {0}), p.turn + 1, p.stopped)
  }

  lemma MarkZero(c: Consumer)
    requires c.recvBase == 0 && c.consumed == {}
    ensures MarkConsumed(c, 0) == Consumer(1, c.window, {0})
  {
    assert c.consumed + {0} == {0} && {0} - {0} == {};
    assert AdvanceBase(1, {}) == 1 && AdvanceBase(0, {0}) == AdvanceBase(1, {0} - {0});
  }

  /** A read of slot 0 that the box with this new blob answers. */
  lemma TakesSlotZero(p: Polling, e: Setting, keys: RootKeys, key: Keys, box: nat, blob: Blob)
    requires p.consumer.recvBase == 0 && p.consumer.consumed == {} && keys(0) == Some(key) && box in e.boxes
    requires e.plans(p.turn).script == [Batch([box])] && !e.plans(p.turn).late
    requires e.plans(p.turn).process(if blob.Sealed? then blob.frame else "").Taken?
    requires Quiet(p.world) && Holds(p.world.stores, box, key, blob) && OpensAt(blob, key, 0)
    requires blob !in p.inbox.seen && |p.inbox.order| < e.limit
    ensures PollSlot(p, e, [keys], 0) == Took(p, key, blob)
    ensures Quiet(Tick(p.world)) && Tick(p.world).stores == p.world.stores
  {
    var plan := e.plans(p.turn);
    QuietTick(p.world);
    assert p.world.fault(p.world.clock) == Answered;
    assert [Batch([box])] + [] == [Batch([box])];
    FirstAnswerWins(p.world, p.inbox, Slot(key, 0, plan.process, e.limit), e.boxes, box, [], false);
    MarkZero(p.consumer);
  }

  /** Two blobs for slot 0, under whichever keys and in whichever boxes, are both handed on. */
  lemma SaveAfterPollRepeats(w: World, boxes: seq<nat>, window: nat, first: RootKeys, second: RootKeys, key: Keys,
                             key': Keys,
                             box: nat, box': nat, a: Blob, b: Blob)
    requires Quiet(w) && box in boxes && box' in boxes && a != b
    requires first(0) == Some(key) && OpensAt(a, key, 0) && Holds(w.stores, box, key, a)
    requires second(0) == Some(key') && OpensAt(b, key', 0) && Holds(w.stores, box', key', b)
    ensures var e := TwoReads(boxes, box, box');
            && NeverLate(e)
            && ExecWindow(NewReceiver(w, window), e, SaveAfterPoll(first, second)).polling.inbox.handedOn
               == [Delivery(key, 0, a), Delivery(key', 0, b)]
  {
    var e, p := TwoReads(boxes, box, box'), Fresh(w, window);
    var p1 := Took(p, key, a);
    TakesSlotZero(p, e, first, key, box, a);
    var p2 := p1.(consumer := p.consumer);
    TakesSlotZero(p2, e, second, key', box', b);
    RewindRun(p, p1, Took(p2, key', b), e, first, second);
    assert NewReceiver(w, window) == OneCopy(p);
  }

  /** The window is read, written back as it was, and read again. */
  lemma RewindRun(p: Polling, p1: Polling, p2: Polling, e: Setting, first: RootKeys, second: RootKeys)
    requires !p.stopped && !p1.stopped && 0 !in p.consumer.consumed && 0 in p1.consumer.consumed
    requires PollSlot(p, e, [first], 0) == p1 && PollSlot(p1.(consumer := p.consumer), e, [second], 0) == p2
    ensures ExecWindow(OneCopy(p), e, SaveAfterPoll(first, second)).polling.inbox == p2.inbox
  {
    var c, steps := p.consumer, SaveAfterPoll(first, second);
    var r1, r2 := Receiver(p, [c, c]), Receiver(p1, [p1.consumer, c]);
    var r3 := Receiver(p1.(consumer := c), [p1.consumer, c]);
    var r4 := Receiver(p1.(consumer := c), [p1.consumer, c, c]);
    assert ApplyWindow(OneCopy(p), e, steps[0]) == r1;
    assert p.(consumer := c) == p && [c, c][0 := p1.consumer] == [p1.consumer, c];
    assert ApplyWindow(r1, e, steps[1]) == r2;
    assert ApplyWindow(r2, e, steps[2]) == r3;
    assert ApplyWindow(r3, e, steps[3]) == r4;
    var r5 := ApplyWindow(r4, e, steps[4]);
    FiveSteps(OneCopy(p), r1, r2, r3, r4, r5, e, steps);
  }

  lemma FiveSteps(r: Receiver, r1: Receiver, r2: Receiver, r3: Receiver, r4: Receiver, r5: Receiver, e: Setting,
                  steps: seq<WindowStep>)
    requires |steps| == 5 && r1 == ApplyWindow(r, e, steps[0]) && r2 == ApplyWindow(r1, e, steps[1])
    requires r3 == ApplyWindow(r2, e, steps[2]) && r4 == ApplyWindow(r3, e, steps[3])
    requires r5 == ApplyWindow(r4, e, steps[4])
    ensures ExecWindow(r, e, steps) == r5
  {
    assert ExecWindow(r5, e, steps[5..]) == r5;
    assert steps[4..][1..] == steps[5..] && steps[3..][1..] == steps[4..];
    assert ExecWindow(r4, e, steps[4..]) == r5;
    assert ExecWindow(r3, e, steps[3..]) == r5;
    assert steps[2..][1..] == steps[3..] && steps[1..][1..] == steps[2..];
    assert ExecWindow(r2, e, steps[2..]) == r5;
    assert ExecWindow(r1, e, steps[1..]) == r5;
  }

  /** With another blob in the second box, as a put cut off half-way leaves one, the slot is handed on twice. */
  lemma SendSaveRepeatsSlot(boxes: seq<nat>, window: nat)
    requires NoRepeats(boxes) && |boxes| >= 2
    ensures var key := Keys(0, "", "");
            var a, b, keys: RootKeys := Sealed(key, 0, "x", 0), Sealed(key, 0, "y", 1), (i: nat) => Some(key);
            var e := TwoReads(boxes, boxes[0], boxes[1]);
            && NeverLate(e)
            && ExecWindow(NewReceiver(TwoCopies(boxes, key, a, b), window), e, SaveAfterPoll(keys, keys))
               .polling.inbox.handedOn == [Delivery(key, 0, a), Delivery(key, 0, b)]
  {
    var key := Keys(0, "", "");
    var a, b, keys: RootKeys := Sealed(key, 0, "x", 0), Sealed(key, 0, "y", 1), (i: nat) => Some(key);
    assert boxes[0] != boxes[1];
    SaveAfterPollRepeats(TwoCopies(boxes, key, a, b), boxes, window, keys, keys, key, key, boxes[0], boxes[1], a, b);
  }

  /** One box is enough when the root changed between the two polls. */
  lemma OneBoxRepeats(boxes: seq<nat>, late: bool)
    requires boxes != []
    ensures CanRepeatSlot(boxes, late, true)
  {
    var key, key' := Keys(0, "", ""), Keys(1, "", "");
    var a, b := Sealed(key, 0, "x", 0), Sealed(key', 0, "y", 1);
    var first: RootKeys, second: RootKeys := (i: nat) => Some(key), (i: nat) => Some(key');
    var w := QuietWorld(seq(boxes[0] + 1, i => map[key := a, key' := b]));
    var e, steps := TwoReads(boxes, boxes[0], boxes[0]), SaveAfterPoll(first, second);
    SaveAfterPollRepeats(w, boxes, 1, first, second, key, key', boxes[0], boxes[0], a, b);
    var h := ExecWindow(NewReceiver(w, 1), e, steps).polling.inbox.handedOn;
    assert h[0].index == h[1].index;
  }

  /**
    A slot can be handed on twice exactly when timeouts can strike late and there are two replicas, or when a
    copy can be used or written back after the window moved on.
   */
  lemma RepeatsIff(boxes: seq<nat>, late: bool, stale: bool)
    requires NoRepeats(boxes)
    ensures CanRepeatSlot(boxes, late, stale) <==> (late && |boxes| >= 2) || (stale && |boxes| >= 1)
  {
    if late && |boxes| >= 2 {
      LateRun(boxes);
      PollsRepeat(boxes, late, stale);
    } else if stale && |boxes| >= 1 {
      OneBoxRepeats(boxes, late);
    } else {
      forall w: World, e: Setting, window: nat, steps: seq<WindowStep>
        | && e.boxes == boxes && e.limit >= 1 && (forall t :: e.plans(t).late ==> late)
          && (!stale ==> AllCurrent(NewReceiver(w, window), e, steps))
        ensures !Twice(ExecWindow(NewReceiver(w, window), e, steps).polling.inbox.handedOn)
      {
        if boxes == [] {
          NoBoxNothing(NewReceiver(w, window), e, steps);
        } else {
          OnceMeansNotTwice(w, e, window, steps);
        }
      }
    }
  }

  /** What any run that hands a slot on twice must contain; and the second blob is another copy. */
  lemma RepeatIsSecondCopy(w: World, e: Setting, window: nat, steps: seq<WindowStep>, a: nat, b: nat)
    requires e.limit >= 1
    requires var h := ExecWindow(NewReceiver(w, window), e, steps).polling.inbox.handedOn;
             a < b < |h| && h[a].index == h[b].index
    ensures var h := ExecWindow(NewReceiver(w, window), e, steps).polling.inbox.handedOn;
            && ((|e.boxes| >= 2 && exists t :: e.plans(t).late) || !AllCurrent(NewReceiver(w, window), e, steps))
            && (h[a].blob != h[b].blob || b - a > e.limit)
            && OpensAt(h[a].blob, h[a].key, h[a].index) && OpensAt(h[b].blob, h[b].key, h[a].index)
  {
    var r := NewReceiver(w, window);
    var i := ExecWindow(r, e, steps).polling.inbox;
    RunKeepsReceiver(r, e, steps);
    if NeverLate(e) && AllCurrent(r, e, steps) {
      OnceMeansNotTwice(w, e, window, steps);
    }
    assert InboxOk(i, e.limit) && i.handedOn[a].blob == i.log[a] && i.handedOn[b].blob == i.log[b];
  }

  // ---------- two frames at one index ----------

  /** A remembered blob was handed on from the index it was sealed for. */
  lemma LoggedIsDelivered(i: Inbox, limit: nat, blob: Blob) returns (at: nat)
    requires InboxOk(i, limit) && blob in i.log
    ensures blob.Sealed? && at < |i.handedOn| && i.handedOn[at].blob == blob && i.handedOn[at].index == blob.index
  {
    at :| at < |i.log| && i.log[at] == blob;
    assert OpensAt(i.log[at], i.handedOn[at].key, i.handedOn[at].index);
  }

  lemma OneOfTwo(p: Polling, limit: nat, x: Blob, y: Blob)
    requires InboxOk(p.inbox, limit) && OncePerSlot(p, 0) && x != y
    requires x.Sealed? && y.Sealed? && x.index == y.index && x in p.inbox.log
    ensures y !in p.inbox.log
  {
    if y in p.inbox.log {
      var a := LoggedIsDelivered(p.inbox, limit, x);
      var b := LoggedIsDelivered(p.inbox, limit, y);
    }
  }

  /**
    Of two frames queued at one index a receiver hands on at most one, over every run without late timeouts and
    stale copies; with either of them `SendSaveRepeatsSlot` and `RepeatsIff` show that both can be handed on.
   */
  lemma SharedIndexLosesOne(w: World, e: Setting, window: nat, steps: seq<WindowStep>, x: Blob, y: Blob)
    requires e.limit >= 1 && NeverLate(e) && AllCurrent(NewReceiver(w, window), e, steps)
    requires x != y && x.Sealed? && y.Sealed? && x.index == y.index
    ensures var log := ExecWindow(NewReceiver(w, window), e, steps).polling.inbox.log;
            x !in log || y !in log
  {
    var r := NewReceiver(w, window);
    RunKeepsReceiver(r, e, steps);
    CurrentRunKeepsOnce(r, e, steps, 0);
    if x in ExecWindow(r, e, steps).polling.inbox.log {
      OneOfTwo(ExecWindow(r, e, steps).polling, e.limit, x, y);
    }
  }
}
