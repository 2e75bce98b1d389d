/**
  Sender and receiver together: any interleaving of sends and reads over the same replicas, with other writers,
  losses and timeouts in between. Each side works from the copies of its state that are around, so a send may
  start from a stale index and a save may move the receiver's window back.
 */
module Conversation {
  import opened Wrappers
  import opened KeySchedule
  import opened Replicas
  import opened BlobClient
  import opened PutQuorum
  import opened SlotSend
  import opened SlotGuarantees
  import opened SlotReceive
  import opened ReceiveGuarantees
  import opened StoredCopies
  import opened StoredWindows
  import opened Pinning

  /** The sender's desk and the receiver; the replicas are those of the desk. */
  datatype Talk = Talk(desk: Desk, receiver: Receiver)

  datatype Turn = Sends(step: Step) | Receives(window: WindowStep)

  ghost predicate TurnOk(c: Config, replicas: nat, t: Turn) {
    t.Sends? && t.step.SendFrom? ==> JobOk(c, replicas, t.step.job)
  }

  ghost predicate TurnsOk(c: Config, replicas: nat, turns: seq<Turn>) {
    forall i :: 0 <= i < |turns| ==> TurnOk(c, replicas, turns[i])
  }

  /** The receiver as it finds the replicas now. */
  function Now(t: Talk): Receiver {
    t.receiver.(polling := t.receiver.polling.(world := t.desk.ledger.world))
  }

  function Next(c: Config, e: Setting, limit: nat, t: Talk, turn: Turn): (t': Talk)
    requires TurnOk(c, |t.desk.ledger.world.stores|, turn)
  {
    match turn
    case Sends(step) => t.(desk := Apply(c, t.desk, step, limit))
    case Receives(step) =>
      var r := ApplyWindow(Now(t), e, step);
      Talk(t.desk.(ledger := t.desk.ledger.(world := r.polling.world)), r)
  }

  // ---------- where handed-on blobs come from ----------

  ghost predicate Served(stores: seq<Store>, boxes: seq<nat>, d: Delivery) {
    exists box :: box in boxes && Holds(stores, box, d.key, d.blob)
  }

  /** Every blob handed on is still held by some configured box, under the key it was read with. */
  ghost predicate AllServed(p: Polling, boxes: seq<nat>) {
    forall k :: 0 <= k < |p.inbox.handedOn| ==> Served(p.world.stores, boxes, p.inbox.handedOn[k])
  }

  lemma ServedStays(stores: seq<Store>, stores': seq<Store>, boxes: seq<nat>, d: Delivery)
    requires Served(stores, boxes, d) && Grows(stores, stores')
    ensures Served(stores', boxes, d)
  {
    var box :| box in boxes && Holds(stores, box, d.key, d.blob);
    assert Holds(stores', box, d.key, d.blob);
  }

  lemma AllServedStays(p: Polling, w: World, boxes: seq<nat>)
    requires AllServed(p, boxes) && Grows(p.world.stores, w.stores)
    ensures AllServed(p.(world := w), boxes)
  {
    forall k | 0 <= k < |p.inbox.handedOn| ensures Served(w.stores, boxes, p.inbox.handedOn[k]) {
      ServedStays(p.world.stores, w.stores, boxes, p.inbox.handedOn[k]);
    }
  }

  lemma ReadServes(i: Inbox, boxes: seq<nat>, s: Slot, r: Read, w: World)
    requires ReadOk(i, boxes, s, r) && Grows(w.stores, r.world.stores)
    requires forall k :: 0 <= k < |i.handedOn| ==> Served(w.stores, boxes, i.handedOn[k])
    ensures forall k :: 0 <= k < |r.inbox.handedOn| ==> Served(r.world.stores, boxes, r.inbox.handedOn[k])
  {
    var h := r.inbox.handedOn;
    forall k | 0 <= k < |h| ensures Served(r.world.stores, boxes, h[k]) {
      if k < |i.handedOn| {
        assert h[k] == i.handedOn[k] by {
          if r.inbox != i {
            assert h[..|i.handedOn|][k] == h[k];
          }
        }
        ServedStays(w.stores, r.world.stores, boxes, h[k]);
      }
    }
  }

  lemma AfterReadServes(p: Polling, e: Setting, key: Keys, index: nat)
    requires PollingOk(p, e.limit) && e.limit >= 1 && AllServed(p, e.boxes)
    ensures AllServed(AfterRead(p, e, key, index), e.boxes)
  {
    var plan := e.plans(p.turn);
    var s := Slot(key, index, plan.process, e.limit);
    ReadHandsOnAtMostOne(p.world, p.inbox, s, e.boxes, plan.script, plan.late);
    ReadServes(p.inbox, e.boxes, s, PlannedRead(p, e, key, index), p.world);
  }

  lemma {:induction false} PollSlotServes(p: Polling, e: Setting, roots: seq<RootKeys>, index: nat)
    requires PollingOk(p, e.limit) && e.limit >= 1 && AllServed(p, e.boxes)
    ensures AllServed(PollSlot(p, e, roots, index), e.boxes)
    decreases |roots|
  {
    if roots != [] && roots[0](index).Some? {
      var key := roots[0](index).value;
      AfterReadServes(p, e, key, index);
      AfterReadProgress(p, e, key, index);
      if !PlannedRead(p, e, key, index).outcome.Got? {
        PollSlotServes(AfterRead(p, e, key, index), e, roots[1..], index);
      }
    }
  }

  lemma StepServes(r: Receiver, e: Setting, step: WindowStep)
    requires ReceiverOk(r, e.limit) && e.limit >= 1 && AllServed(r.polling, e.boxes)
    ensures AllServed(ApplyWindow(r, e, step).polling, e.boxes)
  {
    if ReadsSlot(r, step) {
      var p := r.polling.(consumer := r.copies[step.copy]);
      assert AllServed(p, e.boxes);
      PollSlotServes(p, e, step.roots, step.index);
    }
  }

  // ---------- every run ----------

  /** Wherever a frame was queued, what was handed on under its key is that frame's blob. */
  ghost predicate Faithful(queued: seq<Entry>, p: Polling) {
    forall q, k :: 0 <= q < |queued| && 0 <= k < |p.inbox.handedOn| && p.inbox.handedOn[k].key == queued[q].key ==>
      p.inbox.handedOn[k].blob == queued[q].blob
  }

  ghost predicate TalkOk(c: Config, e: Setting, t: Talk) {
    && DeskOk(c, t.desk) && (2 * c.quorum > |c.boxes| ==> Apart(t.desk.ledger.queued))
    && ReceiverOk(t.receiver, e.limit) && AllServed(t.receiver.polling, c.boxes)
    && Grows(t.receiver.polling.world.stores, t.desk.ledger.world.stores)
  }

  /** The receiver asks the boxes the sender writes to. */
  ghost predicate Suited(c: Config, e: Setting, replicas: nat) {
    c.Valid(replicas) && NoRepeats(c.boxes) && e.boxes == c.boxes && e.limit >= 1
  }

  /** A new peer: nothing sent, nothing received. */
  function NewTalk(w: World, window: nat): Talk {
    Talk(NewDesk(w), NewReceiver(w, window))
  }

  lemma NewTalkIsOk(c: Config, e: Setting, w: World, window: nat)
    requires Suited(c, e, |w.stores|)
    ensures TalkOk(c, e, NewTalk(w, window))
  {
    SelfGrows(w.stores);
  }

  lemma SendKeepsTalk(c: Config, e: Setting, limit: nat, t: Talk, step: Step)
    requires Suited(c, e, |t.desk.ledger.world.stores|) && TalkOk(c, e, t)
    requires TurnOk(c, |t.desk.ledger.world.stores|, Sends(step))
    ensures TalkOk(c, e, Next(c, e, limit, t, Sends(step)))
  {
    ApplyKeepsDesk(c, t.desk, step, limit);
    ApplyKeepsReceipts(c, t.desk, step, limit);
    GrowsTrans(t.receiver.polling.world.stores, t.desk.ledger.world.stores,
               Apply(c, t.desk, step, limit).ledger.world.stores);
  }

  lemma LedgerInLaterWorld(c: Config, l: Ledger, w: World)
    requires LedgerOk(c, l) && Grows(l.world.stores, w.stores)
    ensures LedgerOk(c, l.(world := w))
  {
    var l' := l.(world := w);
    forall i | 0 <= i < |l.passed| ensures l.passed[i].Some? && Occupied(w.stores, c.boxes, l.passed[i].value) {
      OccupiedGrows(l.world.stores, w.stores, c.boxes, l.passed[i].value);
    }
    forall k | 0 <= k < |l.queued| ensures KeptEntry(c, l', l.queued[k]) {
      KeptStays(c, l, l', l.queued[k]);
    }
  }

  lemma ReceiveKeepsTalk(c: Config, e: Setting, limit: nat, t: Talk, step: WindowStep)
    requires Suited(c, e, |t.desk.ledger.world.stores|) && TalkOk(c, e, t)
    ensures TalkOk(c, e, Next(c, e, limit, t, Receives(step)))
    ensures Grows(t.desk.ledger.world.stores, Next(c, e, limit, t, Receives(step)).desk.ledger.world.stores)
  {
    var r := ApplyWindow(Now(t), e, step);
    AllServedStays(t.receiver.polling, t.desk.ledger.world, c.boxes);
    StepKeepsReceiver(Now(t), e, step);
    StepServes(Now(t), e, step);
    LedgerInLaterWorld(c, t.desk.ledger, r.polling.world);
    SelfGrows(r.polling.world.stores);
  }

  lemma NextKeepsTalk(c: Config, e: Setting, limit: nat, t: Talk, turn: Turn)
    requires Suited(c, e, |t.desk.ledger.world.stores|) && TalkOk(c, e, t)
    requires TurnOk(c, |t.desk.ledger.world.stores|, turn)
    ensures TalkOk(c, e, Next(c, e, limit, t, turn))
    ensures |Next(c, e, limit, t, turn).desk.ledger.world.stores| == |t.desk.ledger.world.stores|
  {
    match turn
    case Sends(step) => SendKeepsTalk(c, e, limit, t, step);
    case Receives(step) => ReceiveKeepsTalk(c, e, limit, t, step);
  }

  ghost predicate Ready(c: Config, e: Setting, t: Talk, turns: seq<Turn>) {
    && Suited(c, e, |t.desk.ledger.world.stores|) && TalkOk(c, e, t)
    && TurnsOk(c, |t.desk.ledger.world.stores|, turns)
  }

  lemma StaysReady(c: Config, e: Setting, limit: nat, t: Talk, turns: seq<Turn>)
    requires Ready(c, e, t, turns) && turns != []
    ensures TurnOk(c, |t.desk.ledger.world.stores|, turns[0])
    ensures Ready(c, e, Next(c, e, limit, t, turns[0]), turns[1..])
  {
    assert TurnOk(c, |t.desk.ledger.world.stores|, turns[0]);
    NextKeepsTalk(c, e, limit, t, turns[0]);
  }

  ghost function Run(c: Config, e: Setting, limit: nat, t: Talk, turns: seq<Turn>): Talk
    requires Ready(c, e, t, turns)
    decreases |turns|
  {
    if turns == [] then t
    else
      StaysReady(c, e, limit, t, turns);
      Run(c, e, limit, Next(c, e, limit, t, turns[0]), turns[1..])
  }

  lemma {:induction false} RunKeepsTalk(c: Config, e: Setting, limit: nat, t: Talk, turns: seq<Turn>)
    requires Ready(c, e, t, turns)
    ensures TalkOk(c, e, Run(c, e, limit, t, turns))
    decreases |turns|
  {
    if turns != [] {
      StaysReady(c, e, limit, t, turns);
      RunKeepsTalk(c, e, limit, Next(c, e, limit, t, turns[0]), turns[1..]);
    }
  }

  // ---------- no stale copies on either side ----------

  /** No read or save of the run uses a copy that is not the one on disk. */
  ghost predicate WindowsCurrent(c: Config, e: Setting, limit: nat, t: Talk, turns: seq<Turn>)
    requires Ready(c, e, t, turns)
    decreases |turns|
  {
    if turns == [] then true
    else
      StaysReady(c, e, limit, t, turns);
      && (turns[0].Receives? ==> Current(t.receiver, turns[0].window))
      && WindowsCurrent(c, e, limit, Next(c, e, limit, t, turns[0]), turns[1..])
  }

  /** No send of the run starts behind the highest index reached. */
  ghost predicate SendsFromHighest(c: Config, e: Setting, limit: nat, t: Talk, turns: seq<Turn>)
    requires Ready(c, e, t, turns)
    decreases |turns|
  {
    if turns == [] then true
    else
      StaysReady(c, e, limit, t, turns);
      && (turns[0].Sends? ==> FromHighest(t.desk, turns[0].step))
      && SendsFromHighest(c, e, limit, Next(c, e, limit, t, turns[0]), turns[1..])
  }

  lemma {:induction false} CurrentWindowsOnce(c: Config, e: Setting, limit: nat, t: Talk, turns: seq<Turn>)
    requires Ready(c, e, t, turns) && NeverLate(e) && WindowsCurrent(c, e, limit, t, turns)
    requires OncePerSlot(t.receiver.polling, 0)
    ensures OncePerSlot(Run(c, e, limit, t, turns).receiver.polling, 0)
    decreases |turns|
  {
    if turns != [] {
      StaysReady(c, e, limit, t, turns);
      if turns[0].Receives? {
        assert ReceiverOk(Now(t), e.limit) && OncePerSlot(Now(t).polling, 0);
        CurrentStepKeepsOnce(Now(t), e, turns[0].window, 0);
      }
      CurrentWindowsOnce(c, e, limit, Next(c, e, limit, t, turns[0]), turns[1..]);
    }
  }

  lemma {:induction false} HighestSendsIncrease(c: Config, e: Setting, limit: nat, t: Talk, turns: seq<Turn>)
    requires Ready(c, e, t, turns) && SendsFromHighest(c, e, limit, t, turns) && Increasing(t.desk.ledger.queued)
    ensures Increasing(Run(c, e, limit, t, turns).desk.ledger.queued)
    decreases |turns|
  {
    if turns != [] {
      StaysReady(c, e, limit, t, turns);
      if turns[0].Sends? {
        ApplyKeepsReceipts(c, t.desk, turns[0].step, limit);
      }
      HighestSendsIncrease(c, e, limit, Next(c, e, limit, t, turns[0]), turns[1..]);
    }
  }

  // ---------- what arrives ----------

  lemma UnanimousIsFaithful(c: Config, e: Setting, t: Talk)
    requires TalkOk(c, e, t) && c.quorum == |c.boxes|
    ensures Faithful(t.desk.ledger.queued, t.receiver.polling)
  {
    var l, h := t.desk.ledger, t.receiver.polling.inbox.handedOn;
    forall q, k | 0 <= q < |l.queued| && 0 <= k < |h| && h[k].key == l.queued[q].key
      ensures h[k].blob == l.queued[q].blob
    {
      assert KeptEntry(c, l, l.queued[q]);
      ServedStays(t.receiver.polling.world.stores, l.world.stores, c.boxes, h[k]);
      var box :| box in c.boxes && Holds(l.world.stores, box, h[k].key, h[k].blob);
      UnanimousHolds(c.boxes, l.world.stores, h[k].key, l.queued[q].blob, box);
    }
  }

  /**
    Over every interleaving with a quorum of all replicas, whatever copies either side works from: no two
    receipts are for one slot under one key, and whatever is handed on from a slot with a receipt is exactly the
    frame that the receipt is for. Each slot is handed on at most once while no timeout is late and no read or
    save uses a stale copy; receipts stand in increasing slots while no send starts from one.
   */
  lemma QueuedFramesArriveOnceUnchanged(c: Config, e: Setting, limit: nat, w: World, window: nat, turns: seq<Turn>)
    requires Suited(c, e, |w.stores|) && TurnsOk(c, |w.stores|, turns)
    requires c.quorum == |c.boxes|
    ensures Ready(c, e, NewTalk(w, window), turns)
    ensures var t, t' := NewTalk(w, window), Run(c, e, limit, NewTalk(w, window), turns);
            && Faithful(t'.desk.ledger.queued, t'.receiver.polling) && Apart(t'.desk.ledger.queued)
            && (NeverLate(e) && WindowsCurrent(c, e, limit, t, turns) ==> OncePerSlot(t'.receiver.polling, 0))
            && (SendsFromHighest(c, e, limit, t, turns) ==> Increasing(t'.desk.ledger.queued))
  {
    var t := NewTalk(w, window);
    NewTalkIsOk(c, e, w, window);
    RunKeepsTalk(c, e, limit, t, turns);
    UnanimousIsFaithful(c, e, Run(c, e, limit, t, turns));
    if NeverLate(e) && WindowsCurrent(c, e, limit, t, turns) {
      CurrentWindowsOnce(c, e, limit, t, turns);
    }
    if SendsFromHighest(c, e, limit, t, turns) {
      HighestSendsIncrease(c, e, limit, t, turns);
    }
  }

  /**
    And while frames are outstanding the poller's next slot is one the sender left taken: whichever candidate root
    derives the key it was left under, some configured box that answers gives a blob there. What becomes of the
    blob, and so whether the window moves, is said in Pinning.
   */
  lemma PollerFindsABlob(c: Config, e: Setting, limit: nat, t: Talk, turns: seq<Turn>, w: World, roots: seq<RootKeys>,
                         j: nat)
    requires Ready(c, e, t, turns)
    requires var t' := Run(c, e, limit, t, turns);
             var base := t'.receiver.polling.consumer.recvBase;
             && base < |t'.desk.ledger.passed| && j < |roots| && roots[j](base) == t'.desk.ledger.passed[base]
             && Grows(t'.desk.ledger.world.stores, w.stores)
    ensures var base := Run(c, e, limit, t, turns).receiver.polling.consumer.recvBase;
            && roots[j](base).Some?
            && exists box :: box in c.boxes && AnswersWithBlob(w, box, roots[j](base).value)
  {
    RunKeepsTalk(c, e, limit, t, turns);
    var t' := Run(c, e, limit, t, turns);
    var base := t'.receiver.polling.consumer.recvBase;
    TakenSlotAnswers(t'.desk.ledger.world.stores, c.boxes, t'.desk.ledger.passed[base].value, w);
  }
}
